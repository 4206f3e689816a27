/** The app-wide UI flags (command menu, new-issue modal) and the global
    keyboard shortcuts that flip them. */
module UiContext {
  import opened Common

  /** The key event's relevant fields. */
  datatype KeyEvent = KeyEvent(key: string, metaKey: bool, ctrlKey: bool)

  /** The focused element: its tag name and its `contenteditable` attribute. */
  datatype Focus = Focus(tagName: Option<string>, contentEditable: Option<string>)

  /** Typing into a field: shortcuts are off. */
  predicate TypingInField(f: Focus) {
    f.tagName == Some("INPUT") || f.tagName == Some("TEXTAREA") || f.contentEditable == Some("true")
  }

  datatype Flags = Flags(commandMenuOpen: bool, newIssueModalOpen: bool)

  /** Meta or Ctrl with the key exactly "k". */
  predicate IsCommandK(e: KeyEvent) {
    (e.metaKey || e.ctrlKey) && e.key == "k"
  }

  /** "c" in either case, with or without modifiers. */
  predicate IsCreateKey(e: KeyEvent) {
    Lower(e.key) == "c"
  }

  /** The flags after one key press. */
  function KeyStep(flags: Flags, e: KeyEvent, focus: Focus): (r: Flags)
    ensures TypingInField(focus) ==> r == flags
    ensures !TypingInField(focus) && IsCommandK(e) ==> r == flags.(commandMenuOpen := !flags.commandMenuOpen)
    ensures !TypingInField(focus) && IsCreateKey(e) && !flags.commandMenuOpen ==> r == flags.(newIssueModalOpen := true)
    ensures !TypingInField(focus) && IsCreateKey(e) && flags.commandMenuOpen ==> r == flags
    ensures r.newIssueModalOpen == (flags.newIssueModalOpen || (!TypingInField(focus) && IsCreateKey(e) && !flags.commandMenuOpen))
    ensures !IsCommandK(e) && !IsCreateKey(e) ==> r == flags
  {
    if TypingInField(focus) then flags
    else
      assert IsCommandK(e) ==> !IsCreateKey(e) by {
        if IsCommandK(e) {
          assert Lower(e.key)[0] == 'k';
        }
      }
      var afterK := if IsCommandK(e) then flags.(commandMenuOpen := !flags.commandMenuOpen) else flags;
      if IsCreateKey(e) && !flags.commandMenuOpen then afterK.(newIssueModalOpen := true) else afterK
  }

  /** Two Command-K presses give back the original flags. */
  lemma CommandKTwice(flags: Flags, e: KeyEvent, focus: Focus)
    requires IsCommandK(e)
    ensures KeyStep(KeyStep(flags, e, focus), e, focus) == flags
  {
  }

  /** Ctrl+C opens the modal: there is no modifier check on "c". */
  lemma CtrlCOpensModal(flags: Flags, focus: Focus)
    requires !TypingInField(focus) && !flags.commandMenuOpen
    ensures KeyStep(flags, KeyEvent("c", false, true), focus).newIssueModalOpen
    ensures KeyStep(flags, KeyEvent("C", false, false), focus).newIssueModalOpen
  {
    assert Lower("C") == "c";
    assert Lower("c") == "c";
  }

  /** No key press ever closes the modal. */
  lemma ModalNeverClosedByKeys(flags: Flags, e: KeyEvent, focus: Focus)
    requires flags.newIssueModalOpen
    ensures KeyStep(flags, e, focus).newIssueModalOpen
  {
  }

  class UiState {
    var flags: Flags

    constructor()
      ensures flags == Flags(false, false)
    {
      flags := Flags(false, false);
    }

    /** `toggleCommandMenu` */
    method ToggleCommandMenu()
      modifies this
      ensures flags == old(flags).(commandMenuOpen := !old(flags).commandMenuOpen)
    {
      flags := flags.(commandMenuOpen := !flags.commandMenuOpen);
    }

    /** `openNewIssueModal`: idempotent. */
    method OpenNewIssueModal()
      modifies this
      ensures flags == old(flags).(newIssueModalOpen := true)
    {
      flags := flags.(newIssueModalOpen := true);
    }

    /** `setNewIssueModalOpen(open)` and `setCommandMenuOpen(open)` */
    method SetNewIssueModalOpen(open: bool)
      modifies this
      ensures flags == old(flags).(newIssueModalOpen := open)
    {
      flags := flags.(newIssueModalOpen := open);
    }

    method SetCommandMenuOpen(open: bool)
      modifies this
      ensures flags == old(flags).(commandMenuOpen := open)
    {
      flags := flags.(commandMenuOpen := open);
    }

    /** The global keydown handler. */
    method HandleKeyDown(e: KeyEvent, focus: Focus)
      modifies this
      ensures flags == KeyStep(old(flags), e, focus)
    {
      if TypingInField(focus) {
        return;
      }
      var wasOpen := flags.commandMenuOpen;
      if (e.metaKey || e.ctrlKey) && e.key == "k" {
        ToggleCommandMenu();
      }
      if Lower(e.key) == "c" && !wasOpen {
        OpenNewIssueModal();
      }
    }
  }
}
