# Linear Clone — a Dafny model of the client-side rules

Linear Clone is an issue tracker written in Next.js over a hosted Supabase
database and a hosted Gemini model. This project models its client-side rules
in Dafny and proves properties about them. Every backend call is replaced by a
parameter: the outcome of a write (`failed: bool` or an optional `DbError`),
or the rows a query returns. The model covers:

- the shared set of selected issues and the bulk-edit bar;
- the status normalisers and grouping of the board and list views;
- the project page filter;
- the status and priority icons;
- the optimistic single-field dropdowns (status, priority, assignee, labels)
  and their revert on failure;
- the drag-and-drop status change on the board;
- project selection and project deletion;
- the new-issue, new-project and issue-detail forms;
- the cached AI analysis popover;
- the global keyboard shortcuts;
- the markdown-fence cleanup of AI answers;
- the seeding script's `.env.local` reader and project seeding.

There is one module per source file. `Common` holds `Option`, the ASCII string
functions and sequence helpers. `Records` holds the row, payload, error and
`localStorage` types that several components share.

- **Classes for React state.** A component whose state changes is a class.
  Its fields are the `useState` variables, and its methods are the event
  handlers, with `modifies` and the complete new state in `ensures`.
- **Async handlers in two phases.** A handler whose busy flag is visible
  (`isUpdating`, `isSubmitting`, `isGenerating`, `isSaving`, `isAnalyzing`) is
  split in two. `Start…` runs up to the `await` and returns the request it
  sends. `Finish…` takes the outcome and runs the rest.
- **Other handlers.** Handlers without such a flag are one method that takes
  the outcome.
- **Pure rules.** Normalisers, payloads, filters and parsers are functions,
  with lemmas relating them.

## Model

| member | source | states |
|---|---|---|
| IssueSelection.Toggled | src/context/IssueSelectionContext.tsx:20-29 | with multiSelect the toggled id flips membership and every other id keeps it; without it the result is exactly {id} |
| IssueSelection.ToggleTwiceRestores | src/context/IssueSelectionContext.tsx:22-27 | two multi-select toggles of one id restore the original set |
| IssueSelection.SingleSelectNeverDeselects | src/context/IssueSelectionContext.tsx:22-27 | single-select toggling twice still leaves {id}: it never deselects |
| IssueSelection.Selected | src/context/IssueSelectionContext.tsx:32-34 | the id is selected and every other id is unchanged |
| IssueSelection.Deselected | src/context/IssueSelectionContext.tsx:36-42 | the id is not selected and every other id is unchanged |
| IssueSelection.SelectDeselectIdempotent | src/context/IssueSelectionContext.tsx:32-42 | select and deselect are idempotent; deselecting an absent id and selecting a present one change nothing |
| IssueSelection.SetOf | src/context/IssueSelectionContext.tsx:48-50 | `new Set(ids)` holds exactly the listed ids and is no larger than the list (duplicates collapse) |
| IssueSelection.SelectionProvider.constructor | src/context/IssueSelectionContext.tsx:18 | the selection starts empty |
| IssueSelection.SelectionProvider.IsSelectionMode | src/context/IssueSelectionContext.tsx:52 | selection mode holds iff some issue is selected |
| IssueSelection.SelectionProvider.ToggleSelection | src/context/IssueSelectionContext.tsx:20-29 | the new selection is `Toggled` of the old one |
| IssueSelection.SelectionProvider.SelectIssue | src/context/IssueSelectionContext.tsx:32-34 | the new selection is `Selected` of the old one |
| IssueSelection.SelectionProvider.DeselectIssue | src/context/IssueSelectionContext.tsx:36-42 | the new selection is `Deselected` of the old one |
| IssueSelection.SelectionProvider.ClearSelection | src/context/IssueSelectionContext.tsx:44-46 | the selection is empty and selection mode is off |
| IssueSelection.SelectionProvider.SelectAll | src/context/IssueSelectionContext.tsx:48-50 | the prior selection is replaced by the set of the given ids; selection mode holds iff the list is non-empty |
| BulkActions.Payload | src/components/BulkActionsMenu.tsx:91-103 | the payload has exactly the menu's one column (assignee_name, never assignee_id); the label menu writes the singleton list [value] |
| BulkActions.StatusMenuOmitsDuplicate | src/components/BulkActionsMenu.tsx:57-63 | the status menu offers five statuses and never Duplicate |
| BulkActions.MenuValues | src/components/BulkActionsMenu.tsx:52-76 | each menu offers distinct values; only the assignee menu offers null; every status offered keys as one of the board's columns |
| BulkActions.AlertFor | src/components/BulkActionsMenu.tsx:39-43 | the migration alert is chosen iff the error has code 42703 or its message contains `column "labels" does not exist`; the generic alert otherwise |
| BulkActions.NextMenu | src/components/BulkActionsMenu.tsx:161 | clicking the open menu's button closes it; any other button opens its menu |
| BulkActions.BulkActionsBar.constructor | src/components/BulkActionsMenu.tsx:12-15 | no menu is open and no update is running |
| BulkActions.BulkActionsBar.Badge | src/components/BulkActionsMenu.tsx:17-19 | nothing is rendered without a selection; otherwise the count is the selection's size |
| BulkActions.BulkActionsBar.ClickMenuButton | src/components/BulkActionsMenu.tsx:161-162 | while an update runs the (disabled) buttons change nothing; otherwise the open menu becomes `NextMenu` |
| BulkActions.BulkActionsBar.ClickMenuItem | src/components/BulkActionsMenu.tsx:90-104 | the request is the menu's payload for exactly the selected ids |
| BulkActions.BulkActionsBar.StartUpdate | src/components/BulkActionsMenu.tsx:21-35 | the update targets exactly the selected ids and the bar is busy |
| BulkActions.BulkActionsBar.FinishUpdate | src/components/BulkActionsMenu.tsx:37-49 | success clears the selection and closes the menu; an error keeps both and raises `AlertFor(error)`; the router is refreshed iff the write succeeded; the bar is no longer busy |
| BoardView.BoardNormalize | src/components/BoardView.tsx:115 | the board key is non-empty, has no upper-case letter and no surrounding whitespace; null, empty and blank statuses become "backlog"; the exact key of every status is `BoardNormalizeSpaced` |
| BoardView.Squashed | src/components/BoardView.tsx:115 | lower-casing, replacing the first '_' and first '-' and trimming leaves no upper-case letter and no surrounding whitespace; a blank status becomes ""; the exact result is `SquashedIsTrimOfSpaced` |
| BoardView.Spaced | src/components/BoardView.tsx:115 | the reference form of the two replaces: lower-cased, the first '_' and the first '-' each a space, length kept |
| BoardView.SquashedIsTrimOfSpaced | src/components/BoardView.tsx:115 | the replace chain and trim equal the trimmed reference form |
| BoardView.BoardNormalizeSpaced | src/components/BoardView.tsx:115 | a status's key is its trimmed reference form, or "backlog" when that is empty |
| BoardView.DashJoins | src/components/BoardView.tsx:115 | "a-b" of two clean words keys as "a b" lower-cased |
| BoardView.UnderscoreJoins | src/components/BoardView.tsx:115 | "a_b" of two clean words keys as "a b" lower-cased |
| BoardView.JoinedSpaced | src/components/BoardView.tsx:115 | when the one separator between a and b is the first '_' or first '-', the reference form is "a b" lower-cased |
| BoardView.JoinedKey | src/components/BoardView.tsx:115 | for clean words a and b whose reference form is "a b", the key is "a b" |
| BoardView.PaddingTrimmed | src/components/BoardView.tsx:115 | whitespace around a clean status is trimmed away and the key is the lower-cased status |
| BoardView.OrBacklog | src/components/BoardView.tsx:115 | the "or backlog" fallback: an empty key becomes "backlog", any other is kept |
| BoardView.NormalizedShape | src/components/BoardView.tsx:115 | the replaced and trimmed status has no upper-case letter, and is empty for a blank status |
| BoardView.NoUpperSteps | src/components/BoardView.tsx:115 | neither replacement nor the trim brings back an upper-case letter |
| BoardView.BlankSteps | src/components/BoardView.tsx:115 | a blank status stays blank through both replacements, so its trim is empty |
| BoardView.CleanSquashed | src/components/BoardView.tsx:115 | on a clean status the replacements and trim change nothing beyond lower-casing |
| BoardView.NormalizeClean | src/components/BoardView.tsx:115 | a clean status (no '_', '-', or surrounding space) normalises to its lower-case form |
| BoardView.IssuesByStatus | src/components/BoardView.tsx:117-120 | the result holds exactly the issues whose key equals the target's key |
| BoardView.ColumnIsIssuesByStatus | src/components/BoardView.tsx:122-135 | each rendered column is the in-order bucket of its key, so its count is its length |
| BoardView.DropTargetsClean | src/components/BoardView.tsx:132-135 | the four droppable column ids are clean and lower-case to their column keys |
| BoardView.DropTargetKey | src/components/BoardView.tsx:83-92 | a drop on column k writes a status whose key is column k's key |
| BoardView.ColumnsPartition | src/components/BoardView.tsx:122-169 | every issue with one of the six keys is in exactly that column; the column sizes add up to the number of such issues |
| BoardView.Bucket | src/components/BoardView.tsx:117-120 | a column holds exactly the issues whose key is the given key, never more issues than the input |
| BoardView.Columns | src/components/BoardView.tsx:122-135 | each of the six columns holds exactly the issues with its key |
| BoardView.UnknownStatusHidden | src/components/BoardView.tsx:122-169 | an issue whose key is none of the six keys appears in no column |
| BoardView.FindById | src/components/BoardView.tsx:85 | the result is the first issue with that id, or none when no issue has it |
| BoardView.WithStatus | src/components/BoardView.tsx:89-91 | only the status of issues with the dragged id changes; every other issue and field is unchanged |
| BoardView.DropLandsInColumn | src/components/BoardView.tsx:83-92 | after a drop on column k the dragged issue is in column k |
| BoardView.DropKeepsOthers | src/components/BoardView.tsx:89-91 | after a drop every other issue stays in its column |
| BoardView.Board.constructor | src/components/BoardView.tsx:48-50 | local issues start as the props; no drag is active |
| BoardView.Board.SyncFromProps | src/components/BoardView.tsx:48-50 | new issues from the props replace the local list wholesale |
| BoardView.Board.DragStart | src/components/BoardView.tsx:68-71 | the active id and issue are recorded; the issues are unchanged |
| BoardView.Board.DragEnd | src/components/BoardView.tsx:73-112 | a write happens iff there is a target, the issue exists and its raw status differs exactly; the write sets only the status; failure restores the pre-drop list; the router is refreshed iff a write was made and succeeded; the active drag is always cleared |
| ListView.ListNormalize | src/components/ListView.tsx:11 | the list key is non-empty and has no upper-case letter; null or empty becomes "backlog"; otherwise each character is lower-cased except the first '_', which becomes a space (length kept, no trim) |
| ListView.ListBucket | src/components/ListView.tsx:13-18 | a group holds exactly the issues with its key; a null list gives an empty group |
| ListView.Group | src/components/ListView.tsx:13-18 | a null issue list yields six empty groups |
| ListView.BucketsDisjoint | src/components/ListView.tsx:13-18 | two different keys never share an issue |
| ListView.BucketKeepsOrder | src/components/ListView.tsx:13-18 | the group of a concatenation is the concatenation of the groups (input order kept) |
| ListView.GroupsPartition | src/components/ListView.tsx:13-18 | every issue with a known key is in exactly its group; group sizes add up to the number of such issues |
| ListView.UnknownStatusUngrouped | src/components/ListView.tsx:13-18 | an issue whose key is not one of the six is in no group |
| ListView.DashedStatusUngrouped | src/components/ListView.tsx:11 | a status containing '-' keeps it, so the issue is in no group |
| ListView.PaddedStatusUngrouped | src/components/ListView.tsx:11 | a status with leading whitespace is not trimmed, so the issue is in no group |
| ListView.NormalizersAgreeOnClean | src/components/ListView.tsx:11 | on a clean status the list and board normalisers agree |
| ListView.Layout | src/components/ListView.tsx:20-72 | In Progress, Todo, Backlog and Done always render in that order; the hidden section renders iff canceled or duplicate is non-empty, with their summed count, and each subgroup only when non-empty, Canceled first |
| ProjectViews.EffectiveStatus | src/components/ProjectViews.tsx:34 | a missing or empty status counts as "Backlog" |
| ProjectViews.FilteredIssues | src/components/ProjectViews.tsx:32-44 | the result holds exactly the input issues the filter keeps |
| ProjectViews.AllKeepsEverything | src/components/ProjectViews.tsx:42-43 | 'all' keeps every issue in order |
| ProjectViews.ActiveIsCaseSensitive | src/components/ProjectViews.tsx:36-38 | 'active' keeps exactly the statuses "Todo" and "In Progress"; "todo" is excluded |
| ProjectViews.BacklogIncludesMissing | src/components/ProjectViews.tsx:39-41 | 'backlog' keeps exactly "Backlog" and missing or empty statuses |
| ProjectViews.FilterKeepsOrder | src/components/ProjectViews.tsx:32-44 | the filter of a concatenation is the concatenation of the filters (order kept) |
| ProjectViews.HeaderTitle | src/components/ProjectViews.tsx:52 | the heading is "All Issues", "Active Issues" or "Backlog Issues" for the three filters, each iff its filter |
| ProjectViews.LayoutFor | src/components/ProjectViews.tsx:70 | the list is shown iff the mode is "list" |
| ProjectViews.RestoredMode | src/components/ProjectViews.tsx:20-23 | a non-empty saved mode replaces the current one; otherwise the current mode stays |
| ProjectViews.PersistedModeRestored | src/components/ProjectViews.tsx:20-28 | a persisted mode is the one restored on the next mount |
| ProjectViews.ProjectViewsPage.constructor | src/components/ProjectViews.tsx:18 | the mode starts as "list" |
| ProjectViews.ProjectViewsPage.Mount | src/components/ProjectViews.tsx:20-23 | the mode becomes `RestoredMode` of the stored items |
| ProjectViews.ProjectViewsPage.HandleViewChange | src/components/ProjectViews.tsx:25-28 | the mode is set and stored under the view-mode key |
| StatusIcon.IconKey | src/components/StatusIcon.tsx:10 | the key is the lower-cased status, or "backlog" for null or empty |
| StatusIcon.GlyphFor | src/components/StatusIcon.tsx:12-40 | done, in progress and todo each have their own glyph; canceled and duplicate share one; every other key gets the backlog glyph, each iff its key |
| StatusIcon.StatusColor | src/components/StatusIcon.tsx:43-50 | done, in progress and todo have distinct colours; every other key shares the fallback colour |
| StatusIcon.GlyphIgnoresCase | src/components/StatusIcon.tsx:10-44 | glyph and colour ignore ASCII letter case |
| StatusIcon.MissingStatusIsBacklog | src/components/StatusIcon.tsx:10-44 | null and empty statuses get the backlog glyph and the fallback colour |
| StatusIcon.UnderscoreIsBacklog | src/components/StatusIcon.tsx:10-21 | "in_progress" gets the backlog glyph (no '_' handling) |
| PriorityIcon.PriorityKey | src/components/PriorityIcon.tsx:12 | the key is the lower-cased priority, or "none" for null or empty |
| PriorityIcon.OwnEntry | src/components/PriorityIcon.tsx:4-10 | the table has exactly the five keys urgent, high, medium, low, none |
| PriorityIcon.IconMapGet | src/components/PriorityIcon.tsx:4-12 | bracket lookup finds the own entries, and also the inherited names `constructor` and `__proto__` |
| PriorityIcon.PriorityIconAsWritten | src/components/PriorityIcon.tsx:12 | as written the lookup is never undefined, and yields an inherited member exactly for the inherited names |
| PriorityIcon.ConstructorIsNotAGlyph | src/components/PriorityIcon.tsx:12 | the priority "Constructor" yields the inherited `Object` constructor, not a glyph |
| PriorityIcon.GlyphFor | src/components/PriorityIcon.tsx:12 | corrected lookup: an own entry's glyph, else the no-priority glyph (total) |
| PriorityIcon.FiveKeys | src/components/PriorityIcon.tsx:4-12 | each of the five keys, and only it, maps to its glyph; a missing priority gets the no-priority glyph |
| PriorityIcon.GlyphIgnoresCase | src/components/PriorityIcon.tsx:12 | "Urgent", "URGENT" and "urgent" get the same glyph |
| PriorityIcon.AsWrittenAgrees | src/components/PriorityIcon.tsx:12 | away from the inherited names the as-written lookup equals the corrected one |
| LabelDropdown.StyleOf | src/components/LabelDropdown.tsx:15-19 | a style is found iff the label is Bug, Feature or Improvement, and it is that label's entry |
| LabelDropdown.LabelsOrEmpty | src/components/LabelDropdown.tsx:23-29 | a null label list is the empty list |
| LabelDropdown.ToggledLabels | src/components/LabelDropdown.tsx:43-48 | the toggled label's membership flips and every other label's is kept; an absent label is appended at the end; a present one loses every occurrence |
| LabelDropdown.FilterShrinks | src/components/LabelDropdown.tsx:44-45 | removing a present label makes the list strictly shorter |
| LabelDropdown.RemovalKeepsOthers | src/components/LabelDropdown.tsx:44-45 | removing a label keeps the count of every other label |
| LabelDropdown.RemovalKeepsOrder | src/components/LabelDropdown.tsx:44-45 | removing a label that occurs once leaves the labels before and after it in their order |
| LabelDropdown.ToggleAbsentTwice | src/components/LabelDropdown.tsx:44-47 | toggling an absent label twice restores the list |
| LabelDropdown.DuplicateNotRestored | src/components/LabelDropdown.tsx:44-47 | for ["Bug","Bug"] two toggles give ["Bug"], not the original |
| LabelDropdown.Dots | src/components/LabelDropdown.tsx:94-100 | one dot per known label, in order, with that label's colour |
| LabelDropdown.UnknownLabelNoDot | src/components/LabelDropdown.tsx:95-96 | an unknown label draws no dot |
| LabelDropdown.TriggerContent | src/components/LabelDropdown.tsx:92-104 | the tag icon is shown iff not compact or no labels; otherwise the dot row |
| LabelDropdown.UnknownOnlyDrawsNothing | src/components/LabelDropdown.tsx:92-100 | compact mode with only unknown labels draws an empty dot row, not the tag icon |
| LabelDropdown.MenuChecks | src/components/LabelDropdown.tsx:112-113 | each menu entry is checked iff its label is in the list |
| LabelDropdown.ClickFlipsOneCheck | src/components/LabelDropdown.tsx:113-117 | clicking an entry flips its check and no other |
| LabelDropdown.ChipColor | src/components/LabelDropdown.tsx:76 | a known label's chip has its style colour; any other has the grey fallback |
| LabelDropdown.LabelDropdownState.constructor | src/components/LabelDropdown.tsx:22-23 | labels start as the props (null as empty) and the menu is closed |
| LabelDropdown.LabelDropdownState.SyncFromProps | src/components/LabelDropdown.tsx:27-29 | new props replace the labels |
| LabelDropdown.LabelDropdownState.ClickTrigger | src/components/LabelDropdown.tsx:88 | the menu's open state flips |
| LabelDropdown.LabelDropdownState.ToggleLabel | src/components/LabelDropdown.tsx:41-68 | the write is the toggled list; on error the labels revert to the pre-toggle copy; the migration alert fires iff the error is the missing-column one; the router is refreshed iff the write succeeded; the menu stays open |
| StatusDropdown.FindByShortcut | src/components/StatusDropdown.tsx:87 | the first option with that shortcut, found iff one exists |
| StatusDropdown.FindOwnShortcut | src/components/StatusDropdown.tsx:87 | an option whose shortcut no earlier option has is found by it |
| StatusDropdown.ShortcutDigits | src/components/StatusDropdown.tsx:14-21 | the six shortcuts are the digits 1 to 6 in order |
| StatusDropdown.ShortcutChooses | src/components/StatusDropdown.tsx:14-89 | while open, key k+1 chooses the k-th status: Backlog, Todo, In Progress, Done, Canceled, Duplicate |
| StatusDropdown.OtherKeysChooseNothing | src/components/StatusDropdown.tsx:84-89 | any key other than 1 to 6 chooses nothing |
| StatusDropdown.KeyDown | src/components/StatusDropdown.tsx:80-95 | keys are ignored while closed; a shortcut chooses its status; Escape closes; anything else is ignored |
| StatusDropdown.Checks | src/components/StatusDropdown.tsx:126 | the check mark is on exactly the entries equal to the status |
| StatusDropdown.StatusDropdownState.constructor | src/components/StatusDropdown.tsx:24-26 | the status starts as the prop; closed and idle |
| StatusDropdown.StatusDropdownState.SyncFromProps | src/components/StatusDropdown.tsx:31-33 | a changed prop overwrites the local status |
| StatusDropdown.StatusDropdownState.ClickTrigger | src/components/StatusDropdown.tsx:100 | the menu's open state flips |
| StatusDropdown.StatusDropdownState.StartUpdate | src/components/StatusDropdown.tsx:50-67 | the current status only closes the menu; another one is set at once, the callback is told the new status and the write starts (busy) |
| StatusDropdown.StatusDropdownState.FinishUpdate | src/components/StatusDropdown.tsx:69-77 | failure restores the old status and tells the callback; success refreshes; busy is cleared either way |
| StatusDropdown.StatusDropdownState.PressKey | src/components/StatusDropdown.tsx:80-95 | the key's `KeyDown` action is carried out: nothing, close, or `StartUpdate` of the chosen status; the current status only closes the menu, busy unchanged; a new one is shown, announced, marked busy and written as exactly `{status: v}` with the old status kept for the revert |
| StatusDropdown.FailedChangeRestores | src/components/StatusDropdown.tsx:50-78 | a failed change ends with the old status, idle and closed, the callback told the new status and then the old one |
| PriorityDropdown.OfferedValues | src/components/PriorityDropdown.tsx:15-21 | the values offered are the table's values in order |
| PriorityDropdown.PriorityTable | src/components/PriorityDropdown.tsx:15-21 | the values are Urgent, High, Medium, Low, None; "No Priority" stores "None" |
| PriorityDropdown.Checks | src/components/PriorityDropdown.tsx:97 | the check mark is on exactly the entries equal to the priority |
| PriorityDropdown.TriggerTitle | src/components/PriorityDropdown.tsx:77 | the title is "Priority: " followed by the priority |
| PriorityDropdown.PriorityDropdownState.constructor | src/components/PriorityDropdown.tsx:24-25 | the priority starts as the prop and the menu is closed |
| PriorityDropdown.PriorityDropdownState.SyncFromProps | src/components/PriorityDropdown.tsx:29-31 | a changed prop overwrites the local priority |
| PriorityDropdown.PriorityDropdownState.ClickTrigger | src/components/PriorityDropdown.tsx:75 | the menu's open state flips |
| PriorityDropdown.PriorityDropdownState.UpdatePriority | src/components/PriorityDropdown.tsx:43-70 | the current priority only closes the menu; another one is written and kept, or reverted to the old value on failure |
| AssigneeDropdown.Heads | src/components/AssigneeDropdown.tsx:99 | the first characters of the words, no more than there are words |
| AssigneeDropdown.Initials | src/components/AssigneeDropdown.tsx:99 | at most two characters |
| AssigneeDropdown.HeadsOfNonEmptyWords | src/components/AssigneeDropdown.tsx:99 | empty pieces contribute nothing; the k-th character is the head of the k-th non-empty word |
| AssigneeDropdown.InitialsOfWords | src/components/AssigneeDropdown.tsx:99 | the initials are the upper-cased heads of the first two non-empty words |
| AssigneeDropdown.InitialsEmptyIff | src/components/AssigneeDropdown.tsx:99 | the initials are empty iff the name is only spaces |
| AssigneeDropdown.HeadsEmptyIff | src/components/AssigneeDropdown.tsx:99 | the word heads are empty iff the name is only spaces |
| AssigneeDropdown.SplitOneWord | src/components/AssigneeDropdown.tsx:99 | a name without a space splits into itself |
| AssigneeDropdown.InitialsOfTwoWords | src/components/AssigneeDropdown.tsx:99 | "x y" gives the upper-cased first letters of x and y |
| AssigneeDropdown.InitialsExample | src/components/AssigneeDropdown.tsx:99 | "Arnav Joshi" gives "AJ" |
| AssigneeDropdown.MembersOf | src/components/AssigneeDropdown.tsx:51 | the members are exactly the non-null joined users |
| AssigneeDropdown.MembersOfAppend | src/components/AssigneeDropdown.tsx:51 | member mapping keeps order (it distributes over concatenation) |
| AssigneeDropdown.EmptyNote | src/components/AssigneeDropdown.tsx:145-147 | the empty list says "Loading members..." with a project and "No project context" without |
| AssigneeDropdown.TriggerTitle | src/components/AssigneeDropdown.tsx:110 | the title is the assignee, or "Unassigned" |
| AssigneeDropdown.AssigneeRow | src/components/AssigneeDropdown.tsx:84-87 | the write carries both assignee_name and assignee_id |
| AssigneeDropdown.AssigneeDropdownState.constructor | src/components/AssigneeDropdown.tsx:23-25 | the assignee starts as the prop; closed, no members |
| AssigneeDropdown.AssigneeDropdownState.SyncFromProps | src/components/AssigneeDropdown.tsx:29-31 | a changed prop overwrites the local assignee |
| AssigneeDropdown.AssigneeDropdownState.ClickTrigger | src/components/AssigneeDropdown.tsx:33-35 | the menu flips; members are fetched iff it is now open and there is a project |
| AssigneeDropdown.AssigneeDropdownState.FinishFetch | src/components/AssigneeDropdown.tsx:50-55 | returned data replaces the members with `MembersOf(data)`; no data keeps them |
| AssigneeDropdown.AssigneeDropdownState.UpdateAssignee | src/components/AssigneeDropdown.tsx:71-96 | an equal name only closes the menu (even for a different id); otherwise name and id are written and the name kept, or reverted on failure |
| AssigneeDropdown.AssigneeDropdownState.ChooseUnassigned | src/components/AssigneeDropdown.tsx:133 | "Unassigned" writes null name and id, unless already unassigned; the menu closes and the members are kept; after a write the name is cleared on success (with a refresh) and restored on failure (no refresh) |
| AssigneeDropdown.AssigneeDropdownState.ChooseMember | src/components/AssigneeDropdown.tsx:154 | a member writes that member's name and id, unless the name is already the assignee; the menu closes and the members are kept; after a write the name is the member's on success (with a refresh) and restored on failure (no refresh) |
| ProjectSelector.NameLeTotal | src/components/ProjectSelector.tsx:44 | the name order is total |
| ProjectSelector.NameLeTrans | src/components/ProjectSelector.tsx:44 | the name order is transitive |
| ProjectSelector.NameLeRefl | src/components/ProjectSelector.tsx:44 | the name order is reflexive |
| ProjectSelector.SortedPairwise | src/components/ProjectSelector.tsx:41-44 | in a sorted list every earlier name is ordered before every later one |
| ProjectSelector.Insert | src/components/ProjectSelector.tsx:41-44 | inserting into a sorted list keeps it sorted and adds exactly the element |
| ProjectSelector.SortByName | src/components/ProjectSelector.tsx:41-44 | the result is sorted by name and a permutation of the input |
| ProjectSelector.SortedEverywhere | src/components/ProjectSelector.tsx:41-44 | every pair of positions in the sorted list is in name order |
| ProjectSelector.FindById | src/components/ProjectSelector.tsx:52-53 | the first listed project with that id, found iff one exists |
| ProjectSelector.InitialProject | src/components/ProjectSelector.tsx:49-56 | the URL project if listed, else the saved one if listed, else the first; always a member of the list |
| ProjectSelector.InitialIsListed | src/components/ProjectSelector.tsx:41-56 | the initial choice from the sorted list is one of the fetched projects |
| ProjectSelector.AvatarLetter | src/components/ProjectSelector.tsx:77 | the first letter of the selected name, or "L" |
| ProjectSelector.DisplayName | src/components/ProjectSelector.tsx:80 | the selected name, or "Linear Clone" |
| ProjectSelector.ProjectSelectorState.constructor | src/components/ProjectSelector.tsx:16-18 | no projects, no selection, closed |
| ProjectSelector.ProjectSelectorState.LoadProjects | src/components/ProjectSelector.tsx:24-57 | without a user or with no rows nothing changes; otherwise the list is the sorted rows and the selection is `InitialProject`, a fetched project |
| ProjectSelector.ProjectSelectorState.ClickButton | src/components/ProjectSelector.tsx:73 | the menu's open state flips |
| ProjectSelector.ProjectSelectorState.HandleProjectChange | src/components/ProjectSelector.tsx:62-68 | the project is selected, the menu closed, its id stored and "/?project=" + id navigated to |
| ProjectSelector.ChoiceIsRestored | src/components/ProjectSelector.tsx:49-67 | with no URL project, a stored choice is the one selected on the next load |
| ProjectsList.IssueCount | src/components/ProjectsList.tsx:108 | the first count entry, or 0 |
| ProjectsList.CardTitle | src/components/ProjectsList.tsx:103 | the name, or "Untitled Project" |
| ProjectsList.CardDescription | src/components/ProjectsList.tsx:104 | the description, or "No description" |
| ProjectsList.ConfirmText | src/components/ProjectsList.tsx:35 | the confirmation names the project |
| Common.ContainsAt | src/components/ProjectsList.tsx:35 | a text holding the name at some offset contains it |
| Common.ContainsNoLonger | src/components/BulkActionsMenu.tsx:39 | `includes` never finds a text longer than the message |
| Common.BlankIsTrimEmpty | src/components/NewIssueModal.tsx:86 | `!s.trim()` holds exactly when every character is whitespace |
| ProjectsList.Removed | src/components/ProjectsList.tsx:56 | exactly the projects with another id remain |
| ProjectsList.RemovedKeepsOrder | src/components/ProjectsList.tsx:56 | removal distributes over concatenation, so the others keep their order |
| ProjectsList.RemovedAbsent | src/components/ProjectsList.tsx:56 | removing an absent id changes nothing |
| ProjectsList.ProjectsListState.constructor | src/components/ProjectsList.tsx:23-24 | the list starts as the initial projects; modal closed |
| ProjectsList.ProjectsListState.HandleDelete | src/components/ProjectsList.tsx:33-61 | declined: nothing; issues are deleted before the project; an issue failure stops with its alert; a project failure keeps the list with its alert; success removes exactly that project |
| ProjectsList.ProjectsListState.OpenModal | src/components/ProjectsList.tsx:71 | the modal opens and the list is unchanged |
| NewIssueModal.DefaultProjectId | src/components/NewIssueModal.tsx:51-54 | the saved id if it is a fetched project, else the first project's id, else null; always a listed id |
| NewIssueModal.AfterAi | src/components/NewIssueModal.tsx:91-96 | a null answer changes nothing; otherwise only the truthy fields of the answer overwrite description, priority and status |
| NewIssueModal.EmptyAnswerChangesNothing | src/components/NewIssueModal.tsx:91-96 | an answer with no truthy field leaves the form as it was |
| NewIssueModal.InsertRow | src/components/NewIssueModal.tsx:124-136 | title, status, priority, team and project as in the form; an empty description is stored as null |
| NewIssueModal.NewIssueForm.constructor | src/components/NewIssueModal.tsx:20-31 | the blank form (status Todo, priority None), no team, AI off, idle |
| NewIssueModal.NewIssueForm.LoadOnOpen | src/components/NewIssueModal.tsx:42-55 | the first team is kept when there is one; fetched projects replace the list and the project becomes `DefaultProjectId` |
| NewIssueModal.NewIssueForm.ResetAfterClose | src/components/NewIssueModal.tsx:67-74 | title, description, status Todo, priority None, no project, AI off; the team is not reset |
| NewIssueModal.NewIssueForm.ToggleAi | src/components/NewIssueModal.tsx:174 | the AI switch flips and the form is unchanged |
| NewIssueModal.NewIssueForm.StartAiGenerate | src/components/NewIssueModal.tsx:85-89 | refused when the title is blank or a generation runs; otherwise the title is sent and the form is busy |
| NewIssueModal.NewIssueForm.FinishAiGenerate | src/components/NewIssueModal.tsx:91-97 | the fields become `AfterAi` of the answer and generation ends |
| NewIssueModal.NewIssueForm.TitleBlur | src/components/NewIssueModal.tsx:101-105 | generation is requested iff AI is on, the title is not blank, the description is blank and no generation runs |
| NewIssueModal.NewIssueForm.SubmitDisabled | src/components/NewIssueModal.tsx:294 | the button is disabled iff the title is blank or a submit runs |
| NewIssueModal.NewIssueForm.StartSubmit | src/components/NewIssueModal.tsx:119-136 | nothing without a non-blank title and a team; otherwise the insert is `InsertRow` and the form is busy |
| NewIssueModal.NewIssueForm.FinishSubmit | src/components/NewIssueModal.tsx:138-149 | success closes and refreshes the router; failure alerts "Failed to create issue", stays open and does not refresh; busy is cleared on both |
| NewProjectModal.FirstTeam | src/components/NewProjectModal.tsx:45-50 | the first team's id when it is truthy, else none |
| NewProjectModal.InsertRow | src/components/NewProjectModal.tsx:52-57 | the typed name, description or null, the team id and status "active" |
| NewProjectModal.AfterInsert | src/components/NewProjectModal.tsx:59-66 | failure alerts only; success raises no alert and ends with close then refresh, preceded by the callback iff one is given |
| NewProjectModal.NewProjectForm.constructor | src/components/NewProjectModal.tsx:15-17 | empty name and description, idle |
| NewProjectModal.NewProjectForm.ResetAfterClose | src/components/NewProjectModal.tsx:29-35 | name and description are cleared |
| NewProjectModal.NewProjectForm.SubmitDisabled | src/components/NewProjectModal.tsx:130 | the button is disabled iff the name is blank or a submit runs |
| NewProjectModal.NewProjectForm.StartSubmit | src/components/NewProjectModal.tsx:39-42 | submitting starts iff the name is not blank; the typed name and description are captured for the insert |
| NewProjectModal.NewProjectForm.ContinueWithTeams | src/components/NewProjectModal.tsx:45-71 | with no team the insert is skipped and busy is cleared; otherwise the insert is `InsertRow` of the fields captured at the start, not the live form |
| NewProjectModal.NewProjectForm.FinishInsert | src/components/NewProjectModal.tsx:59-71 | the effects are `AfterInsert` and busy is cleared |
| NewProjectModal.CancelDuringLookup | src/components/NewProjectModal.tsx:29-35 | cancelling during the team lookup empties the form, but the insert still carries the name and description typed before the submit |
| IssueDetailModal.ShownDescription | src/components/IssueDetailModal.tsx:22-39 | a null description is shown as "" |
| IssueDetailModal.SaveRow | src/components/IssueDetailModal.tsx:60 | title and description are written together |
| IssueDetailModal.DetailIdentifier | src/components/IssueDetailModal.tsx:90 | "LIN-" and the first three id characters upper-cased |
| IssueDetailModal.IssueDetailState.constructor | src/components/IssueDetailModal.tsx:21-23 | the fields start from the issue and need no save |
| IssueDetailModal.IssueDetailState.SyncFromIssue | src/components/IssueDetailModal.tsx:37-40 | a new issue resets both fields |
| IssueDetailModal.IssueDetailState.EditTitle | src/components/IssueDetailModal.tsx:113 | only the title changes |
| IssueDetailModal.IssueDetailState.EditDescription | src/components/IssueDetailModal.tsx:121 | only the description changes |
| IssueDetailModal.IssueDetailState.StartSave | src/components/IssueDetailModal.tsx:53-61 | no write when title and shown description are unchanged; otherwise both are written and the modal is busy |
| IssueDetailModal.IssueDetailState.FinishSave | src/components/IssueDetailModal.tsx:63-68 | refresh only on success; busy cleared on both |
| IssueDetailModal.NullDescriptionNotRewritten | src/components/IssueDetailModal.tsx:22-54 | an untouched null description does not trigger a save |
| AnalysisPopover.Click | src/components/IssueCard.tsx:16-24 | a held analysis only toggles the popover; otherwise the popover opens waiting and a request is made |
| AnalysisPopover.Finish | src/components/IssueCard.tsx:25-27 | the result is stored (even null) and waiting ends |
| AnalysisPopover.CachedClicksToggle | src/components/IssueCard.tsx:18-21 | with a held analysis two clicks make no request and restore the state |
| AnalysisPopover.FailureIsRetried | src/components/IssueCard.tsx:18-26 | after a null result the next click requests again |
| AnalysisPopover.SuccessIsCached | src/components/IssueListItem.tsx:18-26 | after a result, clicks make no request |
| AnalysisPopover.ContentOf | src/components/IssueCard.tsx:73-119 | hidden, waiting, the result, or the failure text, by the popover state |
| AnalysisPopover.Popover.constructor | src/components/IssueCard.tsx:11-13 | nothing held, hidden, idle |
| AnalysisPopover.Popover.ClickAnalyze | src/components/IssueListItem.tsx:16-24 | the state and request are `Click` of the old state |
| AnalysisPopover.Popover.FinishAnalyze | src/components/IssueListItem.tsx:25-27 | the state is `Finish` of the old state |
| AnalysisPopover.Popover.Close | src/components/IssueCard.tsx:79 | the popover hides; everything else stays |
| IssueCard.PriorityGlyph | src/components/IssueCard.tsx:30-37 | High, Medium and Low each have their own glyph, each iff that exact value; everything else gets the dashed box |
| IssueCard.UrgentLooksLikeNone | src/components/IssueCard.tsx:30-37 | "Urgent", a missing priority and "high" all get the dashed box |
| IssueCard.CardIdentifier | src/components/IssueCard.tsx:56 | "LIN-" and the first four id characters upper-cased |
| IssueCard.ShowsAvatar | src/components/IssueCard.tsx:62 | the avatar shows iff the assignee id is truthy |
| IssueCard.ComplexityDots | src/components/IssueCard.tsx:98-100 | of five dots, dot v is filled iff v is at most the complexity |
| IssueCard.CountTrue | src/components/IssueCard.tsx:98-100 | the count of filled dots is at most their number |
| IssueCard.FilledDots | src/components/IssueCard.tsx:98-100 | the number of filled dots is the complexity clamped to 0..5 |
| IssueCard.CountPrefix | src/components/IssueCard.tsx:98-100 | a row filled exactly below k has k filled dots |
| IssueCard.ShowsBlockers | src/components/IssueCard.tsx:104 | blockers are listed iff there is a non-empty list |
| IssueListItem.StatusGlyph | src/components/IssueListItem.tsx:30-36 | done, in progress and todo (any case) have their own glyphs; everything else the backlog glyph |
| IssueListItem.StatusGlyphIgnoresCase | src/components/IssueListItem.tsx:31 | the glyph ignores ASCII letter case |
| IssueListItem.StatusColor | src/components/IssueListItem.tsx:30-36 | each glyph has its own colour and no two glyphs share one |
| IssueListItem.ClosedStatusesDifferFromIcon | src/components/IssueListItem.tsx:30-36 | canceled and duplicate get the backlog glyph here but the closed glyph in the shared icon |
| IssueListItem.PriorityGlyph | src/components/IssueListItem.tsx:39-56 | Urgent, High, Medium and Low exactly each have their own glyph; everything else the dashed square |
| IssueListItem.PriorityIsCaseSensitive | src/components/IssueListItem.tsx:39-56 | "urgent", "None" and a missing priority all get the dashed square |
| IssueListItem.RowIdentifier | src/components/IssueListItem.tsx:64 | "LIN-" and the first three id characters upper-cased |
| Records.Identifier | src/components/IssueCard.tsx:56 | the identifier starts with "LIN-" followed by the upper-cased first n id characters |
| Records.NullableText | src/components/AssigneeDropdown.tsx:84-87 | a missing string is stored as null, any other as itself |
| Records.TextOrNull | src/components/NewIssueModal.tsx:126 | `field \|\| null`: the empty string is stored as null, any other as itself |
| Records.MissingLabelsColumnCases | src/components/BulkActionsMenu.tsx:39 | code 42703 is recognised whatever the message; the column message is recognised anywhere inside a message; another code with no message, or one too short to hold the column text, is not |
| Records.EscapeCloses | src/components/IssueDetailModal.tsx:43-47 | a closed modal ignores keys; an open one closes on Escape and only on Escape |
| Records.LocalStorage.constructor | src/components/ProjectSelector.tsx:50 | storage starts with the given items |
| Records.LocalStorage.GetItem | src/components/ProjectSelector.tsx:50 | a stored key gives its value; a missing key gives null |
| Records.LocalStorage.SetItem | src/components/ProjectSelector.tsx:65 | the key is set and every other key is unchanged |
| UiContext.KeyStep | src/context/UIContext.tsx:25-46 | ignored while typing in a field; Cmd/Ctrl+k toggles the command menu; c or C opens the new-issue modal only while the command menu is closed; nothing else changes |
| UiContext.CommandKTwice | src/context/UIContext.tsx:20-39 | two Cmd/Ctrl+k presses restore the flags |
| UiContext.CtrlCOpensModal | src/context/UIContext.tsx:42-45 | Ctrl+c and plain C both open the modal (no modifier check) |
| UiContext.ModalNeverClosedByKeys | src/context/UIContext.tsx:21-45 | no key closes an open new-issue modal |
| UiContext.UiState.constructor | src/context/UIContext.tsx:17-18 | both flags start false |
| UiContext.UiState.ToggleCommandMenu | src/context/UIContext.tsx:20 | the command menu flag flips |
| UiContext.UiState.OpenNewIssueModal | src/context/UIContext.tsx:21 | the modal flag is set (idempotent) |
| UiContext.UiState.SetNewIssueModalOpen | src/context/UIContext.tsx:58 | the modal flag takes the given value |
| UiContext.UiState.SetCommandMenuOpen | src/context/UIContext.tsx:55 | the command menu flag takes the given value |
| UiContext.UiState.HandleKeyDown | src/context/UIContext.tsx:25-46 | the flags become `KeyStep` of the old flags |
| AiActions.StripFences | src/app/actions/ai.ts:25 | the fence regex only deletes, so the result is no longer than the input |
| AiActions.Cleanup | src/app/actions/ai.ts:25 | the cleaned text is no longer than the answer |
| AiActions.NoBackticksUnchanged | src/app/actions/ai.ts:25 | text without backticks is left alone by the regex |
| AiActions.CleanupWithoutBackticks | src/app/actions/ai.ts:25 | text without backticks is only trimmed |
| AiActions.StripOnlyDeletes | src/app/actions/ai.ts:25 | every character of the result comes from the input |
| AiActions.FencedBody | src/app/actions/ai.ts:25 | a "```json\n" … "\n```" block yields its body |
| AiActions.StripTail | src/app/actions/ai.ts:25 | a closing fence and its preceding newline are removed |
| AiActions.NewlineBeforeFenceKeepsTag | src/app/actions/ai.ts:25 | a newline before "```json" is eaten with "```", leaving the tag "json" in front of the body |
| AiActions.PromptDescription | src/app/actions/ai.ts:10 | the prompt's description, or "No description" |
| AiActions.ParseAnswer | src/app/actions/ai.ts:21-55 | a failed model call gives null; otherwise the parse of the cleaned text, null when it fails |
| AiActions.Project | src/app/actions/ai.ts:61 | each issue is projected to id, title and priority only, in order |
| AiActions.PrioritizeBatch | src/app/actions/ai.ts:58-86 | an empty input gives no recommendations without calling the model; any failure gives none; otherwise the parsed recommendations |
| SeedProjects.MatchLine | seed-projects.js:11 | a line matches iff its first '=' is not at the start and no line terminator follows it; the groups are the text before and after that '=' |
| SeedProjects.StripQuotes | seed-projects.js:14 | at most one leading and one trailing quote go, independently; a lone quote goes once |
| SeedProjects.QuotedValue | seed-projects.js:14 | a value in one pair of quotes loses exactly that pair |
| SeedProjects.ParseLineAsWritten | seed-projects.js:11-14 | an entry iff the line matches; the key is trimmed and the value trimmed with its quotes stripped |
| SeedProjects.ValueKeepsEquals | seed-projects.js:11-13 | only the first '=' splits: the value may contain '=' |
| SeedProjects.SkippedLines | seed-projects.js:11-12 | lines with no '=' or starting with '=' are skipped |
| SeedProjects.CrlfLineSkipped | seed-projects.js:10-12 | as written, a CRLF line "KEY=value\r" is skipped |
| SeedProjects.DropCarriageReturn | seed-projects.js:10 | one trailing '\r' is removed, nothing else |
| SeedProjects.CrlfLineRead | seed-projects.js:10-14 | corrected parser: "KEY=value\r" reads like "KEY=value" |
| SeedProjects.ParseLine | seed-projects.js:10-14 | corrected parser: a line ending in '\r' parses as the line without it; any other line parses as written |
| SeedProjects.CrTerminatedLineSkipped | seed-projects.js:10-12 | as written, every line ending in '\r' is skipped |
| SeedProjects.CrlfLines | seed-projects.js:10 | the lines of a CRLF file split on '\n': each LF line with '\r' appended |
| SeedProjects.NoEntriesNoChange | seed-projects.js:10-17 | lines none of which parses leave the variables as they were |
| SeedProjects.CrlfFileSetsNothing | seed-projects.js:7-17 | as written, a CRLF file sets no variable at all |
| SeedProjects.ParsedCorrected | seed-projects.js:10-14 | the corrected parser applied to each line, in order |
| SeedProjects.CorrectedReadsCrlfFile | seed-projects.js:7-17 | corrected parser: a CRLF file sets exactly what its LF form sets |
| SeedProjects.CrlfText | seed-projects.js:9 | the text of a file whose every line ends in "\r\n" (no lines: the empty text) |
| SeedProjects.SplitCrlfText | seed-projects.js:10 | splitting such a text, plus an unterminated last piece, on '\n' gives each line with its '\r' kept, then that piece |
| SeedProjects.CrlfTextSetsNothing | seed-projects.js:7-17 | as written, the whole text of a CRLF-terminated file sets no variable |
| SeedProjects.UnterminatedLastLineRead | seed-projects.js:7-17 | as written, a CRLF file whose last line has no line end sets exactly what that last line alone sets |
| SeedProjects.ApplyLinesSnoc | seed-projects.js:9-15 | reading one more line applies its parsed entry to the variables read so far |
| SeedProjects.ApplyEntry | seed-projects.js:15 | an entry sets its key and leaves every other key alone |
| SeedProjects.ApplyEntries | seed-projects.js:10-17 | applying lines never removes a variable |
| SeedProjects.ApplyEntriesStep | seed-projects.js:10-17 | applying one more line is applying it to the result of the earlier ones |
| SeedProjects.Parsed | seed-projects.js:10-11 | every line is parsed on its own by the parser as written, in order |
| SeedProjects.ApplyLines | seed-projects.js:10-17 | reading lines never removes a variable; no lines change nothing |
| SeedProjects.LastEntryWins | seed-projects.js:10-17 | the last entry for a key decides its value |
| SeedProjects.LastLineWins | seed-projects.js:10-17 | a later line for a key, as the script parses it, overwrites every earlier one |
| SeedProjects.UntouchedKeyKept | seed-projects.js:10-17 | a variable no line sets keeps its value |
| SeedProjects.UnparsedLineIgnored | seed-projects.js:12 | a line the script's regular expression does not match changes nothing |
| SeedProjects.ProcessEnv.constructor | seed-projects.js:7 | the variables start as the inherited environment |
| SeedProjects.ProcessEnv.LoadEnvFile | seed-projects.js:7-20 | an unreadable file changes nothing; otherwise the variables become the lines, parsed as the script does, applied in order |
| SeedProjects.Connection | seed-projects.js:22-29 | the script goes on iff both Supabase variables are set and non-empty |
| SeedProjects.InsertRow | seed-projects.js:44-48 | the sample project's name, description and the first team's id |
| SeedProjects.PlannedInserts | seed-projects.js:51-60 | every sample project whose name does not have exactly one row is inserted |
| SeedProjects.SingleRowSkipsInsert | seed-projects.js:52-53 | a sample project with exactly one row of its name is not inserted |
| SeedProjects.NotPlanned | seed-projects.js:51-60 | a project with exactly one row of its name is in no planned insert list |
| SeedProjects.FindByName | seed-projects.js:66-67 | the first project with that name, found iff one exists |
| SeedProjects.Assignments | seed-projects.js:70-84 | no issues: nothing; the newest three go to Linear Clone if it exists; positions 3 and 4 go to Mobile App if it exists and there are more than three |
| SeedProjects.AssignmentsDisjoint | seed-projects.js:72-84 | with distinct ids no issue goes to both projects, and at most five are touched |
| SeedProjects.Seed | seed-projects.js:33-86 | no team: nothing; otherwise `PlannedInserts` in order, then, if projects are readable, `Assignments` |

## Left out

- Backend traffic (Supabase reads, inserts, updates, deletes, the realtime channel) is not modelled: each call is a parameter holding its outcome or its rows, and each handler returns the request it would send.
- Router navigation appears as a recorded path, and `router.refresh()` as a `refresh` result (or the `Refresh` effect of the new-project modal) of each handler that calls it. The "/projects" button of the project selector is not modelled. Console logging, `alert` text beyond the named messages, `preventDefault`/`stopPropagation` and the `setTimeout` delays have no modelled effect.
- Concurrency between handlers is not modelled: overlapping writes, the stale closure in the board revert, and a fetch that resolves after unmount. A handler whose form fields can change during an `await` is split into one step per `await`, and the later steps use the values captured before it (NewProjectModal's submit has three steps). The other handlers are one step, or two around their `await`, with every awaited answer passed in as a parameter (ProjectsList.ProjectsListState.HandleDelete takes both delete outcomes at once).
- Click-outside listeners, focus handling and the drag library's sensors are DOM behaviour and are not modelled.
- `toLowerCase`/`toUpperCase` are modelled on ASCII letters only, `trim` on ASCII whitespace only, and `localeCompare` as plain character order. These are approximations of the locale-aware library functions.
- ProjectSelector.SortByName: proved sorted and a permutation. The stability of `Array.prototype.sort` is not stated.
- AssigneeDropdown.AssigneeDropdownState.UpdateAssignee: `null` and `undefined` assignees are both `None`. The source compares them with `===`, so an undefined prop compared with "Unassigned" (null) would write; that case is not separated.
- IssueListItem.StatusGlyph: takes a non-null string, as the component's prop type says. A null status would throw in `toLowerCase`, and that is not modelled.
- AiActions.ParseAnswer: `JSON.parse` and the model call are oracles passed in as parameters. The prompt texts and the shape of the parsed object are not checked.
- The `try`/`catch` blocks that only log unexpected exceptions (ProjectsList, NewIssueModal, NewProjectModal) have no modelled exception path beyond the ones named in the contracts.
- Dates (`toLocaleDateString`, `created_at`) are not modelled.
- The seeding script's `console` output and its `insert` errors (logged and ignored) are not modelled. The order of issues by `created_at` is the order of the `issues` parameter.
- SeedProjects.ParseLineAsWritten: U+2028 and U+2029 count as line terminators for the match, as they do for JavaScript's `.`. `trim` is modelled on ASCII whitespace only, so a value padded with other Unicode spaces keeps them.
- Authentication and session handling (login, signup, `UserContext`) is not modelled: it is lookup-or-insert against the backend plus `localStorage`.
- The Gemini client (`src/lib/gemini.ts`) and the Supabase client construction (`src/lib/supabase.ts`) are not part of this model. The model call is an oracle.
- The diagnostic scripts (`check-gemini.ts`, `find-working-model.ts`, `test-quota.ts`, `simple-check.ts`) and `src/repro_types.ts` are not modelled: they only probe the network, write files or check types.
- Presentation and routing components are not modelled, since they hold no rule beyond rendering their props. These are the pages and layouts, Sidebar, Topbar, AppShell, CommandMenu, ViewToggle, IssueGroup, CollapsibleIssueGroup, BoardColumn, IssueCheckbox, NewIssueTrigger, AIRecommendationModal, AIPrioritizeButton and ViewFilterContext.

## Findings

| source | as written | input that shows it | evidently intended | confidence | as-written member | corrected member |
|---|---|---|---|---|---|---|
| seed-projects.js:10-11 | the file is split on '\n' only, and `.` in `^([^=]+)=(.*)$` does not match '\r', so every CRLF-terminated line fails the match and is skipped (only an unterminated last line is still read) | a `.env.local` saved with CRLF line ends, e.g. the line "NEXT_PUBLIC_SUPABASE_URL=https://x.supabase.co\r" | each line is read as in an LF file: the trailing '\r' is dropped and the variable is set | not executed | SeedProjects.CrlfTextSetsNothing | SeedProjects.CorrectedReadsCrlfFile |
| src/components/PriorityIcon.tsx:12 | `iconMap[key]` on an object literal also finds the inherited `constructor` and `__proto__`, which are truthy, so they are returned instead of a glyph | the priority "Constructor" (lower-cased to "constructor") | an unknown priority falls back to the no-priority glyph | not executed | PriorityIcon.ConstructorIsNotAGlyph | PriorityIcon.GlyphFor |
