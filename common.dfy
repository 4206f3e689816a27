/** Shared vocabulary: nullable values, the JavaScript string operations the
    components use (in their ASCII approximation), and Array.prototype.filter. */
module Common {

  /** A JavaScript value that may be null or undefined. */
  datatype Option<T> = None | Some(value: T)

  /** JavaScript truthiness of a nullable string: null, undefined and "" are falsy. */
  predicate Truthy(s: Option<string>) {
    s.Some? && s.value != ""
  }

  /** `s || fallback` for a nullable string. */
  function OrElse(s: Option<string>, fallback: string): (r: string)
    ensures Truthy(s) ==> r == s.value
    ensures !Truthy(s) ==> r == fallback
  {
    if Truthy(s) then s.value else fallback
  }

  // ---------------------------------------------------------------------------
  // Case mapping (String.prototype.toLowerCase / toUpperCase, ASCII only)

  function LowerChar(c: char): char {
    if 'A' <= c <= 'Z' then (c as int + 32) as char else c
  }

  function UpperChar(c: char): char {
    if 'a' <= c <= 'z' then (c as int - 32) as char else c
  }

  function Lower(s: string): (r: string)
    ensures |r| == |s|
    ensures forall i :: 0 <= i < |s| ==> r[i] == LowerChar(s[i])
  {
    seq(|s|, i requires 0 <= i < |s| => LowerChar(s[i]))
  }

  function Upper(s: string): (r: string)
    ensures |r| == |s|
    ensures forall i :: 0 <= i < |s| ==> r[i] == UpperChar(s[i])
  {
    seq(|s|, i requires 0 <= i < |s| => UpperChar(s[i]))
  }

  /** No ASCII upper-case letter occurs in `s`. */
  predicate NoUpper(s: string) {
    forall i :: 0 <= i < |s| ==> !('A' <= s[i] <= 'Z')
  }

  /** A string without upper-case letters is its own lower-case form. */
  lemma LowerNoop(s: string)
    requires NoUpper(s)
    ensures Lower(s) == s
  {
  }

  /** Lowercasing is idempotent, and a string and its upper-case form lowercase alike. */
  lemma LowerIdempotent(s: string)
    ensures Lower(Lower(s)) == Lower(s)
    ensures Lower(Upper(s)) == Lower(s)
  {
    assert forall i :: 0 <= i < |s| ==> Lower(Lower(s))[i] == Lower(s)[i];
    assert forall i :: 0 <= i < |s| ==> Lower(Upper(s))[i] == Lower(s)[i];
  }

  // ---------------------------------------------------------------------------
  // Whitespace (String.prototype.trim, ASCII whitespace only)

  predicate IsSpace(c: char) {
    c == ' ' || c == '\t' || c == '\n' || c == '\r' || c as int == 0x0B || c as int == 0x0C
  }

  /** No whitespace at either end. */
  predicate Unpadded(s: string) {
    s == [] || (!IsSpace(s[0]) && !IsSpace(s[|s| - 1]))
  }

  function TrimStart(s: string): (r: string)
    ensures |r| <= |s| && r == s[|s| - |r|..]
    ensures r == [] || !IsSpace(r[0])
    ensures forall i :: 0 <= i < |s| - |r| ==> IsSpace(s[i])
  {
    if s != [] && IsSpace(s[0]) then
      var r := TrimStart(s[1..]);
      assert s[1..][|s| - 1 - |r|..] == s[|s| - |r|..];
      assert forall i :: 1 <= i < |s| - |r| ==> s[i] == s[1..][i - 1];
      r
    else s
  }

  function TrimEnd(s: string): (r: string)
    ensures |r| <= |s| && r == s[..|r|]
    ensures r == [] || !IsSpace(r[|r| - 1])
    ensures forall i :: |r| <= i < |s| ==> IsSpace(s[i])
  {
    if s != [] && IsSpace(s[|s| - 1]) then
      var r := TrimEnd(s[..|s| - 1]);
      assert s[..|s| - 1][..|r|] == s[..|r|];
      assert forall i :: |r| <= i < |s| - 1 ==> s[i] == s[..|s| - 1][i];
      r
    else s
  }

  /** `s.trim()`: the longest infix without leading or trailing whitespace. */
  function Trim(s: string): (r: string)
    ensures |r| <= |s|
    ensures Unpadded(r)
    ensures r == [] <==> forall i :: 0 <= i < |s| ==> IsSpace(s[i])
  {
    var t := TrimStart(s);
    var r := TrimEnd(t);
    assert r == s[|s| - |t|..][..|r|];
    assert r == [] ==> forall i :: 0 <= i < |s| ==> IsSpace(s[i]) by {
      if r == [] {
        assert t == [];
      }
    }
    r
  }

  /** Every character of `s.trim()` satisfies what every character of `s` does. */
  lemma TrimPreserves(s: string, p: char -> bool)
    requires forall i :: 0 <= i < |s| ==> p(s[i])
    ensures forall i :: 0 <= i < |Trim(s)| ==> p(Trim(s)[i])
  {
    var t := TrimStart(s);
    assert forall i :: 0 <= i < |t| ==> p(t[i]) by {
      forall i | 0 <= i < |t| ensures p(t[i]) {
        assert t[i] == s[|s| - |t| + i];
      }
    }
    var r := TrimEnd(t);
    assert r == Trim(s);
    forall i | 0 <= i < |r| ensures p(r[i]) {
      assert r[i] == t[i];
    }
  }

  /** Trimming a string without surrounding whitespace changes nothing. */
  lemma TrimClean(s: string)
    requires Unpadded(s)
    ensures Trim(s) == s
  {
  }

  /** Leading whitespace before a string that starts with a non-space goes. */
  lemma {:induction false} TrimStartPadded(w: string, x: string)
    requires forall i :: 0 <= i < |w| ==> IsSpace(w[i])
    requires x == [] || !IsSpace(x[0])
    ensures TrimStart(w + x) == x
    decreases |w|
  {
    if w != [] {
      assert (w + x)[1..] == w[1..] + x;
      TrimStartPadded(w[1..], x);
    } else {
      assert w + x == x;
    }
  }

  /** Trailing whitespace after a string that ends in a non-space goes. */
  lemma {:induction false} TrimEndPadded(x: string, w: string)
    requires forall i :: 0 <= i < |w| ==> IsSpace(w[i])
    requires x == [] || !IsSpace(x[|x| - 1])
    ensures TrimEnd(x + w) == x
    decreases |w|
  {
    if w != [] {
      assert (x + w)[..|x + w| - 1] == x + w[..|w| - 1];
      TrimEndPadded(x, w[..|w| - 1]);
    } else {
      assert x + w == x;
    }
  }

  /** Trimming whitespace padding around a clean string gives that string. */
  lemma TrimPadded(w1: string, x: string, w2: string)
    requires forall i :: 0 <= i < |w1| ==> IsSpace(w1[i])
    requires forall i :: 0 <= i < |w2| ==> IsSpace(w2[i])
    requires x != [] && !IsSpace(x[0]) && !IsSpace(x[|x| - 1])
    ensures Trim(w1 + x + w2) == x
  {
    assert w1 + x + w2 == w1 + (x + w2);
    TrimStartPadded(w1, x + w2);
    TrimEndPadded(x, w2);
  }

  /** A blank string, the test `!s.trim()`: every character is whitespace.
      `BlankIsTrimEmpty` ties it to `Trim`. */
  predicate IsBlank(s: string) {
    forall i :: 0 <= i < |s| ==> IsSpace(s[i])
  }

  /** A string is blank exactly when `s.trim()` is the empty string. */
  lemma BlankIsTrimEmpty(s: string)
    ensures IsBlank(s) <==> Trim(s) == ""
  {
  }

  // ---------------------------------------------------------------------------
  // Searching and slicing

  /** Index of the first occurrence of `c`, or |s| when there is none. */
  function IndexOf(s: string, c: char): (k: nat)
    ensures k <= |s|
    ensures k < |s| ==> s[k] == c
    ensures forall i :: 0 <= i < k ==> s[i] != c
  {
    if s == [] then 0 else if s[0] == c then 0 else 1 + IndexOf(s[1..], c)
  }

  /** Strings holding `c` at the same positions hold it first at the same position. */
  lemma SameIndexOf(s: string, t: string, c: char)
    requires |s| == |t| && forall i :: 0 <= i < |s| ==> (s[i] == c <==> t[i] == c)
    ensures IndexOf(s, c) == IndexOf(t, c)
  {
    var k1, k2 := IndexOf(s, c), IndexOf(t, c);
    assert k1 < |s| ==> t[k1] == c;
    assert k2 < |t| ==> s[k2] == c;
  }

  /** Lower-casing neither creates nor removes a character that is not a letter. */
  lemma LowerIndexOf(s: string, c: char)
    requires !('A' <= c <= 'Z') && !('a' <= c <= 'z')
    ensures IndexOf(Lower(s), c) == IndexOf(s, c)
  {
    SameIndexOf(Lower(s), s, c);
  }

  /** `s.replace(a, b)` with a one-character string pattern: only the first
      occurrence is replaced. */
  function ReplaceFirst(s: string, a: char, b: char): (r: string)
    ensures IndexOf(s, a) == |s| ==> r == s
    ensures IndexOf(s, a) < |s| ==> r == s[IndexOf(s, a) := b]
    ensures |r| == |s| && forall i :: 0 <= i < |r| ==> r[i] == s[i] || r[i] == b
  {
    if s == [] then [] else if s[0] == a then [b] + s[1..] else [s[0]] + ReplaceFirst(s[1..], a, b)
  }

  predicate StartsWith(s: string, prefix: string) {
    |prefix| <= |s| && s[..|prefix|] == prefix
  }

  /** `s.includes(sub)` */
  predicate Contains(s: string, sub: string) {
    StartsWith(s, sub) || (s != [] && Contains(s[1..], sub))
  }

  /** A string holds every substring found at some offset. */
  lemma {:induction false} ContainsAt(t: string, sub: string, k: nat)
    requires k + |sub| <= |t| && t[k..k + |sub|] == sub
    ensures Contains(t, sub)
    decreases k
  {
    if k > 0 {
      assert t[1..][k - 1..k - 1 + |sub|] == t[k..k + |sub|];
      ContainsAt(t[1..], sub, k - 1);
    }
  }

  /** A string never contains a longer one. */
  lemma {:induction false} ContainsNoLonger(s: string, sub: string)
    requires Contains(s, sub)
    ensures |sub| <= |s|
  {
    if !StartsWith(s, sub) {
      ContainsNoLonger(s[1..], sub);
    }
  }

  /** `s.slice(0, n)` for a non-negative n. */
  function Take<T>(s: seq<T>, n: nat): (r: seq<T>)
    ensures |r| == if n <= |s| then n else |s|
    ensures r == s[..|r|]
  {
    if n <= |s| then s[..n] else s
  }

  // ---------------------------------------------------------------------------
  // String.prototype.split with a one-character separator, and Array.prototype.join

  function Split(s: string, sep: char): (parts: seq<string>)
    ensures |parts| >= 1
    ensures forall p :: p in parts ==> sep !in p
    decreases |s|
  {
    var k := IndexOf(s, sep);
    if k == |s| then [s] else [s[..k]] + Split(s[k + 1..], sep)
  }

  function Join(parts: seq<string>, sep: char): string {
    if |parts| == 0 then "" else if |parts| == 1 then parts[0] else parts[0] + [sep] + Join(parts[1..], sep)
  }

  /** Joining the pieces with the separator gives back the original string. */
  lemma {:induction false} JoinSplit(s: string, sep: char)
    ensures Join(Split(s, sep), sep) == s
    decreases |s|
  {
    var k := IndexOf(s, sep);
    if k < |s| {
      var rest := Split(s[k + 1..], sep);
      assert Split(s, sep) == [s[..k]] + rest;
      JoinSplit(s[k + 1..], sep);
      assert Join([s[..k]] + rest, sep) == s[..k] + [sep] + Join(rest, sep) by {
        assert ([s[..k]] + rest)[0] == s[..k] && ([s[..k]] + rest)[1..] == rest;
      }
      assert s == s[..k] + [sep] + s[k + 1..];
    }
  }

  // ---------------------------------------------------------------------------
  // Array.prototype.filter

  function Filter<T(!new)>(s: seq<T>, p: T -> bool): (r: seq<T>)
    ensures |r| <= |s|
    ensures forall x :: x in r <==> x in s && p(x)
  {
    if s == [] then []
    else
      assert s == [s[0]] + s[1..];
      (if p(s[0]) then [s[0]] else []) + Filter(s[1..], p)
  }

  /** Filtering distributes over concatenation: kept elements stay in input order. */
  lemma {:induction false} FilterAppend<T(!new)>(a: seq<T>, b: seq<T>, p: T -> bool)
    ensures Filter(a + b, p) == Filter(a, p) + Filter(b, p)
  {
    if a == [] {
      assert a + b == b;
    } else {
      var ab := a + b;
      assert ab[0] == a[0] && ab[1..] == a[1..] + b;
      FilterAppend(a[1..], b, p);
      if p(a[0]) {
        assert Filter(ab, p) == [a[0]] + Filter(a[1..] + b, p);
        assert Filter(a, p) == [a[0]] + Filter(a[1..], p);
      } else {
        assert Filter(ab, p) == Filter(a[1..] + b, p);
        assert Filter(a, p) == Filter(a[1..], p);
      }
    }
  }

  /** A kept value occurs in the result exactly as often as in the input. */
  lemma {:induction false} FilterCount<T(!new)>(s: seq<T>, p: T -> bool, x: T)
    requires p(x)
    ensures multiset(Filter(s, p))[x] == multiset(s)[x]
  {
    if s != [] {
      assert s == [s[0]] + s[1..];
      FilterCount(s[1..], p, x);
    }
  }

  /** A filter whose predicate holds nowhere returns the empty sequence. */
  lemma {:induction false} FilterNone<T(!new)>(s: seq<T>, p: T -> bool)
    requires forall x :: x in s ==> !p(x)
    ensures Filter(s, p) == []
  {
    if s != [] {
      FilterNone(s[1..], p);
    }
  }

  /** A filter whose predicate holds everywhere keeps the whole sequence. */
  lemma {:induction false} FilterAll<T(!new)>(s: seq<T>, p: T -> bool)
    requires forall x :: x in s ==> p(x)
    ensures Filter(s, p) == s
  {
    if s != [] {
      FilterAll(s[1..], p);
    }
  }

  // ---------------------------------------------------------------------------
  // Grouping by a string key (a list of `filter(i => key(i) === k)` calls)

  /** The filter predicate "the key of x is k". */
  function KeyIs<T>(key: T -> string, k: string): T -> bool {
    x => key(x) == k
  }

  /** The filter predicate "the key of x is none of keys". */
  function KeyNotIn<T>(key: T -> string, keys: seq<string>): T -> bool {
    x => key(x) !in keys
  }

  predicate Distinct(keys: seq<string>) {
    forall i, j :: 0 <= i < j < |keys| ==> keys[i] != keys[j]
  }

  /** The total size of the buckets `filter(x => key(x) === k)` for k in keys. */
  function BucketSizes<T(!new)>(s: seq<T>, key: T -> string, keys: seq<string>): nat {
    if keys == [] then 0 else |Filter(s, KeyIs(key, keys[0]))| + BucketSizes(s, key, keys[1..])
  }

  lemma {:induction false} BucketSizesCons<T(!new)>(s: seq<T>, key: T -> string, keys: seq<string>)
    requires s != [] && Distinct(keys)
    ensures BucketSizes(s, key, keys) == BucketSizes(s[1..], key, keys) + (if key(s[0]) in keys then 1 else 0)
  {
    if keys != [] {
      assert Distinct(keys[1..]) by {
        forall i, j | 0 <= i < j < |keys[1..]| ensures keys[1..][i] != keys[1..][j] {
          assert keys[1..][i] == keys[i + 1] && keys[1..][j] == keys[j + 1];
        }
      }
      BucketSizesCons(s, key, keys[1..]);
      assert key(s[0]) in keys <==> key(s[0]) == keys[0] || key(s[0]) in keys[1..];
      assert key(s[0]) == keys[0] ==> key(s[0]) !in keys[1..] by {
        if key(s[0]) == keys[0] && key(s[0]) in keys[1..] {
          assert false;
        }
      }
    }
  }

  /** Buckets for distinct keys, plus the elements whose key is none of them,
      account for every element exactly once. */
  lemma {:induction false} BucketsPartition<T(!new)>(s: seq<T>, key: T -> string, keys: seq<string>)
    requires Distinct(keys)
    ensures BucketSizes(s, key, keys) + |Filter(s, KeyNotIn(key, keys))| == |s|
  {
    if s == [] {
      BucketSizesEmpty(s, key, keys);
    } else {
      BucketSizesCons(s, key, keys);
      BucketsPartition(s[1..], key, keys);
    }
  }

  lemma {:induction false} BucketSizesEmpty<T(!new)>(s: seq<T>, key: T -> string, keys: seq<string>)
    requires s == []
    ensures BucketSizes(s, key, keys) == 0
  {
    if keys != [] {
      BucketSizesEmpty(s, key, keys[1..]);
    }
  }
}
