/** String helpers shared by the store, the scraper and the matcher: an Option
    type, whitespace trimming, substring search, and the left-to-right
    `split`/`join` that both Python's `str.split(sep)` and JavaScript's
    `String.prototype.split(sep)` perform for a non-empty separator. */
module Text {

  datatype Option<+T> = None | Some(value: T)

  /** The whitespace that `trim()`/`strip()` remove, restricted to ASCII and the no-break space. */
  predicate IsSpace(c: char) {
    c == ' ' || c == '\t' || c == '\n' || c == '\r' || c == '\U{0B}' || c == '\U{0C}' || c == '\U{A0}'
  }

  function TrimStart(s: string): (r: string)
    ensures |r| <= |s| && r == s[|s| - |r|..]
    ensures r == [] || !IsSpace(r[0])
    ensures forall i :: 0 <= i < |s| - |r| ==> IsSpace(s[i])
    decreases |s|
  {
    if |s| > 0 && IsSpace(s[0]) then TrimStart(s[1..]) else s
  }

  function TrimEnd(s: string): (r: string)
    ensures |r| <= |s| && r == s[..|r|]
    ensures r == [] || !IsSpace(r[|r| - 1])
    ensures forall i :: |r| <= i < |s| ==> IsSpace(s[i])
    decreases |s|
  {
    if |s| > 0 && IsSpace(s[|s| - 1]) then TrimEnd(s[..|s| - 1]) else s
  }

  /** `s.trim()` / `s.strip()`: the longest infix of `s` that neither starts nor
      ends with whitespace, everything cut off being whitespace. */
  function Trim(s: string): (r: string)
    ensures exists i: nat :: TrimmedAt(s, r, i)
    ensures r == [] || (!IsSpace(r[0]) && !IsSpace(r[|r| - 1]))
    ensures (s == [] || (!IsSpace(s[0]) && !IsSpace(s[|s| - 1]))) ==> r == s
  {
    var t := TrimStart(s);
    var r := TrimEnd(t);
    TrimCuts(s, t, r);
    r
  }

  /** `r` occurs in `s` at `i` and everything of `s` before and after it is whitespace. */
  predicate TrimmedAt(s: string, r: string, i: nat) {
    && OccursAt(s, r, i)
    && (forall j :: 0 <= j < i ==> IsSpace(s[j]))
    && (forall j :: i + |r| <= j < |s| ==> IsSpace(s[j]))
  }

  /** Cutting a whitespace run off the front of `s`, giving `t`, and then one off
      the back of `t`, giving `r`, cuts whitespace only: `r` sits in `s` after
      the first run and before the second. */
  lemma TrimCuts(s: string, t: string, r: string)
    requires |t| <= |s| && t == s[|s| - |t|..] && forall i :: 0 <= i < |s| - |t| ==> IsSpace(s[i])
    requires |r| <= |t| && r == t[..|r|] && forall i :: |r| <= i < |t| ==> IsSpace(t[i])
    ensures TrimmedAt(s, r, |s| - |t|)
  {
    SliceOfSuffix(s, |s| - |t|, |r|);
    SpaceAfterPrefixOfSuffix(s, t, |r|);
  }

  /** Whitespace after the first `n` characters of a suffix `t` of `s` is whitespace of `s`. */
  lemma SpaceAfterPrefixOfSuffix(s: string, t: string, n: nat)
    requires |t| <= |s| && t == s[|s| - |t|..] && n <= |t|
    requires forall i :: n <= i < |t| ==> IsSpace(t[i])
    ensures forall j :: |s| - |t| + n <= j < |s| ==> IsSpace(s[j])
  {
    forall j | |s| - |t| + n <= j < |s| ensures IsSpace(s[j]) {
      assert s[j] == t[j - (|s| - |t|)];
    }
  }

  /** Dropping the head of a concatenation whose left part is not empty. */
  lemma TailOfAppend<T>(a: seq<T>, b: seq<T>)
    requires a != []
    ensures (a + b)[0] == a[0] && (a + b)[1..] == a[1..] + b
  {
  }

  lemma SliceOfSuffix<T>(s: seq<T>, i: nat, n: nat)
    requires i + n <= |s|
    ensures s[i..][..n] == s[i..i + n]
  {
  }

  lemma ThreeWaySplit<T>(s: seq<T>, i: nat, n: nat)
    requires i + n <= |s|
    ensures s == s[..i] + s[i..i + n] + s[i + n..]
  {
  }

  /** `sep` occurs in `s` starting at position `i`. */
  predicate OccursAt(s: string, sep: string, i: nat) {
    i + |sep| <= |s| && s[i..i + |sep|] == sep
  }

  function IndexFrom(s: string, sep: string, i: nat): (r: Option<nat>)
    requires i <= |s|
    ensures r.Some? ==> i <= r.value && OccursAt(s, sep, r.value)
    ensures r.Some? ==> forall j :: i <= j < r.value ==> !OccursAt(s, sep, j)
    ensures r.None? ==> forall j :: i <= j <= |s| ==> !OccursAt(s, sep, j)
    decreases |s| - i
  {
    if OccursAt(s, sep, i) then Some(i)
    else if i == |s| then None
    else IndexFrom(s, sep, i + 1)
  }

  /** The first position at which `sep` occurs in `s` (`indexOf`/`find`). */
  function IndexOf(s: string, sep: string): (r: Option<nat>)
    ensures r.Some? ==> OccursAt(s, sep, r.value) && forall j :: 0 <= j < r.value ==> !OccursAt(s, sep, j)
    ensures r.None? ==> forall j :: 0 <= j <= |s| ==> !OccursAt(s, sep, j)
  {
    IndexFrom(s, sep, 0)
  }

  /** `sep in s` (Python) / `s.includes(sep)` (JavaScript). */
  predicate Contains(s: string, sep: string) {
    IndexOf(s, sep).Some?
  }

  lemma ContainsAt(s: string, sep: string, j: nat)
    requires OccursAt(s, sep, j)
    ensures Contains(s, sep)
  {
  }

  /** An infix of a string that does not contain `sep` does not contain it either. */
  lemma {:induction false} InfixNotContains(s: string, sep: string, i: nat, j: nat)
    requires i <= j <= |s|
    requires !Contains(s, sep)
    ensures !Contains(s[i..j], sep)
  {
    var t := s[i..j];
    if Contains(t, sep) {
      var k := IndexOf(t, sep).value;
      assert t[k..k + |sep|] == s[i + k..i + k + |sep|];
      ContainsAt(s, sep, i + k);
    }
  }

  /** Trimming cannot introduce an occurrence of `sep`. */
  lemma TrimNotContains(s: string, sep: string)
    requires !Contains(s, sep)
    ensures !Contains(Trim(s), sep)
  {
    var t := Trim(s);
    var i: nat :| TrimmedAt(s, t, i);
    InfixNotContains(s, sep, i, i + |t|);
    assert s[i..i + |t|] == t;
  }

  /** The text before the first occurrence of `sep` does not contain `sep`. */
  lemma PrefixBeforeFirst(s: string, sep: string, i: nat)
    requires |sep| > 0 && IndexOf(s, sep) == Some(i)
    ensures !Contains(s[..i], sep)
  {
    var head := s[..i];
    if Contains(head, sep) {
      var j := IndexOf(head, sep).value;
      assert head[j..j + |sep|] == s[j..j + |sep|];
      assert OccursAt(s, sep, j);
    }
  }

  /** `s.split(sep)` for a non-empty separator: the pieces between successive
      occurrences of `sep`, found left to right without overlap. */
  function Split(s: string, sep: string): (parts: seq<string>)
    requires |sep| > 0
    ensures |parts| >= 1
    ensures |parts| > 1 <==> Contains(s, sep)
    ensures forall k :: 0 <= k < |parts| ==> !Contains(parts[k], sep)
    ensures forall k :: 0 <= k < |parts| - 1 ==> !Contains(parts[k] + sep[..|sep| - 1], sep)
    decreases |s|
  {
    match IndexOf(s, sep)
    case None => [s]
    case Some(i) =>
      PrefixBeforeFirst(s, sep, i);
      FirstCutLeftmost(s, sep, i);
      [s[..i]] + Split(s[i + |sep|..], sep)
  }

  /** No occurrence of `sep` starts before the first one: the text before it,
      followed by all but the last character of `sep`, does not contain `sep`. */
  lemma FirstCutLeftmost(s: string, sep: string, i: nat)
    requires |sep| > 0 && IndexOf(s, sep) == Some(i)
    ensures !Contains(s[..i] + sep[..|sep| - 1], sep)
  {
    var t := s[..i] + sep[..|sep| - 1];
    assert t == s[..i + |sep| - 1] by {
      assert s[i..i + |sep|] == sep;
      assert s[..i + |sep| - 1] == s[..i] + s[i..i + |sep| - 1];
    }
    if Contains(t, sep) {
      var j := IndexOf(t, sep).value;
      assert t[j..j + |sep|] == s[j..j + |sep|];
      assert OccursAt(s, sep, j);
    }
  }

  /** `sep.join(parts)` / `parts.join(sep)`. */
  function Join(parts: seq<string>, sep: string): (r: string)
    ensures |parts| == 1 ==> r == parts[0]
    decreases |parts|
  {
    if |parts| == 0 then ""
    else if |parts| == 1 then parts[0]
    else parts[0] + sep + Join(parts[1..], sep)
  }

  lemma JoinCons(head: string, parts: seq<string>, sep: string)
    requires |parts| >= 1
    ensures Join([head] + parts, sep) == head + sep + Join(parts, sep)
  {
    assert ([head] + parts)[1..] == parts;
  }

  /** Splitting and re-joining with the same separator gives the string back. */
  lemma SplitAtFirst(s: string, sep: string, i: nat)
    requires |sep| > 0 && IndexOf(s, sep) == Some(i)
    ensures i + |sep| <= |s| && Split(s, sep) == [s[..i]] + Split(s[i + |sep|..], sep)
  {
  }

  lemma {:induction false} JoinSplit(s: string, sep: string)
    requires |sep| > 0
    ensures Join(Split(s, sep), sep) == s
    decreases |s|
  {
    match IndexOf(s, sep)
    case None =>
    case Some(i) =>
      var rest := s[i + |sep|..];
      JoinSplit(rest, sep);
      SplitAtFirst(s, sep, i);
      JoinCons(s[..i], Split(rest, sep), sep);
      assert s[i..i + |sep|] == sep;
      ThreeWaySplit(s, i, |sep|);
      assert Join(Split(s, sep), sep) == s[..i] + sep + rest;
  }
}
