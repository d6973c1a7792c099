/**
 * The string operations the view models rely on: trimming with the
 * "whitespaces and newlines" character set, the blank test built on it, and
 * joining strings with a separator.
 */
module Text {

  /**
   * Membership in Foundation's `.whitespacesAndNewlines` set: the Unicode
   * space separators, the line and paragraph separators, the controls
   * U+0009 to U+000D and U+0085.
   */
  predicate IsWhitespaceOrNewline(c: char) {
    || c == ' '
    || ('\t' <= c <= '\r')
    || c == '\U{85}'
    || c == '\U{A0}'
    || c == '\U{1680}'
    || ('\U{2000}' <= c <= '\U{200A}')
    || c == '\U{2028}'
    || c == '\U{2029}'
    || c == '\U{202F}'
    || c == '\U{205F}'
    || c == '\U{3000}'
  }

  /** Every character of `s` is whitespace or a newline (vacuously so for ""). */
  predicate AllWhitespace(s: string) {
    forall i :: 0 <= i < |s| ==> IsWhitespaceOrNewline(s[i])
  }

  /** Neither the first nor the last character of `s` is whitespace. */
  predicate NoEdgeWhitespace(s: string) {
    s == [] || (!IsWhitespaceOrNewline(s[0]) && !IsWhitespaceOrNewline(s[|s| - 1]))
  }

  /** The index of the first character at or after `from` that is not whitespace, or `|s|` when there is none. */
  function ContentStart(s: string, from: nat): (k: nat)
    requires from <= |s|
    ensures from <= k <= |s|
    ensures forall j :: from <= j < k ==> IsWhitespaceOrNewline(s[j])
    ensures k < |s| ==> !IsWhitespaceOrNewline(s[k])
    decreases |s| - from
  {
    if from < |s| && IsWhitespaceOrNewline(s[from]) then ContentStart(s, from + 1) else from
  }

  /**
   * The index just past the last character before `high` that is not
   * whitespace, searching down to `low`; `low` when there is none.
   */
  function ContentEnd(s: string, low: nat, high: nat): (k: nat)
    requires low <= high <= |s|
    ensures low <= k <= high
    ensures forall j :: k <= j < high ==> IsWhitespaceOrNewline(s[j])
    ensures low < k ==> !IsWhitespaceOrNewline(s[k - 1])
    decreases high
  {
    if low < high && IsWhitespaceOrNewline(s[high - 1]) then ContentEnd(s, low, high - 1) else high
  }

  /** `trimmingCharacters(in: .whitespacesAndNewlines)`: whitespace removed from both ends. */
  function Trim(s: string): (r: string)
    ensures |r| <= |s|
    ensures NoEdgeWhitespace(r)
  {
    var start := ContentStart(s, 0);
    s[start..ContentEnd(s, start, |s|)]
  }

  /**
   * Trimming keeps one contiguous part of the input: the slice that starts at
   * its first non-whitespace character.
   */
  lemma TrimIsInnerSlice(s: string)
    ensures var i, r := ContentStart(s, 0), Trim(s);
      i + |r| <= |s| && r == s[i..i + |r|]
  {
    var i := ContentStart(s, 0);
    assert Trim(s) == s[i..ContentEnd(s, i, |s|)];
  }

  /** Everything trimming cuts off, before and after the kept slice, is whitespace. */
  lemma TrimCutsOnlyWhitespace(s: string)
    ensures var i, r := ContentStart(s, 0), Trim(s);
      i + |r| <= |s| && AllWhitespace(s[..i]) && AllWhitespace(s[i + |r|..])
  {
    var i := ContentStart(s, 0);
    var j := ContentEnd(s, i, |s|);
    assert |Trim(s)| == j - i;
    var head, tail := s[..i], s[j..];
    assert forall k :: 0 <= k < |head| ==> head[k] == s[k];
    assert forall k :: 0 <= k < |tail| ==> tail[k] == s[j + k];
  }

  /** The test `s.trimmingCharacters(in: .whitespacesAndNewlines).isEmpty`. */
  predicate IsBlank(s: string)
    ensures IsBlank(s) <==> ContentStart(s, 0) == |s|
  {
    Trim(s) == []
  }

  /** A string is blank exactly when every character of it is whitespace. */
  lemma {:induction false} BlankIffAllWhitespace(s: string)
    ensures IsBlank(s) <==> AllWhitespace(s)
  {
    var i := ContentStart(s, 0);
    if i < |s| {
      assert ContentEnd(s, i, |s|) > i;
    }
  }

  /** A string with no whitespace at either end is its own trim. */
  lemma {:induction false} TrimLeavesTrimmed(s: string)
    requires NoEdgeWhitespace(s)
    ensures Trim(s) == s
  {
    if s != [] {
      assert ContentStart(s, 0) == 0;
      assert ContentEnd(s, 0, |s|) == |s|;
    }
  }

  /** Trimming twice is trimming once. */
  lemma TrimIdempotent(s: string)
    ensures Trim(Trim(s)) == Trim(s)
  {
    TrimLeavesTrimmed(Trim(s));
  }

  /** `parts.joined(separator: sep)`: the parts in order with `sep` between neighbours. */
  function Joined(parts: seq<string>, sep: string): (r: string)
    ensures parts != [] ==> |r| >= |parts[0]| && r[..|parts[0]|] == parts[0]
  {
    if |parts| == 0 then ""
    else if |parts| == 1 then parts[0]
    else parts[0] + sep + Joined(parts[1..], sep)
  }

  /** Two parts are joined with exactly one separator between them. */
  lemma {:induction false} JoinedPair(a: string, b: string, sep: string)
    ensures Joined([a, b], sep) == a + sep + b
  {
    assert [a, b][1..] == [b];
  }

  /** The joined string starts like its first part and ends like its last part. */
  lemma {:induction false} JoinedEnds(parts: seq<string>, sep: string)
    requires parts != []
    ensures var r := Joined(parts, sep);
      |r| >= |parts[0]| && |r| >= |parts[|parts| - 1]|
      && r[..|parts[0]|] == parts[0] && r[|r| - |parts[|parts| - 1]|..] == parts[|parts| - 1]
  {
    if |parts| > 1 {
      JoinedEnds(parts[1..], sep);
      var rest := Joined(parts[1..], sep);
      assert Joined(parts, sep) == parts[0] + sep + rest;
      assert parts[1..][|parts[1..]| - 1] == parts[|parts| - 1];
    }
  }
}
