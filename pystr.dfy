/**
 * The handful of Python `str` operations the record constructors use:
 * `sub in s`, `s.lower()` and `s.split(sep)` with an explicit separator.
 */
module PyStr {
  import opened Wrappers

  /** `sub` occurs in `s` at index `i`. */
  ghost predicate OccursAt(s: string, sub: string, i: int) {
    0 <= i && i + |sub| <= |s| && s[i..i + |sub|] == sub
  }

  /** The first index at or after `from` where `sub` occurs in `s` (Python's `s.find(sub, from)`). */
  function Find(s: string, sub: string, from: nat): (r: Option<nat>)
    decreases |s| - from
    ensures r.Some? ==> from <= r.value && OccursAt(s, sub, r.value)
    ensures r.Some? ==> forall j :: from <= j < r.value ==> !OccursAt(s, sub, j)
    ensures r.None? ==> forall j :: from <= j ==> !OccursAt(s, sub, j)
  {
    if from + |sub| > |s| then None
    else if s[from..from + |sub|] == sub then Some(from)
    else Find(s, sub, from + 1)
  }

  /** Python's `sub in s`. */
  predicate Contains(s: string, sub: string)
  {
    Find(s, sub, 0).Some?
  }

  lemma ContainsIff(s: string, sub: string)
    ensures Contains(s, sub) <==> exists i :: OccursAt(s, sub, i)
  {
  }

  /** ASCII case folding of one character. */
  function LowerChar(c: char): char {
    if 'A' <= c <= 'Z' then (c as int + 32) as char else c
  }

  /** Python's `s.lower()`, restricted to ASCII letters. */
  function Lower(s: string): (r: string)
    ensures |r| == |s|
    ensures forall i :: 0 <= i < |s| ==> r[i] == LowerChar(s[i])
  {
    if s == [] then [] else [LowerChar(s[0])] + Lower(s[1..])
  }

  /** Python's `sep.join(parts)`. */
  function Join(parts: seq<string>, sep: string): string
    requires |parts| >= 1
  {
    if |parts| == 1 then parts[0] else parts[0] + sep + Join(parts[1..], sep)
  }

  /** A prefix of `s` that ends before the first occurrence of `sub` does not contain `sub`. */
  lemma NoOccurrenceBefore(s: string, sub: string, i: nat)
    requires sub != [] && i <= |s|
    requires forall j :: 0 <= j < i ==> !OccursAt(s, sub, j)
    ensures !Contains(s[..i], sub)
  {
    ContainsIff(s[..i], sub);
    if exists j :: OccursAt(s[..i], sub, j) {
      var j :| OccursAt(s[..i], sub, j);
      assert s[..i][j..j + |sub|] == s[j..j + |sub|];
      assert OccursAt(s, sub, j);
    }
  }

  /**
   * Python's `s.split(sep)` for a non-empty separator: scan left to right,
   * cut at each non-overlapping occurrence, keep empty pieces.
   */
  function Split(s: string, sep: string): (parts: seq<string>)
    requires sep != []
    decreases |s|
    ensures |parts| >= 1
    ensures forall k :: 0 <= k < |parts| ==> !Contains(parts[k], sep)
  {
    match Find(s, sep, 0)
    case None => [s]
    case Some(i) =>
      NoOccurrenceBefore(s, sep, i);
      [s[..i]] + Split(s[i + |sep|..], sep)
  }

  /** Joining the pieces of a split with the same separator gives back the string. */
  lemma {:induction false} JoinSplit(s: string, sep: string)
    requires sep != []
    decreases |s|
    ensures Join(Split(s, sep), sep) == s
  {
    match Find(s, sep, 0)
    case None =>
    case Some(i) =>
      var rest := s[i + |sep|..];
      var parts := Split(s, sep);
      assert parts == [s[..i]] + Split(rest, sep);
      assert |parts| >= 2 && parts[0] == s[..i] && parts[1..] == Split(rest, sep);
      assert Join(parts, sep) == s[..i] + sep + Join(Split(rest, sep), sep);
      JoinSplit(rest, sep);
      assert s[i..i + |sep|] == sep;
      assert s == s[..i] + s[i..i + |sep|] + rest;
  }

  /** Joining splits off the last piece: `Join(p) == Join(init) + sep + last`. */
  lemma {:induction false} JoinLast(parts: seq<string>, sep: string)
    requires |parts| >= 2
    ensures Join(parts, sep) == Join(parts[..|parts| - 1], sep) + sep + parts[|parts| - 1]
  {
    if |parts| > 2 {
      JoinLast(parts[1..], sep);
      assert parts[1..][..|parts| - 2] == parts[..|parts| - 1][1..];
    }
  }

  /** The first piece of a split is the text before the first separator, or the whole string when there is none. */
  lemma FirstPieceOfSplit(s: string, sep: string)
    requires sep != []
    ensures var first := Split(s, sep)[0];
      && |first| <= |s| && s[..|first|] == first
      && !Contains(first, sep)
      && (first == s || (|first| + |sep| <= |s| && s[|first|..|first| + |sep|] == sep))
  {
  }

  /** The last piece of a split on a one-character separator is the text after the last separator. */
  lemma LastPieceOfSplit(s: string, sep: string)
    requires |sep| == 1
    ensures var last := Split(s, sep)[|Split(s, sep)| - 1];
      && |last| <= |s| && s[|s| - |last|..] == last
      && !Contains(last, sep)
      && (last == s || s[|s| - |last| - 1] == sep[0])
  {
    var parts := Split(s, sep);
    var last := parts[|parts| - 1];
    JoinSplit(s, sep);
    if |parts| >= 2 {
      JoinLast(parts, sep);
      var init := Join(parts[..|parts| - 1], sep);
      assert s == init + sep + last;
      assert s[|s| - |last|..] == last;
      assert s[|s| - |last| - 1] == sep[0];
    }
  }

  /** When `s` ends with the one-character separator, the last piece is empty. */
  lemma {:induction false} TrailingSeparator(s: string, sep: string)
    requires |sep| == 1 && |s| >= 1 && s[|s| - 1] == sep[0]
    ensures Split(s, sep)[|Split(s, sep)| - 1] == ""
  {
    var parts := Split(s, sep);
    var last := parts[|parts| - 1];
    LastPieceOfSplit(s, sep);
    if last != "" {
      SuffixEnds(s, last);
      EndingContains(last, sep);
    }
  }

  /** A non-empty suffix ends with the text's last character. */
  lemma SuffixEnds(s: string, t: string)
    requires 1 <= |t| <= |s| && s[|s| - |t|..] == t
    ensures t[|t| - 1] == s[|s| - 1]
  {
    assert s[|s| - |t|..][|t| - 1] == s[|s| - 1];
  }

  /** A text whose last character is the one-character `sep` contains `sep`. */
  lemma EndingContains(t: string, sep: string)
    requires |sep| == 1 && |t| >= 1 && t[|t| - 1] == sep[0]
    ensures Contains(t, sep)
  {
    assert t[|t| - 1..|t|] == [sep[0]] == sep;
    assert OccursAt(t, sep, |t| - 1);
    ContainsIff(t, sep);
  }

  /** `s.split(sep)[-1]` for a one-character separator: the text after the last separator. */
  function LastPiece(s: string, sep: string): (last: string)
    requires |sep| == 1
    ensures |last| <= |s| && s[|s| - |last|..] == last
    ensures !Contains(last, sep)
    ensures last == s || s[|s| - |last| - 1] == sep[0]
    ensures |s| >= 1 && s[|s| - 1] == sep[0] ==> last == ""
  {
    var parts := Split(s, sep);
    LastPieceOfSplit(s, sep);
    if |s| >= 1 && s[|s| - 1] == sep[0] then
      TrailingSeparator(s, sep);
      parts[|parts| - 1]
    else
      parts[|parts| - 1]
  }
}
