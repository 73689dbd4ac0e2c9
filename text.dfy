/**
 * String helpers standing in for the parts of the C++ standard library that
 * the three programs use: std::string::find, find_first_not_of /
 * find_last_not_of (for trimming), substr, and the whitespace test of the
 * stream extraction operator.
 */
module Text {

  datatype Option<T> = None | Some(value: T)

  /** The characters `isspace` accepts in the "C" locale (used by `>>` on a stream). */
  predicate IsSpace(c: char) {
    c == ' ' || c == '\t' || c == '\n' || c == '\U{000B}' || c == '\U{000C}' || c == '\r'
  }

  /** The characters both programs trim with: " \n\r\t". */
  predicate IsTrimSpace(c: char) {
    c == ' ' || c == '\n' || c == '\r' || c == '\t'
  }

  /** `sub` occurs in `s` starting at index `i`. */
  predicate OccursAt(s: string, sub: string, i: nat) {
    i + |sub| <= |s| && s[i..i + |sub|] == sub
  }

  ghost predicate Contains(s: string, sub: string) {
    exists i: nat :: OccursAt(s, sub, i)
  }

  /** `sub[d..]` matches `s` from index `i + d` on, compared character by character. */
  predicate MatchesFrom(s: string, sub: string, i: nat, d: nat)
    requires d <= |sub|
    decreases |sub| - d
  {
    d == |sub| || (i + d < |s| && s[i + d] == sub[d] && MatchesFrom(s, sub, i, d + 1))
  }

  lemma {:induction false} MatchesFromIsOccurrence(s: string, sub: string, i: nat, d: nat)
    requires d <= |sub| && i + |sub| <= |s|
    decreases |sub| - d
    ensures MatchesFrom(s, sub, i, d) <==> s[i + d..i + |sub|] == sub[d..]
  {
    if d < |sub| {
      MatchesFromIsOccurrence(s, sub, i, d + 1);
      assert s[i + d..i + |sub|] == [s[i + d]] + s[i + d + 1..i + |sub|];
      assert sub[d..] == [sub[d]] + sub[d + 1..];
    }
  }

  /** std::string::find(sub, from): the first occurrence at or after `from`; None stands for npos. */
  function FindFrom(s: string, sub: string, from: nat): (r: Option<nat>)
    decreases |s| - from
    ensures r.Some? ==> from <= r.value && OccursAt(s, sub, r.value)
    ensures forall i: nat :: from <= i && (r.None? || i < r.value) ==> !OccursAt(s, sub, i)
  {
    if from + |sub| > |s| then None
    else
      MatchesFromIsOccurrence(s, sub, from, 0);
      if MatchesFrom(s, sub, from, 0) then Some(from)
      else FindFrom(s, sub, from + 1)
  }

  function Find(s: string, sub: string): (r: Option<nat>)
    ensures r.Some? <==> Contains(s, sub)
    ensures r.Some? ==> OccursAt(s, sub, r.value) && forall i: nat :: i < r.value ==> !OccursAt(s, sub, i)
  {
    FindFrom(s, sub, 0)
  }

  /** An occurrence inside a slice is an occurrence in the whole string. */
  lemma SliceKeepsAbsence(s: string, i: nat, j: nat, sub: string)
    requires i <= j <= |s|
    requires !Contains(s, sub)
    ensures !Contains(s[i..j], sub)
  {
    if Contains(s[i..j], sub) {
      var k: nat :| OccursAt(s[i..j], sub, k);
      assert k + |sub| <= j - i;
      forall x | 0 <= x < |sub|
        ensures s[i + k..i + k + |sub|][x] == sub[x]
      {
        assert s[i..j][k..k + |sub|][x] == sub[x];
      }
      assert OccursAt(s, sub, i + k);
    }
  }

  /** Trimming cannot create an occurrence. */
  lemma TrimKeepsAbsence(s: string, sub: string)
    requires !Contains(s, sub)
    ensures !Contains(Trim(s), sub)
  {
    var i, j :| 0 <= i <= j <= |s| && Trim(s) == s[i..j];
    SliceKeepsAbsence(s, i, j, sub);
  }

  /** std::string::find_first_not_of(" \n\r\t", from); None stands for npos. */
  function FirstNotTrimSpace(s: string, from: nat): (r: Option<nat>)
    decreases |s| - from
    ensures r.Some? ==> from <= r.value < |s| && !IsTrimSpace(s[r.value])
    ensures forall k :: from <= k < |s| && (r.None? || k < r.value) ==> IsTrimSpace(s[k])
  {
    if from >= |s| then None
    else if !IsTrimSpace(s[from]) then Some(from)
    else FirstNotTrimSpace(s, from + 1)
  }

  /** std::string::find_last_not_of(" \n\r\t"); None stands for npos. */
  function LastNotTrimSpace(s: string): (r: Option<nat>)
    ensures r.Some? ==> r.value < |s| && !IsTrimSpace(s[r.value])
    ensures forall k :: 0 <= k < |s| && (r.None? || r.value < k) ==> IsTrimSpace(s[k])
  {
    if s == [] then None
    else if !IsTrimSpace(s[|s| - 1]) then Some(|s| - 1)
    else LastNotTrimSpace(s[..|s| - 1])
  }

  /**
   * The trimming lambda of clean_llm_response:
   *   s.erase(0, find_first_not_of(ws)); s.erase(find_last_not_of(ws) + 1)
   * where erase(0, npos) empties the string and npos + 1 wraps to 0.
   * The result is the slice of `s` left after dropping the whitespace at
   * both ends.
   */
  function Trim(s: string): (r: string)
    ensures |r| <= |s|
    ensures r == [] || (!IsTrimSpace(r[0]) && !IsTrimSpace(r[|r| - 1]))
    ensures r == [] <==> forall k :: 0 <= k < |s| ==> IsTrimSpace(s[k])
    ensures exists i, j :: 0 <= i <= j <= |s| && r == s[i..j]
                           && (forall k :: 0 <= k < i ==> IsTrimSpace(s[k]))
                           && (forall k :: j <= k < |s| ==> IsTrimSpace(s[k]))
  {
    match FirstNotTrimSpace(s, 0)
    case None =>
      assert s[0..0] == [];
      []
    case Some(first) =>
      var t := s[first..];
      match LastNotTrimSpace(t)
      case None => assert false; []
      case Some(last) =>
        assert t[..last + 1] == s[first..first + last + 1];
        t[..last + 1]
  }

  /** A string with no trimmed whitespace at either end is left as it is. */
  lemma TrimOfTrimmed(s: string)
    requires s == [] || (!IsTrimSpace(s[0]) && !IsTrimSpace(s[|s| - 1]))
    ensures Trim(s) == s
  {
    if s != [] {
      var i, j :| 0 <= i <= j <= |s| && Trim(s) == s[i..j]
                  && (forall k :: 0 <= k < i ==> IsTrimSpace(s[k]))
                  && (forall k :: j <= k < |s| ==> IsTrimSpace(s[k]));
      assert i == 0 && j == |s|;
    }
  }

  /** Trimming twice is trimming once. */
  lemma TrimIdempotent(s: string)
    ensures Trim(Trim(s)) == Trim(s)
  {
    TrimOfTrimmed(Trim(s));
  }

  /** The command-line arguments from index `i` on (none when `i` is past the end). */
  function ArgsFrom(argv: seq<string>, i: nat): (r: seq<string>)
    ensures i < |argv| ==> r == argv[i..]
    ensures i >= |argv| ==> r == []
  {
    if i < |argv| then argv[i..] else []
  }

  /** The concatenation of a sequence of strings. */
  function Concat(ts: seq<string>): string
  {
    if ts == [] then [] else ts[0] + Concat(ts[1..])
  }

  lemma {:induction false} ConcatAppend(ts: seq<string>, t: string)
    ensures Concat(ts + [t]) == Concat(ts) + t
  {
    if ts == [] {
      assert [] + [t] == [t];
    } else {
      assert (ts + [t])[1..] == ts[1..] + [t];
      ConcatAppend(ts[1..], t);
    }
  }
}
