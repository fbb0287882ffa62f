/** The few functions of Go's `strings` package that the modelled code calls,
    over `string` = `seq<char>`: `HasPrefix`, `HasSuffix`, `Contains`, `Index`,
    `Replace(s, pat, rep, 1)`, `ReplaceAll` and `Join`. `ReplaceAll` is
    characterised against an independent `Split`/`Join` decomposition. */
module GoStrings {

  /** `p` starts at position `i` of `s`. */
  predicate OccursAt(s: string, p: string, i: int) {
    0 <= i && i + |p| <= |s| && s[i..i + |p|] == p
  }

  predicate HasPrefix(s: string, p: string) {
    |p| <= |s| && s[..|p|] == p
  }

  predicate HasSuffix(s: string, p: string) {
    |p| <= |s| && s[|s| - |p|..] == p
  }

  /** strings.Contains: some occurrence of `p` in `s` (the empty string occurs everywhere). */
  predicate Contains(s: string, p: string) {
    exists i | 0 <= i <= |s| :: OccursAt(s, p, i)
  }

  /** The first occurrence of `p` in `s` at or after `from`, or -1. */
  function IndexFrom(s: string, p: string, from: nat): (r: int)
    requires from <= |s| + 1
    ensures r == -1 || (from <= r && OccursAt(s, p, r))
    ensures forall j :: from <= j && (r == -1 || j < r) ==> !OccursAt(s, p, j)
    decreases |s| + 1 - from
  {
    if from + |p| > |s| then -1
    else if s[from..from + |p|] == p then from
    else IndexFrom(s, p, from + 1)
  }

  /** strings.Index: the position of the first occurrence of `p`, -1 when there is none. */
  function Index(s: string, p: string): (r: int)
    ensures r >= -1
    ensures r == -1 <==> !Contains(s, p)
    ensures r >= 0 ==> OccursAt(s, p, r)
    ensures forall j :: 0 <= j < r ==> !OccursAt(s, p, j)
  {
    IndexFrom(s, p, 0)
  }

  /** strings.Replace(s, pat, rep, 1): the first occurrence of `pat` (the empty
      string matches at the start) is replaced by `rep`; without one, `s`. */
  function Replace1(s: string, pat: string, rep: string): (r: string)
    ensures !Contains(s, pat) ==> r == s
    ensures Contains(s, pat) ==>
      var i := Index(s, pat);
      && |r| == |s| - |pat| + |rep|
      && r[..i] == s[..i]
      && r[i..i + |rep|] == rep
      && r[i + |rep|..] == s[i + |pat|..]
  {
    var i := Index(s, pat);
    if i < 0 then s
    else
      s[..i] + rep + s[i + |pat|..]
  }

  /** Go's strings.Join. */
  function Join(parts: seq<string>, sep: string): string {
    if |parts| == 0 then ""
    else if |parts| == 1 then parts[0]
    else parts[0] + sep + Join(parts[1..], sep)
  }

  /** Reference decomposition of `s` around every leftmost, non-overlapping
      occurrence of `sep`: joining the pieces with `sep` gives back `s`, and no
      piece holds `sep` any more. */
  function Split(s: string, sep: string): (parts: seq<string>)
    requires |sep| > 0
    ensures |parts| >= 1
    ensures Join(parts, sep) == s
    ensures forall k :: 0 <= k < |parts| ==> !Contains(parts[k], sep)
    decreases |s|
  {
    if |s| < |sep| then
      NoRoomNoOccurrence(s, sep);
      [s]
    else if s[..|sep|] == sep then
      var rest := Split(s[|sep|..], sep);
      NoRoomNoOccurrence("", sep);
      assert Join([""] + rest, sep) == "" + sep + Join(rest, sep);
      [""] + rest
    else
      var rest := Split(s[1..], sep);
      var head := [s[0]] + rest[0];
      JoinHead(rest, sep);
      assert !Contains(head, sep) by {
        HeadNoOccurrence(s, sep, rest[0], Join(rest, sep));
      }
      JoinCons(s[0], rest, sep);
      [head] + rest[1..]
  }

  lemma NoRoomNoOccurrence(s: string, sep: string)
    requires |sep| > 0 && |s| < |sep|
    ensures !Contains(s, sep)
  {
  }

  /** The first piece of a join is a prefix of it. */
  lemma JoinHead(parts: seq<string>, sep: string)
    requires |parts| >= 1
    ensures |parts[0]| <= |Join(parts, sep)| && Join(parts, sep)[..|parts[0]|] == parts[0]
  {
    if |parts| > 1 {
      assert Join(parts, sep) == parts[0] + (sep + Join(parts[1..], sep));
    }
  }

  /** Prepending a character to the first piece prepends it to the join. */
  lemma JoinCons(c: char, parts: seq<string>, sep: string)
    requires |parts| >= 1
    ensures Join([[c] + parts[0]] + parts[1..], sep) == [c] + Join(parts, sep)
  {
    var ps := [[c] + parts[0]] + parts[1..];
    assert ps[1..] == parts[1..];
  }

  /** `[s[0]] + piece` holds no `sep` when `piece` holds none, `piece` is a prefix
      of `s[1..]`, and `s` does not start with `sep`. */
  lemma HeadNoOccurrence(s: string, sep: string, piece: string, tail: string)
    requires |sep| > 0 && |s| >= 1
    requires |sep| <= |s| ==> s[..|sep|] != sep
    requires tail == s[1..] && |piece| <= |tail| && tail[..|piece|] == piece
    requires !Contains(piece, sep)
    ensures !Contains([s[0]] + piece, sep)
  {
    var head := [s[0]] + piece;
    assert head == s[..|piece| + 1];
    forall j | OccursAt(head, sep, j) ensures false {
      if j > 0 {
        assert head[1..] == piece;
        assert head[j..j + |sep|] == piece[j - 1..j - 1 + |sep|];
        assert OccursAt(piece, sep, j - 1);
      }
    }
  }

  /** strings.ReplaceAll for a non-empty `pat`: scans left to right, replacing
      each leftmost non-overlapping occurrence. */
  function ReplaceAll(s: string, pat: string, rep: string): (r: string)
    requires |pat| > 0
    decreases |s|
  {
    if |s| < |pat| then s
    else if s[..|pat|] == pat then rep + ReplaceAll(s[|pat|..], pat, rep)
    else [s[0]] + ReplaceAll(s[1..], pat, rep)
  }

  /** Every occurrence is replaced: `ReplaceAll` cuts `s` at exactly the
      occurrences `Split` finds and glues the pieces back with `rep`. */
  lemma {:induction false} ReplaceAllSplitsAtEveryOccurrence(s: string, pat: string, rep: string)
    requires |pat| > 0
    ensures ReplaceAll(s, pat, rep) == Join(Split(s, pat), rep)
    decreases |s|
  {
    if |s| < |pat| {
    } else if s[..|pat|] == pat {
      ReplaceAllSplitsAtEveryOccurrence(s[|pat|..], pat, rep);
      var rest := Split(s[|pat|..], pat);
      assert Split(s, pat) == [""] + rest;
      assert Join([""] + rest, rep) == "" + rep + Join(rest, rep);
    } else {
      ReplaceAllSplitsAtEveryOccurrence(s[1..], pat, rep);
      var rest := Split(s[1..], pat);
      assert Split(s, pat) == [[s[0]] + rest[0]] + rest[1..];
      JoinCons(s[0], rest, rep);
    }
  }

  /** A string without the pattern comes back unchanged. */
  lemma {:induction false} ReplaceAllWithoutOccurrence(s: string, pat: string, rep: string)
    requires |pat| > 0 && !Contains(s, pat)
    ensures ReplaceAll(s, pat, rep) == s
    decreases |s|
  {
    if |s| >= |pat| {
      assert !OccursAt(s, pat, 0);
      forall j | OccursAt(s[1..], pat, j) ensures false {
        assert s[1..][j..j + |pat|] == s[j + 1..j + 1 + |pat|];
        assert OccursAt(s, pat, j + 1);
      }
      ReplaceAllWithoutOccurrence(s[1..], pat, rep);
    }
  }
}
