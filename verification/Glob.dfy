/** The wildcard matchers of the egress policy. All of them are measured against one
    definition: the text splits around the stars. Strings are byte strings. */
module Glob {

  const STAR := '*'

  // ---------- What a pattern means ----------

  /** The literal pieces of a pattern, between its stars. */
  function Pieces(pat: string): (ps: seq<string>)
    ensures |ps| > 0
  {
    if pat == "" then [""]
    else if pat[0] == STAR then [""] + Pieces(pat[1..])
    else var ps := Pieces(pat[1..]); [[pat[0]] + ps[0]] + ps[1..]
  }

  /** The pieces with one gap after each but the last. */
  function Weave(pieces: seq<string>, gaps: seq<string>): string
    requires |pieces| == |gaps| + 1
  {
    if gaps == [] then pieces[0] else pieces[0] + gaps[0] + Weave(pieces[1..], gaps[1..])
  }

  /** A text matches when some choice of texts for the stars produces it. */
  ghost predicate Matches(pat: string, s: string) {
    exists gaps: seq<string> :: |gaps| + 1 == |Pieces(pat)| && Weave(Pieces(pat), gaps) == s
  }

  // ---------- One character at a time ----------

  /** The same relation, by cases on the first pattern character. */
  predicate Glob(pat: string, s: string)
    decreases |pat|, |s|
  {
    if pat == "" then s == ""
    else if pat[0] == STAR then Glob(pat[1..], s) || (s != "" && Glob(pat, s[1..]))
    else s != "" && s[0] == pat[0] && Glob(pat[1..], s[1..])
  }

  lemma WeaveStar(pieces: seq<string>, gap: string, gaps: seq<string>)
    requires |pieces| == |gaps| + 1
    ensures Weave([""] + pieces, [gap] + gaps) == gap + Weave(pieces, gaps)
  {
    assert ([""] + pieces)[1..] == pieces && ([gap] + gaps)[1..] == gaps;
    assert "" + gap == gap;
  }

  lemma WeaveLetter(c: char, pieces: seq<string>, gaps: seq<string>)
    requires |pieces| == |gaps| + 1
    ensures Weave([[c] + pieces[0]] + pieces[1..], gaps) == [c] + Weave(pieces, gaps)
  {
    assert ([[c] + pieces[0]] + pieces[1..])[1..] == pieces[1..];
  }

  lemma {:induction false} GlobFromGaps(pat: string, s: string, gaps: seq<string>)
    requires |gaps| + 1 == |Pieces(pat)| && Weave(Pieces(pat), gaps) == s
    ensures Glob(pat, s)
    decreases |pat|
  {
    if pat == "" {
    } else if pat[0] == STAR {
      assert gaps == [gaps[0]] + gaps[1..];
      WeaveStar(Pieces(pat[1..]), gaps[0], gaps[1..]);
      var rest := Weave(Pieces(pat[1..]), gaps[1..]);
      GlobFromGaps(pat[1..], rest, gaps[1..]);
      StarAbsorbs(pat, gaps[0], rest);
    } else {
      WeaveLetter(pat[0], Pieces(pat[1..]), gaps);
      var rest := Weave(Pieces(pat[1..]), gaps);
      assert s[1..] == rest;
      GlobFromGaps(pat[1..], rest, gaps);
    }
  }

  lemma {:induction false} StarAbsorbs(pat: string, gap: string, rest: string)
    requires pat != "" && pat[0] == STAR && (Glob(pat[1..], rest) || Glob(pat, rest))
    ensures Glob(pat, gap + rest)
    decreases |gap|
  {
    if gap == "" {
      assert gap + rest == rest;
    } else {
      StarAbsorbs(pat, gap[1..], rest);
      assert (gap + rest)[1..] == gap[1..] + rest;
    }
  }

  lemma {:induction false} GapsFromGlob(pat: string, s: string) returns (gaps: seq<string>)
    requires Glob(pat, s)
    ensures |gaps| + 1 == |Pieces(pat)| && Weave(Pieces(pat), gaps) == s
    decreases |pat|, |s|
  {
    if pat == "" {
      gaps := [];
    } else if pat[0] == STAR && Glob(pat[1..], s) {
      var rest := GapsFromGlob(pat[1..], s);
      gaps := [""] + rest;
      WeaveStar(Pieces(pat[1..]), "", rest);
      assert "" + s == s;
    } else if pat[0] == STAR {
      var more := GapsFromGlob(pat, s[1..]);
      gaps := GrowGap(pat, s, more);
    } else {
      gaps := GapsFromGlob(pat[1..], s[1..]);
      WeaveLetter(pat[0], Pieces(pat[1..]), gaps);
      assert s == [s[0]] + s[1..];
    }
  }

  /** The star that produced s[1..] also produces s, its gap one letter longer. */
  lemma GrowGap(pat: string, s: string, more: seq<string>) returns (gaps: seq<string>)
    requires pat != "" && pat[0] == STAR && s != ""
    requires |more| + 1 == |Pieces(pat)| && Weave(Pieces(pat), more) == s[1..]
    ensures |gaps| + 1 == |Pieces(pat)| && Weave(Pieces(pat), gaps) == s
  {
    var ps, tail := Pieces(pat[1..]), more[1..];
    assert more == [more[0]] + tail;
    WeaveStar(ps, more[0], tail);
    gaps := [[s[0]] + more[0]] + tail;
    WeaveStar(ps, [s[0]] + more[0], tail);
    assert s == [s[0]] + s[1..];
  }

  lemma GlobIsMatches(pat: string, s: string)
    ensures Glob(pat, s) <==> Matches(pat, s)
  {
    if Glob(pat, s) {
      var gaps := GapsFromGlob(pat, s);
    }
    if Matches(pat, s) {
      var gaps: seq<string> :| |gaps| + 1 == |Pieces(pat)| && Weave(Pieces(pat), gaps) == s;
      GlobFromGaps(pat, s, gaps);
    }
  }

  // ---------- globMatch ----------

  ghost predicate Literal(pat: string) { STAR !in pat }

  lemma {:induction false} GlobLiteralPrefix(lit: string, rest: string, s: string)
    requires Literal(lit)
    ensures Glob(lit + rest, s) <==> lit <= s && Glob(rest, s[|lit|..])
    decreases |lit|
  {
    if lit == "" {
      assert lit + rest == rest && s[0..] == s;
    } else {
      assert (lit + rest)[1..] == lit[1..] + rest;
      if s != "" {
        GlobLiteralPrefix(lit[1..], rest, s[1..]);
        assert lit == [lit[0]] + lit[1..] && s == [s[0]] + s[1..];
        if s[0] == lit[0] && lit[1..] <= s[1..] {
          assert s[1..][|lit[1..]|..] == s[|lit|..];
        }
      }
    }
  }

  lemma GlobLiteral(pat: string, s: string)
    requires Literal(pat)
    ensures Glob(pat, s) <==> pat == s
  {
    GlobLiteralPrefix(pat, "", s);
    assert pat + "" == pat;
  }

  lemma {:induction false} GlobStar(rest: string, s: string)
    ensures Glob([STAR] + rest, s) <==> exists j :: 0 <= j <= |s| && Glob(rest, s[j..])
    decreases |s|
  {
    var pat := [STAR] + rest;
    assert pat[1..] == rest;
    assert s[0..] == s;
    if s != "" {
      GlobStar(rest, s[1..]);
      if Glob(pat, s[1..]) {
        var j :| 0 <= j <= |s[1..]| && Glob(rest, s[1..][j..]);
        assert s[1..][j..] == s[j + 1..];
      }
      if exists j :: 0 <= j <= |s| && Glob(rest, s[j..]) {
        var j :| 0 <= j <= |s| && Glob(rest, s[j..]);
        if j > 0 {
          assert s[1..][j - 1..] == s[j..];
        }
      }
    }
  }

  method IndexStar(pat: string) returns (i: int)
    ensures i < 0 ==> Literal(pat)
    ensures i >= 0 ==> i < |pat| && pat[i] == STAR && Literal(pat[..i])
  {
    i := 0;
    while i < |pat|
      invariant 0 <= i <= |pat| && Literal(pat[..i])
    {
      if pat[i] == STAR {
        return;
      }
      i := i + 1;
    }
    assert pat[..i] == pat;
    i := -1;
  }

  /** globMatch: fixed prefix, then every split point for the first star. */
  method GlobMatch(pat: string, s: string) returns (b: bool)
    ensures b <==> Glob(pat, s)
    ensures b <==> Matches(pat, s)
    decreases |pat|, 1
  {
    var i := IndexStar(pat);
    if i < 0 {
      GlobLiteral(pat, s);
      GlobIsMatches(pat, s);
      return pat == s;
    }
    var prefix, rest := pat[..i], pat[i + 1..];
    StarSplits(pat, i, s);
    if !(prefix <= s) {
      GlobIsMatches(pat, s);
      return false;
    }
    b := MatchAnySuffix(rest, s[i..]);
    GlobIsMatches(pat, s);
  }

  lemma StarSplits(pat: string, i: nat, s: string)
    requires i < |pat| && pat[i] == STAR && Literal(pat[..i])
    ensures Glob(pat, s) <==> pat[..i] <= s && Glob([STAR] + pat[i + 1..], s[i..])
  {
    assert pat == pat[..i] + ([STAR] + pat[i + 1..]);
    GlobLiteralPrefix(pat[..i], [STAR] + pat[i + 1..], s);
  }

  /** The loop of globMatch: some suffix of the text matches what follows the star. */
  method MatchAnySuffix(rest: string, t: string) returns (b: bool)
    ensures b <==> Glob([STAR] + rest, t)
    decreases |rest| + 1, 0
  {
    GlobStar(rest, t);
    var j := 0;
    while j <= |t|
      invariant 0 <= j <= |t| + 1
      invariant forall k :: 0 <= k < j ==> !Glob(rest, t[k..])
    {
      var here := GlobMatch(rest, t[j..]);
      if here {
        return true;
      }
      j := j + 1;
    }
    b := false;
  }

  // ---------- matchSegment ----------

  /** A star that already faces its literal may commit to it: a later occurrence
      can match nothing the first one cannot. */
  lemma CommitLiteral(lit: string, rest: string, s: string)
    requires Literal(lit) && lit <= s && rest != "" && rest[0] == STAR
    ensures Glob([STAR] + (lit + rest), s) <==> Glob(rest, s[|lit|..])
  {
    GlobStar(lit + rest, s);
    GlobLiteralPrefix(lit, rest, s);
    assert s[0..] == s;
    if Glob([STAR] + (lit + rest), s) {
      var j :| 0 <= j <= |s| && Glob(lit + rest, s[j..]);
      GlobLiteralPrefix(lit, rest, s[j..]);
      var tail := s[j..][|lit|..];
      assert s[|lit|..] == s[|lit|..j + |lit|] + tail;
      StarAbsorbs(rest, s[|lit|..j + |lit|], tail);
    }
  }

  /** The last star facing a literal that does not fit here must move on by one. */
  lemma AdvanceStar(lit: string, rest: string, s: string)
    requires Literal(lit) && s != "" && !Glob(lit + rest, s)
    ensures Glob([STAR] + (lit + rest), s) <==> Glob([STAR] + (lit + rest), s[1..])
  {
    assert ([STAR] + (lit + rest))[1..] == lit + rest;
  }

  function Letters(pat: string): nat {
    if pat == "" then 0 else (if pat[0] == STAR then 0 else 1) + Letters(pat[1..])
  }

  lemma {:induction false} GlobNeedsLetters(pat: string, s: string)
    requires Glob(pat, s)
    ensures Letters(pat) <= |s|
    decreases |pat|, |s|
  {
    if pat == "" {
    } else if pat[0] == STAR {
      if Glob(pat[1..], s) {
        GlobNeedsLetters(pat[1..], s);
      } else {
        GlobNeedsLetters(pat, s[1..]);
      }
    } else {
      GlobNeedsLetters(pat[1..], s[1..]);
    }
  }

  ghost predicate OnlyStars(pat: string) { forall i :: 0 <= i < |pat| ==> pat[i] == STAR }

  lemma {:induction false} GlobEmpty(pat: string)
    ensures Glob(pat, "") <==> OnlyStars(pat)
    decreases |pat|
  {
    if pat != "" {
      GlobEmpty(pat[1..]);
      assert pat == [pat[0]] + pat[1..];
    }
  }

  lemma {:induction false} LettersOf(pat: string)
    ensures Letters(pat) == 0 <==> OnlyStars(pat)
    decreases |pat|
  {
    if pat != "" {
      LettersOf(pat[1..]);
      assert pat == [pat[0]] + pat[1..];
    }
  }

  lemma {:induction false} LettersConcat(a: string, b: string)
    ensures Letters(a + b) == Letters(a) + Letters(b)
    ensures Literal(a) ==> Letters(a) == |a|
    decreases |a|
  {
    if a == "" {
      assert a + b == b;
    } else {
      assert (a + b)[1..] == a[1..] + b;
      assert a == [a[0]] + a[1..];
      LettersConcat(a[1..], b);
    }
  }

  /** When the text is used up right after the literal, only stars may remain. */
  lemma TextUsedUp(lit: string, rest: string)
    requires Literal(lit)
    ensures Glob([STAR] + (lit + rest), lit) <==> OnlyStars(rest)
  {
    GlobLiteralPrefix(lit, rest, lit);
    assert lit[|lit|..] == "";
    GlobEmpty(rest);
    var pat := [STAR] + (lit + rest);
    assert pat[1..] == lit + rest;
    if Glob(pat, lit) {
      GlobNeedsLetters(pat, lit);
      LettersConcat(lit, rest);
      LettersOf(rest);
    }
  }

  /** The state of the greedy loop: what is left to decide. Before any star the two
      pointers move together; afterwards the text from `matched` to `s` equals the
      pattern from the last star to `p`. */
  ghost predicate Greedy(pat: string, seg: string, s: nat, p: nat, star: int, matched: nat) {
    && s <= |seg| && p <= |pat| && -1 <= star < p
    && (if star == -1 then Glob(pat, seg) <==> Glob(pat[p..], seg[s..])
        else
          && 0 <= star < p <= |pat| && pat[star] == STAR && Literal(pat[star + 1..p])
          && matched <= s && seg[matched..s] == pat[star + 1..p]
          && (Glob(pat, seg) <==> Glob(pat[star..], seg[matched..])))
  }

  lemma GreedyStar(pat: string, seg: string, s: nat, p: nat, star: int, matched: nat)
    requires Greedy(pat, seg, s, p, star, matched) && p < |pat| && pat[p] == STAR
    ensures Greedy(pat, seg, s, p + 1, p, s)
  {
    assert seg[s..s] == pat[p + 1..p + 1];
    if star >= 0 {
      var lit, rest := pat[star + 1..p], pat[p..];
      assert pat[star..] == [STAR] + (lit + rest);
      assert seg[matched..][..|lit|] == lit;
      assert seg[matched..][|lit|..] == seg[s..];
      CommitLiteral(lit, rest, seg[matched..]);
    }
  }

  lemma GreedyLetter(pat: string, seg: string, s: nat, p: nat, star: int, matched: nat)
    requires Greedy(pat, seg, s, p, star, matched) && s < |seg|
    requires p < |pat| && pat[p] != STAR && pat[p] == seg[s]
    ensures Greedy(pat, seg, s + 1, p + 1, star, matched)
  {
    if star == -1 {
      assert pat[p..][1..] == pat[p + 1..] && seg[s..][1..] == seg[s + 1..];
    } else {
      assert pat[star + 1..p + 1] == pat[star + 1..p] + [pat[p]];
      assert seg[matched..s + 1] == seg[matched..s] + [seg[s]];
    }
  }

  lemma GreedyBacktrack(pat: string, seg: string, s: nat, p: nat, star: int, matched: nat)
    requires Greedy(pat, seg, s, p, star, matched) && s < |seg| && star != -1
    requires p < |pat| ==> pat[p] != STAR && pat[p] != seg[s]
    ensures Greedy(pat, seg, matched + 1, star + 1, star, matched + 1)
  {
    var lit, rest, t := pat[star + 1..p], pat[p..], seg[matched..];
    assert pat[star..] == [STAR] + (lit + rest);
    assert t[..|lit|] == lit && t[|lit|..] == seg[s..];
    GlobLiteralPrefix(lit, rest, t);
    AdvanceStar(lit, rest, t);
    assert t[1..] == seg[matched + 1..];
    assert seg[matched + 1..matched + 1] == pat[star + 1..star + 1];
  }

  lemma GreedyMismatch(pat: string, seg: string, s: nat, p: nat, matched: nat)
    requires Greedy(pat, seg, s, p, -1, matched) && s < |seg|
    requires p < |pat| ==> pat[p] != STAR && pat[p] != seg[s]
    ensures !Glob(pat, seg)
  {
    if p < |pat| {
      assert pat[p..][0] == pat[p];
    }
  }

  lemma GreedyEnd(pat: string, seg: string, p: nat, star: int, matched: nat)
    requires Greedy(pat, seg, |seg|, p, star, matched)
    ensures Glob(pat, seg) <==> OnlyStars(pat[p..])
  {
    if star == -1 {
      assert seg[|seg|..] == "";
      GlobEmpty(pat[p..]);
    } else {
      var lit, rest := pat[star + 1..p], pat[p..];
      assert pat[star..] == [STAR] + (lit + rest);
      assert seg[matched..] == seg[matched..|seg|] == lit;
      TextUsedUp(lit, rest);
    }
  }

  /** matchSegment: the greedy two-pointer match with backtracking to the most
      recent star decides the declarative relation, and terminates. */
  method MatchSegment(pat: string, seg: string) returns (b: bool)
    ensures b <==> Matches(pat, seg)
  {
    GlobIsMatches(pat, seg);
    if STAR !in pat {
      GlobLiteral(pat, seg);
      return pat == seg;
    }
    b := GreedyMatch(pat, seg);
  }

  /** The two loops of matchSegment. */
  method GreedyMatch(pat: string, seg: string) returns (b: bool)
    ensures b <==> Glob(pat, seg)
  {
    var s, p, star, matched := 0, 0, -1, 0;
    assert pat[0..] == pat && seg[0..] == seg;
    while s < |seg|
      invariant Greedy(pat, seg, s, p, star, matched)
      decreases |pat| - star, |seg| - matched, |seg| - s
    {
      if p < |pat| && pat[p] == STAR {
        GreedyStar(pat, seg, s, p, star, matched);
        star, matched := p, s;
        p := p + 1;
      } else if p < |pat| && pat[p] == seg[s] {
        GreedyLetter(pat, seg, s, p, star, matched);
        p := p + 1;
        s := s + 1;
      } else if star != -1 {
        GreedyBacktrack(pat, seg, s, p, star, matched);
        p := star + 1;
        matched := matched + 1;
        s := matched;
      } else {
        GreedyMismatch(pat, seg, s, p, matched);
        return false;
      }
    }
    GreedyEnd(pat, seg, p, star, matched);
    b := StarsToEnd(pat, p);
  }

  /** The closing loop of matchSegment. */
  method StarsToEnd(pat: string, start: nat) returns (b: bool)
    requires start <= |pat|
    ensures b <==> OnlyStars(pat[start..])
  {
    var p := start;
    while p < |pat| && pat[p] == STAR
      invariant start <= p <= |pat|
      invariant forall i :: start <= i < p ==> pat[i] == STAR
    {
      p := p + 1;
    }
    b := p == |pat|;
    if p < |pat| {
      assert pat[start..][p - start] == pat[p];
    }
  }

  // ---------- matchSegments ----------

  const DOUBLE_STAR := "**"

  function Flatten(blocks: seq<seq<string>>): seq<string> {
    if blocks == [] then [] else blocks[0] + Flatten(blocks[1..])
  }

  ghost predicate Covers(pat: string, block: seq<string>) {
    pat == DOUBLE_STAR || (|block| == 1 && Matches(pat, block[0]))
  }

  /** The path splits into one block of segments per pattern segment: any block for
      `**`, a single matching segment for everything else. */
  ghost predicate Splits(pat: seq<string>, seg: seq<string>) {
    exists blocks: seq<seq<string>> :: Flatten(blocks) == seg && CoversAll(pat, blocks)
  }

  lemma SplitsNil(seg: seq<string>)
    ensures Splits([], seg) <==> seg == []
  {
    if seg == [] {
      var blocks: seq<seq<string>> := [];
      assert Flatten(blocks) == seg && CoversAll([], blocks);
    }
  }

  ghost predicate CoversAll(pat: seq<string>, blocks: seq<seq<string>>) {
    |blocks| == |pat| && forall i :: 0 <= i < |pat| ==> Covers(pat[i], blocks[i])
  }

  lemma CoversCons(pat: seq<string>, blocks: seq<seq<string>>)
    requires pat != [] && |blocks| == |pat|
    ensures CoversAll(pat, blocks) <==> Covers(pat[0], blocks[0]) && CoversAll(pat[1..], blocks[1..])
  {
    assert forall i :: 0 <= i < |pat| - 1 ==> pat[1..][i] == pat[i + 1] && blocks[1..][i] == blocks[i + 1];
    if Covers(pat[0], blocks[0]) && CoversAll(pat[1..], blocks[1..]) {
      forall i | 0 <= i < |pat| ensures Covers(pat[i], blocks[i]) {
        if i > 0 {
          assert Covers(pat[1..][i - 1], blocks[1..][i - 1]);
        }
      }
    }
    if CoversAll(pat, blocks) {
      forall i | 0 <= i < |pat[1..]| ensures Covers(pat[1..][i], blocks[1..][i]) {
        assert Covers(pat[i + 1], blocks[i + 1]);
      }
    }
  }

  lemma SplitsCons(pat: seq<string>, seg: seq<string>, k: nat)
    requires pat != [] && k <= |seg| && Covers(pat[0], seg[..k]) && Splits(pat[1..], seg[k..])
    ensures Splits(pat, seg)
  {
    var rest: seq<seq<string>> :| Flatten(rest) == seg[k..] && CoversAll(pat[1..], rest);
    var blocks := [seg[..k]] + rest;
    assert blocks[1..] == rest;
    assert Flatten(blocks) == seg[..k] + seg[k..] == seg;
    CoversCons(pat, blocks);
  }

  lemma SplitsUncons(pat: seq<string>, seg: seq<string>) returns (k: nat)
    requires pat != [] && Splits(pat, seg)
    ensures k <= |seg| && Covers(pat[0], seg[..k]) && Splits(pat[1..], seg[k..])
  {
    var blocks: seq<seq<string>> :| Flatten(blocks) == seg && CoversAll(pat, blocks);
    k := |blocks[0]|;
    CoversCons(pat, blocks);
    assert seg[..k] == blocks[0] && seg[k..] == Flatten(blocks[1..]);
  }

  /** matchSegments: a loop over plain segments, a recursive search at each `**`. */
  method MatchSegments(pattern: seq<string>, segments: seq<string>) returns (b: bool)
    ensures b <==> Splits(pattern, segments)
    decreases |pattern|, 1
  {
    var pat, seg := pattern, segments;
    while |pat| > 0
      invariant |pat| <= |pattern|
      invariant Splits(pattern, segments) <==> Splits(pat, seg)
      decreases |pat|
    {
      if pat[0] == DOUBLE_STAR {
        b := MatchTail(pat, seg);
        return;
      }
      if |seg| == 0 {
        if Splits(pat, seg) {
          var k := SplitsUncons(pat, seg);
        }
        return false;
      }
      var here := MatchSegment(pat[0], seg[0]);
      StepSegment(pat, seg, here);
      if !here {
        return false;
      }
      pat, seg := pat[1..], seg[1..];
    }
    SplitsNil(seg);
    b := |seg| == 0;
  }

  lemma StepSegment(pat: seq<string>, seg: seq<string>, here: bool)
    requires pat != [] && seg != [] && pat[0] != DOUBLE_STAR && (here <==> Matches(pat[0], seg[0]))
    ensures Splits(pat, seg) <==> here && Splits(pat[1..], seg[1..])
  {
    if here && Splits(pat[1..], seg[1..]) {
      assert Covers(pat[0], seg[..1]);
      SplitsCons(pat, seg, 1);
    }
    if Splits(pat, seg) {
      var k := SplitsUncons(pat, seg);
      assert k == 1 && seg[..1][0] == seg[0];
    }
  }

  /** The `**` case: try every number of segments for it. */
  method MatchTail(pat: seq<string>, seg: seq<string>) returns (b: bool)
    requires pat != [] && pat[0] == DOUBLE_STAR
    ensures b <==> Splits(pat, seg)
    decreases |pat|, 0
  {
    var i := 0;
    while i <= |seg|
      invariant 0 <= i <= |seg| + 1
      invariant forall k :: 0 <= k < i ==> !Splits(pat[1..], seg[k..])
    {
      b := MatchSegments(pat[1..], seg[i..]);
      if b {
        SplitsCons(pat, seg, i);
        return;
      }
      i := i + 1;
    }
    if Splits(pat, seg) {
      var k := SplitsUncons(pat, seg);
    }
    b := false;
  }
}
