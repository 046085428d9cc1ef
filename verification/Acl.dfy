/** Path ACLs: an in-place sort at compile time plus first match at evaluation
    time is longest-prefix-wins. */
module Acl {
  import opened Common
  import PathGlob
  import opened StableSort

  /** Any string: compiling a rule list does not check its access levels. */
  type Access = string

  const DENY: Access := "deny"

  datatype Rule = Rule(path: string, access: Access)

  /** The suffix that makes a pattern cover a whole subtree: slash, star, star. */
  const SUBTREE := ['/', '*', '*']

  predicate IsSubtree(pattern: string) {
    |pattern| >= |SUBTREE| && pattern[|pattern| - |SUBTREE|..] == SUBTREE
  }

  /** The pattern without its subtree suffix, as strings.TrimSuffix leaves it. */
  function Stripped(pattern: string): string {
    if IsSubtree(pattern) then pattern[..|pattern| - |SUBTREE|] else pattern
  }

  function EffectiveLen(r: Rule): nat { |Stripped(r.path)| }

  predicate Covers(r: Rule, p: string) {
    if IsSubtree(r.path) then p == Stripped(r.path) || Stripped(r.path) + "/" <= p else p == r.path
  }

  /** What a rule says about a path, by segments: slash, star, star at the end covers
      the directory before it and everything whose segments start with the directory's;
      anything else covers one path. */
  ghost predicate SegmentsCover(r: Rule, p: string) {
    var n := |r.path|;
    if n >= 3 && r.path[n - 3] == '/' && r.path[n - 2] == '*' && r.path[n - 1] == '*'
    then PathGlob.Split(r.path[..n - 3]) <= PathGlob.Split(p)
    else p == r.path
  }

  lemma CoversMeans(r: Rule, p: string)
    ensures Covers(r, p) <==> SegmentsCover(r, p)
  {
    var n := |r.path|;
    if n >= 3 {
      assert r.path[n - 3..] == [r.path[n - 3], r.path[n - 2], r.path[n - 1]];
      PathGlob.SegmentsExtend(r.path[..n - 3], p);
    }
  }

  // ---------- Normalising the asked path ----------

  /** path.Clean on a rooted path: empty and "." segments vanish, ".." climbs. */
  function Resolve(parts: seq<string>, stack: seq<string>): seq<string>
    decreases |parts|
  {
    if parts == [] then stack
    else if parts[0] == "" || parts[0] == "." then Resolve(parts[1..], stack)
    else if parts[0] == ".." then Resolve(parts[1..], if stack == [] then [] else stack[..|stack| - 1])
    else Resolve(parts[1..], stack + [parts[0]])
  }

  function Clean(p: string): string { PathGlob.Join([""] + Ensure(Resolve(PathGlob.Split(p), []))) }

  /** The root itself is "/": one empty segment after the slash. */
  function Ensure(parts: seq<string>): (r: seq<string>)
    ensures r != []
  {
    if parts == [] then [""] else parts
  }

  ghost predicate Plain(parts: seq<string>) {
    forall i :: 0 <= i < |parts| ==>
      parts[i] != "" && parts[i] != "." && parts[i] != ".." && PathGlob.SLASH !in parts[i]
  }

  lemma {:induction false} ResolvePlain(parts: seq<string>, stack: seq<string>)
    requires Plain(stack) && forall i :: 0 <= i < |parts| ==> PathGlob.SLASH !in parts[i]
    ensures Plain(Resolve(parts, stack))
    decreases |parts|
  {
    if parts != [] {
      var rest := parts[1..];
      if parts[0] == "" || parts[0] == "." {
        ResolvePlain(rest, stack);
      } else if parts[0] == ".." {
        ResolvePlain(rest, if stack == [] then [] else stack[..|stack| - 1]);
      } else {
        ResolvePlain(rest, stack + [parts[0]]);
      }
    }
  }

  lemma {:induction false} ResolveKeepsPlain(parts: seq<string>, stack: seq<string>)
    requires Plain(parts)
    ensures Resolve(parts, stack) == stack + parts
    decreases |parts|
  {
    if parts != [] {
      ResolveKeepsPlain(parts[1..], stack + [parts[0]]);
      assert stack + [parts[0]] + parts[1..] == stack + parts;
    }
  }

  /** Cleaning twice is cleaning once, so a verdict depends on the clean path only. */
  lemma CleanIsIdempotent(p: string)
    ensures Clean(Clean(p)) == Clean(p)
  {
    var parts := PathGlob.Split(p);
    PathGlob.SplitJoin(p);
    var segs := Resolve(parts, []);
    ResolvePlain(parts, []);
    var shown := [""] + Ensure(segs);
    PathGlob.SplitOfJoin(shown);
    if segs == [] {
      assert shown == ["", ""];
      assert Resolve(["", ""], []) == Resolve([""], []) by {
        assert ["", ""][1..] == [""];
      }
      assert [""][1..] == [];
      assert Resolve([""], []) == [];
    } else {
      assert shown[1..] == segs;
      ResolveKeepsPlain(segs, []);
      assert [] + segs == segs;
    }
  }

  lemma {:induction false} ResolveConcat(a: seq<string>, b: seq<string>, stack: seq<string>)
    ensures Resolve(a + b, stack) == Resolve(b, Resolve(a, stack))
    decreases |a|
  {
    if a == [] {
      assert a + b == b;
    } else {
      assert (a + b)[0] == a[0] && (a + b)[1..] == a[1..] + b;
      ResolveConcat(a[1..], b, if a[0] == "" || a[0] == "." then stack
                               else if a[0] == ".." then (if stack == [] then [] else stack[..|stack| - 1])
                               else stack + [a[0]]);
    }
  }

  /** Two ways to write the segments of a path that resolve alike. */
  lemma SameClean(a: string, mid: seq<string>, b: string, p: string, q: string)
    requires PathGlob.Split(p) == PathGlob.Split(a) + mid + PathGlob.Split(b)
    requires PathGlob.Split(q) == PathGlob.Split(a) + PathGlob.Split(b)
    requires forall stack: seq<string> :: Resolve(mid, stack) == stack
    ensures Clean(p) == Clean(q)
  {
    var sa, sb := PathGlob.Split(a), PathGlob.Split(b);
    ResolveConcat(sa + mid, sb, []);
    ResolveConcat(sa, mid, []);
    ResolveConcat(sa, sb, []);
  }

  lemma ClimbSegments(a: string, x: string, b: string)
    requires '/' !in x
    ensures PathGlob.Split(a + "/" + x + "/../" + b) == PathGlob.Split(a) + [x, ".."] + PathGlob.Split(b)
  {
    var tail := ".." + "/" + b;
    assert a + "/" + x + "/../" + b == (a + "/" + x) + "/" + tail;
    PathGlob.SplitAtSlash(a + "/" + x, tail);
    PathGlob.SplitAtSlash(a, x);
    PathGlob.SplitAtSlash("..", b);
    PathGlob.SplitNothing(x);
    PathGlob.SplitNothing("..");
    var sa, sb := PathGlob.Split(a), PathGlob.Split(b);
    assert (sa + [x]) + ([".."] + sb) == sa + [x, ".."] + sb;
  }

  /** Going into a directory and back out again changes nothing. */
  lemma CleanClimbs(a: string, x: string, b: string)
    requires x != "" && x != "." && x != ".." && '/' !in x
    ensures Clean(a + "/" + x + "/../" + b) == Clean(a + "/" + b)
  {
    ClimbSegments(a, x, b);
    PathGlob.SplitAtSlash(a, b);
    forall stack: seq<string> ensures Resolve([x, ".."], stack) == stack {
      assert [x, ".."][1..] == [".."] && [".."][1..] == [];
      assert (stack + [x])[..|stack|] == stack;
    }
    SameClean(a, [x, ".."], b, a + "/" + x + "/../" + b, a + "/" + b);
  }

  /** A dot and a doubled slash mean nothing. */
  lemma CleanSkips(a: string, x: string, b: string)
    requires x == "" || x == "."
    ensures Clean(a + "/" + x + "/" + b) == Clean(a + "/" + b)
  {
    PathGlob.SplitAtSlash(a + "/" + x, b);
    PathGlob.SplitAtSlash(a, x);
    PathGlob.SplitNothing(x);
    PathGlob.SplitAtSlash(a, b);
    forall stack: seq<string> ensures Resolve([x], stack) == stack {
      assert [x][1..] == [];
    }
    SameClean(a, [x], b, a + "/" + x + "/" + b, a + "/" + b);
  }

  /** There is nothing above the root. */
  lemma CleanStaysBelowRoot(b: string)
    ensures Clean("/../" + b) == Clean("/" + b)
  {
    var sb, tail := PathGlob.Split(b), ".." + "/" + b;
    assert "/../" + b == "" + "/" + tail && "/" + b == "" + "/" + b;
    PathGlob.SplitAtSlash("", tail);
    PathGlob.SplitAtSlash("..", b);
    PathGlob.SplitNothing("..");
    PathGlob.SplitNothing("");
    PathGlob.SplitAtSlash("", b);
    assert [""] + ([".."] + sb) == ["", ".."] + sb;
    ResolveConcat(["", ".."], sb, []);
    ResolveConcat([""], sb, []);
    assert ["", ".."][1..] == [".."] && [".."][1..] == [] && [""][1..] == [];
  }

  /** A path of plain segments is clean already. */
  lemma CleanKeepsPlain(segs: seq<string>)
    requires Plain(segs) && segs != []
    ensures Clean("/" + PathGlob.Join(segs)) == "/" + PathGlob.Join(segs)
  {
    var shown := [""] + segs;
    assert shown[1..] == segs;
    assert PathGlob.Join(shown) == "/" + PathGlob.Join(segs);
    PathGlob.SplitOfJoin(shown);
    ResolveKeepsPlain(segs, []);
    assert [] + segs == segs;
  }

  // ---------- Sorting ----------

  const RANK: Rule -> nat := r => EffectiveLen(r)

  /** sortByPrefixLengthDesc */
  method SortByPrefixLengthDesc(rs: array<Rule>)
    modifies rs
    ensures rs[..] == Sorted(old(rs[..]), RANK)
  {
    SortDesc(rs, RANK);
  }

  // ---------- Evaluation ----------

  /** The rules that cover `p`. */
  function Hits(p: string): Rule -> bool { r => Covers(r, p) }

  function Verdict(r: Option<Rule>): Access { if r.Some? then r.value.access else DENY }

  /** Compile and Eval together, on a clean path. */
  function Decide(rules: seq<Rule>, p: string): Access { Verdict(FirstHit(Sorted(rules, RANK), Hits(p))) }

  class ACLs {
    const rules: seq<Rule>

    /** Compile: copy, then sort the copy. */
    constructor (input: seq<Rule>)
      ensures rules == Sorted(input, RANK)
    {
      var out := new Rule[|input|](i requires 0 <= i < |input| => input[i]);
      assert out[..] == input;
      SortByPrefixLengthDesc(out);
      rules := out[..];
    }

    /** The first compiled rule that covers the cleaned path decides; deny if none does. */
    method Eval(p: string) returns (a: Access)
      ensures a == Verdict(FirstHit(rules, Hits(Clean(p))))
      ensures FirstCovering(rules, Clean(p), a)
    {
      var q := Clean(p);
      assert rules[0..] == rules;
      for i := 0 to |rules|
        invariant FirstHit(rules, Hits(q)) == FirstHit(rules[i..], Hits(q))
        invariant forall j :: 0 <= j < i ==> !SegmentsCover(rules[j], q)
      {
        assert rules[i..][0] == rules[i] && rules[i..][1..] == rules[i + 1..];
        CoversMeans(rules[i], q);
        if Covers(rules[i], q) {
          return rules[i].access;
        }
      }
      a := DENY;
    }
  }

  /** `a` is the access of the first rule that covers the path by segments, or deny. */
  ghost predicate FirstCovering(rules: seq<Rule>, p: string, a: Access) {
    || (exists i :: 0 <= i < |rules| && SegmentsCover(rules[i], p) && a == rules[i].access
          && forall j :: 0 <= j < i ==> !SegmentsCover(rules[j], p))
    || (a == "deny" && forall i :: 0 <= i < |rules| ==> !SegmentsCover(rules[i], p))
  }

  /** Longest prefix wins, the earliest rule on ties: the verdict is the access of
      the winning rule, and deny exactly when the winner denies or no rule covers. */
  lemma LongestPrefixWins(rules: seq<Rule>, p: string)
    ensures forall k: nat :: Wins(rules, k, Hits(p), RANK) ==> Decide(rules, p) == rules[k].access
    ensures (forall j :: 0 <= j < |rules| ==> !Covers(rules[j], p)) ==> Decide(rules, p) == DENY
    ensures (exists j :: 0 <= j < |rules| && Covers(rules[j], p)) ==> exists k: nat :: Wins(rules, k, Hits(p), RANK)
  {
    FirstHitIsWinner(rules, Hits(p), RANK);
    if FirstHit(Sorted(rules, RANK), Hits(p)).Some? {
      var w: nat :| Wins(rules, w, Hits(p), RANK) && rules[w] == FirstHit(Sorted(rules, RANK), Hits(p)).value;
      assert Hits(p)(rules[w]) && Covers(rules[w], p);
      forall k: nat | Wins(rules, k, Hits(p), RANK) ensures k == w {
        OneWinner(rules, k, w, Hits(p), RANK);
      }
    } else {
      NoneCovers(rules, p);
    }
  }

  /** The rule that decides, on the rules as written: its segments cover the path and
      nothing that does has a longer path, or an equally long one further up. Lengths
      do not count a final slash, star, star. */
  ghost predicate Deciding(rules: seq<Rule>, p: string, k: nat) {
    && k < |rules| && SegmentsCover(rules[k], p)
    && forall j :: 0 <= j < |rules| && SegmentsCover(rules[j], p) ==>
         Length(rules[j]) < Length(rules[k]) || (Length(rules[j]) == Length(rules[k]) && k <= j)
  }

  ghost function Length(r: Rule): int {
    var n := |r.path|;
    if n >= 3 && r.path[n - 3] == '/' && r.path[n - 2] == '*' && r.path[n - 1] == '*' then n - 3 else n
  }

  lemma DecidingWins(rules: seq<Rule>, p: string, k: nat)
    ensures Deciding(rules, p, k) <==> Wins(rules, k, Hits(p), RANK)
  {
    forall j | 0 <= j < |rules|
      ensures Hits(p)(rules[j]) <==> SegmentsCover(rules[j], p)
      ensures RANK(rules[j]) == Length(rules[j])
    {
      CoversMeans(rules[j], p);
      var n := |rules[j].path|;
      if n >= 3 {
        assert rules[j].path[n - 3..] == [rules[j].path[n - 3], rules[j].path[n - 2], rules[j].path[n - 1]];
      }
    }
  }

  /** Compile and Eval give the access of the deciding rule, and deny if there is none. */
  lemma DecidingRuleDecides(rules: seq<Rule>, p: string)
    ensures forall k: nat :: Deciding(rules, p, k) ==> Decide(rules, p) == rules[k].access
    ensures (exists k: nat :: Deciding(rules, p, k)) || Decide(rules, p) == "deny"
    ensures (exists k: nat :: Deciding(rules, p, k)) <==> exists j :: 0 <= j < |rules| && SegmentsCover(rules[j], p)
  {
    LongestPrefixWins(rules, p);
    forall k: nat ensures Deciding(rules, p, k) <==> Wins(rules, k, Hits(p), RANK) {
      DecidingWins(rules, p, k);
    }
    forall j | 0 <= j < |rules| ensures Covers(rules[j], p) <==> SegmentsCover(rules[j], p) {
      CoversMeans(rules[j], p);
    }
    if exists j :: 0 <= j < |rules| && Covers(rules[j], p) {
      var k: nat :| Wins(rules, k, Hits(p), RANK);
      assert Deciding(rules, p, k);
    }
  }

  lemma NoneCovers(rules: seq<Rule>, p: string)
    requires FirstHit(Sorted(rules, RANK), Hits(p)).None?
    ensures forall j :: 0 <= j < |rules| ==> !Covers(rules[j], p)
    ensures forall k: nat :: !Wins(rules, k, Hits(p), RANK)
  {
    FirstHitIsWinner(rules, Hits(p), RANK);
    assert forall j :: 0 <= j < |rules| ==> (Hits(p)(rules[j]) <==> Covers(rules[j], p));
  }

  /** Nothing is validated: in any list, whatever access string the winning rule for a
      path is given becomes the verdict. */
  lemma AnyAccessComesBack(rules: seq<Rule>, p: string, k: nat, access: Access)
    requires Wins(rules, k, Hits(p), RANK)
    ensures Decide(rules[k := Rule(rules[k].path, access)], p) == access
  {
    var changed := rules[k := Rule(rules[k].path, access)];
    forall j | 0 <= j < |rules|
      ensures Hits(p)(changed[j]) == Hits(p)(rules[j]) && RANK(changed[j]) == RANK(rules[j])
    {
      assert changed[j].path == rules[j].path;
    }
    assert Wins(changed, k, Hits(p), RANK);
    LongestPrefixWins(changed, p);
  }

  // ---------- Order independence ----------

  lemma CoveredPrefix(r: Rule, p: string)
    requires Covers(r, p)
    ensures EffectiveLen(r) <= |p| && Stripped(r.path) == p[..EffectiveLen(r)]
  {
    if IsSubtree(r.path) && p != Stripped(r.path) {
      assert Stripped(r.path) == (Stripped(r.path) + "/")[..EffectiveLen(r)];
    }
  }

  /** Two rules of one length that cover the same path have the same stripped path. */
  lemma SameLengthSamePath(a: Rule, b: Rule, p: string)
    requires Covers(a, p) && Covers(b, p) && EffectiveLen(a) == EffectiveLen(b)
    ensures Stripped(a.path) == Stripped(b.path)
  {
    CoveredPrefix(a, p);
    CoveredPrefix(b, p);
  }

  ghost predicate Longest(rules: seq<Rule>, p: string, r: Rule) {
    Covers(r, p) && forall x :: x in rules && Covers(x, p) ==> EffectiveLen(x) <= EffectiveLen(r)
  }

  /** The rules that tie for the path agree on its access. */
  ghost predicate TiesAgree(rules: seq<Rule>, p: string) {
    forall a, b :: a in rules && b in rules && Longest(rules, p, a) && Longest(rules, p, b) ==> a.access == b.access
  }

  ghost predicate OrderFree(rules: seq<Rule>, p: string) {
    forall other: seq<Rule> :: multiset(other) == multiset(rules) ==> Decide(other, p) == Decide(rules, p)
  }

  lemma SameElements(a: seq<Rule>, b: seq<Rule>)
    requires multiset(a) == multiset(b)
    ensures forall x :: x in a <==> x in b
  {
    forall x ensures x in a <==> x in b {
      assert x in a <==> x in multiset(a);
      assert x in b <==> x in multiset(b);
    }
  }

  /** Some longest rule gives the verdict, or nothing covers the path. */
  lemma VerdictSource(rules: seq<Rule>, p: string) returns (r: Option<Rule>)
    ensures r.Some? ==> r.value in rules && Longest(rules, p, r.value) && Decide(rules, p) == r.value.access
    ensures r.None? ==> Decide(rules, p) == DENY && forall x :: x in rules ==> !Covers(x, p)
  {
    LongestPrefixWins(rules, p);
    if exists j :: 0 <= j < |rules| && Covers(rules[j], p) {
      var k: nat :| Wins(rules, k, Hits(p), RANK);
      r := Some(rules[k]);
      assert Hits(p)(rules[k]) && Covers(rules[k], p);
      forall x | x in rules && Covers(x, p) ensures EffectiveLen(x) <= EffectiveLen(rules[k]) {
        var j :| 0 <= j < |rules| && rules[j] == x;
      }
    } else {
      r := None;
    }
  }

  lemma TiesAgreeSuffices(rules: seq<Rule>, other: seq<Rule>, p: string)
    requires TiesAgree(rules, p) && multiset(other) == multiset(rules)
    ensures Decide(other, p) == Decide(rules, p)
  {
    SameElements(rules, other);
    var a := VerdictSource(rules, p);
    var b := VerdictSource(other, p);
  }

  /** A permutation that puts a longest rule first makes it the verdict. */
  lemma LongestFirst(rules: seq<Rule>, p: string, r: Rule) returns (other: seq<Rule>)
    requires r in rules && Longest(rules, p, r)
    ensures multiset(other) == multiset(rules) && Decide(other, p) == r.access
  {
    var i :| 0 <= i < |rules| && rules[i] == r;
    other := [r] + (rules[..i] + rules[i + 1..]);
    assert rules == rules[..i] + [r] + rules[i + 1..];
    SameElements(rules, other);
    assert forall j :: 0 <= j < |other| ==> other[j] in other && other[j] in rules;
    assert forall x :: Hits(p)(x) <==> Covers(x, p);
    assert Wins(other, 0, Hits(p), RANK);
    LongestPrefixWins(other, p);
  }

  /** The verdict does not depend on the order of the rules exactly when the
      longest rules covering the path agree. */
  lemma OrderFreeIffTiesAgree(rules: seq<Rule>, p: string)
    ensures OrderFree(rules, p) <==> TiesAgree(rules, p)
  {
    if TiesAgree(rules, p) {
      forall other: seq<Rule> | multiset(other) == multiset(rules) ensures Decide(other, p) == Decide(rules, p) {
        TiesAgreeSuffices(rules, other, p);
      }
    } else {
      var a, b :| a in rules && b in rules && Longest(rules, p, a) && Longest(rules, p, b) && a.access != b.access;
      var x := LongestFirst(rules, p, a);
      var y := LongestFirst(rules, p, b);
    }
  }

  /** Distinct stripped paths are enough, for every path. */
  lemma DistinctPathsAreOrderFree(rules: seq<Rule>, p: string)
    requires forall a, b :: a in rules && b in rules && a != b ==> Stripped(a.path) != Stripped(b.path)
    ensures OrderFree(rules, p)
  {
    forall a, b | a in rules && b in rules && Longest(rules, p, a) && Longest(rules, p, b)
      ensures a.access == b.access
    {
      if a != b {
        SameLengthSamePath(a, b, p);
      }
    }
    OrderFreeIffTiesAgree(rules, p);
  }
}
