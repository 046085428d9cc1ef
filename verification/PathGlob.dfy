/** Path patterns: segments between slashes, "**" for any number of them. */
module PathGlob {
  import opened Glob

  const SLASH := '/'

  // ---------- matchGlob ----------

  /** strings.Split(s, "/") */
  function Split(s: string): (parts: seq<string>)
    ensures |parts| > 0
  {
    if s == "" then [""]
    else if s[0] == SLASH then [""] + Split(s[1..])
    else var ps := Split(s[1..]); [[s[0]] + ps[0]] + ps[1..]
  }

  function Join(parts: seq<string>): string
    requires parts != []
  {
    if |parts| == 1 then parts[0] else parts[0] + [SLASH] + Join(parts[1..])
  }

  ghost predicate PathMatches(pattern: string, path: string) {
    Splits(Split(pattern), Split(path))
  }

  method MatchGlob(pattern: string, path: string) returns (b: bool)
    ensures b <==> PathMatches(pattern, path)
  {
    b := MatchSegments(Split(pattern), Split(path));
  }

  /** Splitting at slashes loses nothing and leaves no slash inside a segment. */
  lemma {:induction false} SplitJoin(s: string)
    ensures Join(Split(s)) == s
    ensures forall i :: 0 <= i < |Split(s)| ==> '/' !in Split(s)[i]
    decreases |s|
  {
    if s != "" {
      SplitJoin(s[1..]);
      var ps := Split(s[1..]);
      assert s == [s[0]] + s[1..];
      if s[0] == SLASH {
        assert Split(s)[1..] == ps;
      } else {
        assert Split(s)[1..] == ps[1..];
        if |ps| > 1 {
          assert Join(Split(s)) == ([s[0]] + ps[0]) + [SLASH] + Join(ps[1..]);
        }
      }
    }
  }

  lemma {:induction false} SplitOfJoin(parts: seq<string>)
    requires parts != [] && forall i :: 0 <= i < |parts| ==> SLASH !in parts[i]
    ensures Split(Join(parts)) == parts
    decreases |parts|, |parts[0]|
  {
    var s := Join(parts);
    if parts[0] == "" {
      if |parts| > 1 {
        assert s[1..] == Join(parts[1..]);
        SplitOfJoin(parts[1..]);
      }
    } else {
      var fewer := [parts[0][1..]] + parts[1..];
      assert fewer[1..] == parts[1..];
      assert s == [parts[0][0]] + Join(fewer);
      assert s[1..] == Join(fewer);
      SplitOfJoin(fewer);
      assert [parts[0][0]] + fewer[0] == parts[0];
    }
  }

  /** Splitting cuts at every slash and nowhere else. */
  lemma {:induction false} SplitAtSlash(a: string, b: string)
    ensures Split(a + "/" + b) == Split(a) + Split(b)
    decreases |a|
  {
    if a == "" {
      assert a + "/" + b == "/" + b && ("/" + b)[1..] == b;
    } else {
      var t := a + "/" + b;
      assert t[0] == a[0] && t[1..] == a[1..] + "/" + b;
      SplitAtSlash(a[1..], b);
    }
  }

  lemma {:induction false} SplitNothing(a: string)
    requires '/' !in a
    ensures Split(a) == [a]
    decreases |a|
  {
    if a != "" {
      assert a == [a[0]] + a[1..];
      SplitNothing(a[1..]);
    }
  }

  lemma {:induction false} JoinConcat(a: seq<string>, b: seq<string>)
    requires a != [] && b != []
    ensures Join(a + b) == Join(a) + "/" + Join(b)
    decreases |a|
  {
    if |a| == 1 {
      assert a + b == [a[0]] + b && (a + b)[1..] == b;
    } else {
      assert (a + b)[1..] == a[1..] + b;
      JoinConcat(a[1..], b);
    }
  }

  /** One path lies at or below another exactly when its segments extend the other's. */
  lemma SegmentsExtend(base: string, p: string)
    ensures Split(base) <= Split(p) <==> p == base || base + "/" <= p
  {
    if base + "/" <= p {
      var rest := p[|base| + 1..];
      assert p == base + "/" + rest;
      SplitAtSlash(base, rest);
    }
    if Split(base) <= Split(p) {
      BelowByText(base, p);
    }
  }

  lemma BelowByText(base: string, p: string)
    requires Split(base) <= Split(p)
    ensures p == base || base + "/" <= p
  {
    SplitJoin(base);
    SplitJoin(p);
    var rest := Split(p)[|Split(base)|..];
    assert Split(p) == Split(base) + rest;
    if rest == [] {
      assert Split(p) == Split(base);
    } else {
      JoinConcat(Split(base), rest);
      assert p == base + "/" + Join(rest);
    }
  }

  // ---------- What path patterns mean ----------

  /** Without a "**" segment, segments match one to one: a star stays in its segment. */
  lemma {:induction false} PlainPattern(pat: seq<string>, seg: seq<string>)
    requires forall i :: 0 <= i < |pat| ==> pat[i] != "**"
    ensures Splits(pat, seg) <==> |pat| == |seg| && forall i :: 0 <= i < |pat| ==> Matches(pat[i], seg[i])
    decreases |pat|
  {
    if pat == [] {
      SplitsNil(seg);
    } else if seg == [] {
      if Splits(pat, seg) {
        var k := SplitsUncons(pat, seg);
      }
    } else {
      var here := MatchesHere(pat[0], seg[0]);
      StepSegment(pat, seg, here);
      PlainPattern(pat[1..], seg[1..]);
      assert pat == [pat[0]] + pat[1..] && seg == [seg[0]] + seg[1..];
    }
  }

  lemma MatchesHere(pat: string, s: string) returns (here: bool)
    ensures here <==> Matches(pat, s)
  {
    GlobIsMatches(pat, s);
    here := Glob.Glob(pat, s);
  }

  lemma LiteralMatches(pat: string, s: string)
    requires '*' !in pat
    ensures Matches(pat, s) <==> s == pat
  {
    GlobIsMatches(pat, s);
    GlobLiteral(pat, s);
  }

  lemma TailTakesAll(seg: seq<string>)
    ensures Splits(["**"], seg)
  {
    assert seg[..|seg|] == seg && seg[|seg|..] == [] && ["**"][1..] == [];
    SplitsNil([]);
    SplitsCons(["**"], seg, |seg|);
  }

  lemma PrefixByHead(a: seq<string>, b: seq<string>)
    requires a != [] && b != []
    ensures a <= b <==> a[0] == b[0] && a[1..] <= b[1..]
  {
    assert a == [a[0]] + a[1..] && b == [b[0]] + b[1..];
  }

  lemma {:induction false} LiteralThenAll(dir: seq<string>, seg: seq<string>)
    requires forall i :: 0 <= i < |dir| ==> '*' !in dir[i]
    ensures Splits(dir + ["**"], seg) <==> dir <= seg
    decreases |dir|
  {
    var pat := dir + ["**"];
    if dir == [] {
      assert pat == ["**"];
      TailTakesAll(seg);
    } else if seg == [] {
      if Splits(pat, seg) {
        var k := SplitsUncons(pat, seg);
      }
    } else {
      var rest := pat[1..];
      assert rest == dir[1..] + ["**"] && pat[0] == dir[0];
      assert pat[0] != DOUBLE_STAR by {
        assert DOUBLE_STAR[0] == '*';
      }
      LiteralMatches(dir[0], seg[0]);
      StepSegment(pat, seg, dir[0] == seg[0]);
      LiteralThenAll(dir[1..], seg[1..]);
      PrefixByHead(dir, seg);
    }
  }

  /** A literal directory followed by slash, star, star matches the directory and
      everything below it, and nothing else. */
  lemma SubtreePattern(dir: string, path: string)
    requires '*' !in dir
    ensures PathMatches(dir + "/**", path) <==> path == dir || dir + "/" <= path
  {
    SplitAtSlash(dir, "**");
    SplitNothing("**");
    assert dir + "/" + "**" == dir + "/**" && Split("**") == ["**"];
    SegmentsLiteral(dir);
    LiteralThenAll(Split(dir), Split(path));
    SegmentsExtend(dir, path);
  }

  /** Segments of a string without stars have none. */
  lemma {:induction false} SegmentsLiteral(s: string)
    requires '*' !in s
    ensures forall i :: 0 <= i < |Split(s)| ==> '*' !in Split(s)[i]
    decreases |s|
  {
    if s != "" {
      assert s == [s[0]] + s[1..];
      SegmentsLiteral(s[1..]);
    }
  }
}
