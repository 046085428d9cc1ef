/** First-match egress rules, with the connection-level check made before the
    request path is known. */
module Egress {
  import opened Common
  import opened Glob
  import opened PathGlob

  datatype Rule = Rule(access: string, host: string, ports: seq<int>, methods: seq<string>, paths: seq<string>)

  /** A request; at connection level (TLS, CONNECT) its path is "". Port 0 means
      the port is not known. */
  datatype Query = Query(verb: string, host: string, port: int, path: string)

  const ALLOW := "allow"
  const DENY := "deny"

  // ---------- Single criteria ----------

  predicate IsSpace(c: char) { c in " \t\n\r" || c == 11 as char || c == 12 as char }

  /** strings.TrimSpace, for ASCII white space. */
  function Trim(s: string): string {
    if s == "" then s
    else if IsSpace(s[0]) then Trim(s[1..])
    else if IsSpace(s[|s| - 1]) then Trim(s[..|s| - 1])
    else s
  }

  function Lower(c: char): char { if 'A' <= c <= 'Z' then c - 'A' + 'a' else c }

  /** strings.EqualFold, for ASCII letters. */
  predicate EqualFold(a: string, b: string) {
    |a| == |b| && forall i :: 0 <= i < |a| ==> Lower(a[i]) == Lower(b[i])
  }

  ghost predicate HostFits(r: Rule, host: string) {
    Trim(r.host) != "" && host != "" && Matches(Trim(r.host), host)
  }

  predicate PortFits(r: Rule, port: int) { r.ports == [] || port in r.ports }

  predicate MethodFits(r: Rule, m: string) {
    r.methods == [] || exists i :: 0 <= i < |r.methods| && EqualFold(r.methods[i], m)
  }

  ghost predicate PathFits(r: Rule, path: string) {
    r.paths == [] || exists i :: 0 <= i < |r.paths| && PathMatches(r.paths[i], path)
  }

  // ---------- First match ----------

  /** The rule decides the query. Without a path, methods and paths are not
      enforced, and a deny that is limited to some paths stands aside. */
  ghost predicate Hits(r: Rule, q: Query) {
    && HostFits(r, q.host) && PortFits(r, q.port)
    && if q.path == "" then !(r.access == DENY && r.paths != [])
       else MethodFits(r, q.verb) && PathFits(r, q.path)
  }

  ghost function First(rules: seq<Rule>, q: Query): Option<Rule> {
    if rules == [] then None else if Hits(rules[0], q) then Some(rules[0]) else First(rules[1..], q)
  }

  ghost predicate Allowed(rules: seq<Rule>, q: Query) {
    First(rules, q).Some? && First(rules, q).value.access == ALLOW
  }

  // ---------- What a rule says, field by field ----------

  ghost predicate White(c: char) {
    c as int == 9 || c as int == 10 || c as int == 11 || c as int == 12 || c as int == 13 || c as int == 32
  }

  /** s[i..j] is `s` without the white space around it. */
  ghost predicate Trims(s: string, i: nat, j: nat) {
    && i <= j <= |s|
    && (forall k :: 0 <= k < i ==> White(s[k])) && (forall k :: j <= k < |s| ==> White(s[k]))
    && (i < j ==> !White(s[i]) && !White(s[j - 1]))
  }

  /** One letter in two cases, by character codes: A is 65, Z is 90, a is 97. */
  ghost predicate SameLetter(a: char, b: char) {
    || a == b
    || (65 <= a as int <= 90 && b as int == a as int + 32)
    || (65 <= b as int <= 90 && a as int == b as int + 32)
  }

  ghost predicate SameWord(a: string, b: string) {
    |a| == |b| && forall i :: 0 <= i < |a| ==> SameLetter(a[i], b[i])
  }

  ghost predicate NamesHost(pat: string, host: string) {
    exists i: nat, j: nat :: Trims(pat, i, j) && i < j && Matches(pat[i..j], host)
  }

  /** The rule decides the query: the trimmed host pattern matches; the port is one of
      those listed, if any are; and with a path, so are method and path, while without
      one only a deny with paths stands aside. */
  ghost predicate Decides(r: Rule, q: Query) {
    && q.host != "" && NamesHost(r.host, q.host)
    && (|r.ports| == 0 || exists i :: 0 <= i < |r.ports| && r.ports[i] == q.port)
    && (q.path != "" && |r.methods| > 0 ==> exists i :: 0 <= i < |r.methods| && SameWord(r.methods[i], q.verb))
    && (q.path != "" && |r.paths| > 0 ==> exists i :: 0 <= i < |r.paths| && PathMatches(r.paths[i], q.path))
    && (q.path == "" ==> !(r.access == "deny" && |r.paths| > 0))
  }

  lemma {:induction false} TrimSpan(s: string) returns (i: nat, j: nat)
    ensures Trims(s, i, j) && Trim(s) == s[i..j]
    decreases |s|
  {
    if s == "" {
      i, j := 0, 0;
    } else if IsSpace(s[0]) {
      var a, b := TrimSpan(s[1..]);
      i, j := a + 1, b + 1;
      TrimsLeft(s, a, b);
    } else if IsSpace(s[|s| - 1]) {
      i, j := TrimSpan(s[..|s| - 1]);
      TrimsRight(s, i, j);
    } else {
      i, j := 0, |s|;
      assert s[0..|s|] == s;
    }
  }

  lemma TrimsLeft(s: string, a: nat, b: nat)
    requires s != "" && White(s[0]) && Trims(s[1..], a, b)
    ensures Trims(s, a + 1, b + 1) && s[1..][a..b] == s[a + 1..b + 1]
  {
    assert forall k :: 1 <= k < |s| ==> s[1..][k - 1] == s[k];
  }

  lemma TrimsRight(s: string, i: nat, j: nat)
    requires s != "" && White(s[|s| - 1]) && Trims(s[..|s| - 1], i, j)
    ensures Trims(s, i, j) && s[..|s| - 1][i..j] == s[i..j]
  {
    assert forall k :: 0 <= k < |s| - 1 ==> s[..|s| - 1][k] == s[k];
  }

  /** There is only one way to trim to something. */
  lemma TrimsOnce(s: string, i: nat, j: nat, a: nat, b: nat)
    requires Trims(s, i, j) && Trims(s, a, b) && i < j
    ensures a == i && b == j
  {
    assert !White(s[i]) && !White(s[j - 1]);
  }

  lemma HostMeans(r: Rule, host: string)
    ensures HostFits(r, host) <==> host != "" && NamesHost(r.host, host)
  {
    var i, j := TrimSpan(r.host);
    if NamesHost(r.host, host) {
      var a: nat, b: nat :| Trims(r.host, a, b) && a < b && Matches(r.host[a..b], host);
      TrimsOnce(r.host, a, b, i, j);
    }
  }

  lemma FoldMeans(a: string, b: string)
    ensures EqualFold(a, b) <==> SameWord(a, b)
  {
    if |a| == |b| {
      forall i | 0 <= i < |a| ensures Lower(a[i]) == Lower(b[i]) <==> SameLetter(a[i], b[i]) {
        LowerMeans(a[i], b[i]);
      }
    }
  }

  lemma LowerMeans(a: char, b: char)
    ensures Lower(a) == Lower(b) <==> SameLetter(a, b)
  {
    assert Lower(a) as int == if 65 <= a as int <= 90 then a as int + 32 else a as int;
    assert Lower(b) as int == if 65 <= b as int <= 90 then b as int + 32 else b as int;
  }

  lemma MethodMeans(r: Rule, m: string)
    ensures MethodFits(r, m)
            <==> |r.methods| == 0 || exists i :: 0 <= i < |r.methods| && SameWord(r.methods[i], m)
  {
    forall i | 0 <= i < |r.methods| ensures EqualFold(r.methods[i], m) <==> SameWord(r.methods[i], m) {
      FoldMeans(r.methods[i], m);
    }
  }

  lemma PortMeans(r: Rule, port: int)
    ensures PortFits(r, port) <==> |r.ports| == 0 || exists i :: 0 <= i < |r.ports| && r.ports[i] == port
  {
  }

  lemma HitsMeans(r: Rule, q: Query)
    ensures Hits(r, q) <==> Decides(r, q)
  {
    HostMeans(r, q.host);
    PortMeans(r, q.port);
    MethodMeans(r, q.verb);
  }

  method HostCheck(r: Rule, host: string) returns (b: bool)
    ensures b <==> HostFits(r, host)
  {
    var pat := Trim(r.host);
    if pat == "" || host == "" {
      return false;
    }
    b := GlobMatch(pat, host);
  }

  method PathCheck(r: Rule, path: string) returns (b: bool)
    ensures b <==> PathFits(r, path)
  {
    if |r.paths| == 0 {
      return true;
    }
    for i := 0 to |r.paths|
      invariant forall k :: 0 <= k < i ==> !PathMatches(r.paths[k], path)
    {
      b := MatchGlob(r.paths[i], path);
      if b {
        return;
      }
    }
    b := false;
  }

  /** MatchEgress: returns the first rule that decides the query, or none if none does. */
  method MatchEgress(rules: seq<Rule>, q: Query) returns (found: Option<Rule>)
    ensures found == First(rules, q)
    ensures found.None? ==> forall i :: 0 <= i < |rules| ==> !Decides(rules[i], q)
    ensures found.Some? ==> IsFirst(rules, q, found.value)
  {
    assert rules[0..] == rules;
    if q.host == "" {
      NoHostNoMatch(rules, q);
      FirstDecides(rules, q);
      return None;
    }
    for i := 0 to |rules|
      invariant First(rules, q) == First(rules[i..], q)
    {
      var r := rules[i];
      assert rules[i..][0] == r && rules[i..][1..] == rules[i + 1..];
      var hit := HostCheck(r, q.host);
      hit := hit && PortFits(r, q.port);
      if hit {
        if q.path == "" {
          hit := !(r.access == DENY && |r.paths| > 0);
        } else {
          hit := MethodFits(r, q.verb);
          if hit {
            hit := PathCheck(r, q.path);
          }
        }
      }
      if hit {
        FirstDecides(rules, q);
        return Some(r);
      }
    }
    FirstDecides(rules, q);
    found := None;
  }

  /** Some rule equal to `r` decides the query and none before it does. */
  ghost predicate IsFirst(rules: seq<Rule>, q: Query, r: Rule) {
    exists i :: 0 <= i < |rules| && rules[i] == r && Decides(rules[i], q)
      && forall j :: 0 <= j < i ==> !Decides(rules[j], q)
  }

  lemma FirstDecides(rules: seq<Rule>, q: Query)
    ensures First(rules, q).None? ==> forall i :: 0 <= i < |rules| ==> !Decides(rules[i], q)
    ensures First(rules, q).Some? ==> IsFirst(rules, q, First(rules, q).value)
  {
    FirstIsFirst(rules, q);
    forall i | 0 <= i < |rules| ensures Hits(rules[i], q) <==> Decides(rules[i], q) {
      HitsMeans(rules[i], q);
    }
  }

  lemma {:induction false} NoHostNoMatch(rules: seq<Rule>, q: Query)
    requires q.host == ""
    ensures First(rules, q) == None
  {
    if rules != [] {
      NoHostNoMatch(rules[1..], q);
    }
  }

  /** The result is a rule of the list that decides the query, none before it does. */
  lemma {:induction false} FirstIsFirst(rules: seq<Rule>, q: Query)
    ensures First(rules, q).None? <==> forall i :: 0 <= i < |rules| ==> !Hits(rules[i], q)
    ensures First(rules, q).Some? ==>
      exists i :: 0 <= i < |rules| && rules[i] == First(rules, q).value && Hits(rules[i], q)
        && forall j :: 0 <= j < i ==> !Hits(rules[j], q)
  {
    if rules != [] {
      var rest := rules[1..];
      FirstIsFirst(rest, q);
      assert forall i :: 0 <= i < |rest| ==> rest[i] == rules[i + 1];
      if Hits(rules[0], q) {
        assert rules[0] == First(rules, q).value;
      } else if First(rest, q).Some? {
        var i :| 0 <= i < |rest| && rest[i] == First(rest, q).value && Hits(rest[i], q)
          && forall j :: 0 <= j < i ==> !Hits(rest[j], q);
        assert rules[i + 1] == First(rules, q).value;
        assert forall j :: 0 <= j < i + 1 ==> !Hits(rules[j], q) by {
          forall j | 0 <= j < i + 1 ensures !Hits(rules[j], q) {
            if j > 0 {
              assert !Hits(rest[j - 1], q);
            }
          }
        }
      } else {
        forall i | 0 <= i < |rules| ensures !Hits(rules[i], q) {
          if i > 0 {
            assert !Hits(rest[i - 1], q);
          }
        }
      }
    }
  }

  // ---------- The connection-level check ----------

  function AtConnection(q: Query): Query { q.(path := "") }

  /** An allow, or a deny that names methods only together with paths. */
  predicate Scoped(r: Rule) {
    r.access == ALLOW || (r.access == DENY && (r.methods == [] || r.paths != []))
  }

  /** The connection-level check never blocks an allowable request, for every rule
      list whose denies are scoped. */
  lemma {:induction false} ConnectionNeverBlocks(rules: seq<Rule>, q: Query)
    requires forall i :: 0 <= i < |rules| ==> Scoped(rules[i])
    requires q.path != "" && Allowed(rules, q)
    ensures Allowed(rules, AtConnection(q))
  {
    if rules != [] && !Hits(rules[0], AtConnection(q)) {
      assert Scoped(rules[0]);
      assert !Hits(rules[0], q);
      ConnectionNeverBlocks(rules[1..], q);
    } else if rules != [] && rules[0].access != ALLOW {
      assert Scoped(rules[0]) && Hits(rules[0], q);
    }
  }

  /** Safe to put in front of any allow rules: no request they allow is refused its
      connection. */
  ghost predicate NeverBlocks(d: Rule) {
    forall rest: seq<Rule>, q: Query ::
      (forall i :: 0 <= i < |rest| ==> rest[i].access == ALLOW) && q.path != "" && Allowed([d] + rest, q)
      ==> Allowed([d] + rest, AtConnection(q))
  }

  /** Exactly the scoped rules are safe: a deny limited to methods alone, on a host
      pattern that can match at all, blocks connections whose requests are allowed. */
  lemma ScopedIffNeverBlocks(d: Rule)
    requires (d.access == ALLOW || d.access == DENY) && Trim(d.host) != ""
    ensures NeverBlocks(d) <==> Scoped(d)
  {
    if Scoped(d) {
      forall rest: seq<Rule>, q: Query |
        (forall i :: 0 <= i < |rest| ==> rest[i].access == ALLOW) && q.path != "" && Allowed([d] + rest, q)
        ensures Allowed([d] + rest, AtConnection(q))
      {
        ConnectionNeverBlocks([d] + rest, q);
      }
    } else {
      MethodOnlyDenyBlocks(d);
    }
  }

  /** A method name longer than all listed ones. */
  function Longer(methods: seq<string>): string {
    if methods == [] then "X"
    else
      var m := Longer(methods[1..]);
      if |m| > |methods[0]| then m else methods[0] + "X"
  }

  lemma {:induction false} LongerIsUnlisted(methods: seq<string>)
    ensures forall i :: 0 <= i < |methods| ==> |methods[i]| < |Longer(methods)|
  {
    if methods != [] {
      LongerIsUnlisted(methods[1..]);
      assert methods == [methods[0]] + methods[1..];
    }
  }

  lemma {:induction false} PatternMatchesItself(pat: string)
    ensures Glob.Glob(pat, pat)
  {
    if pat != "" {
      PatternMatchesItself(pat[1..]);
      if pat[0] == STAR {
        assert Glob.Glob(pat, pat[1..]) by {
          assert Glob.Glob(pat[1..], pat[1..]);
        }
      }
    }
  }

  /** A query the deny lets through for its method only. */
  function Unlisted(d: Rule): Query {
    Query(Longer(d.methods), Trim(d.host), if d.ports == [] then 0 else d.ports[0], "/")
  }

  lemma DenyStopsConnection(d: Rule)
    requires d.access == DENY && d.methods != [] && d.paths == [] && Trim(d.host) != ""
    ensures !Hits(d, Unlisted(d)) && Hits(d, AtConnection(Unlisted(d)))
  {
    PatternMatchesItself(Trim(d.host));
    GlobIsMatches(Trim(d.host), Trim(d.host));
    LongerIsUnlisted(d.methods);
    assert !MethodFits(d, Unlisted(d).verb);
  }

  lemma AnythingGoes(q: Query)
    requires q.host != "" && q.path != ""
    ensures Hits(Rule(ALLOW, "*", [], [], []), q)
  {
    GlobStar("", q.host);
    assert q.host[|q.host|..] == "" && [STAR] + "" == "*";
    GlobIsMatches("*", q.host);
    assert Trim("*") == "*";
  }

  lemma MethodOnlyDenyBlocks(d: Rule)
    requires d.access == DENY && d.methods != [] && d.paths == [] && Trim(d.host) != ""
    ensures !NeverBlocks(d)
  {
    var any, q := Rule(ALLOW, "*", [], [], []), Unlisted(d);
    DenyStopsConnection(d);
    AnythingGoes(q);
    var rules := [d] + [any];
    assert rules[1..] == [any];
    assert First(rules, q) == Some(any);
    assert First(rules, AtConnection(q)) == Some(d);
    assert Allowed([d] + [any], q) && !Allowed([d] + [any], AtConnection(q));
  }
}
