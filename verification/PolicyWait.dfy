/** Egress requests held back by a deny while rule updates come in: the broadcast
    channel protocol between awaitEgress and SetRulesBySource, step by step. */
module PolicyWait {
  import opened Common
  import opened Egress

  type RuleMap = map<string, seq<Rule>>

  /** rulesForSource: the source's own rules, else the "" rules, else none. */
  function RulesFor(m: RuleMap, src: string): seq<Rule> {
    if src in m then m[src] else if "" in m then m[""] else []
  }

  /** The shared policy. Channels are numbered in creation order. */
  datatype Policy = Policy(rules: RuleMap, channel: Option<nat>, nextChannel: nat, closed: set<nat>)

  /** policyChan: the current channel, made on first use. */
  function WithChannel(p: Policy): Policy {
    if p.channel.Some? then p else p.(channel := Some(p.nextChannel), nextChannel := p.nextChannel + 1)
  }

  /** notifyPolicyChange: close the current channel, install a fresh one. */
  function Notified(p: Policy): Policy {
    p.(closed := if p.channel.Some? then p.closed + {p.channel.value} else p.closed,
       channel := Some(p.nextChannel), nextChannel := p.nextChannel + 1)
  }

  class PolicyCell {
    var rules: RuleMap
    var channel: Option<nat>
    var nextChannel: nat
    var closed: set<nat>

    ghost function View(): Policy
      reads this
    {
      Policy(rules, channel, nextChannel, closed)
    }

    constructor ()
      ensures View() == Policy(map[], None, 0, {})
    {
      rules, channel, nextChannel, closed := map[], None, 0, {};
    }

    /** rulesForSource: a source with rules of its own gets them, and only them. */
    method RulesForSource(src: string) returns (found: seq<Rule>)
      ensures src in rules ==> found == rules[src]
      ensures src !in rules && "" in rules ==> found == rules[""]
      ensures src !in rules && "" !in rules ==> found == []
      ensures found == RulesFor(rules, src)
    {
      if src in rules {
        return rules[src];
      }
      if "" in rules {
        return rules[""];
      }
      found := [];
    }

    method PolicyChan() returns (ch: nat)
      modifies this`channel, this`nextChannel
      ensures View() == WithChannel(old(View())) && channel == Some(ch)
    {
      if channel.None? {
        channel, nextChannel := Some(nextChannel), nextChannel + 1;
      }
      ch := channel.value;
    }

    method NotifyPolicyChange()
      modifies this`channel, this`nextChannel, this`closed
      ensures View() == Notified(old(View()))
    {
      if channel.Some? {
        closed := closed + {channel.value};
      }
      channel, nextChannel := Some(nextChannel), nextChannel + 1;
    }

    method SetRulesBySource(bySource: RuleMap)
      modifies this
      ensures View() == Notified(old(View()).(rules := bySource))
    {
      rules := bySource;
      NotifyPolicyChange();
    }
  }

  // ---------- Waiters and updaters ----------

  datatype Audit = RequestDeny | ResponseDeny

  /** Where awaitEgress is; `under` is the rule map its last match read. */
  datatype Pc =
    | Start
    | Held                                    // denied, about to capture the channel
    | Captured(ch: nat)                       // about to match again
    | Blocked(ch: nat, under: RuleMap)        // in the select
    | Granted(rule: Rule, under: RuleMap)
    | Denied

  datatype Waiter = Waiter(src: string, q: Query, pc: Pc, audit: seq<Audit>)

  /** `storing` are the updaters that have stored rules and not yet notified. */
  datatype State = State(policy: Policy, storing: set<nat>, waiters: map<nat, Waiter>)

  const START_STATE := State(Policy(map[], None, 0, {}), {}, map[])

  datatype Step =
    | Arrive(w: nat, src: string, q: Query)
    | FirstTry(w: nat, grace: bool)   // grace: a positive egress_deny_wait applies
    | Capture(w: nat)
    | Retry(w: nat)
    | WakeUp(w: nat)
    | GiveUp(w: nat)                  // the timer fired or the context ended
    | Store(u: nat, rules: RuleMap)
    | Notify(u: nat)

  predicate At(s: State, w: nat, pc: Pc) { w in s.waiters && s.waiters[w].pc == pc }

  predicate Enabled(s: State, step: Step) {
    match step
    case Arrive(w, _, _) => w !in s.waiters
    case FirstTry(w, _) => At(s, w, Start)
    case Capture(w) => At(s, w, Held)
    case Retry(w) => w in s.waiters && s.waiters[w].pc.Captured?
    case WakeUp(w) => w in s.waiters && s.waiters[w].pc.Blocked? && s.waiters[w].pc.ch in s.policy.closed
    case GiveUp(w) => w in s.waiters && s.waiters[w].pc.Blocked?
    case Store(u, _) => u !in s.storing
    case Notify(u) => u in s.storing
  }

  /** One evaluation of match() against the current rules. */
  ghost function Match(s: State, x: Waiter): Option<Pc> {
    var seen := RulesFor(s.policy.rules, x.src);
    if Allowed(seen, x.q) then Some(Granted(First(seen, x.q).value, s.policy.rules)) else None
  }

  ghost function Set(s: State, w: nat, x: Waiter): State { s.(waiters := s.waiters[w := x]) }

  ghost function Apply(s: State, step: Step): State
    requires Enabled(s, step)
  {
    match step
    case Arrive(w, src, q) => Set(s, w, Waiter(src, q, Start, []))
    case FirstTry(w, grace) =>
      var x := s.waiters[w];
      if Match(s, x).Some? then Set(s, w, x.(pc := Match(s, x).value))
      else if grace then Set(s, w, x.(pc := Held, audit := x.audit + [RequestDeny]))
      else Set(s, w, x.(pc := Denied, audit := x.audit + [RequestDeny, ResponseDeny]))
    case Capture(w) =>
      var p := WithChannel(s.policy);
      Set(s.(policy := p), w, s.waiters[w].(pc := Captured(p.channel.value)))
    case Retry(w) =>
      var x := s.waiters[w];
      if Match(s, x).Some? then Set(s, w, x.(pc := Match(s, x).value))
      else Set(s, w, x.(pc := Blocked(x.pc.ch, s.policy.rules)))
    case WakeUp(w) => Set(s, w, s.waiters[w].(pc := Held))
    case GiveUp(w) =>
      var x := s.waiters[w];
      Set(s, w, x.(pc := Denied, audit := x.audit + [ResponseDeny]))
    case Store(u, rules) => s.(policy := s.policy.(rules := rules), storing := s.storing + {u})
    case Notify(u) => s.(policy := Notified(s.policy), storing := s.storing - {u})
  }

  ghost predicate LegalRun(s: State, steps: seq<Step>)
    decreases |steps|
  {
    steps == [] || (Enabled(s, steps[0]) && LegalRun(Apply(s, steps[0]), steps[1..]))
  }

  ghost function Final(s: State, steps: seq<Step>): State
    requires LegalRun(s, steps)
    decreases |steps|
  {
    if steps == [] then s else Final(Apply(s, steps[0]), steps[1..])
  }

  // ---------- The invariant ----------

  ghost predicate ChannelsOk(p: Policy) {
    && (p.channel.Some? ==> p.channel.value < p.nextChannel && p.channel.value !in p.closed)
    && forall c :: c in p.closed ==> c < p.nextChannel
  }

  /** A captured channel is the current one or closed. */
  ghost predicate Known(p: Policy, ch: nat) { ch in p.closed || p.channel == Some(ch) }

  ghost predicate WaiterOk(s: State, x: Waiter) {
    match x.pc
    case Start => x.audit == []
    case Held => x.audit == [RequestDeny]
    case Captured(ch) => x.audit == [RequestDeny] && Known(s.policy, ch)
    case Blocked(ch, under) =>
      && x.audit == [RequestDeny] && Known(s.policy, ch) && !Allowed(RulesFor(under, x.src), x.q)
      && (ch in s.policy.closed || under == s.policy.rules || s.storing != {})
    case Granted(rule, under) =>
      && First(RulesFor(under, x.src), x.q) == Some(rule) && rule.access == ALLOW
      && (x.audit == [] || x.audit == [RequestDeny])
    case Denied => x.audit == [RequestDeny, ResponseDeny]
  }

  ghost predicate Inv(s: State) {
    ChannelsOk(s.policy) && forall w :: w in s.waiters ==> WaiterOk(s, s.waiters[w])
  }

  lemma WaiterStepInv(s: State, step: Step)
    requires Inv(s) && Enabled(s, step) && !step.Store? && !step.Notify? && !step.Capture?
    ensures Inv(Apply(s, step))
  {
    var t := Apply(s, step);
    assert t.policy == s.policy && t.storing == s.storing;
    forall w | w in t.waiters ensures WaiterOk(t, t.waiters[w]) {
      if w in s.waiters {
        assert WaiterOk(s, s.waiters[w]);
      }
    }
  }

  lemma CaptureInv(s: State, w: nat)
    requires Inv(s) && Enabled(s, Capture(w))
    ensures Inv(Apply(s, Capture(w)))
  {
    var t := Apply(s, Capture(w));
    forall v | v in t.waiters ensures WaiterOk(t, t.waiters[v]) {
      assert WaiterOk(s, s.waiters[v]);
    }
  }

  lemma UpdaterStepInv(s: State, step: Step)
    requires Inv(s) && Enabled(s, step) && (step.Store? || step.Notify?)
    ensures Inv(Apply(s, step))
  {
    var t := Apply(s, step);
    if step.Store? {
      assert step.u in t.storing;
    }
    forall w | w in t.waiters ensures WaiterOk(t, t.waiters[w]) {
      assert WaiterOk(s, s.waiters[w]);
    }
  }

  lemma {:induction false} RunKeepsInv(s: State, steps: seq<Step>)
    requires Inv(s) && LegalRun(s, steps)
    ensures Inv(Final(s, steps))
    decreases |steps|
  {
    if steps != [] {
      match steps[0] {
        case Store(_, _) => UpdaterStepInv(s, steps[0]);
        case Notify(_) => UpdaterStepInv(s, steps[0]);
        case Capture(w) => CaptureInv(s, w);
        case _ => WaiterStepInv(s, steps[0]);
      }
      RunKeepsInv(Apply(s, steps[0]), steps[1..]);
    }
  }

  /** Nothing in the map lets the source through: its own bucket decides if it has one,
      else the bucket of all sources. */
  ghost predicate Refused(m: RuleMap, src: string, q: Query) {
    && (src in m ==> !Allowed(m[src], q))
    && (src !in m && "" in m ==> !Allowed(m[""], q))
  }

  /** The rule is the first match of the bucket that governs the source, and an allow. */
  ghost predicate LetThrough(m: RuleMap, src: string, q: Query, rule: Rule) {
    && rule.access == "allow"
    && if src in m then First(m[src], q) == Some(rule) else "" in m && First(m[""], q) == Some(rule)
  }

  /** No lost wakeup, over any interleaving: a waiter blocked on a channel that is
      still open is refused by the bucket that governs its source, unless an updater
      that has stored new rules is about to wake it. A granted request got the first
      matching rule of that bucket, an allow; a denied one emitted exactly a request
      deny followed by a response deny. */
  lemma NoLostWakeup(steps: seq<Step>, w: nat)
    requires LegalRun(START_STATE, steps) && w in Final(START_STATE, steps).waiters
    ensures var s := Final(START_STATE, steps);
            var x := s.waiters[w];
            && (x.pc.Blocked? && x.pc.ch !in s.policy.closed ==>
                  s.policy.channel == Some(x.pc.ch) && (s.storing != {} || Refused(s.policy.rules, x.src, x.q)))
            && (x.pc.Blocked? ==> Refused(x.pc.under, x.src, x.q))
            && (x.pc.Granted? ==> LetThrough(x.pc.under, x.src, x.q, x.pc.rule) && ResponseDeny !in x.audit)
            && (x.pc.Denied? ==> x.audit == [RequestDeny, ResponseDeny])
  {
    RunKeepsInv(START_STATE, steps);
    assert WaiterOk(Final(START_STATE, steps), Final(START_STATE, steps).waiters[w]);
  }

  /** A match grants the request exactly when the governing bucket lets it through,
      under the rules of that moment. */
  lemma MatchIffLetThrough(s: State, w: nat)
    requires Enabled(s, Retry(w))
    ensures var x, y := s.waiters[w], Apply(s, Retry(w)).waiters[w];
            && (y.pc.Granted? <==> exists rule :: LetThrough(s.policy.rules, x.src, x.q, rule))
            && (y.pc.Granted? ==> LetThrough(s.policy.rules, x.src, x.q, y.pc.rule))
            && (!y.pc.Granted? ==> y.pc == Blocked(x.pc.ch, s.policy.rules) && Refused(s.policy.rules, x.src, x.q))
  {
    var x, y := s.waiters[w], Apply(s, Retry(w)).waiters[w];
    if y.pc.Granted? {
      assert LetThrough(s.policy.rules, x.src, x.q, y.pc.rule);
    }
  }

  /** Likewise for the first try, which is held or denied otherwise. */
  lemma FirstTryIffLetThrough(s: State, w: nat, grace: bool)
    requires Enabled(s, FirstTry(w, grace))
    ensures var x, y := s.waiters[w], Apply(s, FirstTry(w, grace)).waiters[w];
            && (y.pc.Granted? <==> exists rule :: LetThrough(s.policy.rules, x.src, x.q, rule))
            && (y.pc.Granted? ==> LetThrough(s.policy.rules, x.src, x.q, y.pc.rule) && y.audit == x.audit)
            && (!y.pc.Granted? && grace ==> y.pc == Held && y.audit == x.audit + [RequestDeny])
            && (!y.pc.Granted? && !grace ==> y.pc == Denied && y.audit == x.audit + [RequestDeny, ResponseDeny])
  {
    var x, y := s.waiters[w], Apply(s, FirstTry(w, grace)).waiters[w];
    if y.pc.Granted? {
      assert LetThrough(s.policy.rules, x.src, x.q, y.pc.rule);
    }
  }

  /** Rules of other sources do not matter to a source that has its own, the bucket of
      all sources included. */
  lemma OwnBucketAlone(m: RuleMap, n: RuleMap, src: string, q: Query, rule: Rule)
    requires src in m && src in n && m[src] == n[src]
    ensures Refused(m, src, q) <==> Refused(n, src, q)
    ensures LetThrough(m, src, q, rule) <==> LetThrough(n, src, q, rule)
    ensures RulesFor(m, src) == RulesFor(n, src)
  {
  }

  /** Every pending notification closes the channel each blocked waiter is on. */
  lemma NotifyWakesAll(s: State, u: nat, w: nat)
    requires Inv(s) && u in s.storing && w in s.waiters && s.waiters[w].pc.Blocked?
    ensures Enabled(Apply(s, Notify(u)), WakeUp(w))
  {
    assert WaiterOk(s, s.waiters[w]);
  }
}
