/** The pumps and the server together: requests are executed off the wire of the
    current generation, whatever the pumps, failures and reconnects do in between. */
module NineEndToEnd {
  import opened Common
  import opened NineWire
  import opened NineSession
  import opened NineServer
  import P = NineProxy
  import W = NineWorld

  /** Request `order` was executed in generation `gen`. */
  datatype Executed = Executed(order: nat, gen: nat)

  /** `proxy` says what is on which wire, `world` what the servers hold. */
  datatype State = State(proxy: P.State, world: W.World, executed: seq<Executed>)

  datatype Step =
    | KernelRead(msg: TMsg, raw: seq<byte>)   // read from the kernel and observed
    | Pump(step: P.Step)                      // any step of the pumps that no server sees
    | Execute(tag: u16, refuse: bool)         // the current server takes a request off its wire
    | Reply(raw: seq<byte>)                   // the server's reply, read, observed, forwarded
    | Reconnect(tags: seq<u16>)

  predicate IsPumping(step: P.Step) {
    !step.KernelRead? && !step.Reply? && !step.Reconnect?
  }

  ghost predicate Enabled(s: State, step: Step) {
    match step
    case KernelRead(msg, raw) =>
      && P.Enabled(s.proxy, P.KernelRead(raw))
      && |raw| >= HEADER_LEN && W.Enabled(s.world, W.Send(MsgTag(raw), msg, raw))
    case Pump(p) => IsPumping(p) && P.Enabled(s.proxy, p)
    case Execute(tag, refuse) => OnWire(s, tag) && W.Enabled(s.world, W.Run(tag, refuse))
    case Reply(raw) => P.Enabled(s.proxy, P.Reply(raw)) && W.Enabled(s.world, W.Deliver(raw))
    case Reconnect(tags) => P.Enabled(s.proxy, P.Reconnect(tags)) && W.Enabled(s.world, W.Reconnect)
  }

  /** The request is unanswered and was written to the current connection. */
  ghost predicate OnWire(s: State, tag: u16) {
    && tag in s.proxy.trk.outstanding && s.proxy.hostGen in s.proxy.wires
    && s.proxy.trk.outstanding[tag].order in s.proxy.wires[s.proxy.hostGen]
  }

  ghost function Apply(s: State, step: Step): State
    requires Enabled(s, step)
  {
    match step
    case KernelRead(msg, raw) =>
      s.(proxy := P.Apply(s.proxy, P.KernelRead(raw)), world := W.Apply(s.world, W.Send(MsgTag(raw), msg, raw)))
    case Pump(p) => s.(proxy := P.Apply(s.proxy, p))
    case Execute(tag, refuse) =>
      s.(world := W.Apply(s.world, W.Run(tag, refuse)),
         executed := s.executed + [Executed(s.proxy.trk.outstanding[tag].order, s.proxy.hostGen)])
    case Reply(raw) =>
      s.(proxy := P.Apply(s.proxy, P.Reply(raw)), world := W.Apply(s.world, W.Deliver(raw)))
    case Reconnect(tags) =>
      s.(proxy := P.Apply(s.proxy, P.Reconnect(tags)), world := W.Apply(s.world, W.Reconnect))
  }

  ghost predicate LegalRun(s: State, steps: seq<Step>)
    decreases |steps|
  {
    steps == [] || (Enabled(s, steps[0]) && LegalRun(Apply(s, steps[0]), steps[1..]))
  }

  ghost function Final(s: State, steps: seq<Step>): State
    requires LegalRun(s, steps)
    decreases |steps|
  {
    if steps == [] then s else Final(Apply(s, steps[0]), steps[1..])
  }

  ghost function Start(tree: map<Path, Str>, up: bool): State {
    State(P.Start(up), W.Start(tree), [])
  }

  // ---------- The invariant ----------

  /** No request was executed twice, and none that was is still to be executed. */
  ghost predicate OnceEach(executed: seq<Executed>, t: Tracker, inflight: map<u16, W.Request>) {
    && (forall i, j :: 0 <= i < j < |executed| ==> executed[i].order != executed[j].order)
    && (forall i :: 0 <= i < |executed| ==> executed[i].order <= t.outSeq)
    && (forall tag, i :: tag in inflight && tag in t.outstanding && 0 <= i < |executed| ==>
          t.outstanding[tag].order != executed[i].order)
  }

  /** Everything was on the wire of the generation it was executed in. */
  ghost predicate OffTheWire(executed: seq<Executed>, wires: map<nat, seq<nat>>) {
    forall i :: 0 <= i < |executed| ==> executed[i].gen in wires && executed[i].order in wires[executed[i].gen]
  }

  ghost predicate Inv(s: State) {
    && P.Inv(s.proxy) && W.Inv(s.world) && s.proxy.trk == s.world.trk
    && OnceEach(s.executed, s.proxy.trk, s.world.inflight)
    && OffTheWire(s.executed, s.proxy.wires)
  }

  lemma WiresGrow(s: P.State, step: P.Step)
    requires P.WiresOk(s) && P.Enabled(s, step)
    ensures forall g: nat :: g in s.wires ==> g in P.Apply(s, step).wires && s.wires[g] <= P.Apply(s, step).wires[g]
  {
  }

  lemma StaysOnWire(executed: seq<Executed>, wires: map<nat, seq<nat>>, more: map<nat, seq<nat>>)
    requires OffTheWire(executed, wires)
    requires forall g: nat :: g in wires ==> g in more && wires[g] <= more[g]
    ensures OffTheWire(executed, more)
  {
    forall i | 0 <= i < |executed| ensures executed[i].gen in more && executed[i].order in more[executed[i].gen] {
      var wire := wires[executed[i].gen];
      var k :| 0 <= k < |wire| && wire[k] == executed[i].order;
      assert more[executed[i].gen][k] == executed[i].order;
    }
  }

  lemma ReadOnce(executed: seq<Executed>, t: Tracker, inflight: map<u16, W.Request>, raw: seq<byte>, r: W.Request)
    requires OnceEach(executed, t, inflight) && |raw| >= HEADER_LEN
    ensures OnceEach(executed, OnClient(t, raw), inflight[MsgTag(raw) := r])
  {
  }

  lemma ReplyOnce(executed: seq<Executed>, t: Tracker, inflight: map<u16, W.Request>, raw: seq<byte>)
    requires OnceEach(executed, t, inflight) && TrackerOk(t)
    ensures OnceEach(executed, OnServer(t, raw), inflight)
  {
    if |raw| >= HEADER_LEN {
      SettleOk(t, MsgTag(raw), MsgType(raw) == R_LERROR, Nwqid(raw));
    }
  }

  lemma ExecuteOnce(executed: seq<Executed>, t: Tracker, inflight: map<u16, W.Request>, tag: u16, msg: TMsg, gen: nat)
    requires OnceEach(executed, t, inflight) && TrackerOk(t) && tag in inflight && tag in t.outstanding
    ensures OnceEach(executed + [Executed(t.outstanding[tag].order, gen)], t, W.Drop(inflight, tag, msg))
  {
  }

  /** A reconnect re-sends exactly what was not executed. */
  lemma ReconnectOnce(w: W.World)
    requires W.Inv(w) && w.answers == []
    ensures W.Replaced(w).inflight == w.inflight
  {
    assert w.inflight == w.waiting;
  }

  lemma ReadInv(s: State, msg: TMsg, raw: seq<byte>)
    requires Inv(s) && Enabled(s, KernelRead(msg, raw))
    ensures Inv(Apply(s, KernelRead(msg, raw)))
  {
    P.StepInv(s.proxy, P.KernelRead(raw));
    W.StepInv(s.world, W.Send(MsgTag(raw), msg, raw));
    ReadOnce(s.executed, s.proxy.trk, s.world.inflight, raw, W.Request(msg, raw));
  }

  lemma PumpInv(s: State, p: P.Step)
    requires Inv(s) && Enabled(s, Pump(p))
    ensures Inv(Apply(s, Pump(p)))
  {
    P.StepInv(s.proxy, p);
    WiresGrow(s.proxy, p);
    StaysOnWire(s.executed, s.proxy.wires, P.Apply(s.proxy, p).wires);
    assert P.Apply(s.proxy, p).trk == s.proxy.trk;
  }

  lemma ExecuteEffect(w: W.World, tag: u16, refuse: bool)
    requires W.Enabled(w, W.Run(tag, refuse))
    ensures var w' := W.Apply(w, W.Run(tag, refuse));
            w'.trk == w.trk && w'.inflight == W.Drop(w.inflight, tag, w.inflight[tag].msg)
  {
  }

  lemma ExecuteOnWire(executed: seq<Executed>, wires: map<nat, seq<nat>>, x: Executed)
    requires OffTheWire(executed, wires) && x.gen in wires && x.order in wires[x.gen]
    ensures OffTheWire(executed + [x], wires)
  {
  }

  lemma ExecuteInv(s: State, tag: u16, refuse: bool)
    requires Inv(s) && Enabled(s, Execute(tag, refuse))
    ensures Inv(Apply(s, Execute(tag, refuse)))
  {
    W.StepInv(s.world, W.Run(tag, refuse));
    ExecuteEffect(s.world, tag, refuse);
    ExecuteOnce(s.executed, s.proxy.trk, s.world.inflight, tag, s.world.inflight[tag].msg, s.proxy.hostGen);
    ExecuteOnWire(s.executed, s.proxy.wires, Executed(s.proxy.trk.outstanding[tag].order, s.proxy.hostGen));
  }

  lemma ReplyInv(s: State, raw: seq<byte>)
    requires Inv(s) && Enabled(s, Reply(raw))
    ensures Inv(Apply(s, Reply(raw)))
  {
    P.StepInv(s.proxy, P.Reply(raw));
    W.StepInv(s.world, W.Deliver(raw));
    ReplyOnce(s.executed, s.proxy.trk, s.world.inflight, raw);
  }

  lemma ReconnectInv(s: State, tags: seq<u16>)
    requires Inv(s) && Enabled(s, Reconnect(tags))
    ensures Inv(Apply(s, Reconnect(tags)))
  {
    P.StepInv(s.proxy, P.Reconnect(tags));
    W.StepInv(s.world, W.Reconnect);
    WiresGrow(s.proxy, P.Reconnect(tags));
    StaysOnWire(s.executed, s.proxy.wires, P.Apply(s.proxy, P.Reconnect(tags)).wires);
    ReconnectOnce(s.world);
  }

  // ---------- Main results ----------

  lemma {:induction false} RunKeepsInv(s: State, steps: seq<Step>)
    requires Inv(s) && LegalRun(s, steps)
    ensures Inv(Final(s, steps))
    decreases |steps|
  {
    if steps != [] {
      match steps[0] {
        case KernelRead(msg, raw) => ReadInv(s, msg, raw);
        case Pump(p) => PumpInv(s, p);
        case Execute(tag, refuse) => ExecuteInv(s, tag, refuse);
        case Reply(raw) => ReplyInv(s, raw);
        case Reconnect(tags) => ReconnectInv(s, tags);
      }
      RunKeepsInv(Apply(s, steps[0]), steps[1..]);
    }
  }

  /** End to end, in every interleaving of pumps, failures, reconnects and execution
      off the wire: every reply is the one a server that never died would have given;
      over all generations no request is executed twice; and, until the proxy closes,
      every request that was neither executed nor flushed is on the current wire or
      is the one the pump is delivering in this generation. */
  lemma ExactlyWhatTheKernelAsked(tree: map<Path, Str>, up: bool, steps: seq<Step>)
    requires TreeOk(tree) && LegalRun(Start(tree, up), steps)
    ensures var s := Final(Start(tree, up), steps);
            && s.world.realReplies == s.world.idealReplies
            && Same(s.world.host, s.world.ideal)
            && (forall i, j :: 0 <= i < j < |s.executed| ==> s.executed[i].order != s.executed[j].order)
            && OffTheWire(s.executed, s.proxy.wires)
            && (forall tag :: !s.proxy.closed && tag in s.world.inflight ==>
                  || OnWire(s, tag)
                  || (s.proxy.pump.Busy? && s.proxy.pump.gen == s.proxy.hostGen && s.proxy.pump.tag == tag))
  {
    W.StartInv(tree);
    assert P.Inv(P.Start(up));
    RunKeepsInv(Start(tree, up), steps);
    var s := Final(Start(tree, up), steps);
    forall tag | !s.proxy.closed && tag in s.world.inflight
      ensures OnWire(s, tag) || (s.proxy.pump.Busy? && s.proxy.pump.gen == s.proxy.hostGen && s.proxy.pump.tag == tag)
    {
      W.AgreesSettleAll(s.world.trk, s.world.waiting, s.world.answers);
      InflightIsWaiting(s.world.waiting, s.world.answers);
      assert tag in s.proxy.trk.outstanding;
    }
  }

  lemma {:induction false} InflightIsWaiting(waiting: map<u16, W.Request>, answers: seq<W.Answer>)
    ensures W.DropAll(waiting, answers).Keys <= waiting.Keys
    decreases |answers|
  {
    if answers != [] {
      InflightIsWaiting(W.Drop(waiting, answers[0].tag, answers[0].msg), answers[1..]);
    }
  }
}
