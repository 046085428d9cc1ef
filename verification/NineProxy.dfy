/** The proxy's two pumps, host failures and reconnects as interleaved steps, one
    per critical section or blocking call. */
module NineProxy {
  import opened Common
  import opened NineWire
  import opened NineSession
  import opened NineReplay

  /** Where kernelToHost is inside writeHost. */
  datatype Where = Looping | Writing | Failed | Waiting

  /** The kernel-to-host pump: reading, busy delivering one request that was
      observed under generation `gen`, or stopped because the proxy closed. */
  datatype Pump = Idle | Busy(order: nat, tag: u16, gen: nat, at: Where) | Stopped

  datatype Returned = Returned(order: nat, gen: nat)

  datatype State = State(
    trk: Tracker,
    up: bool,                      // host != nil
    hostGen: nat,
    closed: bool,
    pump: Pump,
    wires: map<nat, seq<nat>>,     // per generation, the requests written to it
    returned: seq<Returned>)       // requests writeHost reported delivered

  ghost function Start(up: bool): State {
    State(EMPTY_TRACKER, up, 0, false, Idle, map[0 := []], [])
  }

  datatype Step =
    | KernelRead(raw: seq<byte>)           // ReadMsg(kernel), ObserveClient, obsGen := hostGen
    | CurrentHost                          // writeHost: take host and generation
    | WriteDone(err: bool, reached: bool)  // h.Write returned; an error may follow delivery
    | MarkFailedDead                       // markHostDead after a failed write
    | Wake                                 // waitNewHost returned
    | HostReadFailed(gen: nat)             // hostToKernel: markHostDead
    | Reply(raw: seq<byte>)                // hostToKernel: read, ObserveServer, forward
    | Reconnect(tags: seq<u16>)            // Replay, ResendOutstanding, install
    | Close

  /** The environment: the kernel reuses a tag only when neither it nor a flush of
      it is unanswered, and a server answers what is on its own wire. */
  ghost predicate Enabled(s: State, step: Step) {
    match step
    case KernelRead(raw) =>
      && s.pump == Idle && |raw| >= HEADER_LEN && MsgTag(raw) !in s.trk.outstanding
      && forall x :: x in s.trk.pending ==> s.trk.pending[x] != Flush(MsgTag(raw))
    case CurrentHost => s.pump.Busy? && s.pump.at == Looping
    case WriteDone(_, _) => s.pump.Busy? && s.pump.at == Writing && s.pump.gen in s.wires
    case MarkFailedDead => s.pump.Busy? && s.pump.at == Failed
    case Wake => s.pump.Busy? && s.pump.at == Waiting && (s.hostGen != s.pump.gen || s.closed)
    case HostReadFailed(gen) => gen <= s.hostGen
    case Reply(raw) =>
      && s.up && |raw| >= HEADER_LEN && MsgTag(raw) in s.trk.outstanding && s.hostGen in s.wires
      && s.trk.outstanding[MsgTag(raw)].order in s.wires[s.hostGen]
    case Reconnect(tags) => !s.closed && s.trk.haveAttach && InSendOrder(s.trk.outstanding, tags)
    case Close => true
  }

  ghost function Orders(o: map<u16, Outstanding>, tags: seq<u16>): seq<nat>
    requires InSendOrder(o, tags)
  {
    seq(|tags|, i requires 0 <= i < |tags| => assert tags[i] in tags; o[tags[i]].order)
  }

  function Dead(s: State, gen: nat): State {
    if s.hostGen == gen && s.up then s.(up := false) else s
  }

  ghost function Apply(s: State, step: Step): State
    requires Enabled(s, step)
  {
    match step
    case KernelRead(raw) =>
      var trk := OnClient(s.trk, raw);
      s.(trk := trk, pump := Busy(trk.outSeq, MsgTag(raw), s.hostGen, Looping))
    case CurrentHost =>
      if s.closed then s.(pump := Stopped)
      else if s.hostGen != s.pump.gen then
        s.(pump := Idle, returned := s.returned + [Returned(s.pump.order, s.pump.gen)])
      else s.(pump := s.pump.(at := if s.up then Writing else Waiting))
    case WriteDone(err, reached) =>
      var wires := s.wires[s.pump.gen := s.wires[s.pump.gen] + [s.pump.order]];
      if !err then
        s.(wires := wires, pump := Idle, returned := s.returned + [Returned(s.pump.order, s.pump.gen)])
      else
        s.(wires := if reached then wires else s.wires, pump := s.pump.(at := Failed))
    case MarkFailedDead => Dead(s, s.pump.gen).(pump := s.pump.(at := Waiting))
    case Wake => s.(pump := if s.closed then Stopped else s.pump.(at := Looping))
    case HostReadFailed(gen) => Dead(s, gen)
    case Reply(raw) => s.(trk := OnServer(s.trk, raw))
    case Reconnect(tags) =>
      s.(up := true, hostGen := s.hostGen + 1,
         wires := s.wires[s.hostGen + 1 := Orders(s.trk.outstanding, tags)])
    case Close => s.(closed := true, up := false)
  }

  ghost predicate LegalRun(s: State, steps: seq<Step>)
    decreases |steps|
  {
    steps == [] || (Enabled(s, steps[0]) && LegalRun(Apply(s, steps[0]), steps[1..]))
  }

  ghost function Final(s: State, steps: seq<Step>): State
    requires LegalRun(s, steps)
    decreases |steps|
  {
    if steps == [] then s else Final(Apply(s, steps[0]), steps[1..])
  }

  // ---------- The invariant ----------

  /** Request `order` was written in generation `gen` or a later one. */
  ghost predicate Delivered(s: State, order: nat, gen: nat) {
    exists g: nat :: gen <= g <= s.hostGen && g in s.wires && order in s.wires[g]
  }

  ghost predicate WiresOk(s: State) {
    && (forall g: nat :: g in s.wires <==> g <= s.hostGen)
    && (forall g: nat :: g in s.wires ==> StrictlyIncreasing(s.wires[g]))
    && (forall g: nat, x: nat :: g in s.wires && x in s.wires[g] ==> x <= s.trk.outSeq)
  }

  /** Until the proxy closes, every unanswered request is on the current
      generation's wire or is the one the pump is delivering in this generation. */
  ghost predicate NothingLost(s: State) {
    s.hostGen in s.wires && forall tag :: !s.closed && tag in s.trk.outstanding ==>
      || s.trk.outstanding[tag].order in s.wires[s.hostGen]
      || (s.pump.Busy? && s.pump.gen == s.hostGen && s.pump.order == s.trk.outstanding[tag].order)
  }

  ghost predicate PumpOk(s: State) {
    s.pump.Busy? ==>
      var p := s.pump;
      && p.order == s.trk.outSeq && p.gen <= s.hostGen && p.gen in s.wires
      && (p.at == Writing || (p.at == Looping && p.gen == s.hostGen) ==> p.order !in s.wires[p.gen])
      && (p.gen < s.hostGen ==> Delivered(s, p.order, p.gen))
      && (p.gen == s.hostGen && p.order !in s.wires[p.gen] ==>
            && p.tag in s.trk.outstanding && s.trk.outstanding[p.tag].order == p.order
            && forall x :: x in s.trk.pending && x != p.tag ==> s.trk.pending[x] != Flush(p.tag))
  }

  ghost predicate Inv(s: State) {
    && TrackerOk(s.trk)
    && WiresOk(s)
    && NothingLost(s)
    && PumpOk(s)
    && forall i :: 0 <= i < |s.returned| ==> Delivered(s, s.returned[i].order, s.returned[i].gen)
  }

  /** What was delivered stays delivered while wires and generations only grow. */
  lemma DeliveredStays(s: State, t: State, order: nat, gen: nat)
    requires Delivered(s, order, gen) && s.hostGen <= t.hostGen
    requires forall g: nat :: g in s.wires ==> g in t.wires && s.wires[g] <= t.wires[g]
    ensures Delivered(t, order, gen)
  {
    var g: nat :| gen <= g <= s.hostGen && g in s.wires && order in s.wires[g];
    var i :| 0 <= i < |s.wires[g]| && s.wires[g][i] == order;
    assert t.wires[g][i] == order;
  }

  lemma AllDeliveredStay(s: State, t: State)
    requires Inv(s) && s.hostGen <= t.hostGen
    requires forall g: nat :: g in s.wires ==> g in t.wires && s.wires[g] <= t.wires[g]
    ensures forall i :: 0 <= i < |s.returned| ==> Delivered(t, s.returned[i].order, s.returned[i].gen)
  {
    forall i | 0 <= i < |s.returned| ensures Delivered(t, s.returned[i].order, s.returned[i].gen) {
      DeliveredStays(s, t, s.returned[i].order, s.returned[i].gen);
    }
  }

  lemma KernelReadInv(s: State, raw: seq<byte>)
    requires Inv(s) && Enabled(s, KernelRead(raw))
    ensures Inv(Apply(s, KernelRead(raw)))
  {
    var t := Apply(s, KernelRead(raw));
    AllDeliveredStay(s, t);
    assert TrackerOk(t.trk);
  }

  lemma CurrentHostInv(s: State)
    requires Inv(s) && Enabled(s, CurrentHost)
    ensures Inv(Apply(s, CurrentHost))
  {
    var t := Apply(s, CurrentHost);
    AllDeliveredStay(s, t);
    if s.pump.gen < s.hostGen {
      DeliveredStays(s, t, s.pump.order, s.pump.gen);
    }
  }

  /** One more request on the pump's wire. */
  lemma WiresAfterWrite(s: State, t: State)
    requires WiresOk(s) && PumpOk(s) && s.pump.Busy? && s.pump.at == Writing
    requires t.wires == s.wires[s.pump.gen := s.wires[s.pump.gen] + [s.pump.order]]
    requires t.hostGen == s.hostGen && t.trk == s.trk
    ensures WiresOk(t) && Delivered(t, s.pump.order, s.pump.gen)
    ensures forall x :: x in t.wires[s.pump.gen] <==> x in s.wires[s.pump.gen] || x == s.pump.order
  {
    var p := s.pump;
    AppendLargest(s.wires[p.gen], p.order);
    assert t.wires[p.gen][|s.wires[p.gen]|] == p.order;
  }

  lemma WriteDoneInv(s: State, err: bool, reached: bool)
    requires Inv(s) && Enabled(s, WriteDone(err, reached))
    ensures Inv(Apply(s, WriteDone(err, reached)))
  {
    var t := Apply(s, WriteDone(err, reached));
    AllDeliveredStay(s, t);
    if !err || reached {
      WiresAfterWrite(s, t);
    } else if s.pump.gen < s.hostGen {
      DeliveredStays(s, t, s.pump.order, s.pump.gen);
    }
  }

  lemma ReplyInv(s: State, raw: seq<byte>)
    requires Inv(s) && Enabled(s, Reply(raw))
    ensures Inv(Apply(s, Reply(raw)))
  {
    var t := Apply(s, Reply(raw));
    SettleOk(s.trk, MsgTag(raw), MsgType(raw) == R_LERROR, Nwqid(raw));
    AllDeliveredStay(s, t);
    if s.pump.Busy? && s.pump.gen < s.hostGen {
      DeliveredStays(s, t, s.pump.order, s.pump.gen);
    }
    ReplyLeavesUnwritten(s, raw);
  }

  /** No reply, not even to a flush, settles a request that is not on the wire. */
  lemma ReplyLeavesUnwritten(s: State, raw: seq<byte>)
    requires Inv(s) && Enabled(s, Reply(raw))
    ensures s.pump.Busy? && s.pump.gen == s.hostGen && s.pump.order !in s.wires[s.pump.gen] ==>
      var trk := OnServer(s.trk, raw);
      && s.pump.tag in trk.outstanding && trk.outstanding[s.pump.tag] == s.trk.outstanding[s.pump.tag]
      && forall x :: x in trk.pending && x != s.pump.tag ==> trk.pending[x] != Flush(s.pump.tag)
  {
  }

  lemma AppendLargest(wire: seq<nat>, order: nat)
    requires StrictlyIncreasing(wire) && order !in wire && forall x :: x in wire ==> x <= order
    ensures StrictlyIncreasing(wire + [order])
  {
    assert forall i :: 0 <= i < |wire| ==> wire[i] in wire;
  }

  /** What ResendOutstanding writes: all unanswered requests, in send order. There
      is one such list, so ranging over a map does not make the wire uncertain. */
  lemma ResentWire(o: map<u16, Outstanding>, tags: seq<u16>, last: nat)
    requires InSendOrder(o, tags)
    requires forall tag :: tag in o ==> o[tag].order <= last
    ensures StrictlyIncreasing(Orders(o, tags))
    ensures forall tag :: tag in o ==> o[tag].order in Orders(o, tags)
    ensures forall x :: x in Orders(o, tags) ==> x <= last
    ensures forall other :: InSendOrder(o, other) ==> other == tags
  {
    forall other | InSendOrder(o, other) ensures other == tags {
      RankedUnique(other, tags, o.Keys, SendRank(o));
    }
    var wire := Orders(o, tags);
    forall tag | tag in o ensures o[tag].order in wire {
      var i :| 0 <= i < |tags| && tags[i] == tag;
      assert wire[i] == o[tag].order;
    }
    forall i, j | 0 <= i < j < |tags| ensures wire[i] < wire[j] {
      assert SendRank(o)[tags[i]] < SendRank(o)[tags[j]];
    }
    assert forall i :: 0 <= i < |tags| ==> tags[i] in o;
  }

  lemma ReconnectWires(s: State, tags: seq<u16>)
    requires Inv(s) && Enabled(s, Reconnect(tags))
    ensures WiresOk(Apply(s, Reconnect(tags))) && NothingLost(Apply(s, Reconnect(tags)))
  {
    ResentWire(s.trk.outstanding, tags, s.trk.outSeq);
  }

  lemma ReconnectPump(s: State, tags: seq<u16>)
    requires Inv(s) && Enabled(s, Reconnect(tags)) && s.pump.Busy?
    ensures Delivered(Apply(s, Reconnect(tags)), s.pump.order, s.pump.gen)
  {
    var t := Apply(s, Reconnect(tags));
    var p := s.pump;
    if p.gen < s.hostGen || p.order in s.wires[p.gen] {
      assert Delivered(s, p.order, p.gen);
      assert forall g: nat :: g in s.wires ==> t.wires[g] == s.wires[g];
      DeliveredStays(s, t, p.order, p.gen);
    } else {
      ReconnectWires(s, tags);
      assert t.trk.outstanding[p.tag].order == p.order;
      assert p.order in t.wires[t.hostGen];
    }
  }

  lemma ReconnectInv(s: State, tags: seq<u16>)
    requires Inv(s) && Enabled(s, Reconnect(tags))
    ensures Inv(Apply(s, Reconnect(tags)))
  {
    ReconnectWires(s, tags);
    AllDeliveredStay(s, Apply(s, Reconnect(tags)));
    if s.pump.Busy? {
      ReconnectPump(s, tags);
    }
  }

  lemma StepInv(s: State, step: Step)
    requires Inv(s) && Enabled(s, step)
    ensures Inv(Apply(s, step))
  {
    match step
    case KernelRead(raw) => KernelReadInv(s, raw);
    case CurrentHost => CurrentHostInv(s);
    case WriteDone(err, reached) => WriteDoneInv(s, err, reached);
    case Reply(raw) => ReplyInv(s, raw);
    case Reconnect(tags) => ReconnectInv(s, tags);
    case _ => QuietInv(s, step);
  }

  /** Steps that leave the tracker and the wires alone. */
  lemma QuietInv(s: State, step: Step)
    requires Inv(s) && Enabled(s, step)
    requires step.MarkFailedDead? || step.Wake? || step.HostReadFailed? || step.Close?
    ensures Inv(Apply(s, step))
  {
    AllDeliveredStay(s, Apply(s, step));
    if s.pump.Busy? && s.pump.gen < s.hostGen {
      DeliveredStays(s, Apply(s, step), s.pump.order, s.pump.gen);
    }
  }

  // ---------- Main results ----------

  lemma {:induction false} RunKeepsInv(s: State, steps: seq<Step>)
    requires Inv(s) && LegalRun(s, steps)
    ensures Inv(Final(s, steps))
    decreases |steps|
  {
    if steps != [] {
      StepInv(s, steps[0]);
      RunKeepsInv(Apply(s, steps[0]), steps[1..]);
    }
  }

  /** In every interleaving: each generation's wire carries every request at most
      once and in send order; whatever writeHost reported delivered was written in
      its own generation or re-sent in a later one; and no unanswered request is
      missing from the current wire, unless the pump still holds it. */
  lemma EveryRunDelivers(up: bool, steps: seq<Step>)
    requires LegalRun(Start(up), steps)
    ensures var s := Final(Start(up), steps);
            && (forall g: nat :: g <= s.hostGen ==> g in s.wires && StrictlyIncreasing(s.wires[g]))
            && (forall i :: 0 <= i < |s.returned| ==> Delivered(s, s.returned[i].order, s.returned[i].gen))
            && NothingLost(s)
  {
    RunKeepsInv(Start(up), steps);
  }

  /** Nothing but a reconnect brings a host up, and none happens before an attach. */
  ghost predicate NeverUp(s: State) {
    && !s.up && s.hostGen == 0 && !s.trk.haveAttach && s.returned == []
    && (s.pump.Busy? ==> s.pump.gen == 0 && (s.pump.at == Looping || s.pump.at == Waiting))
  }

  lemma {:induction false} StaysDown(s: State, steps: seq<Step>)
    requires NeverUp(s) && LegalRun(s, steps)
    ensures NeverUp(Final(s, steps))
    decreases |steps|
  {
    if steps != [] {
      StaysDown(Apply(s, steps[0]), steps[1..]);
    }
  }

  /** A proxy started without a host can never attach: in every run no connection is
      ever installed and no request is ever reported delivered. */
  lemma StartedDownNeverAttaches(steps: seq<Step>)
    requires LegalRun(Start(false), steps)
    ensures var s := Final(Start(false), steps);
            !s.up && s.hostGen == 0 && !s.trk.haveAttach && s.returned == []
  {
    StaysDown(Start(false), steps);
  }

  // ---------- Progress ----------

  /** Parked in the current generation means there is no host to write to. */
  ghost predicate ParkedRightly(s: State) {
    s.pump.Busy? ==> s.pump.gen <= s.hostGen && (s.pump.at == Waiting && s.pump.gen == s.hostGen ==> !s.up)
  }

  lemma {:induction false} StaysParkedRightly(s: State, steps: seq<Step>)
    requires ParkedRightly(s) && LegalRun(s, steps)
    ensures ParkedRightly(Final(s, steps))
    decreases |steps|
  {
    if steps != [] {
      StaysParkedRightly(Apply(s, steps[0]), steps[1..]);
    }
  }

  /** The next step of a pump that holds a request. */
  function PumpStep(at: Where): Step {
    match at
    case Looping => CurrentHost
    case Writing => WriteDone(false, true)
    case Failed => MarkFailedDead
    case Waiting => Wake
  }

  /** No pump is stuck with a request: in every run it can take its next step, unless
      it is parked while the proxy is open and has no host. A parked pump that wakes
      to a host finds its request re-sent and returns it as delivered; one that wakes
      to a closed proxy stops. */
  lemma PumpNeverStuck(up: bool, steps: seq<Step>)
    requires LegalRun(Start(up), steps) && Final(Start(up), steps).pump.Busy?
    ensures var s := Final(Start(up), steps);
            && (s.pump.at != Waiting || s.up || s.closed ==> Enabled(s, PumpStep(s.pump.at)))
            && (s.pump.at == Waiting && s.up && !s.closed ==>
                  var t := Apply(Apply(s, Wake), CurrentHost);
                  t.pump == Idle && t.returned == s.returned + [Returned(s.pump.order, s.pump.gen)])
            && (s.pump.at == Waiting && s.closed ==> Apply(s, Wake).pump == Stopped)
  {
    StaysParkedRightly(Start(up), steps);
    RunKeepsInv(Start(up), steps);
  }

  // ---------- The proxy as an object ----------

  /** Proxy: the fields guarded by its mutex. A host connection is present when
      `up` holds. */
  class Proxy {
    const sess: Session
    var up: bool
    var hostGen: nat
    var closed: bool

    constructor (up: bool)
      ensures this.up == up && hostGen == 0 && !closed && fresh(sess) && sess.State() == EMPTY_TRACKER
    {
      sess := new Session();
      this.up, hostGen, closed := up, 0, false;
    }

    method MarkHostDead(gen: nat)
      modifies this`up
      ensures up == (old(up) && hostGen != gen)
    {
      if hostGen == gen && up {
        up := false;
      }
    }

    /** Reconnect: on success the new connection holds the rebuilt session over an
        unchanged tree and has been handed every unanswered request in send order,
        and is installed under a new generation; on any failure nothing changes.
        Before the first attach it always fails, also for a proxy that was started
        disconnected in order to be connected this way. Otherwise it fails only if the
        new connection failed it, whether or not a host was up. */
    method Reconnect(conn: HostConn, w: Writer) returns (ok: bool, ghost tags: seq<u16>)
      requires TrackerOk(sess.State())
      modifies this`up, this`hostGen, conn, w
      ensures closed || !sess.haveAttach ==> !ok
      ensures !ok ==> closed || !sess.haveAttach || conn.denied || w.failed
      ensures !closed && w.obliging && Sure(sess.State(), conn.obliging, old(conn.broken), conn.server.tree) ==> ok
      ensures !ok ==> up == old(up) && hostGen == old(hostGen)
      ensures ok ==> up && hostGen == old(hostGen) + 1
      ensures conn.server.tree == old(conn.server.tree)
      ensures ok && !conn.broken && Restorable(sess.State()) ==>
        (conn.server.fids == Rebuilt(sess.State()) <==> !RootMoved(sess.State(), sess.fids.Keys))
      ensures ok ==> InSendOrder(sess.outstanding, tags)
      ensures ok ==> forall i :: 0 <= i < |tags| ==> tags[i] in sess.outstanding
      ensures ok ==> w.written == old(w.written) + Raws(sess.outstanding, tags)
    {
      tags := [];
      if closed {
        return false, tags;
      }
      ghost var walks, opens;
      ok, walks, opens := Replay(sess, conn);
      if !ok {
        return;
      }
      ok, tags := ResendOutstanding(sess, w);
      if !ok {
        return;
      }
      up := true;
      hostGen := hostGen + 1;
    }

    method Close()
      modifies this`up, this`closed
      ensures closed && up == (old(up) && old(closed))
    {
      if closed {
        return;
      }
      closed := true;
      up := false;
    }
  }
}
