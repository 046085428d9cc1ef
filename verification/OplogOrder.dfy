/** Coalescing keeps per-path order: the oplog against a log that applies every
    operation as it comes. Enqueue, a timer and a flush are each one step. */
module OplogOrder {
  import opened Oplog
  import opened OplogTrace

  function Trace(es: seq<Entry>, p: Path): seq<Op> { Merged(Touching(es, p)) }

  lemma TraceAppend(es: seq<Entry>, e: Entry, p: Path)
    ensures Trace(es + [e], p) == if Names(e, p) > 0 then Push(Trace(es, p), OpOf(e)) else Trace(es, p)
  {
    assert (es + [e])[..|es|] == es;
    var ops := Touching(es, p);
    assert (ops + [OpOf(e)])[..|ops|] == ops;
  }

  /** A run so far: the oplog, everything enqueued, everything replayed. */
  datatype History = History(core: Core, log: seq<Entry>, replayed: seq<Entry>)

  datatype Step = Enqueue(e: Entry, now: int) | Fire(path: Path) | Flush

  predicate Enabled(h: History, s: Step) { s.Flush? ==> h.core.queue != [] }

  function Apply(cfg: Config, h: History, s: Step): History
    requires Enabled(h, s)
  {
    match s
    case Enqueue(e, now) =>
      h.(core := Enqueued(h.core, e, cfg.window, cfg.max, now), log := h.log + [e])
    case Fire(path) => h.(core := Forced(h.core, path))
    case Flush =>
      h.(core := h.core.(queue := h.core.queue[1..], dirty := Cleaned(h.core.dirty, h.core.queue[0])),
         replayed := h.replayed + [h.core.queue[0]])
  }

  /** A symlink must not meet a parked Put of its path: Enqueue does not force it out. */
  ghost predicate LegalRun(cfg: Config, h: History, steps: seq<Step>)
    decreases |steps|
  {
    steps == [] ||
    (Enabled(h, steps[0]) && !Overtakes(h.core, steps[0]) && LegalRun(cfg, Apply(cfg, h, steps[0]), steps[1..]))
  }

  predicate Overtakes(c: Core, s: Step) {
    s.Enqueue? && s.e.kind == Symlink && s.e.path in c.pending
  }

  ghost function Final(cfg: Config, h: History, steps: seq<Step>): History
    requires LegalRun(cfg, h, steps)
    decreases |steps|
  {
    if steps == [] then h else Final(cfg, Apply(cfg, h, steps[0]), steps[1..])
  }

  /** Everything that has reached or will reach the store for `p`, in order. */
  function Line(h: History, p: Path): seq<Entry> {
    h.replayed + h.core.queue
    + (if p in h.core.pending then [PutEntry(p, h.core.pending[p].bufferPath)] else [])
  }

  ghost predicate InOrder(h: History, p: Path) {
    Trace(Line(h, p), p) == Trace(h.log, p)
  }

  lemma LineAppend(sent: seq<Entry>, queue: seq<Entry>, e: Entry)
    ensures sent + (queue + [e]) == (sent + queue) + [e]
  {
  }

  /** Sending a parked Put to the queue does not change what the store will see. */
  lemma ForcedKeepsLine(h: History, path: Path, p: Path)
    ensures Trace(Line(h.(core := Forced(h.core, path)), p), p) == Trace(Line(h, p), p)
  {
    if path in h.core.pending {
      var sent := h.replayed + h.core.queue;
      var e := PutEntry(path, h.core.pending[path].bufferPath);
      LineAppend(h.replayed, h.core.queue, e);
      if path == p {
        assert Line(h.(core := Forced(h.core, path)), p) == sent + [e] + [];
        assert sent + [e] + [] == sent + [e];
      } else {
        SkipUntouched(sent, e, ParkedPut(h.core, p), p);
      }
    }
  }

  function ParkedPut(c: Core, p: Path): seq<Entry> {
    if p in c.pending then [PutEntry(p, c.pending[p].bufferPath)] else []
  }

  lemma SkipUntouched(sent: seq<Entry>, e: Entry, tail: seq<Entry>, p: Path)
    requires Names(e, p) == 0 && |tail| <= 1
    ensures Trace(sent + [e] + tail, p) == Trace(sent + tail, p)
  {
    TraceAppend(sent, e, p);
    if tail == [] {
      assert sent + [e] + tail == sent + [e] && sent + tail == sent;
    } else {
      assert tail == [tail[0]];
      TraceAppend(sent + [e], tail[0], p);
      TraceAppend(sent, tail[0], p);
    }
  }

  /** An entry queued while none of its paths is parked comes after all of them. */
  lemma QueuedInOrder(h: History, e: Entry, dirty: map<Path, nat>, p: Path)
    requires InOrder(h, p) && (Names(e, p) > 0 ==> p !in h.core.pending)
    ensures InOrder(h.(core := h.core.(queue := h.core.queue + [e], dirty := dirty), log := h.log + [e]), p)
  {
    var sent := h.replayed + h.core.queue;
    LineAppend(h.replayed, h.core.queue, e);
    TraceAppend(h.log, e, p);
    if Names(e, p) > 0 {
      assert Line(h, p) == sent;
      TraceAppend(sent, e, p);
      assert sent + [e] + [] == sent + [e];
    } else {
      SkipUntouched(sent, e, ParkedPut(h.core, p), p);
    }
  }

  /** A second Put in a row changes nothing. */
  lemma PutTwice(ops: seq<Op>, put: Op)
    requires put.kind == Put
    ensures Push(Push(ops, put), put) == Push(ops, put)
  {
  }

  /** The line of the debounced path: what was sent, then one Put. */
  lemma DebouncedLine(cfg: Config, h: History, e: Entry, now: int)
    requires InOrder(h, e.path) && e.kind == Put
    ensures var sent := Trace(h.replayed + h.core.queue, e.path);
            && Push(Trace(h.log, e.path), OpOf(e)) == Push(sent, OpOf(e))
  {
    var sent := h.replayed + h.core.queue;
    if e.path in h.core.pending {
      TraceAppend(sent, PutEntry(e.path, h.core.pending[e.path].bufferPath), e.path);
      PutTwice(Trace(sent, e.path), OpOf(e));
    } else {
      assert Line(h, e.path) == sent;
    }
  }

  lemma DebouncedInOrder(cfg: Config, h: History, e: Entry, now: int, p: Path)
    requires InOrder(h, p) && e.kind == Put
    ensures InOrder(h.(core := Debounce(h.core, e.path, e.bufferPath, cfg.window, cfg.max, now), log := h.log + [e]), p)
  {
    var sent := h.replayed + h.core.queue;
    var after := h.(core := Debounce(h.core, e.path, e.bufferPath, cfg.window, cfg.max, now), log := h.log + [e]);
    TraceAppend(h.log, e, p);
    if p == e.path {
      TraceAppend(sent, PutEntry(p, e.bufferPath), p);
      DebouncedLine(cfg, h, e, now);
      assert Line(after, p) == sent + [PutEntry(p, e.bufferPath)];
    } else {
      assert Line(after, p) == Line(h, p);
    }
  }

  /** Enqueueing keeps the order of every path, if and only if it is not a symlink
      over a parked Put. */
  lemma EnqueueKeepsOrderIff(cfg: Config, h: History, e: Entry, now: int)
    requires forall p :: InOrder(h, p)
    requires e.kind == Put && cfg.window <= 0 ==> e.path !in h.core.pending
    ensures (forall p :: InOrder(Apply(cfg, h, Enqueue(e, now)), p)) <==> !Overtakes(h.core, Enqueue(e, now))
  {
    if Overtakes(h.core, Enqueue(e, now)) {
      SymlinkOvertakes(cfg, h, e, now);
    } else {
      forall p ensures InOrder(Apply(cfg, h, Enqueue(e, now)), p) {
        EnqueueKeepsOrder(cfg, h, e, now, p);
      }
    }
  }

  lemma SymlinkOvertakes(cfg: Config, h: History, e: Entry, now: int)
    requires InOrder(h, e.path) && Overtakes(h.core, Enqueue(e, now))
    ensures !InOrder(Apply(cfg, h, Enqueue(e, now)), e.path)
  {
    var p, put := e.path, PutEntry(e.path, h.core.pending[e.path].bufferPath);
    var sent := h.replayed + h.core.queue;
    LineAppend(h.replayed, h.core.queue, e);
    TraceAppend(h.log, e, p);
    LastOfTwo(sent, e, put, p);
    assert Line(Apply(cfg, h, Enqueue(e, now)), p) == sent + [e] + [put];
    assert Push(Trace(h.log, p), OpOf(e)) == Trace(h.log, p) + [OpOf(e)];
  }

  lemma LastOfTwo(sent: seq<Entry>, e: Entry, put: Entry, p: Path)
    requires Names(e, p) > 0 && Names(put, p) > 0 && e.kind != Put
    ensures var t := Trace(sent + [e] + [put], p); t != [] && t[|t| - 1] == OpOf(put)
  {
    TraceAppend(sent + [e], put, p);
    TraceAppend(sent, e, p);
  }

  lemma EnqueueKeepsOrder(cfg: Config, h: History, e: Entry, now: int, p: Path)
    requires forall q :: InOrder(h, q)
    requires !Overtakes(h.core, Enqueue(e, now))
    requires e.kind == Put && cfg.window <= 0 ==> e.path !in h.core.pending
    ensures InOrder(Apply(cfg, h, Enqueue(e, now)), p)
  {
    assert InOrder(h, p);
    if cfg.window > 0 && e.kind == Put {
      DebouncedInOrder(cfg, h, e, now, p);
    } else {
      var c1 := match e.kind
                case Delete => Forced(h.core, e.path)
                case Move =>
                  if e.newPath != "" then Forced(Forced(h.core, e.path), e.newPath) else Forced(h.core, e.path)
                case _ => h.core;
      ForcedKeepsLine(h, e.path, p);
      ForcedKeepsLine(h.(core := Forced(h.core, e.path)), e.newPath, p);
      QueuedInOrder(h.(core := c1), e, Dirtied(c1.dirty, e), p);
    }
  }

  /** With coalescing off nothing is ever parked. */
  ghost predicate ParkedOnlyIfCoalescing(cfg: Config, h: History) {
    cfg.window <= 0 ==> h.core.pending == map[]
  }

  lemma StepKeepsOrder(cfg: Config, h: History, s: Step)
    requires forall p :: InOrder(h, p)
    requires ParkedOnlyIfCoalescing(cfg, h) && Enabled(h, s) && !Overtakes(h.core, s)
    ensures forall p :: InOrder(Apply(cfg, h, s), p)
    ensures ParkedOnlyIfCoalescing(cfg, Apply(cfg, h, s))
  {
    match s
    case Enqueue(e, now) => EnqueueKeepsOrderIff(cfg, h, e, now);
    case Fire(path) =>
      forall p ensures InOrder(Apply(cfg, h, s), p) {
        assert InOrder(h, p);
        ForcedKeepsLine(h, path, p);
      }
    case Flush =>
      var q := h.core.queue;
      assert (h.replayed + [q[0]]) + q[1..] == h.replayed + q;
      forall p ensures InOrder(Apply(cfg, h, s), p) {
        assert InOrder(h, p);
        assert Line(Apply(cfg, h, s), p) == Line(h, p);
      }
  }

  lemma {:induction false} RunKeepsOrder(cfg: Config, h: History, steps: seq<Step>)
    requires forall p :: InOrder(h, p)
    requires ParkedOnlyIfCoalescing(cfg, h) && LegalRun(cfg, h, steps)
    ensures forall p :: InOrder(Final(cfg, h, steps), p)
    decreases |steps|
  {
    if steps != [] {
      StepKeepsOrder(cfg, h, steps[0]);
      RunKeepsOrder(cfg, Apply(cfg, h, steps[0]), steps[1..]);
    }
  }

  /** Over every run and for every path: what was replayed, then what is queued,
      then what is parked, is the enqueued operations up to merged Puts. Once the
      oplog is empty the store has seen, path by path, exactly what was enqueued. */
  lemma CoalescingKeepsPathOrder(cfg: Config, steps: seq<Step>, p: Path)
    requires LegalRun(cfg, History(EMPTY_CORE, [], []), steps)
    ensures var h := Final(cfg, History(EMPTY_CORE, [], []), steps);
            && Trace(Line(h, p), p) == Trace(h.log, p)
            && (h.core.queue == [] && h.core.pending == map[] ==> Trace(h.replayed, p) == Trace(h.log, p))
  {
    var start := History(EMPTY_CORE, [], []);
    RunKeepsOrder(cfg, start, steps);
    var h := Final(cfg, start, steps);
    assert InOrder(h, p);
    if h.core.queue == [] && h.core.pending == map[] {
      assert Line(h, p) == h.replayed;
    }
  }
}
