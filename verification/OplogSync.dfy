/** Convergence: local writes, removes and parked renames against the remote store.
    Each FUSE operation with its enqueue, each timer and each flush is one step; no
    store call fails. */
module OplogSync {
  import opened Common
  import opened Oplog

  /** `intent` is the last content written to each path that was not removed since.
      A path's buffer file is named by the path. */
  datatype World = World(
    core: Core,
    buffer: map<Path, Str>,
    store: map<Path, Str>,
    intent: map<Path, Str>)

  datatype Settings = Settings(keep: bool, window: int, max: int)

  datatype Step =
    | Write(path: Path, content: Str, now: int)
    | Remove(path: Path, now: int)
    | Rename(oldPath: Path, newPath: Path)
    | Fire(path: Path)
    | Flush

  predicate Enabled(w: World, s: Step) {
    match s
    case Rename(oldPath, newPath) => oldPath != newPath && oldPath in w.core.pending && oldPath in w.buffer
    case Flush => w.core.queue != []
    case _ => true
  }

  function DeleteEntry(path: Path): Entry { Entry(Delete, path, "", "") }

  /** flush: replay the oldest entry. A Put whose buffer is gone is skipped; a
      replayed Put evicts its buffer unless buffers are kept. */
  function Flushed(cfg: Settings, w: World): World
    requires w.core.queue != []
  {
    var e := w.core.queue[0];
    var v := w.(core := w.core.(queue := w.core.queue[1..], dirty := Cleaned(w.core.dirty, e)));
    match e.kind
    case Put =>
      if e.bufferPath !in w.buffer then v
      else v.(store := w.store[e.path := w.buffer[e.bufferPath]],
              buffer := if cfg.keep then w.buffer else w.buffer - {e.bufferPath})
    case Delete => v.(store := w.store - {e.path})
    case _ => v
  }

  function Apply(cfg: Settings, w: World, s: Step): World
    requires Enabled(w, s)
  {
    match s
    case Write(p, content, now) =>
      w.(buffer := w.buffer[p := content], intent := w.intent[p := content],
         core := Enqueued(w.core, PutEntry(p, p), cfg.window, cfg.max, now))
    case Remove(p, now) =>
      var v := w.(buffer := w.buffer - {p}, intent := w.intent - {p});
      if CountOf(w.core.dirty, p) > 0 then v.(core := Enqueued(w.core, DeleteEntry(p), cfg.window, cfg.max, now))
      else v.(store := w.store - {p})
    case Rename(a, b) =>
      w.(buffer := w.buffer[b := w.buffer[a]] - {a}, core := Renamed(w.core, a, b, b),
         intent := w.intent[b := w.buffer[a]] - {a})
    case Fire(p) => w.(core := Forced(w.core, p))
    case Flush => Flushed(cfg, w)
  }

  // ---------- What one path will hold when everything has drained ----------

  function Get(m: map<Path, Str>, p: Path): Option<Str> {
    if p in m then Some(m[p]) else None
  }

  function KindsOf(es: seq<Entry>, p: Path): seq<Kind> {
    if es == [] then [] else (if es[0].path == p then [es[0].kind] else []) + KindsOf(es[1..], p)
  }

  /** The outstanding operations of `p`, oldest first: queued, then parked. */
  function Ops(c: Core, p: Path): seq<Kind> {
    KindsOf(c.queue, p) + if p in c.pending then [Put] else []
  }

  /** The buffer file and the remote object of one path. */
  datatype Side = Side(buf: Option<Str>, remote: Option<Str>)

  function One(keep: bool, s: Side, k: Kind): Side {
    match k
    case Put => if s.buf.None? then s else Side(if keep then s.buf else None, s.buf)
    case Delete => s.(remote := None)
    case _ => s
  }

  function Drain(keep: bool, s: Side, ops: seq<Kind>): Side
    decreases |ops|
  {
    if ops == [] then s else Drain(keep, One(keep, s, ops[0]), ops[1..])
  }

  function SideOf(w: World, p: Path): Side { Side(Get(w.buffer, p), Get(w.store, p)) }

  ghost predicate Converges(cfg: Settings, w: World, p: Path) {
    Drain(cfg.keep, SideOf(w, p), Ops(w.core, p)).remote == Get(w.intent, p)
  }

  /** An outstanding Put stands before an outstanding Delete. */
  ghost predicate PutBeforeDelete(ops: seq<Kind>) {
    exists i, j :: 0 <= i < j < |ops| && ops[i] == Put && ops[j] == Delete
  }

  lemma {:induction false} DrainAppend(keep: bool, s: Side, ops: seq<Kind>, k: Kind)
    ensures Drain(keep, s, ops + [k]) == One(keep, Drain(keep, s, ops), k)
    decreases |ops|
  {
    if ops == [] {
      assert ops + [k] == [k];
    } else {
      assert (ops + [k])[1..] == ops[1..] + [k];
      DrainAppend(keep, One(keep, s, ops[0]), ops[1..], k);
    }
  }

  /** With no buffer file every Put is skipped; only Deletes count. */
  lemma {:induction false} DrainEmpty(keep: bool, s: Side, ops: seq<Kind>)
    requires s.buf.None?
    ensures Drain(keep, s, ops) == if Delete in ops then Side(None, None) else s
    decreases |ops|
  {
    if ops != [] {
      assert ops == [ops[0]] + ops[1..];
      DrainEmpty(keep, One(keep, s, ops[0]), ops[1..]);
    }
  }

  /** A fresh write followed by its Put reaches the store, if and only if buffers
      are kept or no earlier Put would upload it ahead of an outstanding Delete. */
  lemma {:induction false} DrainWrite(keep: bool, content: Str, remote: Option<Str>, ops: seq<Kind>)
    ensures Drain(keep, Side(Some(content), remote), ops + [Put]).remote == Some(content)
            <==> keep || !PutBeforeDelete(ops)
    decreases |ops|
  {
    var s := Side(Some(content), remote);
    if ops == [] {
      assert ops + [Put] == [Put];
    } else {
      assert (ops + [Put])[1..] == ops[1..] + [Put];
      assert ops == [ops[0]] + ops[1..];
      if ops[0] == Put && !keep {
        DrainEmpty(keep, One(keep, s, Put), ops[1..] + [Put]);
        if Delete in ops[1..] {
          var j :| 0 <= j < |ops[1..]| && ops[1..][j] == Delete;
          assert ops[0] == Put && ops[j + 1] == Delete;
        }
      } else {
        var next := One(keep, s, ops[0]);
        assert next.buf == Some(content);
        DrainWrite(keep, content, next.remote, ops[1..]);
        if PutBeforeDelete(ops) && !keep {
          var i, j :| 0 <= i < j < |ops| && ops[i] == Put && ops[j] == Delete;
          assert ops[1..][i - 1] == Put && ops[1..][j - 1] == Delete;
        }
        if PutBeforeDelete(ops[1..]) {
          var i, j :| 0 <= i < j < |ops[1..]| && ops[1..][i] == Put && ops[1..][j] == Delete;
          assert ops[i + 1] == Put && ops[j + 1] == Delete;
        }
      }
    }
  }

  lemma {:induction false} KindsConcat(a: seq<Entry>, b: seq<Entry>, p: Path)
    ensures KindsOf(a + b, p) == KindsOf(a, p) + KindsOf(b, p)
  {
    if a == [] {
      assert a + b == b;
    } else {
      var head := if a[0].path == p then [a[0].kind] else [];
      KindsHead(a, p);
      KindsHead(a + b, p);
      assert (a + b)[0] == a[0] && (a + b)[1..] == a[1..] + b;
      KindsConcat(a[1..], b, p);
      assert head + (KindsOf(a[1..], p) + KindsOf(b, p)) == (head + KindsOf(a[1..], p)) + KindsOf(b, p);
    }
  }

  lemma KindsHead(es: seq<Entry>, p: Path)
    requires es != []
    ensures KindsOf(es, p) == (if es[0].path == p then [es[0].kind] else []) + KindsOf(es[1..], p)
  {
  }

  lemma KindsOne(a: seq<Entry>, e: Entry, p: Path)
    ensures KindsOf(a + [e], p) == if e.path == p then KindsOf(a, p) + [e.kind] else KindsOf(a, p)
  {
    KindsConcat(a, [e], p);
    assert [e][1..] == [];
  }

  // ---------- The invariant ----------

  /** Runs of this model queue only Puts of a path's own buffer and Deletes. */
  ghost predicate Plain(c: Core) {
    && (forall i :: 0 <= i < |c.queue| ==>
          var e := c.queue[i];
          (e.kind == Put && e.bufferPath == e.path) || e.kind == Delete)
    && forall p :: p in c.pending ==> c.pending[p].bufferPath == p
  }

  /** IsDirty tells exactly whether an operation on the path is outstanding. */
  ghost predicate Counted(c: Core) {
    forall p :: CountOf(c.dirty, p) == |Ops(c, p)|
  }

  ghost predicate Inv(cfg: Settings, w: World) {
    && Plain(w.core) && Counted(w.core)
    && (cfg.window <= 0 ==> w.core.pending == map[])
    && forall p :: Converges(cfg, w, p)
  }

  /** What a caller can check before a step. A write is only safe, when buffers are
      evicted, if no outstanding Put of the path stands before an outstanding Delete.
      A rename of a parked file is only safe if the remote has no object under the
      old name or a queued Delete will remove it; its target is a write. */
  ghost predicate Safe(cfg: Settings, w: World, s: Step) {
    match s
    case Write(p, _, _) => cfg.keep || !PutBeforeDelete(Ops(w.core, p))
    case Rename(a, b) =>
      && (a !in w.store || Delete in KindsOf(w.core.queue, a))
      && (cfg.keep || !PutBeforeDelete(KindsOf(w.core.queue, b)))
    case _ => true
  }

  lemma ForcedOps(c: Core, path: Path, p: Path)
    ensures Ops(Forced(c, path), p) == Ops(c, p)
  {
    if path in c.pending {
      KindsOne(c.queue, PutEntry(path, c.pending[path].bufferPath), p);
    }
  }

  lemma PutOps(cfg: Settings, c: Core, path: Path, now: int, p: Path)
    ensures var c' := Enqueued(c, PutEntry(path, path), cfg.window, cfg.max, now);
            && (p != path ==> Ops(c', p) == Ops(c, p))
            && (p == path && cfg.window > 0 ==> Ops(c', p) == KindsOf(c.queue, p) + [Put])
            && (p == path && cfg.window <= 0 && p !in c.pending ==> Ops(c', p) == Ops(c, p) + [Put])
  {
    KindsOne(c.queue, PutEntry(path, path), p);
  }

  lemma DeleteOps(cfg: Settings, c: Core, path: Path, now: int, p: Path)
    ensures Ops(Enqueued(c, DeleteEntry(path), cfg.window, cfg.max, now), p)
            == if p == path then Ops(c, p) + [Delete] else Ops(c, p)
  {
    ForcedOps(c, path, p);
    KindsOne(Forced(c, path).queue, DeleteEntry(path), p);
  }

  lemma RenameOps(c: Core, a: Path, b: Path, p: Path)
    requires a != b && a in c.pending
    ensures Ops(Renamed(c, a, b, b), p) ==
            if p == a then KindsOf(c.queue, a)
            else if p == b then KindsOf(c.queue, b) + [Put]
            else Ops(c, p)
  {
    KindsOne(c.queue, PutEntry(b, b), p);
  }

  lemma FlushOps(c: Core, p: Path)
    requires c.queue != []
    ensures Ops(c, p) == if c.queue[0].path == p then [c.queue[0].kind] + Ops(c.(queue := c.queue[1..]), p)
                         else Ops(c.(queue := c.queue[1..]), p)
  {
  }

  lemma TrailingPut(ops: seq<Kind>)
    ensures PutBeforeDelete(ops + [Put]) <==> PutBeforeDelete(ops)
  {
    if PutBeforeDelete(ops + [Put]) {
      var i, j :| 0 <= i < j < |ops + [Put]| && (ops + [Put])[i] == Put && (ops + [Put])[j] == Delete;
      assert ops[i] == Put && ops[j] == Delete;
    }
    if PutBeforeDelete(ops) {
      var i, j :| 0 <= i < j < |ops| && ops[i] == Put && ops[j] == Delete;
      assert (ops + [Put])[i] == Put && (ops + [Put])[j] == Delete;
    }
  }

  lemma WriteConverges(cfg: Settings, w: World, path: Path, content: Str, now: int, p: Path)
    requires Inv(cfg, w)
    ensures Converges(cfg, Apply(cfg, w, Write(path, content, now)), p)
            <==> p != path || Safe(cfg, w, Write(path, content, now))
  {
    var w' := Apply(cfg, w, Write(path, content, now));
    PutOps(cfg, w.core, path, now, p);
    assert Converges(cfg, w, p);
    if p == path {
      var front := KindsOf(w.core.queue, p);
      if cfg.window <= 0 {
        assert Ops(w.core, p) == front;
      }
      assert Ops(w'.core, p) == front + [Put];
      DrainWrite(cfg.keep, content, Get(w.store, p), front);
      TrailingPut(front);
      assert front + [] == front;
    }
  }

  lemma RemoveConverges(cfg: Settings, w: World, path: Path, now: int, p: Path)
    requires Inv(cfg, w)
    ensures Converges(cfg, Apply(cfg, w, Remove(path, now)), p)
  {
    assert Converges(cfg, w, p);
    assert CountOf(w.core.dirty, path) == |Ops(w.core, path)|;
    DeleteOps(cfg, w.core, path, now, p);
    if p == path {
      var w' := Apply(cfg, w, Remove(path, now));
      DrainAppend(cfg.keep, SideOf(w', p), Ops(w.core, p), Delete);
    }
  }

  /** The two branches of Remove: with nothing outstanding on the path the object is
      gone at once and nothing is queued; otherwise the store is left alone and a
      Delete is queued last, behind everything outstanding. */
  lemma RemoveBranches(cfg: Settings, w: World, p: Path, now: int)
    requires Inv(cfg, w)
    ensures var t := Apply(cfg, w, Remove(p, now));
            if Ops(w.core, p) == [] then t.store == w.store - {p} && t.core == w.core
            else t.store == w.store && t.core.queue != [] && p !in t.core.pending
                 && t.core.queue[|t.core.queue| - 1] == Entry(Delete, p, "", "")
  {
    assert CountOf(w.core.dirty, p) == |Ops(w.core, p)|;
  }

  lemma RenameConverges(cfg: Settings, w: World, a: Path, b: Path, p: Path)
    requires Inv(cfg, w) && Enabled(w, Rename(a, b))
    ensures Converges(cfg, Apply(cfg, w, Rename(a, b)), p)
            <==> ((p == a ==> a !in w.store || Delete in KindsOf(w.core.queue, a))
                  && (p == b ==> cfg.keep || !PutBeforeDelete(KindsOf(w.core.queue, b))))
  {
    var w' := Apply(cfg, w, Rename(a, b));
    assert Converges(cfg, w, p);
    RenameOps(w.core, a, b, p);
    if p == a {
      DrainEmpty(cfg.keep, SideOf(w', p), KindsOf(w.core.queue, a));
    } else if p == b {
      DrainWrite(cfg.keep, w.buffer[a], Get(w.store, p), KindsOf(w.core.queue, b));
    }
  }

  lemma FlushSide(cfg: Settings, w: World, p: Path)
    requires Plain(w.core) && w.core.queue != []
    ensures var e := w.core.queue[0];
            SideOf(Flushed(cfg, w), p) == if e.path == p then One(cfg.keep, SideOf(w, p), e.kind) else SideOf(w, p)
    ensures Flushed(cfg, w).intent == w.intent && Flushed(cfg, w).core.queue == w.core.queue[1..]
    ensures Flushed(cfg, w).core.pending == w.core.pending
  {
  }

  lemma FlushConverges(cfg: Settings, w: World, p: Path)
    requires Inv(cfg, w) && w.core.queue != []
    ensures Converges(cfg, Flushed(cfg, w), p)
  {
    assert Converges(cfg, w, p);
    FlushOps(w.core, p);
    FlushSide(cfg, w, p);
    var rest := Ops(Flushed(cfg, w).core, p);
    assert ([w.core.queue[0].kind] + rest)[1..] == rest;
  }

  /** The step keeps every path on course exactly when it is safe; timers, flushes
      and removes always are. */
  lemma StepConvergesIffSafe(cfg: Settings, w: World, s: Step)
    requires Inv(cfg, w) && Enabled(w, s)
    ensures (forall p :: Converges(cfg, Apply(cfg, w, s), p)) <==> Safe(cfg, w, s)
  {
    match s
    case Write(path, content, now) =>
      forall p ensures Converges(cfg, Apply(cfg, w, s), p) <==> p != path || Safe(cfg, w, s) {
        WriteConverges(cfg, w, path, content, now, p);
      }
      WriteConverges(cfg, w, path, content, now, path);
    case Remove(path, now) =>
      forall p ensures Converges(cfg, Apply(cfg, w, s), p) {
        RemoveConverges(cfg, w, path, now, p);
      }
    case Rename(a, b) =>
      forall p ensures Converges(cfg, Apply(cfg, w, s), p)
                       <==> ((p == a ==> a !in w.store || Delete in KindsOf(w.core.queue, a))
                             && (p == b ==> cfg.keep || !PutBeforeDelete(KindsOf(w.core.queue, b))))
      {
        RenameConverges(cfg, w, a, b, p);
      }
      RenameConverges(cfg, w, a, b, a);
      RenameConverges(cfg, w, a, b, b);
    case Fire(path) =>
      forall p ensures Converges(cfg, Apply(cfg, w, s), p) {
        assert Converges(cfg, w, p);
        ForcedOps(w.core, path, p);
      }
    case Flush =>
      forall p ensures Converges(cfg, Apply(cfg, w, s), p) {
        FlushConverges(cfg, w, p);
      }
  }

  lemma WriteCounts(cfg: Settings, c: Core, path: Path, now: int, p: Path)
    requires Counted(c) && (cfg.window <= 0 ==> c.pending == map[])
    ensures var c' := Enqueued(c, PutEntry(path, path), cfg.window, cfg.max, now);
            CountOf(c'.dirty, p) == |Ops(c', p)|
  {
    assert CountOf(c.dirty, p) == |Ops(c, p)|;
    PutOps(cfg, c, path, now, p);
  }

  lemma DeleteCounts(cfg: Settings, c: Core, path: Path, now: int, p: Path)
    requires Counted(c)
    ensures var c' := Enqueued(c, DeleteEntry(path), cfg.window, cfg.max, now);
            CountOf(c'.dirty, p) == |Ops(c', p)|
  {
    assert CountOf(c.dirty, p) == |Ops(c, p)|;
    DeleteOps(cfg, c, path, now, p);
  }

  lemma RenameCounts(c: Core, a: Path, b: Path, p: Path)
    requires Counted(c) && a != b && a in c.pending
    ensures CountOf(Renamed(c, a, b, b).dirty, p) == |Ops(Renamed(c, a, b, b), p)|
  {
    assert CountOf(c.dirty, p) == |Ops(c, p)|;
    assert CountOf(c.dirty, a) == |Ops(c, a)|;
    RenameOps(c, a, b, p);
  }

  lemma FlushCounts(c: Core, p: Path)
    requires Counted(c) && Plain(c) && c.queue != []
    ensures CountOf(Cleaned(c.dirty, c.queue[0]), p) == |Ops(c.(queue := c.queue[1..]), p)|
  {
    var e := c.queue[0];
    assert CountOf(c.dirty, p) == |Ops(c, p)|;
    FlushOps(c, p);
  }

  lemma StepKeepsCounts(cfg: Settings, w: World, s: Step, p: Path)
    requires Inv(cfg, w) && Enabled(w, s)
    ensures CountOf(Apply(cfg, w, s).core.dirty, p) == |Ops(Apply(cfg, w, s).core, p)|
  {
    var c := w.core;
    assert CountOf(c.dirty, p) == |Ops(c, p)|;
    match s
    case Write(path, _, now) => WriteCounts(cfg, c, path, now, p);
    case Remove(path, now) => DeleteCounts(cfg, c, path, now, p);
    case Rename(a, b) => RenameCounts(c, a, b, p);
    case Fire(path) => ForcedOps(c, path, p);
    case Flush =>
      FlushCounts(c, p);
      assert Ops(Apply(cfg, w, s).core, p) == Ops(c.(queue := c.queue[1..]), p);
  }

  lemma SafeStepInv(cfg: Settings, w: World, s: Step)
    requires Inv(cfg, w) && Enabled(w, s) && Safe(cfg, w, s)
    ensures Inv(cfg, Apply(cfg, w, s))
  {
    StepConvergesIffSafe(cfg, w, s);
    forall p ensures CountOf(Apply(cfg, w, s).core.dirty, p) == |Ops(Apply(cfg, w, s).core, p)| {
      StepKeepsCounts(cfg, w, s, p);
    }
    StepKeepsPlain(cfg, w, s);
  }

  /** One more plain entry, and fewer parked Puts. */
  lemma PlainAppend(c: Core, d: Core, e: Entry)
    requires Plain(c) && ((e.kind == Put && e.bufferPath == e.path) || e.kind == Delete)
    requires d.queue == c.queue + [e] && d.pending.Keys <= c.pending.Keys
    requires forall p :: p in d.pending ==> d.pending[p] == c.pending[p]
    ensures Plain(d)
  {
  }

  lemma ForcedPlain(c: Core, path: Path)
    requires Plain(c)
    ensures Plain(Forced(c, path))
  {
    if path in c.pending {
      PlainAppend(c, Forced(c, path), PutEntry(path, path));
    }
  }

  lemma StepKeepsPlain(cfg: Settings, w: World, s: Step)
    requires Plain(w.core) && Enabled(w, s) && (cfg.window <= 0 ==> w.core.pending == map[])
    ensures Plain(Apply(cfg, w, s).core) && (cfg.window <= 0 ==> Apply(cfg, w, s).core.pending == map[])
  {
    var c, d := w.core, Apply(cfg, w, s).core;
    match s
    case Write(path, _, _) =>
      if cfg.window <= 0 {
        PlainAppend(c, d, PutEntry(path, path));
      }
    case Remove(path, _) =>
      if CountOf(c.dirty, path) > 0 {
        ForcedPlain(c, path);
        PlainAppend(Forced(c, path), d, DeleteEntry(path));
      }
    case Rename(a, b) => PlainAppend(c, d, PutEntry(b, b));
    case Fire(path) => ForcedPlain(c, path);
    case Flush =>
  }

  // ---------- Main result ----------

  ghost predicate SafeRun(cfg: Settings, w: World, steps: seq<Step>)
    decreases |steps|
  {
    steps == [] ||
    (Enabled(w, steps[0]) && Safe(cfg, w, steps[0]) && SafeRun(cfg, Apply(cfg, w, steps[0]), steps[1..]))
  }

  ghost function Final(cfg: Settings, w: World, steps: seq<Step>): World
    requires SafeRun(cfg, w, steps)
    decreases |steps|
  {
    if steps == [] then w else Final(cfg, Apply(cfg, w, steps[0]), steps[1..])
  }

  lemma {:induction false} SafeRunInv(cfg: Settings, w: World, steps: seq<Step>)
    requires Inv(cfg, w) && SafeRun(cfg, w, steps)
    ensures Inv(cfg, Final(cfg, w, steps))
    decreases |steps|
  {
    if steps != [] {
      SafeStepInv(cfg, w, steps[0]);
      SafeRunInv(cfg, Apply(cfg, w, steps[0]), steps[1..]);
    }
  }

  lemma SameContents(a: map<Path, Str>, b: map<Path, Str>)
    requires forall p :: Get(a, p) == Get(b, p)
    ensures a == b
  {
    assert forall p :: p in a ==> Get(a, p).Some? && Get(b, p).Some?;
    assert forall p :: p in b ==> Get(a, p).Some? && Get(b, p).Some?;
    assert a.Keys == b.Keys;
    assert forall p :: p in a ==> Get(a, p).value == Get(b, p).value;
  }

  /** Oplog convergence: after every safe run, once nothing is queued or parked the
      store holds for each path the last content written, or nothing if it was
      removed. */
  lemma StoreConverges(cfg: Settings, store: map<Path, Str>, steps: seq<Step>)
    requires SafeRun(cfg, World(EMPTY_CORE, map[], store, store), steps)
    ensures var w := Final(cfg, World(EMPTY_CORE, map[], store, store), steps);
            w.core.queue == [] && w.core.pending == map[] ==> w.store == w.intent
  {
    var start := World(EMPTY_CORE, map[], store, store);
    assert Inv(cfg, start);
    SafeRunInv(cfg, start, steps);
    var w := Final(cfg, start, steps);
    if w.core.queue == [] && w.core.pending == map[] {
      forall p ensures Get(w.store, p) == Get(w.intent, p) {
        assert Converges(cfg, w, p);
        assert Ops(w.core, p) == [];
      }
      SameContents(w.store, w.intent);
    }
  }

  /** A run of writes, removes, timers and flushes, safe or not. */
  ghost predicate PlainRun(cfg: Settings, w: World, steps: seq<Step>)
    decreases |steps|
  {
    steps == [] ||
    (Enabled(w, steps[0]) && !steps[0].Rename? && PlainRun(cfg, Apply(cfg, w, steps[0]), steps[1..]))
  }

  lemma {:induction false} KeptBuffersAreSafe(cfg: Settings, w: World, steps: seq<Step>)
    requires cfg.keep && PlainRun(cfg, w, steps)
    ensures SafeRun(cfg, w, steps)
    decreases |steps|
  {
    if steps != [] {
      KeptBuffersAreSafe(cfg, Apply(cfg, w, steps[0]), steps[1..]);
    }
  }

  /** With buffers kept no condition is left: after any run of writes, removes,
      timers and flushes, once drained, the store holds exactly the last contents. */
  lemma KeptBuffersConverge(cfg: Settings, store: map<Path, Str>, steps: seq<Step>)
    requires cfg.keep && PlainRun(cfg, World(EMPTY_CORE, map[], store, store), steps)
    ensures SafeRun(cfg, World(EMPTY_CORE, map[], store, store), steps)
    ensures var w := Final(cfg, World(EMPTY_CORE, map[], store, store), steps);
            w.core.queue == [] && w.core.pending == map[] ==> w.store == w.intent
  {
    KeptBuffersAreSafe(cfg, World(EMPTY_CORE, map[], store, store), steps);
    StoreConverges(cfg, store, steps);
  }

  // ---------- Shutdown ----------

  /** `es` are the parked Puts, one per parked path, in any order: takePending
      ranges over a map. */
  ghost predicate AllParked(c: Core, es: seq<Entry>) {
    && (forall i :: 0 <= i < |es| ==>
          es[i].path in c.pending && es[i] == PutEntry(es[i].path, c.pending[es[i].path].bufferPath))
    && (forall i, j :: 0 <= i < j < |es| ==> es[i].path != es[j].path)
    && forall p :: p in c.pending ==> exists i :: 0 <= i < |es| && es[i].path == p
  }

  function FlushAll(cfg: Settings, w: World): World
    decreases |w.core.queue|
  {
    if w.core.queue == [] then w
    else
      assert |Flushed(cfg, w).core.queue| < |w.core.queue|;
      FlushAll(cfg, Flushed(cfg, w))
  }

  /** drainOnShutdown, given the time: the parked Puts first, then the queue. */
  function ShutDown(cfg: Settings, w: World, es: seq<Entry>): World {
    FlushAll(cfg, w.(core := w.core.(pending := map[], queue := es + w.core.queue)))
  }

  /** A buffer file holds what was last written. */
  ghost predicate BufferIsIntent(w: World) {
    forall p :: p in w.buffer ==> Get(w.intent, p) == Some(w.buffer[p])
  }

  lemma StepKeepsBuffer(cfg: Settings, w: World, s: Step)
    requires BufferIsIntent(w) && Enabled(w, s)
    ensures BufferIsIntent(Apply(cfg, w, s))
  {
  }

  lemma {:induction false} FlushAllDrains(cfg: Settings, w: World, p: Path)
    requires Plain(w.core) && w.core.pending == map[]
    ensures SideOf(FlushAll(cfg, w), p) == Drain(cfg.keep, SideOf(w, p), KindsOf(w.core.queue, p))
    ensures FlushAll(cfg, w).intent == w.intent
    decreases |w.core.queue|
  {
    if w.core.queue != [] {
      FlushSide(cfg, w, p);
      FlushAllDrains(cfg, Flushed(cfg, w), p);
      var rest := KindsOf(w.core.queue[1..], p);
      if w.core.queue[0].path == p {
        assert KindsOf(w.core.queue, p) == [w.core.queue[0].kind] + rest;
        assert ([w.core.queue[0].kind] + rest)[1..] == rest;
      } else {
        assert KindsOf(w.core.queue, p) == rest;
      }
    }
  }

  lemma {:induction false} KindsAbsent(es: seq<Entry>, p: Path)
    requires forall i :: 0 <= i < |es| ==> es[i].path != p
    ensures KindsOf(es, p) == []
  {
    if es != [] {
      KindsAbsent(es[1..], p);
    }
  }

  lemma KindsOnce(es: seq<Entry>, i: nat, p: Path)
    requires i < |es| && es[i].path == p && forall j :: 0 <= j < |es| && j != i ==> es[j].path != p
    ensures KindsOf(es, p) == [es[i].kind]
  {
    KindsConcat(es[..i], es[i..], p);
    assert es == es[..i] + es[i..];
    KindsAbsent(es[..i], p);
    KindsAbsent(es[i..][1..], p);
  }

  lemma ParkedKinds(c: Core, es: seq<Entry>, p: Path)
    requires AllParked(c, es)
    ensures KindsOf(es, p) == if p in c.pending then [Put] else []
  {
    if p in c.pending {
      var i :| 0 <= i < |es| && es[i].path == p;
      KindsOnce(es, i, p);
    } else {
      KindsAbsent(es, p);
    }
  }

  ghost predicate PutsAndDeletes(ops: seq<Kind>) { forall i :: 0 <= i < |ops| ==> ops[i] == Put || ops[i] == Delete }

  /** With the buffer kept, the last operation decides. */
  lemma {:induction false} DrainKept(content: Str, remote: Option<Str>, ops: seq<Kind>)
    requires PutsAndDeletes(ops)
    ensures Drain(true, Side(Some(content), remote), ops) ==
            Side(Some(content), if ops == [] then remote else if ops[|ops| - 1] == Put then Some(content) else None)
  {
    if ops != [] {
      var front, last := ops[..|ops| - 1], ops[|ops| - 1];
      assert ops == front + [last];
      DrainAppend(true, Side(Some(content), remote), front, last);
      DrainKept(content, remote, front);
    }
  }

  lemma {:induction false} KindsPlain(es: seq<Entry>, p: Path)
    requires forall i :: 0 <= i < |es| ==> es[i].kind == Put || es[i].kind == Delete
    ensures PutsAndDeletes(KindsOf(es, p))
  {
    if es != [] {
      KindsPlain(es[1..], p);
    }
  }

  /** What the shutdown order costs: a parked Put with its buffer in place must not
      overtake a queued Delete that nothing queued makes good. */
  ghost predicate ShutdownSafe(cfg: Settings, w: World, p: Path) {
    var queued := KindsOf(w.core.queue, p);
    p in w.core.pending && p in w.buffer ==>
      if cfg.keep then queued == [] || queued[|queued| - 1] != Delete else Delete !in queued
  }

  /** The shutdown drain converges on a path if and only if that holds. Otherwise
      the store ends up without a file the agent was told is written. */
  lemma ShutdownConvergesIffSafe(cfg: Settings, w: World, es: seq<Entry>, p: Path)
    requires Inv(cfg, w) && BufferIsIntent(w) && AllParked(w.core, es)
    ensures Get(ShutDown(cfg, w, es).store, p) == Get(w.intent, p) <==> ShutdownSafe(cfg, w, p)
    ensures !ShutdownSafe(cfg, w, p) ==> p !in ShutDown(cfg, w, es).store && p in w.intent
  {
    var all := w.(core := w.core.(pending := map[], queue := es + w.core.queue));
    assert Plain(all.core);
    FlushAllDrains(cfg, all, p);
    ParkedKinds(w.core, es, p);
    KindsConcat(es, w.core.queue, p);
    KindsPlain(w.core.queue, p);
    assert SideOf(all, p) == SideOf(w, p);
    ShutdownOfOne(cfg, w, p);
  }

  lemma ShutdownOfOne(cfg: Settings, w: World, p: Path)
    requires Inv(cfg, w) && BufferIsIntent(w)
    requires PutsAndDeletes(KindsOf(w.core.queue, p))
    ensures var first := if p in w.core.pending then [Put] else [];
            var end := Drain(cfg.keep, SideOf(w, p), first + KindsOf(w.core.queue, p)).remote;
            && (end == Get(w.intent, p) <==> ShutdownSafe(cfg, w, p))
            && (!ShutdownSafe(cfg, w, p) ==> end == None && p in w.intent)
  {
    var queued := KindsOf(w.core.queue, p);
    var side := SideOf(w, p);
    assert Converges(cfg, w, p);
    if p !in w.core.pending {
      assert [] + queued == queued == queued + [];
    } else {
      assert ([Put] + queued)[1..] == queued;
      if p !in w.buffer {
        DrainEmpty(cfg.keep, side, queued + [Put]);
        DrainEmpty(cfg.keep, side, queued);
      } else if cfg.keep {
        DrainKept(w.buffer[p], Some(w.buffer[p]), queued);
      } else {
        DrainEmpty(false, Side(None, Some(w.buffer[p])), queued);
      }
    }
  }

  lemma {:induction false} SafeRunKeepsBuffer(cfg: Settings, w: World, steps: seq<Step>)
    requires BufferIsIntent(w) && SafeRun(cfg, w, steps)
    ensures BufferIsIntent(Final(cfg, w, steps))
    decreases |steps|
  {
    if steps != [] {
      StepKeepsBuffer(cfg, w, steps[0]);
      SafeRunKeepsBuffer(cfg, Apply(cfg, w, steps[0]), steps[1..]);
    }
  }

  /** Shutting down after any safe run: exactly the unsafe paths lose their file. */
  lemma ShutdownAfterRun(cfg: Settings, store: map<Path, Str>, steps: seq<Step>, es: seq<Entry>, p: Path)
    requires SafeRun(cfg, World(EMPTY_CORE, map[], store, store), steps)
    requires AllParked(Final(cfg, World(EMPTY_CORE, map[], store, store), steps).core, es)
    ensures var w := Final(cfg, World(EMPTY_CORE, map[], store, store), steps);
            Get(ShutDown(cfg, w, es).store, p) == if ShutdownSafe(cfg, w, p) then Get(w.intent, p) else None
  {
    var start := World(EMPTY_CORE, map[], store, store);
    assert Inv(cfg, start);
    SafeRunInv(cfg, start, steps);
    SafeRunKeepsBuffer(cfg, start, steps);
    ShutdownConvergesIffSafe(cfg, Final(cfg, start, steps), es, p);
  }

  // ---------- The two unsafe families are real ----------

  /** Evicting mode: a file is written, removed while its Put is still queued, and
      written again; the queued Put uploads the new content, the Delete removes it
      and the last Put finds no buffer. Nothing is left of the write. */
  lemma EvictingLosesRewrite(p: Path, first: Str, second: Str)
    ensures var cfg := Settings(false, 1, 1);
            var w := PutThenDelete(cfg, p, first);
            var after := Apply(cfg, w, Write(p, second, 0));
            Inv(cfg, w) && !Converges(cfg, after, p) && Get(after.intent, p) == Some(second)
  {
    var cfg := Settings(false, 1, 1);
    var w0 := World(EMPTY_CORE, map[], map[], map[]);
    var w1 := Apply(cfg, w0, Write(p, first, 0));
    var w2 := Apply(cfg, w1, Fire(p));
    assert Inv(cfg, w0);
    SafeStepInv(cfg, w0, Write(p, first, 0));
    SafeStepInv(cfg, w1, Fire(p));
    SafeStepInv(cfg, w2, Remove(p, 0));
    var w := PutThenDelete(cfg, p, first);
    assert CountOf(w2.core.dirty, p) == 1;
    assert w.core.queue == [PutEntry(p, p), DeleteEntry(p)];
    assert w.core.queue[1..] == [DeleteEntry(p)] && [DeleteEntry(p)][1..] == [];
    assert KindsOf([DeleteEntry(p)], p) == [Delete] + [];
    assert KindsOf(w.core.queue, p) == [Put] + [Delete];
    assert p !in w.core.pending && Ops(w.core, p) == [Put, Delete];
    assert Ops(w.core, p)[0] == Put && Ops(w.core, p)[1] == Delete;
    WriteConverges(cfg, w, p, second, 0, p);
  }

  /** Written, timer fired, removed: the Put and the Delete are both queued. */
  function PutThenDelete(cfg: Settings, p: Path, content: Str): World {
    var w0 := World(EMPTY_CORE, map[], map[], map[]);
    Apply(cfg, Apply(cfg, Apply(cfg, w0, Write(p, content, 0)), Fire(p)), Remove(p, 0))
  }

  /** A file that is already in the store is written again and renamed while that
      Put is parked: the redirect uploads the new name and leaves the old object. */
  lemma RenameLeavesOldObject(cfg: Settings, a: Path, b: Path, before: Str, after: Str)
    requires a != b && cfg.window > 0
    ensures var w0 := World(EMPTY_CORE, map[], map[a := before], map[a := before]);
            var w1 := Apply(cfg, w0, Write(a, after, 0));
            && Enabled(w1, Rename(a, b))
            && var w2 := Apply(cfg, w1, Rename(a, b));
               w2.core.queue == [PutEntry(b, b)] && a !in w2.intent
               && Drain(cfg.keep, SideOf(w2, a), Ops(w2.core, a)).remote == Some(before)
  {
    var w0 := World(EMPTY_CORE, map[], map[a := before], map[a := before]);
    var w1 := Apply(cfg, w0, Write(a, after, 0));
    var w2 := Apply(cfg, w1, Rename(a, b));
    RenameOps(w1.core, a, b, a);
    assert [] + [PutEntry(b, b)] == [PutEntry(b, b)];
  }
}
