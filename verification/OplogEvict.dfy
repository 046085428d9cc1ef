/** Convergence with a flush taken apart: the store reads and keeps a buffer's content,
    and later the buffer is evicted. FUSE calls and timers may come in between. */
module OplogEvict {
  import opened Common
  import opened Oplog
  import S = OplogSync

  /** `evicting` is the path whose content is uploaded and whose buffer is still to be
      removed; the entry is in flight, and counted, until then. */
  datatype World = World(sync: S.World, evicting: Option<Path>)

  datatype Step =
    | Write(path: Path, content: Str, now: int)
    | Remove(path: Path, now: int)
    | Fire(path: Path)
    | Upload      // flush up to the store call
    | Evict       // flush from os.Remove on

  predicate Enabled(w: World, s: Step) {
    match s
    case Upload => w.evicting.None? && w.sync.core.queue != []
    case Evict => w.evicting.Some?
    case _ => true
  }

  function Apply(cfg: S.Settings, w: World, s: Step): World
    requires Enabled(w, s)
  {
    match s
    case Write(p, content, now) => w.(sync := S.Apply(cfg, w.sync, S.Write(p, content, now)))
    case Remove(p, now) => w.(sync := S.Apply(cfg, w.sync, S.Remove(p, now)))
    case Fire(p) => w.(sync := S.Apply(cfg, w.sync, S.Fire(p)))
    case Upload => Uploaded(cfg, w.sync)
    case Evict => World(Evicted(cfg, w.sync, w.evicting.value), None)
  }

  /** A Put whose buffer is there waits for its eviction; everything else is one step. */
  function Uploaded(cfg: S.Settings, v: S.World): World
    requires v.core.queue != []
  {
    var e := v.core.queue[0];
    if e.kind == Put && e.bufferPath in v.buffer then
      World(v.(core := v.core.(queue := v.core.queue[1..]), store := v.store[e.path := v.buffer[e.bufferPath]]),
            Some(e.path))
    else World(S.Flushed(cfg, v), None)
  }

  function Evicted(cfg: S.Settings, v: S.World, p: Path): S.World {
    v.(core := v.core.(dirty := Dec(v.core.dirty, p)), buffer := if cfg.keep then v.buffer else v.buffer - {p})
  }

  /** With nothing in between, the two halves are the flush of one step. */
  lemma HalvesMakeAFlush(cfg: S.Settings, v: S.World)
    requires v.core.queue != [] && S.Plain(v.core)
    ensures var half := Uploaded(cfg, v);
            S.Flushed(cfg, v) == if half.evicting.Some? then Evicted(cfg, half.sync, half.evicting.value) else half.sync
  {
  }

  // ---------- What one path will hold when everything has drained ----------

  /** Buffer and object of a path, a pending eviction carried out. */
  function SideOf(cfg: S.Settings, w: World, p: Path): S.Side {
    var s := S.SideOf(w.sync, p);
    if w.evicting == Some(p) && !cfg.keep then s.(buf := None) else s
  }

  ghost predicate Converges(cfg: S.Settings, w: World, p: Path) {
    S.Drain(cfg.keep, SideOf(cfg, w, p), S.Ops(w.sync.core, p)).remote == S.Get(w.sync.intent, p)
  }

  function InFlight(w: World, p: Path): nat { if w.evicting == Some(p) then 1 else 0 }

  ghost predicate CountedAt(w: World, p: Path) {
    CountOf(w.sync.core.dirty, p) == |S.Ops(w.sync.core, p)| + InFlight(w, p)
  }

  ghost predicate Inv(cfg: S.Settings, w: World) {
    && S.Plain(w.sync.core)
    && (cfg.window <= 0 ==> w.sync.core.pending == map[])
    && (forall p :: CountedAt(w, p))
    && forall p :: Converges(cfg, w, p)
  }

  /** What a caller can check before a step. Between upload and eviction a write is
      lost unless it changes nothing; otherwise the condition is the one for a flush
      of one step. */
  ghost predicate Safe(cfg: S.Settings, w: World, s: Step) {
    s.Write? && !cfg.keep ==>
      if w.evicting == Some(s.path) then
        s.path in w.sync.store && w.sync.store[s.path] == s.content && Delete !in S.KindsOf(w.sync.core.queue, s.path)
      else !S.PutBeforeDelete(S.Ops(w.sync.core, s.path))
  }

  // ---------- Steps ----------

  /** Operations and buffer of every path after a write. */
  lemma WriteEffect(cfg: S.Settings, w: World, path: Path, content: Str, now: int, p: Path)
    requires cfg.window <= 0 ==> w.sync.core.pending == map[]
    ensures var v := S.Apply(cfg, w.sync, S.Write(path, content, now));
            && (p != path ==> S.Ops(v.core, p) == S.Ops(w.sync.core, p) && S.SideOf(v, p) == S.SideOf(w.sync, p)
                              && S.Get(v.intent, p) == S.Get(w.sync.intent, p))
            && (p == path ==> S.Ops(v.core, p) == S.KindsOf(w.sync.core.queue, p) + [Put]
                              && S.SideOf(v, p) == S.Side(Some(content), S.Get(w.sync.store, p))
                              && S.Get(v.intent, p) == Some(content))
  {
    S.PutOps(cfg, w.sync.core, path, now, p);
    if cfg.window <= 0 {
      var queued := S.KindsOf(w.sync.core.queue, p);
      assert queued + [] == queued;
    }
  }

  lemma WriteConvergesIff(cfg: S.Settings, w: World, path: Path, content: Str, now: int, p: Path)
    requires Inv(cfg, w)
    ensures Converges(cfg, Apply(cfg, w, Write(path, content, now)), p)
            <==> p != path || Safe(cfg, w, Write(path, content, now))
  {
    assert Converges(cfg, w, p);
    WriteEffect(cfg, w, path, content, now, p);
    if p == path {
      WrittenIff(cfg, S.KindsOf(w.sync.core.queue, p), content, S.Get(w.sync.store, p), w.evicting == Some(p));
      OpsOfWritten(cfg, w.sync.core, p);
    }
  }

  lemma OpsOfWritten(cfg: S.Settings, c: Core, p: Path)
    ensures S.PutBeforeDelete(S.Ops(c, p)) <==> S.PutBeforeDelete(S.KindsOf(c.queue, p))
  {
    S.TrailingPut(S.KindsOf(c.queue, p));
    assert S.KindsOf(c.queue, p) + [] == S.KindsOf(c.queue, p);
  }

  /** A written path, with or without an eviction still to come. */
  lemma WrittenIff(cfg: S.Settings, queued: seq<Kind>, content: Str, remote: Option<Str>, evicting: bool)
    ensures var side := S.Side(if evicting && !cfg.keep then None else Some(content), remote);
            S.Drain(cfg.keep, side, queued + [Put]).remote == Some(content)
            <==> cfg.keep || (if evicting then remote == Some(content) && Delete !in queued
                              else !S.PutBeforeDelete(queued))
  {
    if evicting && !cfg.keep {
      S.DrainEmpty(cfg.keep, S.Side(None, remote), queued + [Put]);
      assert Delete in queued + [Put] <==> Delete in queued;
    } else {
      S.DrainWrite(cfg.keep, content, remote, queued);
    }
  }

  /** What is left of a removed path: no buffer, and a Delete still to come or the
      object gone already. */
  lemma RemoveEffect(cfg: S.Settings, w: World, p: Path, now: int)
    requires CountedAt(w, p)
    ensures var t := Apply(cfg, w, Remove(p, now));
            && SideOf(cfg, t, p).buf == None && S.Get(t.sync.intent, p) == None
            && (if CountOf(w.sync.core.dirty, p) > 0 then S.Ops(t.sync.core, p) == S.Ops(w.sync.core, p) + [Delete]
                else S.Ops(t.sync.core, p) == [] && SideOf(cfg, t, p).remote == None)
  {
    S.DeleteOps(cfg, w.sync.core, p, now, p);
  }

  lemma RemoveElsewhere(cfg: S.Settings, w: World, path: Path, now: int, p: Path)
    requires p != path
    ensures var t := Apply(cfg, w, Remove(path, now));
            && SideOf(cfg, t, p) == SideOf(cfg, w, p) && S.Get(t.sync.intent, p) == S.Get(w.sync.intent, p)
            && S.Ops(t.sync.core, p) == S.Ops(w.sync.core, p)
  {
    S.DeleteOps(cfg, w.sync.core, path, now, p);
  }

  lemma RemoveConverges(cfg: S.Settings, w: World, path: Path, now: int, p: Path)
    requires Converges(cfg, w, p) && CountedAt(w, path)
    ensures Converges(cfg, Apply(cfg, w, Remove(path, now)), p)
  {
    if p == path {
      RemoveEffect(cfg, w, p, now);
      S.DrainAppend(cfg.keep, SideOf(cfg, Apply(cfg, w, Remove(path, now)), p), S.Ops(w.sync.core, p), Delete);
    } else {
      RemoveElsewhere(cfg, w, path, now, p);
    }
  }

  lemma UploadConverges(cfg: S.Settings, w: World, p: Path)
    requires Inv(cfg, w) && Enabled(w, Upload)
    ensures Converges(cfg, Apply(cfg, w, Upload), p)
  {
    var c := w.sync.core;
    var t := Apply(cfg, w, Upload);
    assert Converges(cfg, w, p);
    S.FlushOps(c, p);
    S.FlushSide(cfg, w.sync, p);
    var rest := S.Ops(t.sync.core, p);
    assert rest == S.Ops(c.(queue := c.queue[1..]), p);
    assert ([c.queue[0].kind] + rest)[1..] == rest;
    UploadedSide(cfg, w.sync, p);
  }

  /** Uploading does to a path what the whole flush does, once evicted. */
  lemma UploadedSide(cfg: S.Settings, v: S.World, p: Path)
    requires S.Plain(v.core) && v.core.queue != []
    ensures SideOf(cfg, Uploaded(cfg, v), p) == S.SideOf(S.Flushed(cfg, v), p)
    ensures Uploaded(cfg, v).sync.intent == v.intent
  {
  }

  lemma EvictConverges(cfg: S.Settings, w: World, p: Path)
    requires Inv(cfg, w) && Enabled(w, Evict)
    ensures Converges(cfg, Apply(cfg, w, Evict), p)
  {
    var t := Apply(cfg, w, Evict);
    assert Converges(cfg, w, p);
    assert S.Ops(t.sync.core, p) == S.Ops(w.sync.core, p) && SideOf(cfg, t, p) == SideOf(cfg, w, p);
  }

  /** The step keeps every path on course exactly when it is safe: with buffers kept
      always, and otherwise removes, timers, uploads and evictions always. */
  lemma StepConvergesIffSafe(cfg: S.Settings, w: World, s: Step)
    requires Inv(cfg, w) && Enabled(w, s)
    ensures (forall p :: Converges(cfg, Apply(cfg, w, s), p)) <==> Safe(cfg, w, s)
  {
    match s
    case Write(path, content, now) =>
      forall p ensures Converges(cfg, Apply(cfg, w, s), p) <==> p != path || Safe(cfg, w, s) {
        WriteConvergesIff(cfg, w, path, content, now, p);
      }
      WriteConvergesIff(cfg, w, path, content, now, path);
    case Remove(path, now) =>
      assert CountedAt(w, path);
      forall p ensures Converges(cfg, Apply(cfg, w, s), p) {
        assert Converges(cfg, w, p);
        RemoveConverges(cfg, w, path, now, p);
      }
    case Fire(path) =>
      forall p ensures Converges(cfg, Apply(cfg, w, s), p) {
        assert Converges(cfg, w, p);
        S.ForcedOps(w.sync.core, path, p);
      }
    case Upload =>
      forall p ensures Converges(cfg, Apply(cfg, w, s), p) {
        UploadConverges(cfg, w, p);
      }
    case Evict =>
      forall p ensures Converges(cfg, Apply(cfg, w, s), p) {
        EvictConverges(cfg, w, p);
      }
  }

  lemma WriteKeepsCount(cfg: S.Settings, w: World, path: Path, content: Str, now: int, p: Path)
    requires CountedAt(w, p) && (cfg.window <= 0 ==> w.sync.core.pending == map[])
    ensures CountedAt(Apply(cfg, w, Write(path, content, now)), p)
  {
    S.PutOps(cfg, w.sync.core, path, now, p);
  }

  lemma DeleteDirties(cfg: S.Settings, c: Core, path: Path, now: int, p: Path)
    ensures CountOf(Enqueued(c, S.DeleteEntry(path), cfg.window, cfg.max, now).dirty, p)
            == CountOf(c.dirty, p) + if p == path then 1 else 0
  {
  }

  lemma RemoveKeepsCount(cfg: S.Settings, w: World, path: Path, now: int, p: Path)
    requires CountedAt(w, p)
    ensures CountedAt(Apply(cfg, w, Remove(path, now)), p)
  {
    if CountOf(w.sync.core.dirty, path) > 0 {
      S.DeleteOps(cfg, w.sync.core, path, now, p);
      DeleteDirties(cfg, w.sync.core, path, now, p);
    } else {
      assert Apply(cfg, w, Remove(path, now)).sync.core == w.sync.core;
    }
  }

  lemma UploadKeepsCount(cfg: S.Settings, w: World, p: Path)
    requires (forall q :: CountedAt(w, q)) && Enabled(w, Upload) && S.Plain(w.sync.core)
    ensures CountedAt(Apply(cfg, w, Upload), p)
  {
    var c := w.sync.core;
    assert CountedAt(w, p);
    S.FlushOps(c, p);
    UploadedOps(cfg, w.sync, p);
    if Uploaded(cfg, w.sync).evicting.None? {
      forall q ensures CountOf(c.dirty, q) == |S.Ops(c, q)| {
        assert CountedAt(w, q);
      }
      S.FlushCounts(c, p);
    }
  }

  lemma UploadedOps(cfg: S.Settings, v: S.World, p: Path)
    requires v.core.queue != [] && S.Plain(v.core)
    ensures var t := Uploaded(cfg, v);
            && S.Ops(t.sync.core, p) == S.Ops(v.core.(queue := v.core.queue[1..]), p)
            && (t.evicting.Some? ==> t.evicting.value == v.core.queue[0].path && t.sync.core.dirty == v.core.dirty)
            && (t.evicting.None? ==> t.sync.core.dirty == Cleaned(v.core.dirty, v.core.queue[0]))
  {
  }

  lemma EvictKeepsCount(cfg: S.Settings, w: World, p: Path)
    requires CountedAt(w, p) && Enabled(w, Evict)
    ensures CountedAt(Apply(cfg, w, Evict), p)
  {
    assert S.Ops(Apply(cfg, w, Evict).sync.core, p) == S.Ops(w.sync.core, p);
  }

  lemma StepKeepsCount(cfg: S.Settings, w: World, s: Step, p: Path)
    requires Inv(cfg, w) && Enabled(w, s)
    ensures CountedAt(Apply(cfg, w, s), p)
  {
    assert CountedAt(w, p);
    match s
    case Write(path, content, now) => WriteKeepsCount(cfg, w, path, content, now, p);
    case Remove(path, now) => RemoveKeepsCount(cfg, w, path, now, p);
    case Fire(path) => S.ForcedOps(w.sync.core, path, p);
    case Upload => UploadKeepsCount(cfg, w, p);
    case Evict => EvictKeepsCount(cfg, w, p);
  }

  lemma StepKeepsPlain(cfg: S.Settings, w: World, s: Step)
    requires Inv(cfg, w) && Enabled(w, s)
    ensures var c := Apply(cfg, w, s).sync.core; S.Plain(c) && (cfg.window <= 0 ==> c.pending == map[])
  {
    match s
    case Write(path, content, now) => S.StepKeepsPlain(cfg, w.sync, S.Write(path, content, now));
    case Remove(path, now) => S.StepKeepsPlain(cfg, w.sync, S.Remove(path, now));
    case Fire(path) => S.StepKeepsPlain(cfg, w.sync, S.Fire(path));
    case Upload => S.StepKeepsPlain(cfg, w.sync, S.Flush);
    case Evict =>
  }

  lemma SafeStepInv(cfg: S.Settings, w: World, s: Step)
    requires Inv(cfg, w) && Enabled(w, s) && Safe(cfg, w, s)
    ensures Inv(cfg, Apply(cfg, w, s))
  {
    StepConvergesIffSafe(cfg, w, s);
    StepKeepsPlain(cfg, w, s);
    forall p ensures CountedAt(Apply(cfg, w, s), p) {
      StepKeepsCount(cfg, w, s, p);
    }
  }

  // ---------- Main results ----------

  ghost predicate SafeRun(cfg: S.Settings, w: World, steps: seq<Step>)
    decreases |steps|
  {
    steps == [] ||
    (Enabled(w, steps[0]) && Safe(cfg, w, steps[0]) && SafeRun(cfg, Apply(cfg, w, steps[0]), steps[1..]))
  }

  ghost function Final(cfg: S.Settings, w: World, steps: seq<Step>): World
    requires SafeRun(cfg, w, steps)
    decreases |steps|
  {
    if steps == [] then w else Final(cfg, Apply(cfg, w, steps[0]), steps[1..])
  }

  lemma {:induction false} SafeRunInv(cfg: S.Settings, w: World, steps: seq<Step>)
    requires Inv(cfg, w) && SafeRun(cfg, w, steps)
    ensures Inv(cfg, Final(cfg, w, steps))
    decreases |steps|
  {
    if steps != [] {
      SafeStepInv(cfg, w, steps[0]);
      SafeRunInv(cfg, Apply(cfg, w, steps[0]), steps[1..]);
    }
  }

  function Start(store: map<Path, Str>): World { World(S.World(EMPTY_CORE, map[], store, store), None) }

  /** After every safe run, once nothing is parked, queued or in flight, the store
      holds for each path the last content written, or nothing if it was removed. */
  lemma StoreConverges(cfg: S.Settings, store: map<Path, Str>, steps: seq<Step>)
    requires SafeRun(cfg, Start(store), steps)
    ensures var w := Final(cfg, Start(store), steps);
            w.sync.core.queue == [] && w.sync.core.pending == map[] && w.evicting.None? ==>
              w.sync.store == w.sync.intent
  {
    assert Inv(cfg, Start(store)) by {
      assert forall p :: S.Ops(EMPTY_CORE, p) == [];
    }
    SafeRunInv(cfg, Start(store), steps);
    var w := Final(cfg, Start(store), steps);
    if w.sync.core.queue == [] && w.sync.core.pending == map[] && w.evicting.None? {
      forall p ensures S.Get(w.sync.store, p) == S.Get(w.sync.intent, p) {
        assert Converges(cfg, w, p);
        assert S.Ops(w.sync.core, p) == [];
      }
      S.SameContents(w.sync.store, w.sync.intent);
    }
  }

  ghost predicate LegalRun(cfg: S.Settings, w: World, steps: seq<Step>)
    decreases |steps|
  {
    steps == [] || (Enabled(w, steps[0]) && LegalRun(cfg, Apply(cfg, w, steps[0]), steps[1..]))
  }

  /** With buffers kept every run is safe. */
  lemma {:induction false} KeptIsSafe(cfg: S.Settings, w: World, steps: seq<Step>)
    requires cfg.keep && LegalRun(cfg, w, steps)
    ensures SafeRun(cfg, w, steps)
    decreases |steps|
  {
    if steps != [] {
      KeptIsSafe(cfg, Apply(cfg, w, steps[0]), steps[1..]);
    }
  }

  /** A write that lands between upload and eviction is lost for good: afterwards
      nothing is outstanding, and the store still has the content from before it. */
  lemma WriteDuringUploadIsLost(p: Path, first: Str, second: Str)
    ensures var cfg := S.Settings(false, 1, 1);
            var w1 := Apply(cfg, Apply(cfg, Start(map[]), Write(p, first, 0)), Fire(p));
            && Enabled(w1, Upload)
            && var w2 := Apply(cfg, Apply(cfg, w1, Upload), Write(p, second, 0));
               && Enabled(w2, Evict)
               && var w3 := Apply(cfg, Apply(cfg, w2, Evict), Fire(p));
                  && Enabled(w3, Upload)
                  && var w4 := Apply(cfg, w3, Upload);
                     && w4.sync.core == EMPTY_CORE && w4.evicting.None?
                     && w4.sync.store == map[p := first] && w4.sync.intent == map[p := second]
  {
    var cfg := S.Settings(false, 1, 1);
    var put := PutEntry(p, p);
    var w1 := Apply(cfg, Apply(cfg, Start(map[]), Write(p, first, 0)), Fire(p));
    assert w1.sync.core == Core(map[], [put], map[p := 1], []) && w1.sync.buffer == map[p := first];
    var w2 := Apply(cfg, Apply(cfg, w1, Upload), Write(p, second, 0));
    assert w2.evicting == Some(p) && w2.sync.core.queue == [] && w2.sync.core.dirty == map[p := 2];
    var w3 := Apply(cfg, Apply(cfg, w2, Evict), Fire(p));
    assert w3.sync.core == Core(map[], [put], map[p := 1], []) && w3.sync.buffer == map[];
    var w4 := Apply(cfg, w3, Upload);
    assert w4.sync.core == EMPTY_CORE;
  }
}
