/** The write-back oplog: debounced Puts, a FIFO queue, per-path dirty counts, a
    dead-letter list. One function, and one method, per critical section. */
module Oplog {
  import opened Common

  type Path = string

  datatype Kind = Put | Delete | Move | Symlink

  /** newPath is "" unless the entry is a Move. */
  datatype Entry = Entry(kind: Kind, path: Path, newPath: Path, bufferPath: Path)

  function PutEntry(path: Path, bufferPath: Path): Entry { Entry(Put, path, "", bufferPath) }

  /** A Put held back on the coalesce window. `firstAt` is the group's first write,
      `lastAt` its latest, `fireAt` when its timer is due. */
  datatype Parked = Parked(bufferPath: Path, firstAt: int, lastAt: int, fireAt: int)

  /** The fields the oplog's two mutexes guard, and its channel. */
  datatype Core = Core(
    pending: map<Path, Parked>,
    queue: seq<Entry>,
    dirty: map<Path, nat>,
    dead: seq<Entry>)

  const EMPTY_CORE := Core(map[], [], map[], [])

  // ---------- Dirty counts ----------

  function CountOf(dirty: map<Path, nat>, p: Path): nat {
    if p in dirty then dirty[p] else 0
  }

  function Inc(dirty: map<Path, nat>, p: Path): map<Path, nat> {
    dirty[p := CountOf(dirty, p) + 1]
  }

  /** Decrement, behind the source's `> 0` guard; a count of zero is deleted. */
  function Dec(dirty: map<Path, nat>, p: Path): map<Path, nat> {
    if CountOf(dirty, p) == 0 then dirty
    else if dirty[p] == 1 then dirty - {p}
    else dirty[p := dirty[p] - 1]
  }

  predicate HasTarget(e: Entry) { e.kind == Move && e.newPath != "" }

  function Dirtied(dirty: map<Path, nat>, e: Entry): map<Path, nat> {
    var d := Inc(dirty, e.path);
    if HasTarget(e) then Inc(d, e.newPath) else d
  }

  function Cleaned(dirty: map<Path, nat>, e: Entry): map<Path, nat> {
    var d := Dec(dirty, e.path);
    if HasTarget(e) then Dec(d, e.newPath) else d
  }

  // ---------- Debouncing ----------

  /** debounceDelay: the window, cut short by the cap, never negative. */
  function DebounceDelay(window: int, max: int, firstAt: int, now: int): (d: int)
    ensures 0 <= d
    ensures 0 < window ==> d <= window
    ensures now <= firstAt + max ==> now + d <= firstAt + max
    ensures d < window ==> firstAt + max <= now + d   // only the cap shortens it
  {
    var remaining := firstAt + max - now;
    var d := if remaining < window then remaining else window;
    if d < 0 then 0 else d
  }

  /** debouncePut: joins the parked group of the path or starts one. */
  function Debounce(c: Core, path: Path, bufferPath: Path, window: int, max: int, now: int): Core {
    if path in c.pending then
      var first := c.pending[path].firstAt;
      c.(pending := c.pending[path := Parked(bufferPath, first, now, now + DebounceDelay(window, max, first, now))])
    else
      c.(pending := c.pending[path := Parked(bufferPath, now, now, now + DebounceDelay(window, max, now, now))],
         dirty := Inc(c.dirty, path))
  }

  /** forcePending, and firePending: the path's parked Put goes to the queue. */
  function Forced(c: Core, path: Path): Core {
    if path !in c.pending then c
    else c.(pending := c.pending - {path}, queue := c.queue + [PutEntry(path, c.pending[path].bufferPath)])
  }

  /** Enqueue, run as one step: a Delete or Move first forces out the parked Puts
      of the paths it names. */
  function Enqueued(c: Core, e: Entry, window: int, max: int, now: int): Core {
    if window > 0 && e.kind == Put then Debounce(c, e.path, e.bufferPath, window, max, now)
    else
      var c1 := match e.kind
                case Delete => Forced(c, e.path)
                case Move => if e.newPath != "" then Forced(Forced(c, e.path), e.newPath) else Forced(c, e.path)
                case _ => c;
      c1.(dirty := Dirtied(c1.dirty, e), queue := c1.queue + [e])
  }

  /** RenameParkedPut, both critical sections and the send. */
  function Renamed(c: Core, oldPath: Path, newPath: Path, newBuffer: Path): Core {
    if oldPath !in c.pending then c
    else
      var d := Dec(c.dirty, oldPath);
      c.(pending := c.pending - {oldPath, newPath},
         dirty := if newPath in c.pending - {oldPath} then d else Inc(d, newPath),
         queue := c.queue + [PutEntry(newPath, newBuffer)])
  }

  // ---------- The oplog as an object ----------

  class Log {
    const window: int
    const max: int
    var pending: map<Path, Parked>
    var queue: seq<Entry>
    var dirty: map<Path, nat>
    var dead: seq<Entry>

    ghost function View(): Core
      reads this
    {
      Core(pending, queue, dirty, dead)
    }

    constructor (window: int, max: int)
      ensures View() == EMPTY_CORE && this.window == window && this.max == max
    {
      this.window, this.max := window, max;
      pending, queue, dirty, dead := map[], [], map[], [];
    }

    method DebouncePut(path: Path, bufferPath: Path, now: int)
      modifies this
      ensures View() == Debounce(old(View()), path, bufferPath, window, max, now)
    {
      if path in pending {
        var p := pending[path];
        var fireAt := now + DebounceDelay(window, max, p.firstAt, now);
        pending := pending[path := Parked(bufferPath, p.firstAt, now, fireAt)];
        return;
      }
      pending := pending[path := Parked(bufferPath, now, now, now + DebounceDelay(window, max, now, now))];
      MarkDirty(PutEntry(path, bufferPath));
    }

    method Enqueue(e: Entry, now: int)
      modifies this
      ensures View() == Enqueued(old(View()), e, window, max, now)
    {
      if window > 0 && e.kind == Put {
        DebouncePut(e.path, e.bufferPath, now);
        return;
      }
      match e.kind {
        case Delete => ForcePending(e.path);
        case Move =>
          ForcePending(e.path);
          if e.newPath != "" {
            ForcePending(e.newPath);
          }
        case _ =>
      }
      MarkDirty(e);
      queue := queue + [e];
    }

    method ForcePending(path: Path)
      modifies this`pending, this`queue
      ensures View() == Forced(old(View()), path)
    {
      var e := TakeParked(path);
      if e.Some? {
        queue := queue + [e.value];
      } else {
        assert pending == old(pending);
      }
    }

    /** The locked part of firePending and forcePending: unparks the path's Put,
        which the caller then sends to the queue. */
    method TakeParked(path: Path) returns (e: Option<Entry>)
      modifies this`pending
      ensures pending == old(pending) - {path}
      ensures e == if path in old(pending) then Some(PutEntry(path, old(pending)[path].bufferPath)) else None
    {
      if path !in pending {
        return None;
      }
      e := Some(PutEntry(path, pending[path].bufferPath));
      pending := pending - {path};
    }

    method MarkDirty(e: Entry)
      modifies this`dirty
      ensures dirty == Dirtied(old(dirty), e)
    {
      dirty := dirty[e.path := CountOf(dirty, e.path) + 1];
      if e.kind == Move && e.newPath != "" {
        dirty := dirty[e.newPath := CountOf(dirty, e.newPath) + 1];
      }
    }

    method Release(p: Path)
      modifies this`dirty
      ensures dirty == Dec(old(dirty), p)
    {
      if CountOf(dirty, p) > 0 {
        dirty := dirty[p := dirty[p] - 1];
        if dirty[p] == 0 {
          dirty := dirty - {p};
          assert dirty == old(dirty) - {p};
        }
      }
    }

    method MarkClean(e: Entry)
      modifies this`dirty
      ensures dirty == Cleaned(old(dirty), e)
    {
      Release(e.path);
      if e.kind == Move && e.newPath != "" {
        Release(e.newPath);
      }
    }

    method RenameParkedPut(oldPath: Path, newPath: Path, newBuffer: Path) returns (found: bool)
      modifies this`pending, this`dirty, this`queue
      ensures View() == Renamed(old(View()), oldPath, newPath, newBuffer)
      ensures found == (oldPath in old(pending))
    {
      var newHadParked;
      found, newHadParked := TakeForRename(oldPath, newPath);
      if found {
        MoveDirtyCount(oldPath, newPath, newHadParked);
        queue := queue + [PutEntry(newPath, newBuffer)];
      }
    }

    /** RenameParkedPut up to its first unlock: what was parked for either path. */
    method TakeForRename(oldPath: Path, newPath: Path) returns (found: bool, newHadParked: bool)
      modifies this`pending
      ensures found == (oldPath in old(pending))
      ensures newHadParked == (found && newPath in old(pending) && newPath != oldPath)
      ensures pending == if found then old(pending) - {oldPath, newPath} else old(pending)
    {
      if oldPath !in pending {
        return false, false;
      }
      found, newHadParked := true, false;
      pending := pending - {oldPath};
      if newPath in pending {
        pending := pending - {newPath};
        newHadParked := true;
      }
    }

    /** RenameParkedPut's second critical section. */
    method MoveDirtyCount(oldPath: Path, newPath: Path, newHadParked: bool)
      modifies this`dirty
      ensures dirty == (if newHadParked then Dec(old(dirty), oldPath) else Inc(Dec(old(dirty), oldPath), newPath))
    {
      Release(oldPath);
      if !newHadParked {
        dirty := dirty[newPath := CountOf(dirty, newPath) + 1];
      }
    }

    /** The end of flush: a failed entry is dead-lettered and stays dirty. */
    method FinishFlush(e: Entry, err: bool)
      modifies this`dirty, this`dead
      ensures dead == if err then old(dead) + [e] else old(dead)
      ensures dirty == if err then old(dirty) else Cleaned(old(dirty), e)
    {
      if err {
        dead := dead + [e];
        return;
      }
      MarkClean(e);
    }

    /** True exactly while an operation that names the path is outstanding, in any
        state of all goroutines whose counts are conserved. */
    method IsDirty(p: Path, ghost all: State) returns (b: bool)
      requires all.core == View() && Conserved(all)
      ensures b <==> Outstanding(all, p) > 0
    {
      assert ConservedAt(all, p);
      b := CountOf(dirty, p) > 0;
    }
  }

  // ---------- All goroutines together ----------

  /** A rename between its two critical sections. */
  datatype Redirect = Redirect(oldPath: Path, newPath: Path, newHadParked: bool, newBuffer: Path)

  /** The oplog plus what goroutines hold outside its locks: entries about to be
      sent, renames half done, and the entry the uploader is replaying. */
  datatype State = State(core: Core, hand: seq<Entry>, redirects: seq<Redirect>, flight: Option<Entry>)

  const START := State(EMPTY_CORE, [], [], None)

  datatype Step =
    | PutArrives(path: Path, bufferPath: Path, now: int)  // Enqueue of a Put, coalescing
    | Take(path: Path)                                    // firePending / forcePending, locked part
    | Mark(e: Entry)                                      // Enqueue of anything else: markDirty
    | SendHeld(i: nat)                                    // o.queue <- e
    | RenameTake(oldPath: Path, newPath: Path, newBuffer: Path)
    | RenameMark(i: nat)
    | Receive                                             // Run: e := <-o.queue
    | ReceiveHeld(i: nat)                                 // drainOnShutdown: flush what takePending returned
    | FlushClean                                          // replayed, or skipped: markClean
    | FlushDead                                           // store error: dead letter

  datatype Config = Config(window: int, max: int, depth: nat)

  predicate Enabled(cfg: Config, s: State, step: Step) {
    match step
    case SendHeld(i) => i < |s.hand| && |s.core.queue| < cfg.depth
    case RenameMark(i) => i < |s.redirects|
    case Receive => s.flight.None? && s.core.queue != []
    case ReceiveHeld(i) => s.flight.None? && i < |s.hand|
    case FlushClean => s.flight.Some?
    case FlushDead => s.flight.Some?
    case _ => true
  }

  function Without<T>(s: seq<T>, i: nat): seq<T>
    requires i < |s|
  {
    s[..i] + s[i + 1..]
  }

  function Apply(cfg: Config, s: State, step: Step): State
    requires Enabled(cfg, s, step)
  {
    var c := s.core;
    match step
    case PutArrives(path, bufferPath, now) =>
      s.(core := Debounce(c, path, bufferPath, cfg.window, cfg.max, now))
    case Take(path) =>
      if path !in c.pending then s
      else s.(core := c.(pending := c.pending - {path}), hand := s.hand + [PutEntry(path, c.pending[path].bufferPath)])
    case Mark(e) =>
      s.(core := c.(dirty := Dirtied(c.dirty, e)), hand := s.hand + [e])
    case SendHeld(i) =>
      s.(core := c.(queue := c.queue + [s.hand[i]]), hand := Without(s.hand, i))
    case RenameTake(oldPath, newPath, newBuffer) =>
      if oldPath !in c.pending then s
      else
        s.(core := c.(pending := c.pending - {oldPath, newPath}),
           redirects := s.redirects + [Redirect(oldPath, newPath, newPath in c.pending - {oldPath}, newBuffer)])
    case RenameMark(i) =>
      var r := s.redirects[i];
      var d := Dec(c.dirty, r.oldPath);
      s.(core := c.(dirty := if r.newHadParked then d else Inc(d, r.newPath)),
         redirects := Without(s.redirects, i), hand := s.hand + [PutEntry(r.newPath, r.newBuffer)])
    case Receive =>
      s.(core := c.(queue := c.queue[1..]), flight := Some(c.queue[0]))
    case ReceiveHeld(i) =>
      s.(hand := Without(s.hand, i), flight := Some(s.hand[i]))
    case FlushClean =>
      s.(core := c.(dirty := Cleaned(c.dirty, s.flight.value)), flight := None)
    case FlushDead =>
      s.(core := c.(dead := c.dead + [s.flight.value]), flight := None)
  }

  predicate LegalRun(cfg: Config, s: State, steps: seq<Step>)
    decreases |steps|
  {
    steps == [] || (Enabled(cfg, s, steps[0]) && LegalRun(cfg, Apply(cfg, s, steps[0]), steps[1..]))
  }

  function Final(cfg: Config, s: State, steps: seq<Step>): State
    requires LegalRun(cfg, s, steps)
    decreases |steps|
  {
    if steps == [] then s else Final(cfg, Apply(cfg, s, steps[0]), steps[1..])
  }

  // ---------- Dirty-count conservation ----------

  /** How often an entry names `p`: as its path, and as its move target. */
  function Names(e: Entry, p: Path): nat {
    (if e.path == p then 1 else 0) + (if HasTarget(e) && e.newPath == p then 1 else 0)
  }

  function Named(es: seq<Entry>, p: Path): nat {
    if es == [] then 0 else Names(es[0], p) + Named(es[1..], p)
  }

  function RedirectNames(r: Redirect, p: Path): nat {
    (if r.oldPath == p then 1 else 0) + (if r.newHadParked && r.newPath == p then 1 else 0)
  }

  function RedirectsNamed(rs: seq<Redirect>, p: Path): nat {
    if rs == [] then 0 else RedirectNames(rs[0], p) + RedirectsNamed(rs[1..], p)
  }

  /** Everything outstanding that names `p`: parked, queued, in hand, half renamed,
      in flight or dead-lettered. */
  function Outstanding(s: State, p: Path): nat {
    (if p in s.core.pending then 1 else 0)
    + Named(s.core.queue, p) + Named(s.hand, p) + RedirectsNamed(s.redirects, p)
    + (if s.flight.Some? then Names(s.flight.value, p) else 0) + Named(s.core.dead, p)
  }

  ghost predicate ConservedAt(s: State, p: Path) { CountOf(s.core.dirty, p) == Outstanding(s, p) }

  ghost predicate Conserved(s: State) {
    forall p :: ConservedAt(s, p)
  }

  lemma {:induction false} NamedConcat(a: seq<Entry>, b: seq<Entry>, p: Path)
    ensures Named(a + b, p) == Named(a, p) + Named(b, p)
  {
    if a == [] {
      assert a + b == b;
    } else {
      assert (a + b)[1..] == a[1..] + b;
      NamedConcat(a[1..], b, p);
    }
  }

  lemma NamedOne(a: seq<Entry>, e: Entry, p: Path)
    ensures Named(a + [e], p) == Named(a, p) + Names(e, p)
  {
    NamedConcat(a, [e], p);
    assert [e][1..] == [];
  }

  lemma NamedWithout(a: seq<Entry>, i: nat, p: Path)
    requires i < |a|
    ensures Named(a, p) == Named(Without(a, i), p) + Names(a[i], p)
  {
    assert a == a[..i] + ([a[i]] + a[i + 1..]);
    NamedConcat(a[..i], [a[i]] + a[i + 1..], p);
    NamedConcat([a[i]], a[i + 1..], p);
    NamedConcat(a[..i], a[i + 1..], p);
    assert [a[i]][1..] == [];
  }

  lemma {:induction false} RedirectsConcat(a: seq<Redirect>, b: seq<Redirect>, p: Path)
    ensures RedirectsNamed(a + b, p) == RedirectsNamed(a, p) + RedirectsNamed(b, p)
  {
    if a == [] {
      assert a + b == b;
    } else {
      assert (a + b)[1..] == a[1..] + b;
      RedirectsConcat(a[1..], b, p);
    }
  }

  lemma RedirectsOne(a: seq<Redirect>, r: Redirect, p: Path)
    ensures RedirectsNamed(a + [r], p) == RedirectsNamed(a, p) + RedirectNames(r, p)
  {
    RedirectsConcat(a, [r], p);
    assert [r][1..] == [];
  }

  lemma RedirectsWithout(a: seq<Redirect>, i: nat, p: Path)
    requires i < |a|
    ensures RedirectsNamed(a, p) == RedirectsNamed(Without(a, i), p) + RedirectNames(a[i], p)
  {
    assert a == a[..i] + ([a[i]] + a[i + 1..]);
    RedirectsConcat(a[..i], [a[i]] + a[i + 1..], p);
    RedirectsConcat([a[i]], a[i + 1..], p);
    RedirectsConcat(a[..i], a[i + 1..], p);
    assert [a[i]][1..] == [];
  }

  lemma MarkDirtyCounts(dirty: map<Path, nat>, e: Entry, p: Path)
    ensures CountOf(Dirtied(dirty, e), p) == CountOf(dirty, p) + Names(e, p)
  {
  }

  /** The guards never bite: while the entry is counted, cleaning takes off
      exactly what marking added. */
  lemma MarkCleanCounts(dirty: map<Path, nat>, e: Entry, p: Path)
    requires forall q :: CountOf(dirty, q) >= Names(e, q)
    ensures CountOf(Cleaned(dirty, e), p) == CountOf(dirty, p) - Names(e, p)
  {
    assert CountOf(dirty, e.path) >= Names(e, e.path);
    assert CountOf(dirty, e.newPath) >= Names(e, e.newPath);
  }

  lemma FlushCleanCounts(s: State, p: Path)
    requires Conserved(s) && s.flight.Some?
    ensures CountOf(Cleaned(s.core.dirty, s.flight.value), p) == Outstanding(s, p) - Names(s.flight.value, p)
  {
    forall q ensures CountOf(s.core.dirty, q) >= Names(s.flight.value, q) {
      assert ConservedAt(s, q);
    }
    assert ConservedAt(s, p);
    MarkCleanCounts(s.core.dirty, s.flight.value, p);
  }

  lemma TakeConserves(cfg: Config, s: State, path: Path, p: Path)
    requires ConservedAt(s, p)
    ensures ConservedAt(Apply(cfg, s, Take(path)), p)
  {
    if path in s.core.pending {
      NamedOne(s.hand, PutEntry(path, s.core.pending[path].bufferPath), p);
    }
  }

  lemma MarkConserves(cfg: Config, s: State, e: Entry, p: Path)
    requires ConservedAt(s, p)
    ensures ConservedAt(Apply(cfg, s, Mark(e)), p)
  {
    MarkDirtyCounts(s.core.dirty, e, p);
    NamedOne(s.hand, e, p);
  }

  lemma SendConserves(cfg: Config, s: State, i: nat, p: Path)
    requires ConservedAt(s, p) && Enabled(cfg, s, SendHeld(i))
    ensures ConservedAt(Apply(cfg, s, SendHeld(i)), p)
  {
    NamedOne(s.core.queue, s.hand[i], p);
    NamedWithout(s.hand, i, p);
  }

  /** The uploader's steps. */
  lemma UploadConserves(cfg: Config, s: State, step: Step, p: Path)
    requires Conserved(s) && Enabled(cfg, s, step)
    requires step.Receive? || step.ReceiveHeld? || step.FlushClean? || step.FlushDead?
    ensures ConservedAt(Apply(cfg, s, step), p)
  {
    assert ConservedAt(s, p);
    match step
    case Receive => assert s.core.queue == [s.core.queue[0]] + s.core.queue[1..];
    case ReceiveHeld(i) => NamedWithout(s.hand, i, p);
    case FlushClean => FlushCleanCounts(s, p);
    case FlushDead => NamedOne(s.core.dead, s.flight.value, p);
  }

  lemma RenameConserves(cfg: Config, s: State, step: Step, p: Path)
    requires Conserved(s) && Enabled(cfg, s, step) && (step.RenameTake? || step.RenameMark?)
    ensures ConservedAt(Apply(cfg, s, step), p)
  {
    assert ConservedAt(s, p);
    match step
    case RenameTake(oldPath, newPath, newBuffer) =>
      if oldPath in s.core.pending {
        RenameTakeConserves(s, oldPath, newPath, newBuffer, p);
      }
    case RenameMark(i) => RenameMarkConserves(s, i, p);
  }

  lemma PutConserves(cfg: Config, s: State, path: Path, bufferPath: Path, now: int, p: Path)
    requires ConservedAt(s, p)
    ensures ConservedAt(Apply(cfg, s, PutArrives(path, bufferPath, now)), p)
  {
  }

  lemma StepConserves(cfg: Config, s: State, step: Step, p: Path)
    requires Conserved(s) && Enabled(cfg, s, step)
    ensures ConservedAt(Apply(cfg, s, step), p)
  {
    assert ConservedAt(s, p);
    match step
    case PutArrives(path, bufferPath, now) => PutConserves(cfg, s, path, bufferPath, now, p);
    case Take(path) => TakeConserves(cfg, s, path, p);
    case Mark(e) => MarkConserves(cfg, s, e, p);
    case SendHeld(i) => SendConserves(cfg, s, i, p);
    case RenameTake(_, _, _) => RenameConserves(cfg, s, step, p);
    case RenameMark(_) => RenameConserves(cfg, s, step, p);
    case _ => UploadConserves(cfg, s, step, p);
  }

  lemma RenameTakeConserves(s: State, oldPath: Path, newPath: Path, newBuffer: Path, p: Path)
    requires oldPath in s.core.pending
    ensures var c := s.core;
            var r := Redirect(oldPath, newPath, newPath in c.pending - {oldPath}, newBuffer);
            RedirectsNamed(s.redirects + [r], p) + (if p in c.pending - {oldPath, newPath} then 1 else 0)
            == RedirectsNamed(s.redirects, p) + if p in c.pending then 1 else 0
  {
    RedirectsOne(s.redirects, Redirect(oldPath, newPath, newPath in s.core.pending - {oldPath}, newBuffer), p);
  }

  /** A redirect retires the old path's count and leaves the new path exactly one,
      also when the target was parked and when both paths are the same. */
  lemma RenameMarkConserves(s: State, i: nat, p: Path)
    requires Conserved(s) && i < |s.redirects|
    ensures var r := s.redirects[i];
            var d := Dec(s.core.dirty, r.oldPath);
            CountOf(if r.newHadParked then d else Inc(d, r.newPath), p)
            == Outstanding(s, p) - RedirectNames(r, p) + Names(PutEntry(r.newPath, r.newBuffer), p)
    ensures RedirectsNamed(Without(s.redirects, i), p)
            == RedirectsNamed(s.redirects, p) - RedirectNames(s.redirects[i], p)
    ensures var e := PutEntry(s.redirects[i].newPath, s.redirects[i].newBuffer);
            Named(s.hand + [e], p) == Named(s.hand, p) + Names(e, p)
  {
    var r := s.redirects[i];
    RedirectsWithout(s.redirects, i, p);
    RedirectsWithout(s.redirects, i, r.oldPath);
    assert ConservedAt(s, p);
    assert ConservedAt(s, r.oldPath);
    NamedOne(s.hand, PutEntry(r.newPath, r.newBuffer), p);
  }

  lemma {:induction false} RunConserves(cfg: Config, s: State, steps: seq<Step>)
    requires Conserved(s) && LegalRun(cfg, s, steps)
    ensures Conserved(Final(cfg, s, steps))
    decreases |steps|
  {
    if steps != [] {
      forall p ensures ConservedAt(Apply(cfg, s, steps[0]), p) {
        StepConserves(cfg, s, steps[0], p);
      }
      RunConserves(cfg, Apply(cfg, s, steps[0]), steps[1..]);
    }
  }

  /** Conservation in every reachable state of every interleaving; so IsDirty holds
      exactly while an operation on the path is outstanding. */
  lemma DirtyCountsConserved(cfg: Config, steps: seq<Step>)
    requires LegalRun(cfg, START, steps)
    ensures var s := Final(cfg, START, steps);
            && Conserved(s)
            && forall p :: CountOf(s.core.dirty, p) > 0 <==> Outstanding(s, p) > 0
  {
    assert Conserved(START);
    RunConserves(cfg, START, steps);
    var s := Final(cfg, START, steps);
    forall p ensures CountOf(s.core.dirty, p) > 0 <==> Outstanding(s, p) > 0 {
      assert ConservedAt(s, p);
    }
  }

  // ---------- The debounce bound ----------

  /** An oplog with a clock, and a record of what really happened to each path since
      its Put was last unparked: its first and its latest write, and the latest
      write's buffer. */
  datatype Clocked = Clocked(core: Core, now: int, first: map<Path, int>, latest: map<Path, int>,
                             written: map<Path, Path>)

  datatype Tick = WriteAt(path: Path, bufferPath: Path) | Unpark(path: Path) | Pass(d: nat)

  /** Time passes only up to the next due timer. */
  ghost predicate OnTime(k: Clocked, t: Tick) {
    t.Pass? ==> forall p :: p in k.core.pending ==> k.now + t.d <= k.core.pending[p].fireAt
  }

  function Ticked(cfg: Config, k: Clocked, t: Tick): Clocked {
    match t
    case WriteAt(p, b) =>
      k.(core := Debounce(k.core, p, b, cfg.window, cfg.max, k.now),
         first := if p in k.first then k.first else k.first[p := k.now],
         latest := k.latest[p := k.now], written := k.written[p := b])
    case Unpark(p) =>
      k.(core := Forced(k.core, p), first := k.first - {p}, latest := k.latest - {p}, written := k.written - {p})
    case Pass(d) => k.(now := k.now + d)
  }

  ghost predicate TimedRun(cfg: Config, k: Clocked, ts: seq<Tick>)
    decreases |ts|
  {
    ts == [] || (OnTime(k, ts[0]) && TimedRun(cfg, Ticked(cfg, k, ts[0]), ts[1..]))
  }

  function Elapsed(cfg: Config, k: Clocked, ts: seq<Tick>): Clocked
    decreases |ts|
  {
    if ts == [] then k else Elapsed(cfg, Ticked(cfg, k, ts[0]), ts[1..])
  }

  function Cap(cfg: Config): int { if cfg.max > 0 then cfg.max else 0 }

  /** The parked Put of `p` is timed by what really happened: due at the cap after its
      first write or the window after its latest, whichever comes first. */
  ghost predicate TimelyAt(cfg: Config, k: Clocked, p: Path)
    requires p in k.core.pending && p in k.first && p in k.latest && p in k.written
  {
    InTime(cfg, k.core.pending[p], k.first[p], k.latest[p], k.written[p], k.now)
  }

  ghost predicate InTime(cfg: Config, parked: Parked, first: int, latest: int, written: Path, now: int) {
    && parked.firstAt == first && parked.bufferPath == written
    && first <= latest <= now <= parked.fireAt
    && parked.fireAt <= first + Cap(cfg)
    && parked.fireAt <= latest + cfg.window
    && (parked.fireAt < latest + cfg.window ==> first + cfg.max <= parked.fireAt)
  }

  ghost predicate Timely(cfg: Config, k: Clocked) {
    && k.core.pending.Keys == k.first.Keys == k.latest.Keys == k.written.Keys
    && forall p :: p in k.core.pending ==> TimelyAt(cfg, k, p)
  }

  /** A write parks a Put in time, in a group of its own or in the one it joins. */
  lemma WriteInTime(cfg: Config, first: int, now: int, buffer: Path)
    requires cfg.window > 0 && first <= now <= first + Cap(cfg)
    ensures InTime(cfg, Parked(buffer, first, now, now + DebounceDelay(cfg.window, cfg.max, first, now)),
                   first, now, buffer, now)
  {
  }

  lemma WriteTimely(cfg: Config, k: Clocked, path: Path, buffer: Path, p: Path)
    requires cfg.window > 0 && Timely(cfg, k)
    ensures var n := Ticked(cfg, k, WriteAt(path, buffer));
            && n.core.pending.Keys == n.first.Keys == n.latest.Keys == n.written.Keys
            && (p in n.core.pending ==> TimelyAt(cfg, n, p))
  {
    if path in k.core.pending {
      assert TimelyAt(cfg, k, path);
    }
    if p == path {
      WriteInTime(cfg, if p in k.first then k.first[p] else k.now, k.now, buffer);
    } else if p in k.core.pending {
      assert TimelyAt(cfg, k, p);
    }
  }

  lemma UnparkTimely(cfg: Config, k: Clocked, path: Path, p: Path)
    requires Timely(cfg, k)
    ensures var n := Ticked(cfg, k, Unpark(path));
            && n.core.pending.Keys == n.first.Keys == n.latest.Keys == n.written.Keys
            && (p in n.core.pending ==> TimelyAt(cfg, n, p))
  {
    if p in k.core.pending {
      assert TimelyAt(cfg, k, p);
    }
  }

  lemma TickTimely(cfg: Config, k: Clocked, t: Tick)
    requires cfg.window > 0 && Timely(cfg, k) && OnTime(k, t)
    ensures Timely(cfg, Ticked(cfg, k, t))
  {
    var n := Ticked(cfg, k, t);
    forall p
      ensures n.core.pending.Keys == n.first.Keys == n.latest.Keys == n.written.Keys
      ensures p in n.core.pending ==> TimelyAt(cfg, n, p)
    {
      match t
      case WriteAt(path, buffer) => WriteTimely(cfg, k, path, buffer, p);
      case Unpark(path) => UnparkTimely(cfg, k, path, p);
      case Pass(_) => assert p in k.core.pending ==> TimelyAt(cfg, k, p);
    }
  }

  lemma {:induction false} RunTimely(cfg: Config, k: Clocked, ts: seq<Tick>)
    requires cfg.window > 0 && Timely(cfg, k) && TimedRun(cfg, k, ts)
    ensures Timely(cfg, Elapsed(cfg, k, ts))
    decreases |ts|
  {
    if ts != [] {
      TickTimely(cfg, k, ts[0]);
      RunTimely(cfg, Ticked(cfg, k, ts[0]), ts[1..]);
    }
  }

  /** From an empty oplog, however often a Put is extended: it is due no later than
      the cap after the group's first write and the window after its latest, and at
      one of the two; it has never been parked longer than the cap. */
  lemma ParkedWithinCap(cfg: Config, start: int, ts: seq<Tick>)
    requires cfg.window > 0 && TimedRun(cfg, Clocked(EMPTY_CORE, start, map[], map[], map[]), ts)
    ensures var k := Elapsed(cfg, Clocked(EMPTY_CORE, start, map[], map[], map[]), ts);
            && k.core.pending.Keys == k.first.Keys == k.latest.Keys
            && forall p :: p in k.core.pending ==>
                 var fireAt := k.core.pending[p].fireAt;
                 && fireAt <= k.first[p] + Cap(cfg) && fireAt <= k.latest[p] + cfg.window
                 && (fireAt == k.latest[p] + cfg.window || fireAt == k.first[p] + Cap(cfg))
                 && k.now - k.first[p] <= Cap(cfg)
  {
    RunTimely(cfg, Clocked(EMPTY_CORE, start, map[], map[], map[]), ts);
    var k := Elapsed(cfg, Clocked(EMPTY_CORE, start, map[], map[], map[]), ts);
    assert forall p :: p in k.core.pending ==> TimelyAt(cfg, k, p);
  }

  /** Whatever a timer, a Delete or a Move forces out is the latest write: the queue
      gets one Put of the path with the buffer of that write. */
  lemma ForcedIsLatestWrite(cfg: Config, start: int, ts: seq<Tick>, p: Path)
    requires cfg.window > 0 && TimedRun(cfg, Clocked(EMPTY_CORE, start, map[], map[], map[]), ts)
    ensures var k := Elapsed(cfg, Clocked(EMPTY_CORE, start, map[], map[], map[]), ts);
            && p !in Forced(k.core, p).pending
            && Forced(k.core, p).queue ==
               k.core.queue + if p in k.written then [Entry(Put, p, "", k.written[p])] else []
  {
    RunTimely(cfg, Clocked(EMPTY_CORE, start, map[], map[], map[]), ts);
    var k := Elapsed(cfg, Clocked(EMPTY_CORE, start, map[], map[], map[]), ts);
    assert p in k.core.pending ==> TimelyAt(cfg, k, p);
  }

  /** A redirect queues one Put of the new path with the new buffer, and leaves neither
      path parked. */
  lemma RedirectIsNewBuffer(c: Core, oldPath: Path, newPath: Path, newBuffer: Path)
    requires oldPath in c.pending
    ensures var d := Renamed(c, oldPath, newPath, newBuffer);
            && d.queue == c.queue + [Entry(Put, newPath, "", newBuffer)]
            && oldPath !in d.pending && newPath !in d.pending
            && forall p :: p != oldPath && p != newPath ==> (p in d.pending <==> p in c.pending)
  {
  }
}
