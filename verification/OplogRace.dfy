/** Per-path order with every goroutine running between any two critical sections:
    a timer's or an enqueuer's unparking, marking and sending are separate steps. */
module OplogRace {
  import opened Oplog
  import opened OplogTrace

  // ---------- A run and what it was asked for ----------

  /** `tried` are the entries replayed so far; `wanted` is, path by path, what was
      asked for, adjacent Puts merged. */
  datatype History = History(s: State, tried: seq<Entry>, wanted: map<Path, seq<Op>>)

  const BLANK := History(START, [], map[])

  function Want(wanted: map<Path, seq<Op>>, p: Path): seq<Op> { if p in wanted then wanted[p] else [] }

  function Ask(wanted: map<Path, seq<Op>>, p: Path, op: Op): map<Path, seq<Op>> {
    wanted[p := Push(Want(wanted, p), op)]
  }

  function AskAll(wanted: map<Path, seq<Op>>, e: Entry): map<Path, seq<Op>> {
    var w := Ask(wanted, e.path, OpOf(e));
    if HasTarget(e) && e.newPath != e.path then Ask(w, e.newPath, OpOf(e)) else w
  }

  function PutOp(p: Path): Op { Op(Put, p, "") }

  /** Everything that has entered the queue, in that order. */
  function Sent(h: History): seq<Entry> {
    h.tried + (if h.s.flight.Some? then [h.s.flight.value] else []) + h.s.core.queue
  }

  /** The Puts that half-done renames will send. */
  function Coming(rs: seq<Redirect>): seq<Entry> {
    seq(|rs|, i requires 0 <= i < |rs| => PutEntry(rs[i].newPath, rs[i].newBuffer))
  }

  /** The operations on `p` that some goroutine holds. */
  function Held(s: State, p: Path): seq<Op> { Touching(s.hand, p) + Touching(Coming(s.redirects), p) }

  /** The operations on `p` that have not entered the queue: held, then parked. */
  function Rest(s: State, p: Path): seq<Op> {
    Held(s, p) + if p in s.core.pending then [PutOp(p)] else []
  }

  /** A Put counts when it arrives, anything else when it is marked. A redirected
      Put is withdrawn from the old path, which keeps what it had released. */
  function Wanted(h: History, step: Step): map<Path, seq<Op>> {
    match step
    case PutArrives(p, _, _) => Ask(h.wanted, p, PutOp(p))
    case Mark(e) => AskAll(h.wanted, e)
    case RenameTake(a, b, _) =>
      if a !in h.s.core.pending then h.wanted
      else Ask(h.wanted[a := Merged(Touching(Sent(h), a) + Held(h.s, a))], b, PutOp(b))
    case _ => h.wanted
  }

  function Next(cfg: Config, h: History, step: Step): History
    requires Enabled(cfg, h.s, step)
  {
    History(Apply(cfg, h.s, step),
            if step.FlushClean? || step.FlushDead? then h.tried + [h.s.flight.value] else h.tried,
            Wanted(h, step))
  }

  // ---------- Order ----------

  ghost predicate AllSame(ops: seq<Op>) { forall i, j :: 0 <= i < |ops| && 0 <= j < |ops| ==> ops[i] == ops[j] }

  ghost predicate Only(ops: seq<Op>, op: Op) { forall i :: 0 <= i < |ops| ==> ops[i] == op }

  /** What has not entered the queue can do so in any order without a difference, and
      with it the store will see what was asked for. */
  ghost predicate Fits(sent: seq<Op>, rest: seq<Op>, want: seq<Op>) {
    AllSame(rest) && Merged(sent + rest) == want
  }

  ghost predicate Steady(h: History, p: Path) {
    Fits(Touching(Sent(h), p), Rest(h.s, p), Want(h.wanted, p))
  }

  /** In whatever order `rest` enters the queue, the store will see `want`. */
  ghost predicate EveryOrder(sent: seq<Op>, rest: seq<Op>, want: seq<Op>) {
    forall order: seq<Op> :: multiset(order) == multiset(rest) ==> Merged(sent + order) == want
  }

  /** Path `p` is in order: however its remaining operations enter the queue, the
      store will see what was asked for. */
  ghost predicate AsAsked(h: History, p: Path) {
    EveryOrder(Touching(Sent(h), p), Rest(h.s, p), Want(h.wanted, p))
  }

  /** All Puts among the operations of one path are the same operation. */
  ghost predicate OnPath(ops: seq<Op>, p: Path) {
    forall i :: 0 <= i < |ops| && ops[i].kind == Put ==> ops[i] == PutOp(p)
  }

  lemma {:induction false} TouchingOnPath(es: seq<Entry>, p: Path)
    ensures OnPath(Touching(es, p), p)
  {
    if es != [] {
      TouchingOnPath(es[..|es| - 1], p);
    }
  }

  lemma RestOnPath(s: State, p: Path)
    ensures OnPath(Rest(s, p), p)
  {
    TouchingOnPath(s.hand, p);
    TouchingOnPath(Coming(s.redirects), p);
  }

  lemma LastMerged(ops: seq<Op>)
    requires ops != []
    ensures Merged(ops) != []
    ensures var last := Merged(ops)[|Merged(ops)| - 1];
            last.kind == ops[|ops| - 1].kind && (last.kind != Put ==> last == ops[|ops| - 1])
  {
  }

  /** Two different operations of one path end two different traces. */
  lemma LastTells(a: seq<Op>, b: seq<Op>, x: Op, y: Op, p: Path)
    requires a != [] && b != [] && a[|a| - 1] == x && b[|b| - 1] == y && x != y && OnPath([x, y], p)
    ensures Merged(a) != Merged(b)
  {
    LastMerged(a);
    LastMerged(b);
    assert [x, y][0] == x && [x, y][1] == y;
  }

  /** Some order of `rest` has element `i` last. */
  lemma LastOne(rest: seq<Op>, i: nat) returns (order: seq<Op>)
    requires i < |rest|
    ensures multiset(order) == multiset(rest) && order != [] && order[|order| - 1] == rest[i]
  {
    order := rest[..i] + rest[i + 1..] + [rest[i]];
    assert rest == rest[..i] + [rest[i]] + rest[i + 1..];
  }

  /** In order means: everything that remains is one and the same operation, and with
      it the store sees what was asked for. */
  lemma FitsIffEveryOrder(sent: seq<Op>, rest: seq<Op>, want: seq<Op>, p: Path)
    requires OnPath(rest, p)
    ensures Fits(sent, rest, want) <==> EveryOrder(sent, rest, want)
  {
    if Fits(sent, rest, want) {
      forall order: seq<Op> | multiset(order) == multiset(rest) ensures Merged(sent + order) == want {
        SameBag(rest, order);
      }
    }
    if EveryOrder(sent, rest, want) {
      forall i, j | 0 <= i < |rest| && 0 <= j < |rest| ensures rest[i] == rest[j] {
        if rest[i] != rest[j] {
          var a := LastOne(rest, i);
          var b := LastOne(rest, j);
          LastTells(sent + a, sent + b, rest[i], rest[j], p);
        }
      }
    }
  }

  lemma SteadyIffAsAsked(h: History, p: Path)
    ensures Steady(h, p) <==> AsAsked(h, p)
  {
    RestOnPath(h.s, p);
    FitsIffEveryOrder(Touching(Sent(h), p), Rest(h.s, p), Want(h.wanted, p), p);
  }

  lemma SteadyMeans(h: History, p: Path, sent: seq<Op>, rest: seq<Op>, want: seq<Op>)
    requires Touching(Sent(h), p) == sent && Rest(h.s, p) == rest && Want(h.wanted, p) == want
    ensures Steady(h, p) <==> Fits(sent, rest, want)
  {
  }

  /** What a caller could check: whatever is still outside the queue for a path that
      the step adds an operation to is that same operation. */
  ghost predicate InTurnFor(h: History, step: Step, p: Path) {
    match step
    case PutArrives(q, _, _) => p == q ==> Only(Rest(h.s, p), PutOp(p))
    case Mark(e) => Names(e, p) > 0 ==> Only(Rest(h.s, p), OpOf(e))
    case RenameTake(a, b, _) => a in h.s.core.pending && p == b ==> Only(Rest(h.s, p), PutOp(p))
    case _ => true
  }

  lemma SameBag(a: seq<Op>, b: seq<Op>)
    requires AllSame(a) && multiset(a) == multiset(b)
    ensures a == b
  {
    assert |a| == |multiset(a)| == |multiset(b)| == |b|;
    forall i | 0 <= i < |a| ensures a[i] == b[i] {
      assert b[i] in multiset(b);
      assert b[i] in a;
    }
  }

  lemma ComingAppend(rs: seq<Redirect>, r: Redirect)
    ensures Coming(rs + [r]) == Coming(rs) + [PutEntry(r.newPath, r.newBuffer)]
  {
  }

  lemma ComingWithout(rs: seq<Redirect>, i: nat)
    requires i < |rs|
    ensures Coming(Without(rs, i)) == Without(Coming(rs), i)
  {
  }

  lemma TakeBag(s: State, path: Path, p: Path)
    requires path in s.core.pending
    ensures var e := PutEntry(path, s.core.pending[path].bufferPath);
            var t := s.(core := s.core.(pending := s.core.pending - {path}), hand := s.hand + [e]);
            multiset(Rest(t, p)) == multiset(Rest(s, p))
  {
    var e := PutEntry(path, s.core.pending[path].bufferPath);
    TouchingOne(s.hand, e, p);
    var parked := if p in s.core.pending then [PutOp(p)] else [];
    var after := if p in s.core.pending - {path} then [PutOp(p)] else [];
    assert parked == Seen(e, p) + after;
    Shuffle(Touching(s.hand, p), Touching(Coming(s.redirects), p), Seen(e, p), after);
  }

  lemma Shuffle(hand: seq<Op>, coming: seq<Op>, x: seq<Op>, parked: seq<Op>)
    ensures multiset(((hand + x) + coming) + parked) == multiset((hand + coming) + (x + parked))
  {
  }

  lemma SendBag(s: State, i: nat, p: Path)
    requires i < |s.hand|
    ensures multiset(Rest(s, p)) == multiset(Seen(s.hand[i], p) + Rest(s.(hand := Without(s.hand, i)), p))
  {
    TouchingWithout(s.hand, i, p);
  }

  lemma RenameMarkBag(s: State, i: nat, p: Path)
    requires i < |s.redirects|
    ensures var r := s.redirects[i];
            var t := s.(redirects := Without(s.redirects, i), hand := s.hand + [PutEntry(r.newPath, r.newBuffer)]);
            multiset(Rest(t, p)) == multiset(Rest(s, p))
  {
    var r := s.redirects[i];
    ComingWithout(s.redirects, i);
    TouchingWithout(Coming(s.redirects), i, p);
    TouchingOne(s.hand, PutEntry(r.newPath, r.newBuffer), p);
  }

  lemma MarkBag(s: State, e: Entry, p: Path)
    ensures multiset(Rest(s.(hand := s.hand + [e]), p)) == multiset(Rest(s, p) + Seen(e, p))
  {
    TouchingOne(s.hand, e, p);
  }

  // ---------- One path ----------

  lemma MoveFits(sent: seq<Op>, rest: seq<Op>, want: seq<Op>, rest': seq<Op>)
    requires Fits(sent, rest, want) && multiset(rest) == multiset(rest')
    ensures Fits(sent, rest', want)
  {
    SameBag(rest, rest');
  }

  lemma SendFits(sent: seq<Op>, x: seq<Op>, rest: seq<Op>, want: seq<Op>, rest': seq<Op>)
    requires Fits(sent, rest, want) && multiset(rest) == multiset(x + rest')
    ensures Fits(sent + x, rest', want)
  {
    SameBag(rest, x + rest');
    assert (sent + x) + rest' == sent + rest;
    assert forall i :: 0 <= i < |rest'| ==> rest'[i] == rest[|x| + i];
  }

  /** One more operation is asked for and joins the rest. */
  lemma JoinFitsIff(sent: seq<Op>, rest: seq<Op>, want: seq<Op>, op: Op, rest': seq<Op>)
    requires Fits(sent, rest, want) && multiset(rest') == multiset(rest + [op])
    ensures Fits(sent, rest', Push(want, op)) <==> Only(rest, op)
  {
    if Only(rest, op) {
      assert AllSame(rest + [op]);
      SameBag(rest + [op], rest');
      assert sent + rest' == (sent + rest) + [op];
      MergedOne(sent + rest, op);
    } else {
      var i :| 0 <= i < |rest| && rest[i] != op;
      assert (rest + [op])[i] == rest[i] && (rest + [op])[|rest|] == op;
      assert rest[i] in multiset(rest + [op]) && op in multiset(rest + [op]);
      assert rest[i] in rest' && op in rest';
    }
  }

  /** A Put asked for while one is already last merges into it. */
  lemma AgainFits(sent: seq<Op>, rest: seq<Op>, want: seq<Op>, put: Op)
    requires Fits(sent, rest, want) && rest != [] && rest[|rest| - 1] == put && put.kind == Put
    ensures Fits(sent, rest, Push(want, put)) && Only(rest, put)
  {
    PutAgain(sent + rest, put);
  }

  lemma PutAgain(ops: seq<Op>, put: Op)
    requires ops != [] && ops[|ops| - 1] == put && put.kind == Put
    ensures Push(Merged(ops), put) == Merged(ops)
  {
  }

  // ---------- Steps ----------

  lemma TakeEffect(cfg: Config, h: History, path: Path, p: Path)
    requires path in h.s.core.pending
    ensures var t, c := Next(cfg, h, Take(path)), h.s.core;
            && Sent(t) == Sent(h) && t.wanted == h.wanted
            && Rest(t.s, p) == Rest(h.s.(core := c.(pending := c.pending - {path}),
                                         hand := h.s.hand + [PutEntry(path, c.pending[path].bufferPath)]), p)
  {
  }

  lemma TakeKeeps(cfg: Config, h: History, path: Path, p: Path)
    requires Steady(h, p)
    ensures Steady(Next(cfg, h, Take(path)), p)
  {
    if path in h.s.core.pending {
      TakeEffect(cfg, h, path, p);
      TakeBag(h.s, path, p);
      MoveFits(Touching(Sent(h), p), Rest(h.s, p), Want(h.wanted, p), Rest(Next(cfg, h, Take(path)).s, p));
    } else {
      assert Next(cfg, h, Take(path)) == h;
    }
  }

  lemma RenameMarkEffect(cfg: Config, h: History, i: nat, p: Path)
    requires i < |h.s.redirects|
    ensures var t, r := Next(cfg, h, RenameMark(i)), h.s.redirects[i];
            && Sent(t) == Sent(h) && t.wanted == h.wanted
            && Rest(t.s, p) == Rest(h.s.(redirects := Without(h.s.redirects, i),
                                         hand := h.s.hand + [PutEntry(r.newPath, r.newBuffer)]), p)
  {
  }

  lemma RenameMarkKeeps(cfg: Config, h: History, i: nat, p: Path)
    requires Steady(h, p) && i < |h.s.redirects|
    ensures Steady(Next(cfg, h, RenameMark(i)), p)
  {
    RenameMarkEffect(cfg, h, i, p);
    RenameMarkBag(h.s, i, p);
    MoveFits(Touching(Sent(h), p), Rest(h.s, p), Want(h.wanted, p), Rest(Next(cfg, h, RenameMark(i)).s, p));
  }

  lemma SendEffect(cfg: Config, h: History, i: nat)
    requires Enabled(cfg, h.s, SendHeld(i))
    ensures var t := Next(cfg, h, SendHeld(i));
            && Sent(t) == Sent(h) + [h.s.hand[i]] && t.wanted == h.wanted
            && t.s.hand == Without(h.s.hand, i) && t.s.redirects == h.s.redirects
            && t.s.core.pending == h.s.core.pending
  {
  }

  lemma SendKeeps(cfg: Config, h: History, i: nat, p: Path)
    requires Steady(h, p) && Enabled(cfg, h.s, SendHeld(i))
    ensures Steady(Next(cfg, h, SendHeld(i)), p)
  {
    var sent, rest, want, seen := Touching(Sent(h), p), Rest(h.s, p), Want(h.wanted, p), Seen(h.s.hand[i], p);
    var rest' := Rest(h.s.(hand := Without(h.s.hand, i)), p);
    SendBag(h.s, i, p);
    SendFits(sent, seen, rest, want, rest');
    TouchingOne(Sent(h), h.s.hand[i], p);
    SendEffect(cfg, h, i);
  }

  lemma ReplayEffect(cfg: Config, h: History, step: Step)
    requires Enabled(cfg, h.s, step) && (step.Receive? || step.FlushClean? || step.FlushDead?)
    ensures var t := Next(cfg, h, step);
            && Sent(t) == Sent(h) && t.wanted == h.wanted && t.s.hand == h.s.hand
            && t.s.redirects == h.s.redirects && t.s.core.pending == h.s.core.pending
  {
    match step
    case Receive => assert h.s.core.queue == [h.s.core.queue[0]] + h.s.core.queue[1..];
    case _ =>
  }

  /** The uploader's steps. */
  lemma ReplayKeeps(cfg: Config, h: History, step: Step, p: Path)
    requires Steady(h, p) && Enabled(cfg, h.s, step)
    requires step.Receive? || step.FlushClean? || step.FlushDead?
    ensures Steady(Next(cfg, h, step), p)
  {
    ReplayEffect(cfg, h, step);
  }

  lemma PutArrivesEffect(cfg: Config, h: History, path: Path, buffer: Path, now: int, p: Path)
    ensures var t := Next(cfg, h, PutArrives(path, buffer, now));
            && Sent(t) == Sent(h) && Held(t.s, p) == Held(h.s, p)
            && (p in t.s.core.pending <==> p == path || p in h.s.core.pending)
            && Want(t.wanted, p) == if p == path then Push(Want(h.wanted, p), PutOp(p)) else Want(h.wanted, p)
  {
  }

  lemma PutArrivesIff(cfg: Config, h: History, path: Path, buffer: Path, now: int, p: Path)
    requires Steady(h, p)
    ensures var step := PutArrives(path, buffer, now); Steady(Next(cfg, h, step), p) <==> InTurnFor(h, step, p)
  {
    var t := Next(cfg, h, PutArrives(path, buffer, now));
    var sent, rest, want := Touching(Sent(h), p), Rest(h.s, p), Want(h.wanted, p);
    PutArrivesEffect(cfg, h, path, buffer, now, p);
    if p == path && p in h.s.core.pending {
      AgainFits(sent, rest, want, PutOp(p));
    } else if p == path {
      assert rest == Held(h.s, p);
      JoinFitsIff(sent, rest, want, PutOp(p), Rest(t.s, p));
    }
  }

  lemma AskedAll(wanted: map<Path, seq<Op>>, e: Entry, p: Path)
    ensures Want(AskAll(wanted, e), p) == if Names(e, p) > 0 then Push(Want(wanted, p), OpOf(e)) else Want(wanted, p)
  {
  }

  lemma MarkEffect(cfg: Config, h: History, e: Entry, p: Path)
    ensures var t := Next(cfg, h, Mark(e));
            && Sent(t) == Sent(h) && t.wanted == AskAll(h.wanted, e)
            && Rest(t.s, p) == Rest(h.s.(hand := h.s.hand + [e]), p)
  {
  }

  lemma MarkIff(cfg: Config, h: History, e: Entry, p: Path)
    requires Steady(h, p)
    ensures Steady(Next(cfg, h, Mark(e)), p) <==> InTurnFor(h, Mark(e), p)
  {
    var sent, rest, want := Touching(Sent(h), p), Rest(h.s, p), Want(h.wanted, p);
    var rest' := Rest(h.s.(hand := h.s.hand + [e]), p);
    var want' := if Names(e, p) > 0 then Push(want, OpOf(e)) else want;
    MarkBag(h.s, e, p);
    AskedAll(h.wanted, e, p);
    MarkEffect(cfg, h, e, p);
    SteadyMeans(Next(cfg, h, Mark(e)), p, sent, rest', want');
    if Names(e, p) > 0 {
      JoinFitsIff(sent, rest, want, OpOf(e), rest');
    } else {
      assert rest + Seen(e, p) == rest;
      MoveFits(sent, rest, want, rest');
    }
  }

  /** What a rename leaves outside the queue: the redirected Put, and no parked one. */
  lemma RenameTakeRest(cfg: Config, h: History, a: Path, b: Path, buffer: Path, p: Path)
    requires a in h.s.core.pending
    ensures var t := Next(cfg, h, RenameTake(a, b, buffer));
            && Sent(t) == Sent(h)
            && Rest(t.s, p) == Held(h.s, p) + (if p == b then [PutOp(b)]
                                               else if p != a && p in h.s.core.pending then [PutOp(p)] else [])
  {
    var t := Next(cfg, h, RenameTake(a, b, buffer));
    var r := Redirect(a, b, b in h.s.core.pending - {a}, buffer);
    ComingAppend(h.s.redirects, r);
    TouchingOne(Coming(h.s.redirects), PutEntry(b, buffer), p);
    assert t.s.redirects == h.s.redirects + [r];
  }

  lemma AskedAfter(wanted: map<Path, seq<Op>>, a: Path, left: seq<Op>, b: Path, op: Op, p: Path)
    ensures Want(Ask(wanted[a := left], b, op), p) ==
            if p == b then Push(if a == b then left else Want(wanted, b), op)
            else if p == a then left else Want(wanted, p)
  {
  }

  lemma RenameTakeWant(cfg: Config, h: History, a: Path, b: Path, buffer: Path, p: Path)
    requires a in h.s.core.pending
    ensures var left := Merged(Touching(Sent(h), p) + Held(h.s, p));
            Want(Next(cfg, h, RenameTake(a, b, buffer)).wanted, p) ==
            if p == b then Push(if p == a then left else Want(h.wanted, p), PutOp(p))
            else if p == a then left else Want(h.wanted, p)
  {
    var left := Merged(Touching(Sent(h), a) + Held(h.s, a));
    assert Next(cfg, h, RenameTake(a, b, buffer)).wanted == Ask(h.wanted[a := left], b, PutOp(b));
    AskedAfter(h.wanted, a, left, b, PutOp(b), p);
  }

  lemma RenameTakeIff(cfg: Config, h: History, a: Path, b: Path, buffer: Path, p: Path)
    requires Steady(h, p) && a in h.s.core.pending
    ensures var step := RenameTake(a, b, buffer); Steady(Next(cfg, h, step), p) <==> InTurnFor(h, step, p)
  {
    var sent, held, want := Touching(Sent(h), p), Held(h.s, p), Want(h.wanted, p);
    var parked := p in h.s.core.pending;
    RenameTakeWant(cfg, h, a, b, buffer, p);
    RenameTakeRest(cfg, h, a, b, buffer, p);
    var rest' := held + if p == b || (p != a && parked) then [PutOp(p)] else [];
    var want' := if p == b then Push(if p == a then Merged(sent + held) else want, PutOp(p))
                 else if p == a then Merged(sent + held) else want;
    SteadyMeans(Next(cfg, h, RenameTake(a, b, buffer)), p, sent, rest', want');
    RenameOne(sent, held, parked, want, p == a, p == b, p);
  }

  /** The same on the values of one path. */
  lemma RenameOne(sent: seq<Op>, held: seq<Op>, parked: bool, want: seq<Op>, isOld: bool, isNew: bool, p: Path)
    requires Fits(sent, held + (if parked then [PutOp(p)] else []), want) && (isOld ==> parked)
    ensures var rest := held + (if parked then [PutOp(p)] else []);
            var rest' := held + (if isNew || (!isOld && parked) then [PutOp(p)] else []);
            var want' := if isNew then Push(if isOld then Merged(sent + held) else want, PutOp(p))
                         else if isOld then Merged(sent + held) else want;
            Fits(sent, rest', want') <==> (isNew ==> Only(rest, PutOp(p)))
  {
    var rest := held + if parked then [PutOp(p)] else [];
    if isNew && !parked {
      assert rest == held;
      JoinFitsIff(sent, rest, want, PutOp(p), held + [PutOp(p)]);
    } else if isNew {
      AgainFits(sent, rest, want, PutOp(p));
      RePut(sent, held, rest, want, PutOp(p));
    } else if isOld {
      assert held + [] == held;
      FrontFits(sent, held, rest, want);
    }
  }

  lemma FrontFits(sent: seq<Op>, held: seq<Op>, rest: seq<Op>, want: seq<Op>)
    requires Fits(sent, rest, want) && held <= rest
    ensures Fits(sent, held, Merged(sent + held))
  {
    assert forall i :: 0 <= i < |held| ==> held[i] == rest[i];
  }

  /** Withdrawing a Put and asking for it again changes nothing. */
  lemma RePut(sent: seq<Op>, held: seq<Op>, rest: seq<Op>, want: seq<Op>, put: Op)
    requires Fits(sent, rest, want) && rest == held + [put]
    ensures Push(Merged(sent + held), put) == want
  {
    assert sent + rest == (sent + held) + [put];
    MergedOne(sent + held, put);
  }

  ghost predicate InTurn(h: History, step: Step) {
    forall p :: InTurnFor(h, step, p)
  }

  /** A step of any goroutine keeps every path in order if and only if it is in turn.
      Timers, sends, the second half of a rename and the uploader always are; a
      Delete or Move is unless a different operation on one of its paths is parked,
      held or half renamed. */
  lemma StepKeepsOrderIff(cfg: Config, h: History, step: Step)
    requires (forall p :: AsAsked(h, p)) && Enabled(cfg, h.s, step) && !step.ReceiveHeld?
    ensures (forall p :: AsAsked(Next(cfg, h, step), p)) <==> InTurn(h, step)
  {
    forall p ensures AsAsked(Next(cfg, h, step), p) <==> InTurnFor(h, step, p) {
      assert AsAsked(h, p);
      SteadyIffAsAsked(h, p);
      SteadyIffAsAsked(Next(cfg, h, step), p);
      StepIff(cfg, h, step, p);
    }
  }

  lemma StepIff(cfg: Config, h: History, step: Step, p: Path)
    requires Steady(h, p) && Enabled(cfg, h.s, step) && !step.ReceiveHeld?
    ensures Steady(Next(cfg, h, step), p) <==> InTurnFor(h, step, p)
  {
    match step {
      case PutArrives(path, buffer, now) => PutArrivesIff(cfg, h, path, buffer, now, p);
      case Mark(e) => MarkIff(cfg, h, e, p);
      case RenameTake(a, b, buffer) =>
        if a in h.s.core.pending {
          RenameTakeIff(cfg, h, a, b, buffer, p);
        } else {
          assert Next(cfg, h, step) == h;
        }
      case Take(path) => TakeKeeps(cfg, h, path, p);
      case SendHeld(i) => SendKeeps(cfg, h, i, p);
      case RenameMark(i) => RenameMarkKeeps(cfg, h, i, p);
      case _ => ReplayKeeps(cfg, h, step, p);
    }
  }

  // ---------- Whole runs ----------

  /** Normal running, every step in turn. */
  ghost predicate OrderlyRun(cfg: Config, h: History, steps: seq<Step>)
    decreases |steps|
  {
    steps == [] ||
    (Enabled(cfg, h.s, steps[0]) && !steps[0].ReceiveHeld? && InTurn(h, steps[0])
     && OrderlyRun(cfg, Next(cfg, h, steps[0]), steps[1..]))
  }

  ghost function Last(cfg: Config, h: History, steps: seq<Step>): History
    requires OrderlyRun(cfg, h, steps)
    decreases |steps|
  {
    if steps == [] then h else Last(cfg, Next(cfg, h, steps[0]), steps[1..])
  }

  lemma {:induction false} RunKeepsOrder(cfg: Config, h: History, steps: seq<Step>)
    requires (forall p :: AsAsked(h, p)) && OrderlyRun(cfg, h, steps)
    ensures forall p :: AsAsked(Last(cfg, h, steps), p)
    decreases |steps|
  {
    if steps != [] {
      StepKeepsOrderIff(cfg, h, steps[0]);
      RunKeepsOrder(cfg, Next(cfg, h, steps[0]), steps[1..]);
    }
  }

  lemma BlankAsAsked(p: Path)
    ensures AsAsked(BLANK, p)
  {
    assert Sent(BLANK) == [] && Rest(BLANK.s, p) == [];
  }

  lemma NothingLeft(h: History, p: Path)
    requires AsAsked(h, p) && Rest(h.s, p) == [] && h.s.flight.None? && h.s.core.queue == []
    ensures Merged(Touching(h.tried, p)) == Want(h.wanted, p)
  {
    var none: seq<Op> := [];
    assert Sent(h) == h.tried && Touching(Sent(h), p) + none == Touching(h.tried, p);
    assert multiset(none) == multiset(Rest(h.s, p));
  }

  /** Over every orderly run of all goroutines and for every path: in whatever order
      the remaining operations are sent, the store will see what was asked for; and
      once nothing is parked, held, half renamed, queued or in flight, it has been
      given exactly that, adjacent Puts merged. */
  lemma RacesKeepPathOrder(cfg: Config, steps: seq<Step>, p: Path)
    requires OrderlyRun(cfg, BLANK, steps)
    ensures var h := Last(cfg, BLANK, steps);
            && AsAsked(h, p)
            && (Rest(h.s, p) == [] && h.s.flight.None? && h.s.core.queue == [] ==>
                  Merged(Touching(h.tried, p)) == Want(h.wanted, p))
  {
    forall q ensures AsAsked(BLANK, q) {
      BlankAsAsked(q);
    }
    RunKeepsOrder(cfg, BLANK, steps);
    var h := Last(cfg, BLANK, steps);
    if Rest(h.s, p) == [] && h.s.flight.None? && h.s.core.queue == [] {
      NothingLeft(h, p);
    }
  }

  // ---------- Out of turn ----------

  /** Out of turn means overtaken: if something else on the path is still outside the
      queue when a Delete, Move or Symlink is marked, then sending that first leaves
      a path that will not end as asked. */
  lemma HeldIsOvertaken(cfg: Config, h: History, e: Entry, p: Path)
    requires AsAsked(h, p) && e.kind != Put && Names(e, p) > 0 && !Only(Rest(h.s, p), OpOf(e))
    requires |h.s.core.queue| < cfg.depth
    ensures var t := Next(cfg, Next(cfg, h, Mark(e)), SendHeld(|h.s.hand|));
            Rest(t.s, p) == Rest(h.s, p) && !AsAsked(t, p)
  {
    var t := Next(cfg, Next(cfg, h, Mark(e)), SendHeld(|h.s.hand|));
    var sent, rest, want := Touching(Sent(h), p), Rest(h.s, p), Want(h.wanted, p);
    SteadyIffAsAsked(h, p);
    RestOnPath(h.s, p);
    MarkThenSend(cfg, h, e);
    TouchingOne(Sent(h), e, p);
    AskedAll(h.wanted, e, p);
    Overtaken(sent, rest, want, OpOf(e), p);
    SteadyMeans(t, p, sent + [OpOf(e)], rest, Push(want, OpOf(e)));
    SteadyIffAsAsked(t, p);
  }

  lemma MarkThenSend(cfg: Config, h: History, e: Entry)
    requires |h.s.core.queue| < cfg.depth
    ensures var t := Next(cfg, Next(cfg, h, Mark(e)), SendHeld(|h.s.hand|));
            && t.s.hand == h.s.hand && t.s.redirects == h.s.redirects && t.s.core.pending == h.s.core.pending
            && Sent(t) == Sent(h) + [e] && t.wanted == AskAll(h.wanted, e)
  {
  }

  /** Sent first, the new operation is not last; asked for last, it should be. */
  lemma Overtaken(sent: seq<Op>, rest: seq<Op>, want: seq<Op>, op: Op, p: Path)
    requires Fits(sent, rest, want) && !Only(rest, op) && OnPath(rest, p) && (op.kind == Put ==> op == PutOp(p))
    ensures !Fits(sent + [op], rest, Push(want, op))
  {
    var early, late := (sent + [op]) + rest, (sent + rest) + [op];
    MergedOne(sent + rest, op);
    assert early[|early| - 1] == rest[|rest| - 1] != op && late[|late| - 1] == op;
    LastTells(early, late, rest[|rest| - 1], op, p);
  }

  /** The same for a Put: it can be unparked and sent ahead of the Delete or Move that
      an earlier call still holds. */
  lemma PutOvertakesHeld(cfg: Config, h: History, p: Path, buffer: Path, now: int)
    requires AsAsked(h, p) && p !in h.s.core.pending && !Only(Rest(h.s, p), PutOp(p))
    requires |h.s.core.queue| < cfg.depth
    ensures var t := Next(cfg, Next(cfg, Next(cfg, h, PutArrives(p, buffer, now)), Take(p)), SendHeld(|h.s.hand|));
            Rest(t.s, p) == Rest(h.s, p) && !AsAsked(t, p)
  {
    var t := Next(cfg, Next(cfg, Next(cfg, h, PutArrives(p, buffer, now)), Take(p)), SendHeld(|h.s.hand|));
    var sent, rest, want := Touching(Sent(h), p), Rest(h.s, p), Want(h.wanted, p);
    SteadyIffAsAsked(h, p);
    RestOnPath(h.s, p);
    PutThroughEffect(cfg, h, p, buffer, now);
    TouchingOne(Sent(h), PutEntry(p, buffer), p);
    Overtaken(sent, rest, want, PutOp(p), p);
    SteadyMeans(t, p, sent + [PutOp(p)], rest, Push(want, PutOp(p)));
    SteadyIffAsAsked(t, p);
  }

  lemma PutThroughEffect(cfg: Config, h: History, p: Path, buffer: Path, now: int)
    requires p !in h.s.core.pending && |h.s.core.queue| < cfg.depth
    ensures var t := Next(cfg, Next(cfg, Next(cfg, h, PutArrives(p, buffer, now)), Take(p)), SendHeld(|h.s.hand|));
            && t.s.hand == h.s.hand && t.s.redirects == h.s.redirects && t.s.core.pending == h.s.core.pending
            && Sent(t) == Sent(h) + [PutEntry(p, buffer)] && Want(t.wanted, p) == Push(Want(h.wanted, p), PutOp(p))
  {
    var a := Next(cfg, h, PutArrives(p, buffer, now));
    var b := Next(cfg, a, Take(p));
    assert b.s.hand == h.s.hand + [PutEntry(p, buffer)] && b.s.core.queue == h.s.core.queue;
  }

  /** It happens: a timer has unparked a Put and not sent it when the file is removed.
      The Delete finds nothing to force out, and the Put is queued behind it. */
  lemma TimerLosesTheRace(cfg: Config, p: Path, buffer: Path, now: int)
    requires cfg.depth >= 2
    ensures var del := Entry(Delete, p, "", "");
            var steps := [PutArrives(p, buffer, now), Take(p), Mark(del), SendHeld(1), SendHeld(0)];
            && LegalRun(cfg, START, steps)
            && Final(cfg, START, steps).core.queue == [del, PutEntry(p, buffer)]
  {
    var del, put := Entry(Delete, p, "", ""), PutEntry(p, buffer);
    var s1 := Apply(cfg, START, PutArrives(p, buffer, now));
    var s2 := Apply(cfg, s1, Take(p));
    assert s2.hand == [put] && s2.core.queue == [];
    var s3 := Apply(cfg, s2, Mark(del));
    assert s3.hand == [put, del];
    var s4 := Apply(cfg, s3, SendHeld(1));
    assert s4.hand == [put] && s4.core.queue == [del];
    var s5 := Apply(cfg, s4, SendHeld(0));
    assert s5.core.queue == [del, put];
    FiveSteps(cfg, START, PutArrives(p, buffer, now), Take(p), Mark(del), SendHeld(1), SendHeld(0));
  }

  lemma Prepend(cfg: Config, s: State, a: Step, rest: seq<Step>)
    requires Enabled(cfg, s, a) && LegalRun(cfg, Apply(cfg, s, a), rest)
    ensures LegalRun(cfg, s, [a] + rest) && Final(cfg, s, [a] + rest) == Final(cfg, Apply(cfg, s, a), rest)
  {
    assert ([a] + rest)[0] == a && ([a] + rest)[1..] == rest;
  }

  lemma FiveSteps(cfg: Config, s: State, a: Step, b: Step, c: Step, d: Step, e: Step)
    requires Enabled(cfg, s, a)
    requires Enabled(cfg, Apply(cfg, s, a), b)
    requires Enabled(cfg, Apply(cfg, Apply(cfg, s, a), b), c)
    requires Enabled(cfg, Apply(cfg, Apply(cfg, Apply(cfg, s, a), b), c), d)
    requires Enabled(cfg, Apply(cfg, Apply(cfg, Apply(cfg, Apply(cfg, s, a), b), c), d), e)
    ensures LegalRun(cfg, s, [a, b, c, d, e])
    ensures Final(cfg, s, [a, b, c, d, e]) ==
            Apply(cfg, Apply(cfg, Apply(cfg, Apply(cfg, Apply(cfg, s, a), b), c), d), e)
  {
    var s1 := Apply(cfg, s, a);
    var s2 := Apply(cfg, s1, b);
    var s3 := Apply(cfg, s2, c);
    Prepend(cfg, Apply(cfg, s3, d), e, []);
    Prepend(cfg, s3, d, [e]);
    Prepend(cfg, s2, c, [d] + [e]);
    Prepend(cfg, s1, b, [c] + ([d] + [e]));
    Prepend(cfg, s, a, [b] + ([c] + ([d] + [e])));
    assert [a] + ([b] + ([c] + ([d] + [e]))) == [a, b, c, d, e];
  }
}
