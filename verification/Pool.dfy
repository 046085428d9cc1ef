/** The keyed pool of idle upstream connections: who owns a connection, over every
    interleaving of get, put, sweep, evict and close. */
module Pool {
  import opened Common

  type Conn = nat

  datatype Key = Key(srcIP: string, dialAddr: string, host: string)

  datatype Pooled = Pooled(conn: Conn, since: int)

  type Idle = map<Key, seq<Pooled>>

  /** keyFor: in pod scope the source is dropped from the key. */
  function KeyFor(shared: bool, k: Key): Key { if shared then k.(srcIP := "") else k }

  function Stack(idle: Idle, k: Key): seq<Pooled> { if k in idle then idle[k] else [] }

  predicate Expired(pc: Pooled, ttl: int, now: int) { now - pc.since > ttl }

  function Fresh(stack: seq<Pooled>, ttl: int, now: int): seq<Pooled> {
    if stack == [] then []
    else
      var front, last := Fresh(stack[..|stack| - 1], ttl, now), stack[|stack| - 1];
      if Expired(last, ttl, now) then front else front + [last]
  }

  /** Sweeping works through a bucket one by one, and drops what is older than the limit. */
  lemma {:induction false} FreshOneByOne(a: seq<Pooled>, b: Pooled, ttl: int, now: int)
    ensures Fresh(a + [b], ttl, now) == Fresh(a, ttl, now) + if now - b.since > ttl then [] else [b]
    ensures Fresh([], ttl, now) == []
  {
    assert (a + [b])[..|a|] == a;
  }

  lemma {:induction false} FreshIsRecent(stack: seq<Pooled>, ttl: int, now: int)
    ensures forall i :: 0 <= i < |Fresh(stack, ttl, now)| ==> now - Fresh(stack, ttl, now)[i].since <= ttl
  {
    if stack != [] {
      FreshIsRecent(stack[..|stack| - 1], ttl, now);
    }
  }

  /** sweep: every bucket keeps its fresh connections; empty buckets go away. */
  function Swept(idle: Idle, ttl: int, now: int): Idle {
    map k | k in idle && Fresh(idle[k], ttl, now) != [] :: Fresh(idle[k], ttl, now)
  }

  /** evictSource, in vm scope. */
  function Evicted(idle: Idle, src: string): Idle {
    map k | k in idle && k.srcIP != src :: idle[k]
  }

  /** What get takes from a bucket: a usable connection if there is one, what is
      left, and what was closed on the way. */
  datatype Picked = Picked(conn: Option<Conn>, left: seq<Pooled>, rejected: seq<Conn>)

  function Pick(stack: seq<Pooled>, alive: set<Conn>, ttl: int, now: int): Picked {
    if stack == [] then Picked(None, [], [])
    else
      var below, top := stack[..|stack| - 1], stack[|stack| - 1];
      if Expired(top, ttl, now) || top.conn !in alive then
        var p := Pick(below, alive, ttl, now);
        p.(rejected := [top.conn] + p.rejected)
      else Picked(Some(top.conn), below, [])
  }

  /** get hands out the newest usable connection of the bucket: everything newer is
      unusable and closed, everything older stays, and none is lost or invented. */
  lemma {:induction false} PickTakesNewestUsable(stack: seq<Pooled>, alive: set<Conn>, ttl: int, now: int)
    ensures var p := Pick(stack, alive, ttl, now);
            var n := |p.left| + if p.conn.Some? then 1 else 0;
            && n <= |stack| && p.left <= stack && |p.rejected| == |stack| - n
            && (p.conn.None? ==> p.left == [])
            && (p.conn.Some? ==> stack[n - 1].conn == p.conn.value && p.conn.value in alive
                                 && now - stack[n - 1].since <= ttl)
            && (forall j :: n <= j < |stack| ==> now - stack[j].since > ttl || stack[j].conn !in alive)
            && (forall j :: n <= j < |stack| ==> stack[j].conn in p.rejected)
  {
    if stack != [] {
      var below, top := stack[..|stack| - 1], stack[|stack| - 1];
      if Expired(top, ttl, now) || top.conn !in alive {
        PickTakesNewestUsable(below, alive, ttl, now);
        var p := Pick(below, alive, ttl, now);
        var n := |p.left| + if p.conn.Some? then 1 else 0;
        forall j | n <= j < |stack|
          ensures stack[j].conn in [top.conn] + p.rejected
          ensures now - stack[j].since > ttl || stack[j].conn !in alive
        {
          if j < |below| {
            assert below[j] == stack[j];
          }
        }
      }
    }
  }

  /** The stack holds the connection, put no longer than `ttl` ago. */
  ghost predicate PutWithin(stack: seq<Pooled>, c: Conn, ttl: int, now: int) {
    exists n :: 0 <= n < |stack| && stack[n].conn == c && now - stack[n].since <= ttl
  }

  lemma PickIsRecent(stack: seq<Pooled>, alive: set<Conn>, ttl: int, now: int)
    ensures var p := Pick(stack, alive, ttl, now);
            p.conn.Some? ==> p.conn.value in alive && PutWithin(stack, p.conn.value, ttl, now)
  {
    PickTakesNewestUsable(stack, alive, ttl, now);
  }

  // ---------- The pool as an object ----------

  class UpstreamPool {
    const shared: bool
    const ttl: int
    const cap: nat
    var idle: Idle
    var closed: bool
    var closes: seq<Conn>   // the Close calls made, in order

    constructor (shared: bool)
      ensures this.shared == shared && ttl == 10_000 && cap == 8 && idle == map[] && !closed && closes == []
    {
      this.shared, ttl, cap, idle, closed, closes := shared, 10_000, 8, map[], false, [];
    }

    /** get: pops until a connection is usable, closing the others. */
    method Get(k: Key, alive: set<Conn>, now: int) returns (c: Option<Conn>)
      modifies this`idle, this`closes
      ensures closed ==> c == None && idle == old(idle) && closes == old(closes)
      ensures !closed ==>
        var picked := Pick(Stack(old(idle), KeyFor(shared, k)), alive, ttl, now);
        c == picked.conn && Stack(idle, KeyFor(shared, k)) == picked.left && closes == old(closes) + picked.rejected
      ensures forall x :: x != KeyFor(shared, k) ==> Stack(idle, x) == Stack(old(idle), x)
      ensures c.Some? ==> c.value in alive && PutWithin(Stack(old(idle), KeyFor(shared, k)), c.value, ttl, now)
    {
      c := None;
      if closed {
        return;
      }
      var key := KeyFor(shared, k);
      ghost var goal := Pick(Stack(idle, key), alive, ttl, now);
      PickIsRecent(Stack(idle, key), alive, ttl, now);
      ghost var rejected: seq<Conn> := [];
      assert rejected + goal.rejected == goal.rejected;
      while Stack(idle, key) != []
        invariant closes == old(closes) + rejected
        invariant var rest := Pick(Stack(idle, key), alive, ttl, now);
                  goal == Picked(rest.conn, rest.left, rejected + rest.rejected)
        invariant forall x :: x != key ==> Stack(idle, x) == Stack(old(idle), x)
        decreases |Stack(idle, key)|
      {
        var stack := idle[key];
        var pc := stack[|stack| - 1];
        ghost var below := Pick(stack[..|stack| - 1], alive, ttl, now);
        idle := idle[key := stack[..|stack| - 1]];
        if !(Expired(pc, ttl, now) || pc.conn !in alive) {
          c := Some(pc.conn);
          assert rejected + [] == rejected;
          return;
        }
        closes := closes + [pc.conn];
        assert rejected + ([pc.conn] + below.rejected) == (rejected + [pc.conn]) + below.rejected;
        rejected := rejected + [pc.conn];
      }
      assert rejected + [] == rejected;
    }

    /** put: kept unless bytes are still buffered, the pool is closed or the bucket
        is full; otherwise closed. */
    method Put(k: Key, c: Conn, buffered: nat, now: int)
      modifies this`idle, this`closes
      ensures var key := KeyFor(shared, k);
              var kept := buffered == 0 && !closed && |Stack(old(idle), key)| < cap;
              && closes == (if kept then old(closes) else old(closes) + [c])
              && idle == (if kept then old(idle)[key := Stack(old(idle), key) + [Pooled(c, now)]] else old(idle))
    {
      if buffered != 0 {
        closes := closes + [c];
        return;
      }
      var key := KeyFor(shared, k);
      if closed || |Stack(idle, key)| >= cap {
        closes := closes + [c];
        return;
      }
      idle := idle[key := Stack(idle, key) + [Pooled(c, now)]];
    }

    /** The locked part of sweep: which connections are dropped, and what stays. */
    method Sweep(now: int) returns (drop: seq<Conn>)
      modifies this`idle
      ensures idle == Swept(old(idle), ttl, now)
      ensures forall x :: x in drop <==> exists k, i :: Holds(old(idle), k, i, x) && Expired(old(idle)[k][i], ttl, now)
      ensures forall k, i :: k in idle && 0 <= i < |idle[k]| ==> now - idle[k][i].since <= ttl
    {
      drop := [];
      var rest := idle.Keys;
      ghost var done: set<Key> := {};
      while rest != {}
        invariant done + rest == old(idle).Keys && done !! rest
        invariant forall k :: k in rest ==> k in idle && idle[k] == old(idle)[k]
        invariant forall k :: k in idle ==>
          k in rest || (k in done && idle[k] == Fresh(old(idle)[k], ttl, now) && idle[k] != [])
        invariant forall k :: k in done && Fresh(old(idle)[k], ttl, now) != [] ==> k in idle
        invariant forall x :: x in drop <==>
          exists k, i :: k in done && Holds(old(idle), k, i, x) && Expired(old(idle)[k][i], ttl, now)
        decreases rest
      {
        var key :| key in rest;
        var kept, gone := Partition(idle[key], now);
        ghost var before := drop;
        drop := drop + gone;
        idle := if |kept| == 0 then idle - {key} else idle[key := kept];
        rest, done := rest - {key}, done + {key};
        assert forall x :: x in drop <==> x in before || x in gone;
        assert forall x :: x in gone <==>
          exists i :: Holds(old(idle), key, i, x) && Expired(old(idle)[key][i], ttl, now);
      }
      assert done == old(idle).Keys;
      assert idle == Swept(old(idle), ttl, now);
      forall k | k in idle ensures forall i :: 0 <= i < |idle[k]| ==> now - idle[k][i].since <= ttl {
        FreshIsRecent(old(idle)[k], ttl, now);
      }
    }

    /** One bucket of sweep. */
    method Partition(stack: seq<Pooled>, now: int) returns (kept: seq<Pooled>, gone: seq<Conn>)
      ensures kept == Fresh(stack, ttl, now)
      ensures forall x :: x in gone <==>
        exists i :: 0 <= i < |stack| && stack[i].conn == x && Expired(stack[i], ttl, now)
    {
      kept, gone := [], [];
      for j := 0 to |stack|
        invariant kept == Fresh(stack[..j], ttl, now)
        invariant forall x :: x in gone <==> exists i :: 0 <= i < j && stack[i].conn == x && Expired(stack[i], ttl, now)
      {
        assert stack[..j + 1][..j] == stack[..j];
        if Expired(stack[j], ttl, now) {
          gone := gone + [stack[j].conn];
        } else {
          kept := kept + [stack[j]];
        }
      }
      assert stack[..|stack|] == stack;
    }
  }

  predicate Holds(idle: Idle, k: Key, i: int, c: Conn) {
    k in idle && 0 <= i < |idle[k]| && idle[k][i].conn == c
  }

  // ---------- All goroutines together ----------

  /** Where a connection is. */
  datatype Place =
    | Resting(key: Key)     // idle, in that bucket
    | Out                   // checked out: dialled, or returned by get
    | Popped(asked: Key, since: int)  // taken by a get that has not probed it yet
    | Doomed                // dropped from the pool, its Close still to come
    | Gone                  // closed

  /** `askedAs` and `putAt` are what each connection was last put under, and when;
      `twice` records a second Close of a connection. */
  datatype State = State(
    shared: bool, ttl: int, cap: nat,
    idle: Idle, closed: bool,
    place: map<Conn, Place>,
    askedAs: map<Conn, Key>,
    putAt: map<Conn, int>,
    twice: bool)

  datatype Step =
    | Dial(c: Conn)
    | Pop(k: Key)                         // get, under the lock
    | Use(c: Conn, now: int)              // get: fresh and alive, returned
    | Reject(c: Conn)                     // get: stale or dead, closed
    | Put(c: Conn, k: Key, buffered: nat, now: int)
    | Sweep(now: int)
    | Evict(src: string)
    | CloseAll
    | CloseDoomed(c: Conn)

  predicate Enabled(s: State, step: Step) {
    match step
    case Dial(c) => c !in s.place
    case Pop(k) => !s.closed && Stack(s.idle, KeyFor(s.shared, k)) != []
    case Use(c, now) =>
      c in s.place && s.place[c].Popped? && !Expired(Pooled(c, s.place[c].since), s.ttl, now)
    case Reject(c) => c in s.place && s.place[c].Popped?
    case Put(c, _, _, _) => c in s.place && s.place[c].Out?
    case CloseDoomed(c) => c in s.place && s.place[c].Doomed?
    case _ => true
  }

  function Shut(s: State, c: Conn): State {
    s.(place := s.place[c := Gone], twice := s.twice || (c in s.place && s.place[c].Gone?))
  }

  /** The idle table became `idle`: what is no longer in it is dropped. */
  ghost function Dropping(s: State, idle: Idle): State {
    s.(idle := idle,
       place := map c | c in s.place ::
         if s.place[c].Resting? && !exists k, i :: Holds(idle, k, i, c) then Doomed else s.place[c])
  }

  ghost function Apply(s: State, step: Step): State
    requires Enabled(s, step)
  {
    match step
    case Dial(c) => s.(place := s.place[c := Out])
    case Pop(k) =>
      var key := KeyFor(s.shared, k);
      var stack := s.idle[key];
      var top := stack[|stack| - 1];
      s.(idle := s.idle[key := stack[..|stack| - 1]], place := s.place[top.conn := Popped(k, top.since)])
    case Use(c, _) => s.(place := s.place[c := Out])
    case Reject(c) => Shut(s, c)
    case Put(c, k, buffered, now) =>
      var key := KeyFor(s.shared, k);
      if buffered != 0 || s.closed || |Stack(s.idle, key)| >= s.cap then Shut(s, c)
      else
        s.(idle := s.idle[key := Stack(s.idle, key) + [Pooled(c, now)]],
           place := s.place[c := Resting(key)], askedAs := s.askedAs[c := k], putAt := s.putAt[c := now])
    case Sweep(now) => Dropping(s, Swept(s.idle, s.ttl, now))
    case Evict(src) => if s.shared then s else Dropping(s, Evicted(s.idle, src))
    case CloseAll => Dropping(s.(closed := true), map[])
    case CloseDoomed(c) => Shut(s, c)
  }

  ghost predicate LegalRun(s: State, steps: seq<Step>)
    decreases |steps|
  {
    steps == [] || (Enabled(s, steps[0]) && LegalRun(Apply(s, steps[0]), steps[1..]))
  }

  ghost function Final(s: State, steps: seq<Step>): State
    requires LegalRun(s, steps)
    decreases |steps|
  {
    if steps == [] then s else Final(Apply(s, steps[0]), steps[1..])
  }

  function Start(shared: bool, ttl: int, cap: nat): State {
    State(shared, ttl, cap, map[], false, map[], map[], map[], false)
  }

  // ---------- The invariant ----------

  /** The buckets and the places say the same, and each connection sits in one
      slot of one bucket at most. */
  ghost predicate Consistent(idle: Idle, place: map<Conn, Place>) {
    && (forall k, i :: k in idle && 0 <= i < |idle[k]| ==>
          idle[k][i].conn in place && place[idle[k][i].conn] == Resting(k))
    && (forall k, i, j :: k in idle && 0 <= i < j < |idle[k]| ==> idle[k][i].conn != idle[k][j].conn)
    && (forall c :: c in place && place[c].Resting? ==> exists i :: Holds(idle, place[c].key, i, c))
  }

  ghost predicate Inv(s: State) {
    && Consistent(s.idle, s.place)
    && (forall k :: k in s.idle ==> |s.idle[k]| <= s.cap)
    && (s.closed ==> forall k :: k in s.idle ==> s.idle[k] == [])
    && !s.twice
    && (forall c :: c in s.place && s.place[c].Resting? ==>
          c in s.askedAs && KeyFor(s.shared, s.askedAs[c]) == s.place[c].key)
    && (forall c :: c in s.place && s.place[c].Popped? ==>
          c in s.askedAs && KeyFor(s.shared, s.askedAs[c]) == KeyFor(s.shared, s.place[c].asked))
    && Stamped(s.idle, s.place, s.putAt)
  }

  /** Every idle or popped connection carries the time it was put. */
  ghost predicate Stamped(idle: Idle, place: map<Conn, Place>, putAt: map<Conn, int>) {
    && (forall k, i :: k in idle && 0 <= i < |idle[k]| ==>
          idle[k][i].conn in putAt && putAt[idle[k][i].conn] == idle[k][i].since)
    && forall c :: c in place && place[c].Popped? ==> c in putAt && putAt[c] == place[c].since
  }

  /** A sub-table: every bucket keeps a sub-sequence of what it had. */
  ghost predicate Within(small: Idle, big: Idle) {
    && small.Keys <= big.Keys
    && forall k :: k in small ==>
         && |small[k]| <= |big[k]|
         && (forall i :: 0 <= i < |small[k]| ==> small[k][i] in big[k])
         && forall i, j :: 0 <= i < j < |small[k]| ==> small[k][i].conn != small[k][j].conn
  }

  lemma {:induction false} FreshWithin(stack: seq<Pooled>, ttl: int, now: int)
    requires forall i, j :: 0 <= i < j < |stack| ==> stack[i].conn != stack[j].conn
    ensures var f := Fresh(stack, ttl, now);
            && |f| <= |stack|
            && (forall i :: 0 <= i < |f| ==> f[i] in stack && !Expired(f[i], ttl, now))
            && (forall i, j :: 0 <= i < j < |f| ==> f[i].conn != f[j].conn)
            && (forall i :: 0 <= i < |stack| && !Expired(stack[i], ttl, now) ==> stack[i] in f)
  {
    if stack != [] {
      var front, last := stack[..|stack| - 1], stack[|stack| - 1];
      FreshWithin(front, ttl, now);
      var f := Fresh(front, ttl, now);
      assert stack == front + [last];
      forall i | 0 <= i < |f| ensures f[i].conn != last.conn {
        var n :| 0 <= n < |front| && front[n] == f[i];
        assert stack[n].conn != stack[|stack| - 1].conn;
      }
    }
  }

  lemma SweptWithin(idle: Idle, place: map<Conn, Place>, ttl: int, now: int)
    requires Consistent(idle, place)
    ensures Within(Swept(idle, ttl, now), idle)
  {
    forall k | k in idle
      ensures var f := Fresh(idle[k], ttl, now);
              && |f| <= |idle[k]| && (forall i :: 0 <= i < |f| ==> f[i] in idle[k])
              && forall i, j :: 0 <= i < j < |f| ==> f[i].conn != f[j].conn
    {
      FreshWithin(idle[k], ttl, now);
    }
  }

  lemma DroppingInv(s: State, idle: Idle)
    requires Inv(s) && Within(idle, s.idle)
    ensures Inv(Dropping(s, idle))
  {
    var t := Dropping(s, idle);
    forall k, i | k in idle && 0 <= i < |idle[k]|
      ensures idle[k][i].conn in t.place && t.place[idle[k][i].conn] == Resting(k)
    {
      assert idle[k][i] in s.idle[k];
      assert Holds(idle, k, i, idle[k][i].conn);
    }
    forall c | c in t.place && t.place[c].Resting? ensures exists i :: Holds(idle, t.place[c].key, i, c) {
      var k, i :| Holds(idle, k, i, c);
      assert t.place[idle[k][i].conn] == Resting(k);
    }
  }

  lemma PopInv(s: State, k: Key)
    requires Inv(s) && Enabled(s, Pop(k))
    ensures Inv(Apply(s, Pop(k)))
  {
    var t := Apply(s, Pop(k));
    var key := KeyFor(s.shared, k);
    var n := |s.idle[key]| - 1;
    var top := s.idle[key][n].conn;
    assert s.place[top] == Resting(key);
    forall c | c in t.place && t.place[c].Resting? ensures exists i :: Holds(t.idle, t.place[c].key, i, c) {
      var i :| Holds(s.idle, s.place[c].key, i, c);
      assert Holds(t.idle, t.place[c].key, i, c);
    }
  }

  lemma PutConsistent(idle: Idle, place: map<Conn, Place>, c: Conn, key: Key, now: int)
    requires Consistent(idle, place) && (c in place ==> !place[c].Resting?)
    ensures Consistent(idle[key := Stack(idle, key) + [Pooled(c, now)]], place[c := Resting(key)])
  {
    var was := Stack(idle, key);
    var idle', place' := idle[key := was + [Pooled(c, now)]], place[c := Resting(key)];
    forall d | d in place' && place'[d].Resting? ensures exists i :: Holds(idle', place'[d].key, i, d) {
      if d == c {
        assert Holds(idle', key, |was|, c);
      } else {
        var i :| Holds(idle, place[d].key, i, d);
        assert Holds(idle', place'[d].key, i, d);
      }
    }
  }

  lemma PutStamped(s: State, c: Conn, key: Key, now: int)
    requires Consistent(s.idle, s.place) && Stamped(s.idle, s.place, s.putAt)
    requires c in s.place ==> !s.place[c].Resting?
    ensures Stamped(s.idle[key := Stack(s.idle, key) + [Pooled(c, now)]], s.place[c := Resting(key)],
                    s.putAt[c := now])
  {
  }

  lemma PutInv(s: State, c: Conn, k: Key, buffered: nat, now: int)
    requires Inv(s) && Enabled(s, Put(c, k, buffered, now))
    ensures Inv(Apply(s, Put(c, k, buffered, now)))
  {
    if Apply(s, Put(c, k, buffered, now)).place[c].Resting? {
      PutConsistent(s.idle, s.place, c, KeyFor(s.shared, k), now);
      PutStamped(s, c, KeyFor(s.shared, k), now);
    } else {
      ShutInv(s, c);
    }
  }

  lemma MoveInv(s: State, c: Conn, place: Place)
    requires Inv(s) && (c in s.place ==> !s.place[c].Resting?) && !place.Resting? && !place.Popped?
    ensures Inv(s.(place := s.place[c := place]))
  {
    var t := s.(place := s.place[c := place]);
    forall d | d in t.place && t.place[d].Resting? ensures exists i :: Holds(t.idle, t.place[d].key, i, d) {
      var i :| Holds(s.idle, s.place[d].key, i, d);
    }
  }

  lemma ShutInv(s: State, c: Conn)
    requires Inv(s) && c in s.place && !s.place[c].Resting? && !s.place[c].Gone?
    ensures Inv(Shut(s, c))
  {
    MoveInv(s, c, Gone);
  }

  lemma StepInv(s: State, step: Step)
    requires Inv(s) && Enabled(s, step)
    ensures Inv(Apply(s, step))
  {
    match step
    case Dial(c) => MoveInv(s, c, Out);
    case Pop(k) => PopInv(s, k);
    case Use(c, _) => MoveInv(s, c, Out);
    case Reject(c) => ShutInv(s, c);
    case Put(c, k, buffered, now) => PutInv(s, c, k, buffered, now);
    case Sweep(now) =>
      SweptWithin(s.idle, s.place, s.ttl, now);
      DroppingInv(s, Swept(s.idle, s.ttl, now));
    case Evict(src) => DroppingInv(s, Evicted(s.idle, src));
    case CloseAll =>
      DroppingInv(s, map[]);
    case CloseDoomed(c) => ShutInv(s, c);
  }

  lemma {:induction false} RunKeepsInv(s: State, steps: seq<Step>)
    requires Inv(s) && LegalRun(s, steps)
    ensures Inv(Final(s, steps))
    decreases |steps|
  {
    if steps != [] {
      StepInv(s, steps[0]);
      RunKeepsInv(Apply(s, steps[0]), steps[1..]);
    }
  }

  // ---------- Main results ----------

  /** Pool ownership over every run: a connection is in exactly one place, in one
      slot of one bucket when idle; none is closed twice; buckets respect the cap;
      and nothing is idle once the pool is closed. */
  lemma OwnershipHolds(shared: bool, ttl: int, cap: nat, steps: seq<Step>)
    requires LegalRun(Start(shared, ttl, cap), steps)
    ensures var s := Final(Start(shared, ttl, cap), steps);
            && Consistent(s.idle, s.place) && !s.twice
            && (forall k :: k in s.idle ==> |s.idle[k]| <= s.cap)
            && (s.closed ==> forall k :: k in s.idle ==> s.idle[k] == [])
  {
    RunKeepsInv(Start(shared, ttl, cap), steps);
  }

  lemma {:induction false} RunKeepsScope(s: State, steps: seq<Step>)
    requires LegalRun(s, steps)
    ensures Final(s, steps).shared == s.shared
    decreases |steps|
  {
    if steps != [] {
      RunKeepsScope(Apply(s, steps[0]), steps[1..]);
    }
  }

  /** Isolation: what a get is about to return was put under the key it asked for;
      in vm scope that is the same source, address and host, in pod scope the same
      address and host. */
  lemma GetStaysInItsKey(shared: bool, ttl: int, cap: nat, steps: seq<Step>, c: Conn)
    requires LegalRun(Start(shared, ttl, cap), steps)
    ensures var s := Final(Start(shared, ttl, cap), steps);
            c in s.place && s.place[c].Popped? ==>
              && c in s.askedAs
              && s.askedAs[c].dialAddr == s.place[c].asked.dialAddr && s.askedAs[c].host == s.place[c].asked.host
              && (!shared ==> s.askedAs[c] == s.place[c].asked)
  {
    RunKeepsInv(Start(shared, ttl, cap), steps);
    RunKeepsScope(Start(shared, ttl, cap), steps);
  }

  lemma {:induction false} RunKeepsLimit(s: State, steps: seq<Step>)
    requires LegalRun(s, steps)
    ensures Final(s, steps).ttl == s.ttl
    decreases |steps|
  {
    if steps != [] {
      RunKeepsLimit(Apply(s, steps[0]), steps[1..]);
    }
  }

  /** Over every run, get may return the connection it has popped exactly while that
      was put no longer ago than the idle limit. */
  lemma GetIsRecent(shared: bool, ttl: int, cap: nat, steps: seq<Step>, c: Conn, now: int)
    requires LegalRun(Start(shared, ttl, cap), steps)
    ensures var s := Final(Start(shared, ttl, cap), steps);
            c in s.place && s.place[c].Popped? ==>
              c in s.putAt && (Enabled(s, Use(c, now)) <==> now - s.putAt[c] <= ttl)
  {
    RunKeepsInv(Start(shared, ttl, cap), steps);
    RunKeepsLimit(Start(shared, ttl, cap), steps);
  }

  /** Over every run, a sweep leaves idle exactly the idle connections that were put no
      longer ago than the limit. */
  lemma SweepLeavesRecent(shared: bool, ttl: int, cap: nat, steps: seq<Step>, c: Conn, now: int)
    requires LegalRun(Start(shared, ttl, cap), steps)
    ensures var s := Final(Start(shared, ttl, cap), steps);
            c in s.place && s.place[c].Resting? ==>
              && c in s.putAt
              && (Apply(s, Sweep(now)).place[c].Resting? <==> now - s.putAt[c] <= ttl)
  {
    var s := Final(Start(shared, ttl, cap), steps);
    RunKeepsInv(Start(shared, ttl, cap), steps);
    RunKeepsLimit(Start(shared, ttl, cap), steps);
    if c in s.place && s.place[c].Resting? {
      SweepOne(s, c, now);
    }
  }

  lemma SweepOne(s: State, c: Conn, now: int)
    requires Inv(s) && c in s.place && s.place[c].Resting?
    ensures c in s.putAt && (Apply(s, Sweep(now)).place[c].Resting? <==> now - s.putAt[c] <= s.ttl)
  {
    var k := s.place[c].key;
    var i :| Holds(s.idle, k, i, c);
    var swept := Swept(s.idle, s.ttl, now);
    FreshWithin(s.idle[k], s.ttl, now);
    if now - s.putAt[c] <= s.ttl {
      assert s.idle[k][i] in Fresh(s.idle[k], s.ttl, now);
      var j :| 0 <= j < |Fresh(s.idle[k], s.ttl, now)| && Fresh(s.idle[k], s.ttl, now)[j] == s.idle[k][i];
      assert Holds(swept, k, j, c);
    } else if exists x, j :: Holds(swept, x, j, c) {
      var x, j :| Holds(swept, x, j, c);
      var m := SweptHolds(s.idle, s.ttl, now, x, j, c);
      HeldIsResting(s, x, m, c);
    }
  }

  lemma SweptHolds(idle: Idle, ttl: int, now: int, k: Key, j: int, c: Conn) returns (i: int)
    requires Holds(Swept(idle, ttl, now), k, j, c)
    requires forall x, a, b :: x in idle && 0 <= a < b < |idle[x]| ==> idle[x][a].conn != idle[x][b].conn
    ensures Holds(idle, k, i, c) && now - idle[k][i].since <= ttl
  {
    var f := Fresh(idle[k], ttl, now);
    FreshWithin(idle[k], ttl, now);
    FreshIsRecent(idle[k], ttl, now);
    assert f[j] in idle[k];
    i :| 0 <= i < |idle[k]| && idle[k][i] == f[j];
  }

  /** A connection in a bucket rests there, stamped with the time it was put. */
  lemma HeldIsResting(s: State, k: Key, i: int, c: Conn)
    requires Inv(s) && Holds(s.idle, k, i, c)
    ensures c in s.place && s.place[c] == Resting(k) && c in s.putAt && s.putAt[c] == s.idle[k][i].since
  {
  }

  /** Evicting a source, in vm scope, drops exactly its idle connections; in pod scope
      it drops none. */
  lemma EvictDropsTheSource(shared: bool, ttl: int, cap: nat, steps: seq<Step>, c: Conn, src: string)
    requires LegalRun(Start(shared, ttl, cap), steps)
    ensures var s := Final(Start(shared, ttl, cap), steps);
            c in s.place && s.place[c].Resting? ==>
              && c in s.askedAs
              && (Apply(s, Evict(src)).place[c].Resting? <==> shared || s.askedAs[c].srcIP != src)
  {
    var s := Final(Start(shared, ttl, cap), steps);
    RunKeepsInv(Start(shared, ttl, cap), steps);
    RunKeepsScope(Start(shared, ttl, cap), steps);
    if c in s.place && s.place[c].Resting? && !shared {
      var k := s.place[c].key;
      var i :| Holds(s.idle, k, i, c);
      assert k == s.askedAs[c];
      if k.srcIP != src {
        assert Holds(Evicted(s.idle, src), k, i, c);
      }
    }
  }
}
