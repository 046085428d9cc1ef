/** Rebuilding a tracked session on a fresh server connection, and re-sending the
    requests the old connection swallowed. */
module NineReplay {
  import opened Common
  import opened NineSession
  import opened NineServer

  /** What one exchange may do. A broken connection answers nothing. One that breaks
      may or may not have executed the request. Otherwise the request is executed,
      and the caller sees the reply or, for a reply of another type, a failure. */
  ghost predicate Answered(obliging: bool, before: Server, broken: bool, m: TMsg,
                           after: Server, broken': bool, r: Reply)
  {
    && (broken ==> broken' && after == before)
    && (broken' ==> r.RError? && (after == before || exists refuse: bool :: after == Exec(before, m, refuse).server))
    && (!broken' ==> exists refuse: bool ::
          && (obliging ==> !refuse) && after == Exec(before, m, refuse).server
          && (r == Exec(before, m, refuse).reply || (!obliging && r.RError?)))
    && (obliging && !broken ==> !broken')
  }

  /** An error, or a walk that did not get to its end. */
  predicate Denies(m: TMsg, r: Reply) {
    r.RError? || (m.Tracked? && m.p.Walk? && r.RWalk? && r.nwqid != |m.p.names|)
  }

  /** A connection to a host server. `obliging` ones answer every request they can;
      others may refuse any, answer with the wrong type, or break. */
  class HostConn {
    var server: Server
    var sent: seq<TMsg>   // what the proxy tried to send
    var broken: bool
    var denied: bool      // some request failed or walked part of its names only
    const obliging: bool

    constructor (tree: map<Path, Str>, obliging: bool)
      ensures server == Server(tree, map[]) && sent == [] && !broken && !denied && this.obliging == obliging
    {
      server, sent, broken, denied, this.obliging := Server(tree, map[]), [], false, false, obliging;
    }

    /** roundTrip: one request out, its reply in; every failure reads as RError. */
    method RoundTrip(m: TMsg) returns (r: Reply)
      modifies this
      ensures sent == old(sent) + [m]
      ensures Answered(obliging, old(server), old(broken), m, server, broken, r)
      ensures denied == (old(denied) || Denies(m, r))
    {
      sent := sent + [m];
      if broken {
        denied := true;
        return RError;
      }
      var refuse: bool, garbled: bool, lost: bool, executed: bool := *, *, *, *;
      if obliging {
        refuse, garbled, lost := false, false, false;
      }
      var out := Exec(server, m, refuse);
      if lost {
        broken := true;
        if executed {
          server := out.server;
        }
        denied := true;
        return RError;
      }
      server := out.server;
      r := if garbled then RError else out.reply;
      denied := denied || Denies(m, r);
    }
  }

  /** A success, and any answer of an obliging server, is what the server did. */
  lemma AnsweredExactly(obliging: bool, before: Server, broken: bool, m: TMsg, after: Server, broken': bool, r: Reply)
    requires Answered(obliging, before, broken, m, after, broken', r)
    ensures !r.RError? || (obliging && !broken) ==> !broken' && Outcome(after, r) == Exec(before, m, false)
  {
  }

  /** None of the requests of a replay changes the tree. */
  lemma AnsweredKeepsTree(obliging: bool, before: Server, broken: bool, m: TMsg, after: Server, broken': bool, r: Reply)
    requires Answered(obliging, before, broken, m, after, broken', r)
    requires m.Tracked? && (m.p.Version? || m.p.Attach? || m.p.Walk? || m.p.Clunk? || m.p.Lopen?)
    requires m.p.Lopen? ==> !Bit(m.p.flags, O_TRUNC)
    ensures after.tree == before.tree
  {
    forall refuse: bool ensures Exec(before, m, refuse).server.tree == before.tree {
    }
  }

  lemma ClunkAnswered(obliging: bool, before: Server, broken: bool, fid: u32, after: Server, broken': bool, r: Reply)
    requires Answered(obliging, before, broken, Tracked(Clunk(fid)), after, broken', r)
    ensures !broken' ==> after.fids == before.fids - {fid}
  {
  }

  // ---------- Walking one fid ----------

  /** The messages that take `target` from `src` down `names`: full chunks through
      temporary fids, each released once the next walk has left it. */
  function WalkPlan(root: u32, src: u32, target: u32, tmp: u32, names: Path): seq<TMsg>
    decreases |names|
  {
    if |names| <= MAX_WELEM then
      [Tracked(Walk(src, target, names))] + Release(root, target, src)
    else
      [Tracked(Walk(src, tmp, names[..MAX_WELEM]))] + Release(root, target, src)
      + WalkPlan(root, tmp, target, (tmp + 1) % 0x1_0000_0000, names[MAX_WELEM..])
  }

  function Release(root: u32, target: u32, src: u32): seq<TMsg> {
    if src != root && src != target then [Tracked(Clunk(src))] else []
  }

  /** The names all walks of a plan ask for, in order. */
  function WalkedNames(plan: seq<TMsg>): Path {
    if plan == [] then []
    else (if plan[0].Tracked? && plan[0].p.Walk? then plan[0].p.names else []) + WalkedNames(plan[1..])
  }

  ghost predicate ShortWalks(plan: seq<TMsg>) {
    forall i :: 0 <= i < |plan| && plan[i].Tracked? && plan[i].p.Walk? ==> |plan[i].p.names| <= 16
  }

  /** For any path length: no walk of the plan carries more than 16 names and
      together they carry exactly the path. */
  lemma {:induction false} WalkPlanCoversPath(root: u32, src: u32, target: u32, tmp: u32, names: Path)
    ensures var plan := WalkPlan(root, src, target, tmp, names);
            ShortWalks(plan) && WalkedNames(plan) == names
    decreases |names|
  {
    var release := Release(root, target, src);
    var plan := WalkPlan(root, src, target, tmp, names);
    if |names| <= MAX_WELEM {
      assert plan[1..] == release;
      assert WalkedNames(release) == [];
    } else {
      var next := WalkPlan(root, tmp, target, (tmp + 1) % 0x1_0000_0000, names[MAX_WELEM..]);
      WalkPlanCoversPath(root, tmp, target, (tmp + 1) % 0x1_0000_0000, names[MAX_WELEM..]);
      assert plan[1..] == release + next;
      assert WalkedNames(release + next) == WalkedNames(next) by {
        if release == [] {
          assert release + next == next;
        } else {
          assert (release + next)[1..] == next;
        }
      }
      assert names[..MAX_WELEM] + names[MAX_WELEM..] == names;
    }
  }

  /** A long walk starts through fid 0xFFFF0000, and what it walks through it gives up. */
  lemma PlanInNumbers(root: u32, target: u32, names: Path)
    requires |names| > 16
    ensures WalkPlan(root, root, target, TEMP_FID_BASE, names)[0] == Tracked(Walk(root, 0xFFFF_0000, names[..16]))
    ensures |names| <= 32 && root != 0xFFFF_0000 && target != 0xFFFF_0000 ==>
      WalkPlan(root, root, target, TEMP_FID_BASE, names) ==
      [Tracked(Walk(root, 0xFFFF_0000, names[..16])), Tracked(Walk(0xFFFF_0000, target, names[16..])),
       Tracked(Clunk(0xFFFF_0000))]
  {
  }

  /** The server lets `src` be walked to `dst`. */
  predicate CanWalk(fids: map<u32, ServerFid>, src: u32, dst: u32) {
    src in fids && !fids[src].open && (dst == src || dst !in fids)
  }

  /** The table after one turn: `dst` further down, `src` released if temporary. */
  function Walked(fids: map<u32, ServerFid>, root: u32, target: u32, src: u32, dst: u32, chunk: Path)
    : map<u32, ServerFid>
    requires src in fids
  {
    var there := fids[dst := ServerFid(fids[src].names + chunk, false, 0)];
    if src != root && src != target then there - {src} else there
  }

  /** The root fid has left the root. */
  ghost predicate Drifted(fids: map<u32, ServerFid>, root: u32) { root in fids && fids[root].names != [] }

  /** One turn of replayWalk's loop: walk a chunk, then release the temporary fid
      it started from, whatever the server says to that. */
  method WalkChunk(conn: HostConn, rootFid: u32, target: u32, src: u32, dst: u32, chunk: Path) returns (ok: bool)
    requires |chunk| <= MAX_WELEM
    modifies conn
    ensures !ok ==> conn.denied
    ensures conn.server.tree == old(conn.server.tree) && (old(conn.broken) ==> conn.broken)
    ensures ok ==> CanWalk(old(conn.server.fids), src, dst)
    ensures ok && !conn.broken ==> conn.server.fids == Walked(old(conn.server.fids), rootFid, target, src, dst, chunk)
    ensures ok && !conn.broken && Drifted(old(conn.server.fids), rootFid) ==> Drifted(conn.server.fids, rootFid)
    ensures ok ==> conn.sent == old(conn.sent) + ([Tracked(Walk(src, dst, chunk))] + Release(rootFid, target, src))
    ensures conn.obliging && !old(conn.broken) && CanWalk(old(conn.server.fids), src, dst)
            && TreeOk(conn.server.tree) && old(conn.server.fids[src].names) + chunk in conn.server.tree
            ==> ok && !conn.broken
  {
    ghost var s0, b0 := conn.server, conn.broken;
    if CanWalk(s0.fids, src, dst) && TreeOk(s0.tree) {
      WalkDepthFull(s0.tree, s0.fids[src].names, chunk);
    }
    var r := conn.RoundTrip(Tracked(Walk(src, dst, chunk)));
    AnsweredExactly(conn.obliging, s0, b0, Tracked(Walk(src, dst, chunk)), conn.server, conn.broken, r);
    AnsweredKeepsTree(conn.obliging, s0, b0, Tracked(Walk(src, dst, chunk)), conn.server, conn.broken, r);
    if !r.RWalk? || r.nwqid != |chunk| {
      return false;
    }
    if src != rootFid && src != target {
      ghost var s1 := conn.server;
      var q := conn.RoundTrip(Tracked(Clunk(src)));
      AnsweredKeepsTree(conn.obliging, s1, false, Tracked(Clunk(src)), conn.server, conn.broken, q);
      ClunkAnswered(conn.obliging, s1, false, src, conn.server, conn.broken, q);
    }
    ok := true;
  }

  /** Where a walk starts: the root fid is at the root, and the target is new. */
  ghost predicate Ready(fids0: map<u32, ServerFid>, root: u32, target: u32) {
    root in fids0 && fids0[root] == ServerFid([], false, 0) && target !in fids0
  }

  /** The first temporary fid of a long walk is the root fid itself. */
  predicate MovesRoot(root: u32, names: Path) { root == TEMP_FID_BASE && |names| > MAX_WELEM }

  /** The fids a walk did not mean to touch, after `start` names: a walk that takes the
      root fid for a temporary one leaves it where its first walk ended. */
  function Others(fids0: map<u32, ServerFid>, root: u32, names: Path, start: nat): map<u32, ServerFid> {
    if MovesRoot(root, names) && start >= MAX_WELEM then fids0[root := ServerFid(names[..MAX_WELEM], false, 0)]
    else fids0
  }

  /** What a successful replayWalk leaves. */
  function WalkOutcome(fids0: map<u32, ServerFid>, root: u32, target: u32, names: Path): map<u32, ServerFid> {
    Others(fids0, root, names, |names|)[target := ServerFid(names, false, 0)]
  }

  /** It adds exactly the target, if and only if it did not move the root fid. */
  lemma WalkExactIff(fids0: map<u32, ServerFid>, root: u32, target: u32, names: Path)
    requires Ready(fids0, root, target)
    ensures WalkOutcome(fids0, root, target, names) == fids0[target := ServerFid(names, false, 0)]
            <==> !MovesRoot(root, names)
    ensures MovesRoot(root, names) ==> Drifted(WalkOutcome(fids0, root, target, names), root)
  {
    if MovesRoot(root, names) {
      assert WalkOutcome(fids0, root, target, names)[root].names == names[..MAX_WELEM] != [];
    }
  }

  /** On the way: `src` holds the path so far. */
  ghost predicate Going(fids: map<u32, ServerFid>, fids0: map<u32, ServerFid>, root: u32, names: Path,
                        start: nat, src: u32)
    requires start <= |names|
  {
    && start % MAX_WELEM == 0
    && (if start == 0 || (start == MAX_WELEM && root == TEMP_FID_BASE) then src == root else src !in fids0)
    && fids == Others(fids0, root, names, start)[src := ServerFid(names[..start], false, 0)]
  }

  /** A temporary fid met the target's number: the last walk will be refused. */
  ghost predicate Stuck(fids: map<u32, ServerFid>, root: u32, target: u32, src: u32) {
    target in fids && root in fids && src != target && src != root
  }

  ghost predicate Midway(fids: map<u32, ServerFid>, fids0: map<u32, ServerFid>, root: u32, target: u32, names: Path,
                         start: nat, src: u32)
  {
    if start < |names| then Going(fids, fids0, root, names, start, src) || Stuck(fids, root, target, src)
    else fids == WalkOutcome(fids0, root, target, names)
  }

  function End(names: Path, start: nat): nat {
    if start + MAX_WELEM > |names| then |names| else start + MAX_WELEM
  }

  /** The last turn goes to the target; others go to another fid, unless the first
      finds the root fid in the place of the temporary one. */
  ghost predicate GoesTo(root: u32, target: u32, names: Path, start: nat, src: u32, dst: u32) {
    if End(names, start) == |names| then dst == target
    else if start == 0 && root == TEMP_FID_BASE then src == root && dst == root
    else dst != src
  }

  /** A turn that succeeds stays on the way, gets stuck, or arrives. */
  lemma TurnMidway(fids: map<u32, ServerFid>, fids0: map<u32, ServerFid>, root: u32, target: u32, names: Path,
                   start: nat, src: u32, dst: u32)
    requires start < |names| && Ready(fids0, root, target)
    requires Midway(fids, fids0, root, target, names, start, src)
    requires CanWalk(fids, src, dst) && GoesTo(root, target, names, start, src, dst)
    ensures Midway(Walked(fids, root, target, src, dst, names[start..End(names, start)]), fids0, root, target, names,
                   start + MAX_WELEM, dst)
  {
    if Going(fids, fids0, root, names, start, src) {
      GoingOn(fids, fids0, root, target, names, start, src, dst);
    }
  }

  lemma GoingOn(fids: map<u32, ServerFid>, fids0: map<u32, ServerFid>, root: u32, target: u32, names: Path,
                start: nat, src: u32, dst: u32)
    requires start < |names| && Ready(fids0, root, target) && Going(fids, fids0, root, names, start, src)
    requires CanWalk(fids, src, dst) && GoesTo(root, target, names, start, src, dst)
    ensures var after := Walked(fids, root, target, src, dst, names[start..End(names, start)]);
            && Midway(after, fids0, root, target, names, start + MAX_WELEM, dst)
            && (End(names, start) < |names| && src != target ==>
                  Going(after, fids0, root, names, start + MAX_WELEM, dst))
  {
    var end := End(names, start);
    assert names[..start] + names[start..end] == names[..end];
    assert end == |names| ==> names[..end] == names;
    if start == 0 {
      GoingFirst(fids, fids0, root, target, names, src, dst);
    } else {
      GoingLater(fids, fids0, root, target, names, start, src, dst);
    }
  }

  lemma GoingFirst(fids: map<u32, ServerFid>, fids0: map<u32, ServerFid>, root: u32, target: u32, names: Path,
                   src: u32, dst: u32)
    requires names != [] && Ready(fids0, root, target) && Going(fids, fids0, root, names, 0, src)
    requires CanWalk(fids, src, dst) && GoesTo(root, target, names, 0, src, dst)
    ensures var after := Walked(fids, root, target, src, dst, names[..End(names, 0)]);
            && Midway(after, fids0, root, target, names, MAX_WELEM, dst)
            && (End(names, 0) < |names| ==> Going(after, fids0, root, names, MAX_WELEM, dst))
  {
    assert names[..0] == [] && fids == fids0;
    assert [] + names[..End(names, 0)] == names[..End(names, 0)];
    assert End(names, 0) == |names| ==> names[..End(names, 0)] == names;
  }

  lemma GoingLater(fids: map<u32, ServerFid>, fids0: map<u32, ServerFid>, root: u32, target: u32, names: Path,
                   start: nat, src: u32, dst: u32)
    requires 0 < start < |names| && Ready(fids0, root, target) && Going(fids, fids0, root, names, start, src)
    requires CanWalk(fids, src, dst) && GoesTo(root, target, names, start, src, dst)
    ensures var after := Walked(fids, root, target, src, dst, names[start..End(names, start)]);
            && Midway(after, fids0, root, target, names, start + MAX_WELEM, dst)
            && (End(names, start) < |names| && src != target ==>
                  Going(after, fids0, root, names, start + MAX_WELEM, dst))
  {
    var end := End(names, start);
    assert names[..start] + names[start..end] == names[..end];
    assert end == |names| ==> names[..end] == names;
    assert start >= MAX_WELEM && Others(fids0, root, names, start) == Others(fids0, root, names, |names|);
  }

  function TurnMessages(root: u32, target: u32, names: Path, start: nat, src: u32, dst: u32): seq<TMsg>
    requires start < |names|
  {
    [Tracked(Walk(src, dst, names[start..End(names, start)]))] + Release(root, target, src)
  }

  /** The body of replayWalk's loop. */
  method WalkTurn(conn: HostConn, rootFid: u32, target: u32, names: Path, start: nat, src: u32, tmp: u32,
                  ghost fids0: map<u32, ServerFid>) returns (ok: bool, dst: u32)
    requires start < |names|
    modifies conn
    ensures !ok ==> conn.denied
    ensures conn.server.tree == old(conn.server.tree) && (old(conn.broken) ==> conn.broken)
    ensures dst == if End(names, start) == |names| then target else tmp
    ensures ok ==> conn.sent == old(conn.sent) + TurnMessages(rootFid, target, names, start, src, dst)
    ensures ok && !conn.broken && Ready(fids0, rootFid, target) && GoesTo(rootFid, target, names, start, src, dst)
            && Midway(old(conn.server.fids), fids0, rootFid, target, names, start, src)
            ==> Midway(conn.server.fids, fids0, rootFid, target, names, start + MAX_WELEM, dst)
    ensures ok && !conn.broken && Drifted(old(conn.server.fids), rootFid) ==> Drifted(conn.server.fids, rootFid)
    ensures conn.obliging && !old(conn.broken) && Ready(fids0, rootFid, target) && src != target
            && Going(old(conn.server.fids), fids0, rootFid, names, start, src)
            && CanWalk(old(conn.server.fids), src, dst) && GoesTo(rootFid, target, names, start, src, dst)
            && TreeOk(conn.server.tree) && names in conn.server.tree
            ==> && ok && !conn.broken
                && (start + MAX_WELEM < |names| ==>
                      Going(conn.server.fids, fids0, rootFid, names, start + MAX_WELEM, dst))
  {
    var end := if start + MAX_WELEM > |names| then |names| else start + MAX_WELEM;
    var chunk := names[start..end];
    dst := if end >= |names| then target else tmp;
    ghost var fids := conn.server.fids;
    assert names[..start] + chunk == names[..end];
    ok := WalkChunk(conn, rootFid, target, src, dst, chunk);
    if ok && Ready(fids0, rootFid, target) && GoesTo(rootFid, target, names, start, src, dst) {
      if Midway(fids, fids0, rootFid, target, names, start, src) {
        TurnMidway(fids, fids0, rootFid, target, names, start, src, dst);
      }
      if Going(fids, fids0, rootFid, names, start, src) {
        GoingOn(fids, fids0, rootFid, target, names, start, src, dst);
      }
    }
  }

  /** Temporary fids stay clear of every other fid; the root fid may be the first. */
  ghost predicate Clear(fids0: map<u32, ServerFid>, root: u32, target: u32, names: Path) {
    && target < TEMP_FID_BASE && |names| <= MAX_DEPTH
    && forall f :: f in fids0 ==> f < TEMP_FID_BASE || f == root == TEMP_FID_BASE
  }

  /** Which fids replayWalk's loop stands at, and what it will have sent. */
  ghost predicate OnPlan(root: u32, target: u32, names: Path, start: nat, src: u32, tmp: u32,
                         sent: seq<TMsg>, messages: seq<TMsg>)
  {
    && start % MAX_WELEM == 0
    && if start >= |names| then sent == messages
       else
         && (if start == 0 then src == root && tmp == TEMP_FID_BASE else tmp == (src + 1) % 0x1_0000_0000)
         && messages == sent + WalkPlan(root, src, target, tmp, names[start..])
  }

  lemma PlanAdvances(root: u32, target: u32, names: Path, start: nat, src: u32, tmp: u32,
                     sent: seq<TMsg>, messages: seq<TMsg>, dst: u32)
    requires start < |names| && OnPlan(root, target, names, start, src, tmp, sent, messages)
    requires dst == if End(names, start) == |names| then target else tmp
    ensures OnPlan(root, target, names, start + MAX_WELEM, dst, (tmp + 1) % 0x1_0000_0000,
                   sent + TurnMessages(root, target, names, start, src, dst), messages)
  {
    var end, turn := End(names, start), TurnMessages(root, target, names, start, src, dst);
    PlanUnfolds(root, src, target, tmp, names, start);
    if end == |names| {
      assert turn + [] == turn;
    } else {
      assert end == start + MAX_WELEM;
      Regroup(sent, turn, WalkPlan(root, tmp, target, (tmp + 1) % 0x1_0000_0000, names[end..]));
    }
  }

  lemma Regroup(a: seq<TMsg>, b: seq<TMsg>, c: seq<TMsg>)
    ensures a + (b + c) == (a + b) + c
  {
  }

  /** With nothing in the way: on the way, on the temporary fid of this turn. */
  ghost predicate Smooth(fids: map<u32, ServerFid>, fids0: map<u32, ServerFid>, root: u32, target: u32, names: Path,
                         start: nat, src: u32, tmp: u32)
  {
    start < |names| ==>
      && Going(fids, fids0, root, names, start, src) && src != target
      && tmp == TEMP_FID_BASE + start / MAX_WELEM
  }

  /** replayWalk: root to `names` into `target`, at most 16 names at a time. Whatever
      the fid numbers, success means the target was added and nothing else changed,
      except that a long walk moves a root fid it takes for a temporary one. Success
      is certain where nothing is refused, the path exists and temporary fids are
      free. */
  method ReplayWalk(conn: HostConn, rootFid: u32, target: u32, names: Path) returns (ok: bool)
    modifies conn
    ensures !ok ==> conn.denied
    ensures conn.server.tree == old(conn.server.tree) && (old(conn.broken) ==> conn.broken)
    ensures ok && !conn.broken && Ready(old(conn.server.fids), rootFid, target)
            ==> conn.server.fids == WalkOutcome(old(conn.server.fids), rootFid, target, names)
    ensures ok && !conn.broken && Drifted(old(conn.server.fids), rootFid) ==> Drifted(conn.server.fids, rootFid)
    ensures ok ==> conn.sent == old(conn.sent) + WalkPlan(rootFid, rootFid, target, TEMP_FID_BASE, names)
    ensures conn.obliging && !old(conn.broken) && Ready(old(conn.server.fids), rootFid, target)
            && Clear(old(conn.server.fids), rootFid, target, names)
            && TreeOk(conn.server.tree) && names in conn.server.tree
            ==> ok && !conn.broken
  {
    if |names| == 0 {
      assert [] + names == names;
      ok := WalkChunk(conn, rootFid, target, rootFid, target, names);
      return;
    }
    var src: u32 := rootFid;
    var tmp: u32 := TEMP_FID_BASE;
    var start := 0;
    ghost var fids0: map<u32, ServerFid> := conn.server.fids;
    ghost var messages := conn.sent + WalkPlan(rootFid, rootFid, target, TEMP_FID_BASE, names);
    ghost var sure := conn.obliging && !conn.broken && Ready(fids0, rootFid, target)
                      && Clear(fids0, rootFid, target, names) && TreeOk(conn.server.tree) && names in conn.server.tree;
    StartGoing(fids0, rootFid, target, names);
    assert names[0..] == names;
    while start < |names|
      invariant OnPlan(rootFid, target, names, start, src, tmp, conn.sent, messages)
      invariant conn.server.tree == old(conn.server.tree) && (old(conn.broken) ==> conn.broken)
      invariant Ready(fids0, rootFid, target) && !conn.broken
                ==> Midway(conn.server.fids, fids0, rootFid, target, names, start, src)
      invariant Drifted(fids0, rootFid) && !conn.broken ==> Drifted(conn.server.fids, rootFid)
      invariant sure ==> !conn.broken && Smooth(conn.server.fids, fids0, rootFid, target, names, start, src, tmp)
    {
      ghost var fids, sent := conn.server.fids, conn.sent;
      var dst;
      ok, dst := WalkTurn(conn, rootFid, target, names, start, src, tmp, fids0);
      StepAside(fids, fids0, rootFid, target, names, start, src, tmp, dst, sent, messages);
      if !ok {
        return;
      }
      PlanAdvances(rootFid, target, names, start, src, tmp, sent, messages, dst);
      src := dst;
      tmp := (tmp + 1) % 0x1_0000_0000;
      start := start + MAX_WELEM;
    }
    ok := true;
  }

  lemma StartGoing(fids0: map<u32, ServerFid>, root: u32, target: u32, names: Path)
    ensures Ready(fids0, root, target) && names != [] ==> Going(fids0, fids0, root, names, 0, root)
  {
    if Ready(fids0, root, target) {
      assert names[..0] == [] && fids0[root := ServerFid([], false, 0)] == fids0;
    }
  }

  /** Every turn goes where it should, and a clear run of temporary fids continues. */
  lemma StepAside(fids: map<u32, ServerFid>, fids0: map<u32, ServerFid>, root: u32, target: u32, names: Path,
                  start: nat, src: u32, tmp: u32, dst: u32, sent: seq<TMsg>, messages: seq<TMsg>)
    requires start < |names| && OnPlan(root, target, names, start, src, tmp, sent, messages)
    requires dst == if End(names, start) == |names| then target else tmp
    ensures GoesTo(root, target, names, start, src, dst)
    ensures Ready(fids0, root, target) && Clear(fids0, root, target, names)
            && Smooth(fids, fids0, root, target, names, start, src, tmp) ==>
      && CanWalk(fids, src, dst)
      && (End(names, start) < |names| ==>
            dst != target && (tmp + 1) % 0x1_0000_0000 == TEMP_FID_BASE + (start + MAX_WELEM) / MAX_WELEM)
  {
    assert (start + MAX_WELEM) / MAX_WELEM == start / MAX_WELEM + 1;
    if Ready(fids0, root, target) && Smooth(fids, fids0, root, target, names, start, src, tmp) {
      assert fids.Keys == fids0.Keys + {src};
    }
  }

  lemma PlanUnfolds(root: u32, src: u32, target: u32, tmp: u32, names: Path, start: nat)
    requires start < |names|
    ensures var end := End(names, start);
      WalkPlan(root, src, target, tmp, names[start..]) ==
      TurnMessages(root, target, names, start, src, if end == |names| then target else tmp)
      + (if end == |names| then [] else WalkPlan(root, tmp, target, (tmp + 1) % 0x1_0000_0000, names[end..]))
  {
    var rest, end := names[start..], End(names, start);
    if end == |names| {
      assert names[start..end] == rest;
    } else {
      assert rest[..MAX_WELEM] == names[start..end];
      assert rest[MAX_WELEM..] == names[end..];
    }
  }

  // ---------- Replaying the whole session ----------

  /** What a replay needs of a session to make sense: flags only on open fids, and one
      root fid, which is still at the root. */
  ghost predicate Restorable(t: Tracker) {
    forall f :: f in t.fids ==>
      && (!t.fids[f].open ==> t.fids[f].flags == 0)
      && (t.fids[f].root <==> t.haveAttach && f == t.rootFid)
      && (t.fids[f].root ==> t.fids[f].names == [])
  }

  /** Some fid of `walked` is on a path whose walk moves the root fid. */
  ghost predicate RootMoved(t: Tracker, walked: set<u32>) {
    exists f :: f in walked && f in t.fids && MovesRoot(t.rootFid, t.fids[f].names)
  }

  lemma RootMovedMore(t: Tracker, walked: set<u32>, fid: u32)
    requires fid in t.fids
    ensures RootMoved(t, walked + {fid}) <==> RootMoved(t, walked) || MovesRoot(t.rootFid, t.fids[fid].names)
  {
    if RootMoved(t, walked) {
      var f :| f in walked && f in t.fids && MovesRoot(t.rootFid, t.fids[f].names);
      assert f in walked + {fid};
    }
    if MovesRoot(t.rootFid, t.fids[fid].names) {
      assert fid in walked + {fid};
    }
  }

  /** Where the server is after walking the fids of `walked`. */
  ghost predicate WalkedSoFar(t: Tracker, fids: map<u32, ServerFid>, walked: set<u32>)
    requires walked <= t.fids.Keys
  {
    if RootMoved(t, walked) then Drifted(fids, t.rootFid) else fids == Stage(t, walked, {})
  }

  /** What the sessions of v9fs satisfy besides: fids below the temporary range, and
      paths that the temporary fids can carry. */
  ghost predicate Replayable(t: Tracker) {
    && Restorable(t)
    && (t.haveAttach ==> t.rootFid < TEMP_FID_BASE)
    && forall f :: f in t.fids ==> f < TEMP_FID_BASE && |t.fids[f].names| <= MAX_DEPTH
  }

  ghost predicate PathsExist(fids: map<u32, FidState>, tree: map<Path, Str>) {
    TreeOk(tree) && forall f :: f in fids ==> fids[f].names in tree
  }

  /** The tracked table as a server holds it, creation flags stripped. */
  function StripTable(fids: map<u32, FidState>): map<u32, ServerFid> {
    map f | f in fids :: ServerFid(fids[f].names, fids[f].open, Strip(fids[f].flags))
  }

  /** What Replay leaves on the server: the tracked table, and the root fid
      whether or not it is still tracked. */
  function Rebuilt(t: Tracker): map<u32, ServerFid> {
    if t.rootFid in t.fids then StripTable(t.fids)
    else StripTable(t.fids)[t.rootFid := ServerFid([], false, 0)]
  }

  /** The table part-way through Replay: fids in `walked` exist, those also in
      `reopened` are open if the session has them open. */
  ghost function Stage(t: Tracker, walked: set<u32>, reopened: set<u32>): map<u32, ServerFid>
    requires walked <= t.fids.Keys
  {
    map f | f in walked + {t.rootFid} ::
      if f !in t.fids then ServerFid([], false, 0)
      else if f in reopened && t.fids[f].open then ServerFid(t.fids[f].names, true, Strip(t.fids[f].flags))
      else ServerFid(t.fids[f].names, false, 0)
  }

  lemma LastStageIsRebuilt(t: Tracker)
    requires Restorable(t) && t.haveAttach
    ensures Stage(t, t.fids.Keys - {t.rootFid}, t.fids.Keys) == Rebuilt(t)
  {
  }

  /** Replay rebuilds exactly the tracked table if and only if the root fid is
      still live: a session whose root fid was clunked comes back with it. */
  lemma RebuiltExactIffRootLive(t: Tracker)
    ensures SameTable(Rebuilt(t), Table(t.fids)) <==> t.rootFid in t.fids
  {
    forall f | f in t.fids
      ensures Strip(Strip(t.fids[f].flags)) == Strip(t.fids[f].flags)
    {
      StripClears(t.fids[f].flags);
    }
    assert Table(t.fids).Keys == t.fids.Keys == StripTable(t.fids).Keys;
    assert t.rootFid in Rebuilt(t);
  }

  lemma {:induction false} ListExists(fids: set<u32>) returns (order: seq<u32>)
    ensures Lists(order, fids)
    decreases fids
  {
    if fids == {} {
      order := [];
    } else {
      var rank: map<u32, int> := map f | f in fids :: f as int;
      var least: u32 := HasLeast(fids, rank);
      var rest := ListExists(fids - {least});
      order := [least] + rest;
      assert forall i :: 0 <= i < |rest| ==> rest[i] in rest && rest[i] in fids - {least};
    }
  }

  /** sortedFids: the fids in increasing order. */
  method SortedFids(fids: set<u32>) returns (out: seq<u32>)
    ensures forall f :: f in out <==> f in fids
    ensures StrictlyIncreasing(out)
  {
    out := SortKeys(fids, map f | f in fids :: f as int);
  }

  /** The messages that re-walk one fid from the root. */
  function WalkOf(t: Tracker, fid: u32): seq<TMsg> {
    WalkPlan(t.rootFid, t.rootFid, fid, TEMP_FID_BASE, if fid in t.fids then t.fids[fid].names else [])
  }

  /** The message that re-opens a fid, if it is open. */
  function OpenOf(t: Tracker, fid: u32): seq<TMsg> {
    if fid in t.fids && t.fids[fid].open then [Tracked(Lopen(fid, Strip(t.fids[fid].flags)))] else []
  }

  /** One fid after the other. */
  function WalkPlans(t: Tracker, order: seq<u32>): seq<TMsg> {
    if order == [] then [] else WalkPlans(t, order[..|order| - 1]) + WalkOf(t, order[|order| - 1])
  }

  function OpenPlans(t: Tracker, order: seq<u32>): seq<TMsg> {
    if order == [] then [] else OpenPlans(t, order[..|order| - 1]) + OpenOf(t, order[|order| - 1])
  }

  /** `order` lists the fids of `fids`, each once, lowest first. */
  ghost predicate Lists(order: seq<u32>, fids: set<u32>) {
    StrictlyIncreasing(order) && forall f: u32 :: f in order <==> f in fids
  }

  /** Nothing stands in the way of a replay over this connection. */
  ghost predicate Sure(t: Tracker, obliging: bool, broken: bool, tree: map<Path, Str>) {
    t.haveAttach && Replayable(t) && obliging && !broken && PathsExist(t.fids, tree)
  }

  /** Replay: version, attach, then every live fid re-walked and re-opened under its
      own number. On success the negotiated version and the original attach were
      sent first and the server, unless the connection broke meanwhile, holds exactly
      the rebuilt table (so no temporary fid is left); the tree never changes. A
      server that refuses nothing and still has the paths lets it succeed. */
  method Replay(s: Session, conn: HostConn) returns (ok: bool, ghost walks: seq<u32>, ghost opens: seq<u32>)
    modifies conn
    ensures !ok ==> !s.haveAttach || conn.denied
    ensures conn.server.tree == old(conn.server.tree)
    ensures ok && !conn.broken && Restorable(s.State()) ==>
      (conn.server.fids == Rebuilt(s.State()) <==> !RootMoved(s.State(), s.fids.Keys))
    ensures Lists(walks, set f | f in s.fids && !s.fids[f].root) && Lists(opens, s.fids.Keys)
    ensures ok ==> conn.sent == old(conn.sent) + [Tracked(VersionOf(s.State())), Tracked(AttachOf(s.State()))]
                                + WalkPlans(s.State(), walks) + OpenPlans(s.State(), opens)
    ensures !s.haveAttach ==> !ok && conn.sent == old(conn.sent) && conn.server == old(conn.server)
    ensures Sure(s.State(), conn.obliging, old(conn.broken), conn.server.tree) ==> ok && !conn.broken
  {
    walks := ListExists(set f | f in s.fids && !s.fids[f].root);
    opens := ListExists(s.fids.Keys);
    if !s.haveAttach {
      return false, walks, opens;
    }
    ghost var t, sure := s.State(), Sure(s.State(), conn.obliging, conn.broken, conn.server.tree);
    ok := Handshake(s, conn);
    if !ok {
      return;
    }
    ok, walks := ReplayWalks(s, conn);
    if !ok {
      return;
    }
    ok, opens := ReplayOpens(s, conn);
    if Restorable(t) {
      LastStageIsRebuilt(t);
      RootNotWalked(t);
    }
  }

  /** The root fid itself is on no long path, and where it is rebuilt it is at the root. */
  lemma RootNotWalked(t: Tracker)
    requires Restorable(t) && t.haveAttach
    ensures RootMoved(t, t.fids.Keys - {t.rootFid}) <==> RootMoved(t, t.fids.Keys)
    ensures !Drifted(Rebuilt(t), t.rootFid)
  {
    if RootMoved(t, t.fids.Keys) {
      var f :| f in t.fids && MovesRoot(t.rootFid, t.fids[f].names);
      assert f in t.fids.Keys - {t.rootFid};
    }
  }

  /** The first two requests of Replay. */
  method Handshake(s: Session, conn: HostConn) returns (ok: bool)
    requires s.haveAttach
    modifies conn
    ensures !ok ==> conn.denied
    ensures conn.server.tree == old(conn.server.tree) && (old(conn.broken) ==> conn.broken)
    ensures ok ==> conn.server.fids == Stage(s.State(), {}, {}) || !Restorable(s.State())
    ensures ok ==> conn.sent == old(conn.sent) + [Tracked(VersionOf(s.State())), Tracked(AttachOf(s.State()))]
    ensures conn.obliging && !old(conn.broken) ==> ok && !conn.broken
  {
    ghost var s0, b0 := conn.server, conn.broken;
    var r := conn.RoundTrip(Tracked(Version(s.msize, s.version)));
    AnsweredExactly(conn.obliging, s0, b0, Tracked(VersionOf(s.State())), conn.server, conn.broken, r);
    AnsweredKeepsTree(conn.obliging, s0, b0, Tracked(VersionOf(s.State())), conn.server, conn.broken, r);
    if r.RError? {
      return false;
    }
    ghost var s1 := conn.server;
    r := conn.RoundTrip(Tracked(Attach(s.rootFid, s.afid, s.uname, s.aname, s.nUname)));
    AnsweredExactly(conn.obliging, s1, false, Tracked(AttachOf(s.State())), conn.server, conn.broken, r);
    AnsweredKeepsTree(conn.obliging, s1, false, Tracked(AttachOf(s.State())), conn.server, conn.broken, r);
    ok := !r.RError?;
  }

  /** Re-walking one fid. */
  method Rewalk(s: Session, conn: HostConn, fid: u32, ghost walked: set<u32>) returns (ok: bool)
    requires fid in s.fids && !s.fids[fid].root && fid !in walked && walked <= s.fids.Keys && s.haveAttach
    modifies conn
    ensures !ok ==> conn.denied
    ensures conn.server.tree == old(conn.server.tree) && (old(conn.broken) ==> conn.broken)
    ensures ok ==> conn.sent == old(conn.sent) + WalkOf(s.State(), fid)
    ensures ok && !conn.broken && Restorable(s.State()) && WalkedSoFar(s.State(), old(conn.server.fids), walked)
            ==> WalkedSoFar(s.State(), conn.server.fids, walked + {fid})
    ensures Sure(s.State(), conn.obliging, old(conn.broken), conn.server.tree)
            && old(conn.server.fids) == Stage(s.State(), walked, {})
            ==> ok && !conn.broken
  {
    ghost var t, fids0 := s.State(), conn.server.fids;
    RootMovedMore(t, walked, fid);
    if Restorable(t) && fids0 == Stage(t, walked, {}) {
      RewalkReady(t, walked, fid);
      WalkExactIff(fids0, t.rootFid, fid, t.fids[fid].names);
    }
    ok := ReplayWalk(conn, s.rootFid, fid, s.fids[fid].names);
  }

  /** One turn of the first loop of Replay. */
  method WalkNext(s: Session, conn: HostConn, order: seq<u32>, i: nat) returns (ok: bool)
    requires i < |order| && s.haveAttach && StrictlyIncreasing(order)
    requires forall f :: f in order ==> f in s.fids && !s.fids[f].root
    modifies conn
    ensures !ok ==> conn.denied
    ensures conn.server.tree == old(conn.server.tree) && (old(conn.broken) ==> conn.broken)
    ensures ok ==> conn.sent == old(conn.sent) + WalkOf(s.State(), order[i])
    ensures ok && !conn.broken && Restorable(s.State()) && Came(s.State(), old(conn.server.fids), order, i)
            ==> Came(s.State(), conn.server.fids, order, i + 1)
    ensures Sure(s.State(), conn.obliging, old(conn.broken), conn.server.tree)
            && Came(s.State(), old(conn.server.fids), order, i)
            ==> ok && !conn.broken
  {
    assert order[i] in order;
    DoneNext(order, i);
    NotMoved(s.State(), Done(order, i));
    ok := Rewalk(s, conn, order[i], Done(order, i));
  }

  /** Where the first loop is after `i` turns. */
  ghost predicate Came(t: Tracker, fids: map<u32, ServerFid>, order: seq<u32>, i: nat) {
    i <= |order| && Done(order, i) <= t.fids.Keys && WalkedSoFar(t, fids, Done(order, i))
  }

  lemma NotMoved(t: Tracker, walked: set<u32>)
    ensures Replayable(t) && t.haveAttach ==> !RootMoved(t, walked)
  {
  }

  lemma RewalkReady(t: Tracker, walked: set<u32>, fid: u32)
    requires Restorable(t) && t.haveAttach && walked <= t.fids.Keys
    requires fid in t.fids && !t.fids[fid].root && fid !in walked
    ensures var stage := Stage(t, walked, {});
            && Ready(stage, t.rootFid, fid)
            && stage[fid := ServerFid(t.fids[fid].names, false, 0)] == Stage(t, walked + {fid}, {})
            && (Replayable(t) ==> Clear(stage, t.rootFid, fid, t.fids[fid].names))
  {
  }

  /** The first loop of Replay: every fid but the root, in increasing order. */
  method ReplayWalks(s: Session, conn: HostConn) returns (ok: bool, ghost order: seq<u32>)
    requires s.haveAttach
    modifies conn
    ensures !ok ==> conn.denied
    ensures conn.server.tree == old(conn.server.tree) && (old(conn.broken) ==> conn.broken)
    ensures Lists(order, set f | f in s.fids && !s.fids[f].root)
    ensures ok ==> conn.sent == old(conn.sent) + WalkPlans(s.State(), order)
    ensures ok && !conn.broken && Restorable(s.State()) && old(conn.server.fids) == Stage(s.State(), {}, {})
            ==> WalkedSoFar(s.State(), conn.server.fids, s.fids.Keys - {s.rootFid})
    ensures Sure(s.State(), conn.obliging, old(conn.broken), conn.server.tree)
            && old(conn.server.fids) == Stage(s.State(), {}, {})
            ==> ok && !conn.broken
  {
    var fidNums := SortedFids(set f | f in s.fids && !s.fids[f].root);
    order := fidNums;
    StartedAndDone(s.State(), conn.server.fids, order);
    ok := WalkAll(s, conn, fidNums);
    StartedAndDone(s.State(), conn.server.fids, order);
  }

  method WalkAll(s: Session, conn: HostConn, order: seq<u32>) returns (ok: bool)
    requires s.haveAttach && StrictlyIncreasing(order)
    requires forall f :: f in order ==> f in s.fids && !s.fids[f].root
    modifies conn
    ensures !ok ==> conn.denied
    ensures conn.server.tree == old(conn.server.tree) && (old(conn.broken) ==> conn.broken)
    ensures ok ==> conn.sent == old(conn.sent) + WalkPlans(s.State(), order)
    ensures ok && !conn.broken && Restorable(s.State()) && Came(s.State(), old(conn.server.fids), order, 0)
            ==> Came(s.State(), conn.server.fids, order, |order|)
    ensures Sure(s.State(), conn.obliging, old(conn.broken), conn.server.tree)
            && Came(s.State(), old(conn.server.fids), order, 0)
            ==> ok && !conn.broken
  {
    ghost var came := Restorable(s.State()) && Came(s.State(), conn.server.fids, order, 0);
    ghost var sure := came && Sure(s.State(), conn.obliging, conn.broken, conn.server.tree);
    var i := 0;
    while i < |order|
      invariant 0 <= i <= |order|
      invariant conn.server.tree == old(conn.server.tree) && (old(conn.broken) ==> conn.broken)
      invariant conn.sent == old(conn.sent) + WalkPlans(s.State(), order[..i])
      invariant came && !conn.broken ==> Came(s.State(), conn.server.fids, order, i)
      invariant sure ==> !conn.broken
    {
      WalkSent(old(conn.sent), s.State(), order, i);
      ok := WalkNext(s, conn, order, i);
      if !ok {
        return;
      }
      i := i + 1;
    }
    assert order[..|order|] == order;
    ok := true;
  }

  /** The ends of the first loop. */
  lemma StartedAndDone(t: Tracker, fids: map<u32, ServerFid>, order: seq<u32>)
    requires t.haveAttach && Lists(order, set f | f in t.fids && !t.fids[f].root)
    ensures fids == Stage(t, {}, {}) ==> Came(t, fids, order, 0)
    ensures Restorable(t) && Came(t, fids, order, |order|) ==> WalkedSoFar(t, fids, t.fids.Keys - {t.rootFid})
  {
    assert Done(order, 0) == {};
    assert order[..|order|] == order;
    if Restorable(t) {
      assert Done(order, |order|) == t.fids.Keys - {t.rootFid};
    }
  }

  /** The fids of the first `i` turns. */
  ghost function Done(order: seq<u32>, i: nat): set<u32>
    requires i <= |order|
  {
    set f: u32 | f in order[..i]
  }

  lemma DoneNext(order: seq<u32>, i: nat)
    requires i < |order| && StrictlyIncreasing(order)
    ensures Done(order, i + 1) == Done(order, i) + {order[i]} && order[i] !in Done(order, i)
  {
    assert order[..i + 1] == order[..i] + [order[i]];
  }

  lemma WalkSent(base: seq<TMsg>, t: Tracker, order: seq<u32>, i: nat)
    requires i < |order|
    ensures (base + WalkPlans(t, order[..i])) + WalkOf(t, order[i]) == base + WalkPlans(t, order[..i + 1])
  {
    assert order[..i + 1][..i] == order[..i];
    Regroup(base, WalkPlans(t, order[..i]), WalkOf(t, order[i]));
  }

  lemma OpenSent(base: seq<TMsg>, t: Tracker, order: seq<u32>, i: nat)
    requires i < |order|
    ensures (base + OpenPlans(t, order[..i])) + OpenOf(t, order[i]) == base + OpenPlans(t, order[..i + 1])
  {
    assert order[..i + 1][..i] == order[..i];
    Regroup(base, OpenPlans(t, order[..i]), OpenOf(t, order[i]));
  }

  /** Re-opening one fid, without the flags that would re-create or truncate it. */
  method Reopen(s: Session, conn: HostConn, fid: u32, ghost walked: set<u32>, ghost reopened: set<u32>)
    returns (ok: bool)
    requires fid in s.fids && fid in walked + {s.rootFid} && fid !in reopened && walked <= s.fids.Keys
    modifies conn
    ensures !ok ==> conn.denied
    ensures conn.server.tree == old(conn.server.tree) && (old(conn.broken) ==> conn.broken)
    ensures ok ==> conn.sent == old(conn.sent) + OpenOf(s.State(), fid)
    ensures ok && !conn.broken && Drifted(old(conn.server.fids), s.rootFid) ==> Drifted(conn.server.fids, s.rootFid)
    ensures ok && !conn.broken && old(conn.server.fids) == Stage(s.State(), walked, reopened)
            ==> conn.server.fids == Stage(s.State(), walked, reopened + {fid})
    ensures conn.obliging && !old(conn.broken) && s.fids[fid].names in conn.server.tree
            && old(conn.server.fids) == Stage(s.State(), walked, reopened)
            ==> ok && !conn.broken
  {
    if !s.fids[fid].open {
      return true;
    }
    StripClears(s.fids[fid].flags);
    ghost var s0, b0, m := conn.server, conn.broken, Tracked(Lopen(fid, Strip(s.fids[fid].flags)));
    var r := conn.RoundTrip(Tracked(Lopen(fid, Strip(s.fids[fid].flags))));
    AnsweredExactly(conn.obliging, s0, b0, m, conn.server, conn.broken, r);
    AnsweredKeepsTree(conn.obliging, s0, b0, m, conn.server, conn.broken, r);
    ok := !r.RError?;
  }

  /** One turn of the second loop of Replay. */
  method OpenNext(s: Session, conn: HostConn, order: seq<u32>, i: nat) returns (ok: bool)
    requires i < |order| && StrictlyIncreasing(order) && forall f :: f in order ==> f in s.fids
    modifies conn
    ensures !ok ==> conn.denied
    ensures conn.server.tree == old(conn.server.tree) && (old(conn.broken) ==> conn.broken)
    ensures ok ==> conn.sent == old(conn.sent) + OpenOf(s.State(), order[i])
    ensures ok && !conn.broken && Drifted(old(conn.server.fids), s.rootFid) ==> Drifted(conn.server.fids, s.rootFid)
    ensures ok && !conn.broken && Opened(s.State(), old(conn.server.fids), order, i)
            ==> Opened(s.State(), conn.server.fids, order, i + 1)
    ensures conn.obliging && !old(conn.broken) && PathsExist(s.fids, conn.server.tree)
            && Opened(s.State(), old(conn.server.fids), order, i)
            ==> ok && !conn.broken
  {
    assert order[i] in order;
    DoneNext(order, i);
    ok := Reopen(s, conn, order[i], s.fids.Keys - {s.rootFid}, Done(order, i));
  }

  /** Where the second loop is after `i` turns. */
  ghost predicate Opened(t: Tracker, fids: map<u32, ServerFid>, order: seq<u32>, i: nat) {
    i <= |order| && fids == Stage(t, t.fids.Keys - {t.rootFid}, Done(order, i))
  }

  /** The second loop of Replay: every open fid, the root included. */
  method ReplayOpens(s: Session, conn: HostConn) returns (ok: bool, ghost order: seq<u32>)
    modifies conn
    ensures !ok ==> conn.denied
    ensures conn.server.tree == old(conn.server.tree) && (old(conn.broken) ==> conn.broken)
    ensures Lists(order, s.fids.Keys)
    ensures ok ==> conn.sent == old(conn.sent) + OpenPlans(s.State(), order)
    ensures ok && !conn.broken && Drifted(old(conn.server.fids), s.rootFid) ==> Drifted(conn.server.fids, s.rootFid)
    ensures ok && !conn.broken && old(conn.server.fids) == Stage(s.State(), s.fids.Keys - {s.rootFid}, {})
            ==> conn.server.fids == Stage(s.State(), s.fids.Keys - {s.rootFid}, s.fids.Keys)
    ensures conn.obliging && !old(conn.broken) && PathsExist(s.fids, conn.server.tree)
            && old(conn.server.fids) == Stage(s.State(), s.fids.Keys - {s.rootFid}, {})
            ==> ok && !conn.broken
  {
    var fidNums := SortedFids(s.fids.Keys);
    order := fidNums;
    OpenedEnds(s.State(), conn.server.fids, order);
    ok := OpenAll(s, conn, fidNums);
    OpenedEnds(s.State(), conn.server.fids, order);
  }

  method OpenAll(s: Session, conn: HostConn, order: seq<u32>) returns (ok: bool)
    requires StrictlyIncreasing(order) && forall f :: f in order ==> f in s.fids
    modifies conn
    ensures !ok ==> conn.denied
    ensures conn.server.tree == old(conn.server.tree) && (old(conn.broken) ==> conn.broken)
    ensures ok ==> conn.sent == old(conn.sent) + OpenPlans(s.State(), order)
    ensures ok && !conn.broken && Drifted(old(conn.server.fids), s.rootFid) ==> Drifted(conn.server.fids, s.rootFid)
    ensures ok && !conn.broken && Opened(s.State(), old(conn.server.fids), order, 0)
            ==> Opened(s.State(), conn.server.fids, order, |order|)
    ensures conn.obliging && !old(conn.broken) && PathsExist(s.fids, conn.server.tree)
            && Opened(s.State(), old(conn.server.fids), order, 0)
            ==> ok && !conn.broken
  {
    ghost var sound := Opened(s.State(), conn.server.fids, order, 0);
    ghost var sure := sound && conn.obliging && !conn.broken && PathsExist(s.fids, conn.server.tree);
    var i := 0;
    while i < |order|
      invariant 0 <= i <= |order|
      invariant conn.server.tree == old(conn.server.tree) && (old(conn.broken) ==> conn.broken)
      invariant conn.sent == old(conn.sent) + OpenPlans(s.State(), order[..i])
      invariant Drifted(old(conn.server.fids), s.rootFid) && !conn.broken ==> Drifted(conn.server.fids, s.rootFid)
      invariant sound && !conn.broken ==> Opened(s.State(), conn.server.fids, order, i)
      invariant sure ==> !conn.broken
    {
      OpenSent(old(conn.sent), s.State(), order, i);
      ok := OpenNext(s, conn, order, i);
      if !ok {
        return;
      }
      i := i + 1;
    }
    assert order[..|order|] == order;
    ok := true;
  }

  /** The ends of the second loop. */
  lemma OpenedEnds(t: Tracker, fids: map<u32, ServerFid>, order: seq<u32>)
    requires Lists(order, t.fids.Keys)
    ensures Opened(t, fids, order, 0) <==> fids == Stage(t, t.fids.Keys - {t.rootFid}, {})
    ensures Opened(t, fids, order, |order|) <==> fids == Stage(t, t.fids.Keys - {t.rootFid}, t.fids.Keys)
  {
    assert Done(order, 0) == {};
    assert order[..|order|] == order && Done(order, |order|) == t.fids.Keys;
  }

  // ---------- Re-sending what was lost ----------

  ghost function SendRank(o: map<u16, Outstanding>): map<u16, int> {
    map t | t in o :: o[t].order
  }

  /** `tags` lists every unanswered request once, in send order. */
  ghost predicate InSendOrder(o: map<u16, Outstanding>, tags: seq<u16>) {
    Ranked(tags, o.Keys, SendRank(o))
  }

  /** The write side of a connection; a write may fail at any point, unless the
      connection is obliging. */
  class Writer {
    var written: seq<seq<byte>>
    var failed: bool
    const obliging: bool

    constructor (obliging: bool)
      ensures written == [] && !failed && this.obliging == obliging
    {
      written, failed, this.obliging := [], false, obliging;
    }

    method Write(raw: seq<byte>) returns (ok: bool)
      modifies this
      ensures written == if ok then old(written) + [raw] else old(written)
      ensures failed == (old(failed) || !ok) && (obliging ==> ok)
    {
      ok := *;
      if obliging {
        ok := true;
      }
      if ok {
        written := written + [raw];
      } else {
        failed := true;
      }
    }
  }

  function Raws(o: map<u16, Outstanding>, tags: seq<u16>): seq<seq<byte>>
    requires forall i :: 0 <= i < |tags| ==> tags[i] in o
  {
    seq(|tags|, i requires 0 <= i < |tags| => o[tags[i]].raw)
  }

  lemma RawsNext(o: map<u16, Outstanding>, tags: seq<u16>, i: nat)
    requires i < |tags| && forall k :: 0 <= k < |tags| ==> tags[k] in o
    ensures Raws(o, tags)[..i + 1] == Raws(o, tags)[..i] + [o[tags[i]].raw]
  {
  }

  /** ResendOutstanding: on success every unanswered request has been written,
      once and in the order the kernel sent them; on failure a prefix of them. */
  method ResendOutstanding(s: Session, w: Writer) returns (ok: bool, ghost tags: seq<u16>)
    requires TrackerOk(s.State())
    modifies w
    ensures InSendOrder(s.outstanding, tags)
    ensures forall i :: 0 <= i < |tags| ==> tags[i] in s.outstanding
    ensures ok ==> w.written == old(w.written) + Raws(s.outstanding, tags)
    ensures w.written <= old(w.written) + Raws(s.outstanding, tags)
    ensures (w.obliging ==> ok) && (!ok ==> w.failed)
  {
    var sorted := SortedTags(s.outstanding);
    tags := sorted;
    assert forall i :: 0 <= i < |sorted| ==> sorted[i] in s.outstanding;
    var i := 0;
    ghost var all := Raws(s.outstanding, tags);
    while i < |sorted|
      invariant 0 <= i <= |sorted|
      invariant w.written == old(w.written) + all[..i]
    {
      ok := w.Write(s.outstanding[sorted[i]].raw);
      if !ok {
        return;
      }
      RawsNext(s.outstanding, sorted, i);
      i := i + 1;
    }
    ok := true;
  }

  method SortedTags(o: map<u16, Outstanding>) returns (tags: seq<u16>)
    requires forall a, b :: a in o && b in o && a != b ==> o[a].order != o[b].order
    ensures InSendOrder(o, tags)
  {
    tags := SortKeys(o.Keys, map t | t in o :: o[t].order as int);
  }
}
