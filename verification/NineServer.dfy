/** A reference 9P2000.L file server: a tree and a fid table. It is what the
    tracker is compared with and what a session is replayed onto. */
module NineServer {
  import opened Common
  import opened NineSession

  type Path = seq<Str>

  /** 9P caps the names of one Twalk (walk(5), section 5 of the Plan 9 manual). */
  const MAX_WELEM := 16

  // ---------- Open flags ----------

  const O_CREAT := 0x40
  const O_EXCL := 0x80
  const O_TRUNC := 0x200

  predicate Bit(flags: u32, bit: int)
    requires bit > 0
  {
    flags / bit % 2 == 1
  }

  /** flags &^ (O_CREAT | O_EXCL | O_TRUNC) */
  function Strip(flags: u32): (r: u32)
    ensures r <= flags
  {
    var a := if Bit(flags, O_CREAT) then O_CREAT else 0;
    var b := if Bit(flags, O_EXCL) then O_EXCL else 0;
    var c := if Bit(flags, O_TRUNC) then O_TRUNC else 0;
    flags - a - b - c
  }

  /** Strip clears the three creation bits and keeps every other one. */
  lemma StripClears(flags: u32)
    ensures var s := Strip(flags);
            && !Bit(s, 0x40) && !Bit(s, 0x80) && !Bit(s, 0x200)   // octal 100, 200 and 1000
            && s % 0x40 == flags % 0x40 && Bit(s, 0x100) == Bit(flags, 0x100) && s / 0x400 == flags / 0x400
            && Strip(s) == s && s % 4 == flags % 4
  {
    var low, a, b, c, d, high := FlagParts(flags);
    PartsGiveFlags(flags, low, a, b, c, d, high);
    var s := Strip(flags);
    assert s == low + 0x100 * c + 0x400 * high;
    PartsGiveFlags(s, low, 0, 0, c, 0, high);
  }

  lemma ScaleOrder(d: nat, p: nat, q: nat)
    requires p < q
    ensures d * p + d <= d * q
  {
    assert d * q == d * p + d * (q - p);
    assert d * (q - p) == d * (q - p - 1) + d;
  }

  lemma Quotient(x: nat, d: nat, q: nat, r: nat)
    requires r < d && x == d * q + r
    ensures x / d == q && x % d == r
  {
    var p := x / d;
    assert x == d * p + x % d;
    if p < q {
      ScaleOrder(d, p, q);
    } else if q < p {
      ScaleOrder(d, q, p);
    }
  }

  /** A flag word as its low bits, four single bits and its high bits. */
  lemma FlagParts(flags: u32) returns (low: nat, a: nat, b: nat, c: nat, d: nat, high: nat)
    ensures low < 0x40 && a < 2 && b < 2 && c < 2 && d < 2
    ensures flags == low + 0x40 * a + 0x80 * b + 0x100 * c + 0x200 * d + 0x400 * high
  {
    low := flags % 0x40;
    var h1 := flags / 0x40;
    assert flags == low + 0x40 * h1;
    var h2, h3, h4;
    a, h2 := h1 % 2, h1 / 2;
    b, h3 := h2 % 2, h2 / 2;
    c, h4 := h3 % 2, h3 / 2;
    d, high := h4 % 2, h4 / 2;
    assert h1 == a + 2 * (b + 2 * (c + 2 * (d + 2 * high)));
  }

  lemma PartsGiveFlags(flags: u32, low: nat, a: nat, b: nat, c: nat, d: nat, high: nat)
    requires low < 0x40 && a < 2 && b < 2 && c < 2 && d < 2
    requires flags == low + 0x40 * a + 0x80 * b + 0x100 * c + 0x200 * d + 0x400 * high
    ensures flags % 0x40 == low && flags / 0x400 == high && flags % 4 == low % 4
    ensures flags / 0x40 % 2 == a && flags / 0x80 % 2 == b && flags / 0x100 % 2 == c && flags / 0x200 % 2 == d
  {
    var h4 := d + 2 * high;
    var h3 := c + 2 * h4;
    var h2 := b + 2 * h3;
    var h1 := a + 2 * h2;
    Quotient(flags, 0x40, h1, low);
    Quotient(flags, 0x80, h2, low + 0x40 * a);
    Quotient(flags, 0x100, h3, low + 0x40 * a + 0x80 * b);
    Quotient(flags, 0x200, h4, low + 0x40 * a + 0x80 * b + 0x100 * c);
    Quotient(flags, 0x400, high, low + 0x40 * a + 0x80 * b + 0x100 * c + 0x200 * d);
    Quotient(h1, 2, h2, a);
    Quotient(h2, 2, h3, b);
    Quotient(h3, 2, h4, c);
    Quotient(h4, 2, high, d);
    Quotient(flags, 4, 16 * h1 + low / 4, low % 4);
  }

  // ---------- State and messages ----------

  datatype ServerFid = ServerFid(names: Path, open: bool, flags: u32)

  datatype Server = Server(tree: map<Path, Str>, fids: map<u32, ServerFid>)

  /** A request: one the tracker parses, or one it passes through. */
  datatype TMsg =
    | Tracked(p: Pending)
    | Read(fid: u32)
    | Write(fid: u32, data: Str)
    | Mkdir(fid: u32, name: Str)

  datatype Reply = RError | ROk | RWalk(nwqid: u16) | RData(data: Str)

  datatype Outcome = Outcome(server: Server, reply: Reply)

  /** How many leading names exist, one below the other, under `base`. */
  function WalkDepth(tree: map<Path, Str>, base: Path, names: Path): (n: nat)
    ensures n <= |names|
    decreases |names|
  {
    if names == [] || base + [names[0]] !in tree then 0
    else 1 + WalkDepth(tree, base + [names[0]], names[1..])
  }

  function ExecWalk(s: Server, fid: u32, newfid: u32, names: Path): Outcome {
    if fid !in s.fids || s.fids[fid].open || (newfid != fid && newfid in s.fids) || |names| > MAX_WELEM
    then Outcome(s, RError)
    else
      var base := s.fids[fid].names;
      var n := WalkDepth(s.tree, base, names);
      if n == |names| then
        Outcome(s.(fids := s.fids[newfid := ServerFid(base + names, false, 0)]), RWalk(n))
      else Outcome(s, if n == 0 then RError else RWalk(n))
  }

  /** Opening with O_TRUNC empties the file; O_CREAT with O_EXCL insists on
      creating it, which an open cannot. */
  function ExecLopen(s: Server, fid: u32, flags: u32): Outcome {
    if fid !in s.fids || s.fids[fid].open || s.fids[fid].names !in s.tree
       || (Bit(flags, O_CREAT) && Bit(flags, O_EXCL))
    then Outcome(s, RError)
    else
      var path := s.fids[fid].names;
      Outcome(Server(if Bit(flags, O_TRUNC) then s.tree[path := []] else s.tree,
                     s.fids[fid := ServerFid(path, true, flags)]), ROk)
  }

  function ExecLcreate(s: Server, fid: u32, name: Str, flags: u32): Outcome {
    if fid !in s.fids || s.fids[fid].open || s.fids[fid].names !in s.tree
       || (s.fids[fid].names + [name] in s.tree && Bit(flags, O_EXCL))
    then Outcome(s, RError)
    else
      var path := s.fids[fid].names + [name];
      Outcome(Server(if path !in s.tree || Bit(flags, O_TRUNC) then s.tree[path := []] else s.tree,
                     s.fids[fid := ServerFid(path, true, flags)]), ROk)
  }

  predicate Removable(tree: map<Path, Str>, path: Path) {
    path in tree && path != [] && forall q :: q in tree.Keys && path <= q ==> q == path
  }

  function ExecRemove(s: Server, fid: u32, refuse: bool): Outcome {
    if fid !in s.fids then Outcome(s, RError)
    else
      var path := s.fids[fid].names;
      if refuse || !Removable(s.tree, path) then Outcome(s.(fids := s.fids - {fid}), RError)
      else Outcome(Server(s.tree - {path}, s.fids - {fid}), ROk)
  }

  /** One request. `refuse` stands for every reason outside this model (a
      permission, a full disk) for which the server may answer Rlerror. */
  function Exec(s: Server, m: TMsg, refuse: bool): Outcome {
    match m
    case Tracked(Clunk(fid)) =>
      Outcome(s.(fids := s.fids - {fid}), if refuse || fid !in s.fids then RError else ROk)
    case Tracked(Remove(fid)) => ExecRemove(s, fid, refuse)
    case Tracked(Flush(_)) => Outcome(s, ROk)
    case _ => if refuse then Outcome(s, RError) else ExecWilling(s, m)
  }

  function ExecWilling(s: Server, m: TMsg): Outcome
    requires !(m.Tracked? && (m.p.Clunk? || m.p.Remove? || m.p.Flush?))
  {
    match m
    case Tracked(Version(_, _)) => Outcome(s.(fids := map[]), ROk)
    case Tracked(Attach(fid, _, _, _, _)) =>
      if fid in s.fids then Outcome(s, RError)
      else Outcome(s.(fids := s.fids[fid := ServerFid([], false, 0)]), ROk)
    case Tracked(Walk(fid, newfid, names)) => ExecWalk(s, fid, newfid, names)
    case Tracked(Lopen(fid, flags)) => ExecLopen(s, fid, flags)
    case Tracked(Lcreate(fid, name, flags)) => ExecLcreate(s, fid, name, flags)
    case Read(fid) =>
      if fid !in s.fids || !s.fids[fid].open || s.fids[fid].flags % 4 == 1 || s.fids[fid].names !in s.tree
      then Outcome(s, RError)
      else Outcome(s, RData(s.tree[s.fids[fid].names]))
    case Write(fid, data) =>
      if fid !in s.fids || !s.fids[fid].open || s.fids[fid].flags % 4 == 0 || s.fids[fid].names !in s.tree
      then Outcome(s, RError)
      else Outcome(s.(tree := s.tree[s.fids[fid].names := data]), ROk)
    case Mkdir(fid, name) =>
      if fid !in s.fids || s.fids[fid].names !in s.tree || s.fids[fid].names + [name] in s.tree
      then Outcome(s, RError)
      else Outcome(s.(tree := s.tree[s.fids[fid].names + [name] := []]), ROk)
  }

  // ---------- What the server keeps ----------

  /** The root exists and every existing path has all its ancestors. */
  ghost predicate TreeOk(tree: map<Path, Str>) {
    && [] in tree
    && forall p: Path, k: nat :: p in tree && k <= |p| ==> p[..k] in tree
  }

  /** Every fid rests on an existing path. */
  ghost predicate Live(s: Server) {
    TreeOk(s.tree) && forall f :: f in s.fids ==> s.fids[f].names in s.tree
  }

  lemma {:induction false} WalkDepthFull(tree: map<Path, Str>, base: Path, names: Path)
    requires TreeOk(tree)
    ensures names == [] || base + names in tree ==> WalkDepth(tree, base, names) == |names|
    ensures base in tree && WalkDepth(tree, base, names) == |names| ==> base + names in tree
    decreases |names|
  {
    if names == [] {
      assert base + names == base;
    } else {
      var next := base + [names[0]];
      assert next + names[1..] == base + names;
      assert (base + names)[..|base| + 1] == next;
      WalkDepthFull(tree, next, names[1..]);
    }
  }

  lemma GrowKeepsTree(tree: map<Path, Str>, parent: Path, name: Str, data: Str)
    requires TreeOk(tree) && parent in tree
    ensures TreeOk(tree[parent + [name] := data])
  {
    var child := parent + [name];
    forall p: Path, k: nat | p in tree[child := data] && k <= |p|
      ensures p[..k] in tree[child := data]
    {
      if p == child && k <= |parent| {
        assert p[..k] == parent[..k];
      } else if p == child {
        assert p[..k] == p;
      }
    }
  }

  lemma ShrinkKeepsTree(tree: map<Path, Str>, path: Path)
    requires TreeOk(tree) && Removable(tree, path)
    ensures TreeOk(tree - {path})
  {
    forall p: Path, k: nat | p in tree - {path} && k <= |p|
      ensures p[..k] in tree - {path}
    {
      assert p[..k] <= p;
    }
  }

  /** The discipline v9fs keeps and the tracker relies on: versions are
      negotiated before any fid exists, there is one attach, the root fid is never
      re-targeted or released, fids stay below the proxy's temporary range, walked
      paths stay within what 2^16 temporary fids can carry, and no path is removed
      from under another live fid. */
  ghost predicate Legal(s: Server, root: Option<u32>, m: TMsg) {
    m.Tracked? ==>
      match m.p
      case Version(_, _) => s.fids == map[]
      case Attach(fid, _, _, _, _) => root.None? && fid < TEMP_FID_BASE
      case Walk(fid, newfid, names) =>
        && root != Some(newfid) && newfid < TEMP_FID_BASE
        && (fid in s.fids ==> |s.fids[fid].names + names| <= MAX_DEPTH)
      case Lcreate(fid, _, _) =>
        root != Some(fid) && (fid in s.fids ==> |s.fids[fid].names| < MAX_DEPTH)
      case Clunk(fid) => root != Some(fid)
      case Remove(fid) =>
        && root != Some(fid)
        && (fid in s.fids ==>
              forall g :: g in s.fids && g != fid ==> s.fids[g].names != s.fids[fid].names)
      case _ => true
  }

  const TEMP_FID_BASE: u32 := 0xFFFF_0000

  /** 2^16 temporary fids, MAX_WELEM names each. */
  const MAX_DEPTH := 0x10_0000

  lemma ExecKeepsLive(s: Server, root: Option<u32>, m: TMsg, refuse: bool)
    requires Live(s) && Legal(s, root, m)
    ensures Live(Exec(s, m, refuse).server)
  {
    match m
    case Tracked(Walk(fid, newfid, names)) =>
      if fid in s.fids {
        WalkDepthFull(s.tree, s.fids[fid].names, names);
      }
    case Tracked(Lcreate(fid, name, flags)) =>
      if fid in s.fids && s.fids[fid].names in s.tree {
        GrowKeepsTree(s.tree, s.fids[fid].names, name, []);
      }
    case Mkdir(fid, name) =>
      if fid in s.fids && s.fids[fid].names in s.tree {
        GrowKeepsTree(s.tree, s.fids[fid].names, name, []);
      }
    case Tracked(Remove(fid)) =>
      if fid in s.fids && Removable(s.tree, s.fids[fid].names) {
        ShrinkKeepsTree(s.tree, s.fids[fid].names);
      }
    case _ =>
  }

  // ---------- Two servers that differ in stripped flags only ----------

  ghost predicate SameTable(a: map<u32, ServerFid>, b: map<u32, ServerFid>) {
    && a.Keys == b.Keys
    && forall f :: f in a ==>
         a[f].names == b[f].names && a[f].open == b[f].open && Strip(a[f].flags) == Strip(b[f].flags)
  }

  ghost predicate Same(a: Server, b: Server) {
    a.tree == b.tree && SameTable(a.fids, b.fids)
  }

  /** No request can tell two such servers apart: same reply, and they stay alike. */
  lemma ExecSame(a: Server, b: Server, m: TMsg, refuse: bool)
    requires Same(a, b)
    ensures Exec(a, m, refuse).reply == Exec(b, m, refuse).reply
    ensures Same(Exec(a, m, refuse).server, Exec(b, m, refuse).server)
  {
    match m
    case Tracked(p) => TrackedSame(a, b, p, refuse);
    case _ => PassedSame(a, b, m, refuse);
  }

  lemma TrackedSame(a: Server, b: Server, p: Pending, refuse: bool)
    requires Same(a, b)
    ensures Exec(a, Tracked(p), refuse).reply == Exec(b, Tracked(p), refuse).reply
    ensures Same(Exec(a, Tracked(p), refuse).server, Exec(b, Tracked(p), refuse).server)
  {
    match p
    case Walk(fid, newfid, names) => WalkSame(a, b, fid, newfid, names);
    case Lopen(fid, flags) => LopenSame(a, b, fid, flags);
    case Lcreate(fid, name, flags) => LcreateSame(a, b, fid, name, flags);
    case Remove(fid) => RemoveSame(a, b, fid, refuse);
    case _ => SimpleSame(a, b, p, refuse);
  }

  lemma SimpleSame(a: Server, b: Server, p: Pending, refuse: bool)
    requires Same(a, b) && (p.Version? || p.Attach? || p.Clunk? || p.Flush?)
    ensures Exec(a, Tracked(p), refuse).reply == Exec(b, Tracked(p), refuse).reply
    ensures Same(Exec(a, Tracked(p), refuse).server, Exec(b, Tracked(p), refuse).server)
  {
  }

  lemma PassedSame(a: Server, b: Server, m: TMsg, refuse: bool)
    requires Same(a, b) && !m.Tracked?
    ensures Exec(a, m, refuse).reply == Exec(b, m, refuse).reply
    ensures Same(Exec(a, m, refuse).server, Exec(b, m, refuse).server)
  {
    match m
    case Mkdir(fid, name) => assert fid in a.fids <==> fid in b.fids;
    case Read(fid) => AccessSame(a, b, fid);
    case Write(fid, _) => AccessSame(a, b, fid);
  }

  lemma AccessSame(a: Server, b: Server, fid: u32)
    requires Same(a, b)
    ensures fid in a.fids ==> fid in b.fids && a.fids[fid].flags % 4 == b.fids[fid].flags % 4
  {
    if fid in a.fids {
      StripClears(a.fids[fid].flags);
      StripClears(b.fids[fid].flags);
    }
  }

  lemma RemoveSame(a: Server, b: Server, fid: u32, refuse: bool)
    requires Same(a, b)
    ensures ExecRemove(a, fid, refuse).reply == ExecRemove(b, fid, refuse).reply
    ensures Same(ExecRemove(a, fid, refuse).server, ExecRemove(b, fid, refuse).server)
  {
  }

  lemma WalkSame(a: Server, b: Server, fid: u32, newfid: u32, names: Path)
    requires Same(a, b)
    ensures ExecWalk(a, fid, newfid, names).reply == ExecWalk(b, fid, newfid, names).reply
    ensures Same(ExecWalk(a, fid, newfid, names).server, ExecWalk(b, fid, newfid, names).server)
  {
  }

  lemma LopenSame(a: Server, b: Server, fid: u32, flags: u32)
    requires Same(a, b)
    ensures ExecLopen(a, fid, flags).reply == ExecLopen(b, fid, flags).reply
    ensures Same(ExecLopen(a, fid, flags).server, ExecLopen(b, fid, flags).server)
  {
  }

  lemma LcreateSame(a: Server, b: Server, fid: u32, name: Str, flags: u32)
    requires Same(a, b)
    ensures ExecLcreate(a, fid, name, flags).reply == ExecLcreate(b, fid, name, flags).reply
    ensures Same(ExecLcreate(a, fid, name, flags).server, ExecLcreate(b, fid, name, flags).server)
  {
  }

  // ---------- The tracker against the server ----------

  /** The server's view of a tracked table. */
  function Table(fids: map<u32, FidState>): map<u32, ServerFid> {
    map f | f in fids :: ServerFid(fids[f].names, fids[f].open, fids[f].flags)
  }

  /** What ObserveServer commits for a request is what the server did, for every
      request, every state and every outcome (failed clunks and removes and partial
      walks included), with one exception: a version reply releases all fids on the
      server and none in the tracker. */
  lemma CommitMatchesExec(s: Server, fids: map<u32, FidState>, p: Pending, refuse: bool, nwqid: u16)
    requires Table(fids) == s.fids
    requires Exec(s, Tracked(p), refuse).reply.RWalk? ==> nwqid == Exec(s, Tracked(p), refuse).reply.nwqid
    ensures var out := Exec(s, Tracked(p), refuse);
            Table(CommitFids(fids, p, out.reply.RError?, nwqid)) == out.server.fids
            <==> !(p.Version? && !refuse && fids != map[])
  {
    assert fids.Keys == s.fids.Keys by {
      assert Table(fids).Keys == fids.Keys;
    }
    if p.Version? && !refuse {
      assert Table(fids) == map[] <==> fids == map[] by {
        if fids != map[] {
          var f :| f in fids;
          assert f in Table(fids);
        }
      }
    }
  }
}
