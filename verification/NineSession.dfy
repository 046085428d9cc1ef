/** The session tracker: what the proxy learns from the two directions of a
    9P2000.L stream (live fids, in-flight fid mutations, unanswered requests). */
module NineSession {
  import opened Common
  import opened NineWire

  // ---------- Message types the tracker parses ----------

  const R_LERROR: byte := 7
  const T_LOPEN: byte := 12
  const T_LCREATE: byte := 14
  const T_VERSION: byte := 100
  const T_ATTACH: byte := 104
  const T_FLUSH: byte := 108
  const T_WALK: byte := 110
  const T_CLUNK: byte := 120
  const T_REMOVE: byte := 122

  const DEFAULT_MSIZE: u32 := 262144

  /** "9p2000.L" */
  const VERSION_STRING: Str := [57, 112, 50, 48, 48, 48, 46, 76]

  /** A request whose effect on the fid table waits for its reply. */
  datatype Pending =
    | Version(msize: u32, version: Str)
    | Attach(fid: u32, afid: u32, uname: Str, aname: Str, nUname: u32)
    | Walk(fid: u32, newfid: u32, names: seq<Str>)
    | Lopen(fid: u32, flags: u32)
    | Lcreate(fid: u32, name: Str, flags: u32)
    | Clunk(fid: u32)
    | Remove(fid: u32)
    | Flush(oldtag: u16)

  function TypeOf(p: Pending): byte {
    match p
    case Version(_, _) => T_VERSION
    case Attach(_, _, _, _, _) => T_ATTACH
    case Walk(_, _, _) => T_WALK
    case Lopen(_, _) => T_LOPEN
    case Lcreate(_, _, _) => T_LCREATE
    case Clunk(_) => T_CLUNK
    case Remove(_) => T_REMOVE
    case Flush(_) => T_FLUSH
  }

  const PARSED_TYPES: set<byte> :=
    {T_VERSION, T_ATTACH, T_WALK, T_LOPEN, T_LCREATE, T_CLUNK, T_REMOVE, T_FLUSH}

  /** What a live fid points at. */
  datatype FidState = FidState(names: seq<Str>, root: bool, open: bool, flags: u32)

  /** An unanswered request: its place in the send order and its bytes. */
  datatype Outstanding = Outstanding(order: nat, raw: seq<byte>)

  datatype Tracker = Tracker(
    msize: u32, version: Str,
    rootFid: u32, afid: u32, uname: Str, aname: Str, nUname: u32, haveAttach: bool,
    fids: map<u32, FidState>,
    pending: map<u16, Pending>,
    outstanding: map<u16, Outstanding>,
    outSeq: nat)

  const EMPTY_TRACKER := Tracker(DEFAULT_MSIZE, VERSION_STRING, 0, 0, [], [], 0, false,
                                 map[], map[], map[], 0)

  /** The version and attach requests a replay sends. */
  function VersionOf(t: Tracker): Pending { Version(t.msize, t.version) }

  function AttachOf(t: Tracker): Pending { Attach(t.rootFid, t.afid, t.uname, t.aname, t.nUname) }

  // ---------- Kernel to server ----------

  function ParseVersion(c: Cur): Pending {
    var (msize, c) := ReadU32(c);
    var (version, _) := ReadStr(c);
    Version(msize, version)
  }

  function ParseAttach(c: Cur): Pending {
    var (fid, c) := ReadU32(c);
    var (afid, c) := ReadU32(c);
    var (uname, c) := ReadStr(c);
    var (aname, c) := ReadStr(c);
    var (nUname, _) := ReadU32(c);
    Attach(fid, afid, uname, aname, nUname)
  }

  function ParseWalk(c: Cur): Pending {
    var (fid, c) := ReadU32(c);
    var (newfid, c) := ReadU32(c);
    var (n, c) := ReadU16(c);
    var (names, _) := ReadStrs(c, n);
    Walk(fid, newfid, names)
  }

  function ParseLopen(c: Cur): Pending {
    var (fid, c) := ReadU32(c);
    var (flags, _) := ReadU32(c);
    Lopen(fid, flags)
  }

  function ParseLcreate(c: Cur): Pending {
    var (fid, c) := ReadU32(c);
    var (name, c) := ReadStr(c);
    var (flags, _) := ReadU32(c);
    Lcreate(fid, name, flags)
  }

  /** The fields ObserveClient reads out of a message, zero where the body is too
      short; None for the types that pass through unparsed. */
  function Parse(m: seq<byte>): Option<Pending>
    requires |m| >= HEADER_LEN
  {
    ParseBody(MsgType(m), Cur(MsgBody(m), 0, false))
  }

  function ParseBody(typ: byte, c: Cur): Option<Pending> {
    if typ == T_VERSION then Some(ParseVersion(c))
    else if typ == T_ATTACH then Some(ParseAttach(c))
    else if typ == T_WALK then Some(ParseWalk(c))
    else if typ == T_LOPEN then Some(ParseLopen(c))
    else if typ == T_LCREATE then Some(ParseLcreate(c))
    else if typ == T_CLUNK then Some(Clunk(ReadU32(c).0))
    else if typ == T_REMOVE then Some(Remove(ReadU32(c).0))
    else if typ == T_FLUSH then Some(Flush(ReadU16(c).0))
    else None
  }

  /** Recording a request that was sent under `tag`. */
  function Record(t: Tracker, tag: u16, raw: seq<byte>, p: Option<Pending>): Tracker {
    t.(outSeq := t.outSeq + 1,
       outstanding := t.outstanding[tag := Outstanding(t.outSeq + 1, raw)],
       pending := if p.Some? then t.pending[tag := p.value] else t.pending)
  }

  function OnClient(t: Tracker, m: seq<byte>): Tracker {
    if |m| < HEADER_LEN then t else Record(t, MsgTag(m), m, Parse(m))
  }

  // ---------- Server to kernel ----------

  /** The fid table after request `p` was answered. A failed request changes
      nothing, except that Tclunk and Tremove release their fid either way. */
  function CommitFids(fids: map<u32, FidState>, p: Pending, failed: bool, nwqid: u16): map<u32, FidState> {
    match p
    case Clunk(fid) => fids - {fid}
    case Remove(fid) => fids - {fid}
    case Attach(fid, _, _, _, _) =>
      if failed then fids else fids[fid := FidState([], true, false, 0)]
    case Walk(fid, newfid, names) =>
      if failed || nwqid != |names| || fid !in fids then fids
      else fids[newfid := FidState(fids[fid].names + names, false, false, 0)]
    case Lopen(fid, flags) =>
      if failed || fid !in fids then fids
      else fids[fid := fids[fid].(open := true, flags := flags)]
    case Lcreate(fid, name, flags) =>
      if failed || fid !in fids then fids
      else fids[fid := FidState(fids[fid].names + [name], fids[fid].root, true, flags)]
    case _ => fids
  }

  /** What a settled Tversion or Tattach leaves behind for a later replay. */
  function Negotiate(t: Tracker, p: Pending, failed: bool): (r: Tracker)
    ensures r.fids == t.fids && r.pending == t.pending
    ensures r.outstanding == t.outstanding && r.outSeq == t.outSeq
  {
    if failed then t
    else
      match p
      case Version(msize, version) =>
        t.(msize := msize, version := if version != [] then version else t.version)
      case Attach(fid, afid, uname, aname, nUname) =>
        t.(rootFid := fid, afid := afid, uname := uname, aname := aname,
           nUname := nUname, haveAttach := true)
      case _ => t
  }

  /** The tags a reply to `tag` settles: an Rflush also settles the tag it cancelled. */
  function Settled(t: Tracker, tag: u16): set<u16> {
    if tag in t.pending && t.pending[tag].Flush? then {tag, t.pending[tag].oldtag} else {tag}
  }

  /** The reply to `tag` arrived: `failed` for Rlerror, `nwqid` from an Rwalk. */
  function Settle(t: Tracker, tag: u16, failed: bool, nwqid: u16): Tracker {
    var gone := Settled(t, tag);
    if tag !in t.pending then t.(outstanding := t.outstanding - gone)
    else
      var p := t.pending[tag];
      Negotiate(
        t.(outstanding := t.outstanding - gone, pending := t.pending - gone,
           fids := CommitFids(t.fids, p, failed, nwqid)),
        p, failed)
  }

  function Nwqid(m: seq<byte>): u16
    requires |m| >= HEADER_LEN
  {
    ReadU16(Cur(MsgBody(m), 0, false)).0
  }

  function OnServer(t: Tracker, m: seq<byte>): Tracker {
    if |m| < HEADER_LEN then t
    else Settle(t, MsgTag(m), MsgType(m) == R_LERROR, Nwqid(m))
  }

  // ---------- The tracker as an object ----------

  class Session {
    var msize: u32
    var version: Str
    var rootFid: u32
    var afid: u32
    var uname: Str
    var aname: Str
    var nUname: u32
    var haveAttach: bool
    var fids: map<u32, FidState>
    var pending: map<u16, Pending>
    var outstanding: map<u16, Outstanding>
    var outSeq: nat

    ghost function State(): Tracker
      reads this
    {
      Tracker(msize, version, rootFid, afid, uname, aname, nUname, haveAttach,
              fids, pending, outstanding, outSeq)
    }

    constructor ()
      ensures State() == EMPTY_TRACKER
    {
      msize, version := DEFAULT_MSIZE, VERSION_STRING;
      rootFid, afid, uname, aname, nUname, haveAttach := 0, 0, [], [], 0, false;
      fids, pending, outstanding, outSeq := map[], map[], map[], 0;
    }

    method ObserveClient(m: seq<byte>)
      modifies this
      ensures State() == OnClient(old(State()), m)
    {
      if |m| < HEADER_LEN {
        return;
      }
      var tag := MsgTag(m);
      outSeq := outSeq + 1;
      outstanding := outstanding[tag := Outstanding(outSeq, m)];
      var p := ReadBody(MsgType(m), MsgBody(m));
      if p.Some? {
        pending := pending[tag := p.value];
      }
    }

    /** The switch over message types: what to remember of a request. */
    method ReadBody(typ: byte, body: seq<byte>) returns (p: Option<Pending>)
      ensures p == ParseBody(typ, Cur(body, 0, false))
    {
      var c := new Cursor(body);
      if typ == T_VERSION {
        var ms := c.U32();
        var ver := c.Text();
        p := Some(Version(ms, ver));
      } else if typ == T_ATTACH {
        p := ReadAttach(c);
      } else if typ == T_WALK {
        p := ReadWalk(c);
      } else if typ == T_LOPEN {
        var fid := c.U32();
        var flags := c.U32();
        p := Some(Lopen(fid, flags));
      } else if typ == T_LCREATE {
        var fid := c.U32();
        var name := c.Text();
        var flags := c.U32();
        p := Some(Lcreate(fid, name, flags));
      } else if typ == T_CLUNK {
        var fid := c.U32();
        p := Some(Clunk(fid));
      } else if typ == T_REMOVE {
        var fid := c.U32();
        p := Some(Remove(fid));
      } else if typ == T_FLUSH {
        var oldtag := c.U16();
        p := Some(Flush(oldtag));
      } else {
        p := None;
      }
    }

    method ReadAttach(c: Cursor) returns (p: Option<Pending>)
      modifies c
      ensures p == Some(ParseAttach(old(c.View())))
    {
      var fid := c.U32();
      var af := c.U32();
      var un := c.Text();
      var an := c.Text();
      var nu := c.U32();
      p := Some(Attach(fid, af, un, an, nu));
    }

    method ReadWalk(c: Cursor) returns (p: Option<Pending>)
      modifies c
      ensures p == Some(ParseWalk(old(c.View())))
    {
      var fid := c.U32();
      var newfid := c.U32();
      var nw := c.U16();
      var names := c.Texts(nw);
      p := Some(Walk(fid, newfid, names));
    }

    method ObserveServer(m: seq<byte>)
      modifies this
      ensures State() == OnServer(old(State()), m)
    {
      if |m| < HEADER_LEN {
        return;
      }
      var tag := MsgTag(m);
      outstanding := outstanding - {tag};
      if tag !in pending {
        return;
      }
      var p := pending[tag];
      pending := pending - {tag};
      if p.Remove? {
        fids := fids - {p.fid};
        return;
      }
      if p.Flush? {
        outstanding := outstanding - {p.oldtag};
        pending := pending - {p.oldtag};
        assert pending == old(pending) - {tag, p.oldtag};
        assert outstanding == old(outstanding) - {tag, p.oldtag};
        return;
      }
      if MsgType(m) == R_LERROR {
        if p.Clunk? {
          fids := fids - {p.fid};
        }
        return;
      }
      Commit(p, MsgBody(m));
    }

    /** The effect of a successful reply with body `body`. */
    method Commit(p: Pending, body: seq<byte>)
      requires !p.Remove? && !p.Flush?
      modifies this
      ensures State() == Negotiate(
        old(State()).(fids := CommitFids(old(fids), p, false, ReadU16(Cur(body, 0, false)).0)), p, false)
    {
      if p.Version? {
        msize := p.msize;
        if p.version != [] {
          version := p.version;
        }
      } else if p.Attach? {
        CommitAttach(p);
      } else {
        CommitFid(p, body);
      }
    }

    /** The attach parameters, kept for a replay, and the root fid. */
    method CommitAttach(p: Pending)
      requires p.Attach?
      modifies this
      ensures State() == old(State()).(
        rootFid := p.fid, afid := p.afid, uname := p.uname, aname := p.aname, nUname := p.nUname, haveAttach := true,
        fids := old(fids)[p.fid := FidState([], true, false, 0)])
    {
      rootFid, afid, uname, aname, nUname, haveAttach := p.fid, p.afid, p.uname, p.aname, p.nUname, true;
      fids := fids[p.fid := FidState([], true, false, 0)];
    }

    /** The replies that only move, open or release a fid. */
    method CommitFid(p: Pending, body: seq<byte>)
      requires p.Walk? || p.Lopen? || p.Lcreate? || p.Clunk?
      modifies this`fids
      ensures fids == CommitFids(old(fids), p, false, ReadU16(Cur(body, 0, false)).0)
    {
      match p {
        case Walk(fid, newfid, names) =>
          var c := new Cursor(body);
          var nwqid := c.U16();
          if nwqid != |names| || fid !in fids {
            return;
          }
          fids := fids[newfid := FidState(fids[fid].names + names, false, false, 0)];
        case Lopen(fid, flags) =>
          if fid in fids {
            fids := fids[fid := fids[fid].(open := true, flags := flags)];
          }
        case Lcreate(fid, name, flags) =>
          if fid in fids {
            fids := fids[fid := FidState(fids[fid].names + [name], fids[fid].root, true, flags)];
          }
        case Clunk(fid) =>
          fids := fids - {fid};
      }
    }
  }

  // ---------- Well-formed requests ----------

  /** The lengths a request must keep for its fields to survive the wire. */
  ghost predicate Fits(p: Pending) {
    match p
    case Version(_, version) => |version| < 0x1_0000
    case Attach(_, _, uname, aname, _) => |uname| < 0x1_0000 && |aname| < 0x1_0000
    case Walk(_, _, names) =>
      |names| < 0x1_0000 && forall i :: 0 <= i < |names| ==> |names[i]| < 0x1_0000
    case Lcreate(_, name, _) => |name| < 0x1_0000
    case _ => true
  }

  /** The message body that carries `p`, fields in protocol order. */
  function Body(p: Pending): seq<byte> {
    match p
    case Version(msize, version) => Le32(msize) + PutStr(version)
    case Attach(fid, afid, uname, aname, nUname) =>
      Le32(fid) + (Le32(afid) + (PutStr(uname) + (PutStr(aname) + Le32(nUname))))
    case Walk(fid, newfid, names) =>
      Le32(fid) + (Le32(newfid) + (Le16(|names| % 0x1_0000) + PutStrs(names)))
    case Lopen(fid, flags) => Le32(fid) + Le32(flags)
    case Lcreate(fid, name, flags) => Le32(fid) + (PutStr(name) + Le32(flags))
    case Clunk(fid) => Le32(fid)
    case Remove(fid) => Le32(fid)
    case Flush(oldtag) => Le16(oldtag)
  }

  /** Parsing undoes encoding: whatever fields the kernel put in a request, the
      tracker reads back, and trailing fields it does not know are ignored. */
  lemma ParseRoundTrip(tag: u16, p: Pending, tail: seq<byte>)
    requires Fits(p)
    ensures Parse(FrameOf(TypeOf(p), tag, Body(p) + tail)) == Some(p)
  {
    FrameFields(TypeOf(p), tag, Body(p) + tail);
    BodyRoundTrip(Cur(Body(p) + tail, 0, false), p, tail);
  }

  lemma BodyRoundTrip(c: Cur, p: Pending, tail: seq<byte>)
    requires Fits(p) && At(c, Body(p) + tail)
    ensures ParseBody(TypeOf(p), c) == Some(p)
  {
    match p {
      case Version(_, _) => VersionRoundTrip(c, p, tail);
      case Attach(_, _, _, _, _) => AttachRoundTrip(c, p, tail);
      case Walk(_, _, _) => WalkRoundTrip(c, p, tail);
      case Lopen(_, _) => LopenRoundTrip(c, p, tail);
      case Lcreate(_, _, _) => LcreateRoundTrip(c, p, tail);
      case _ => OneFieldRoundTrip(c, p, tail);
    }
  }

  lemma Assoc(a: seq<byte>, b: seq<byte>, c: seq<byte>)
    ensures (a + b) + c == a + (b + c)
  {
  }

  lemma OneFieldRoundTrip(c: Cur, p: Pending, tail: seq<byte>)
    requires (p.Clunk? || p.Remove? || p.Flush?) && At(c, Body(p) + tail)
    ensures ParseBody(TypeOf(p), c) == Some(p)
  {
    match p
    case Clunk(fid) => ReadU32At(c, fid, tail);
    case Remove(fid) => ReadU32At(c, fid, tail);
    case Flush(oldtag) => ReadU16At(c, oldtag, tail);
  }

  lemma VersionRoundTrip(c: Cur, p: Pending, tail: seq<byte>)
    requires p.Version? && Fits(p) && At(c, Body(p) + tail)
    ensures ParseBody(TypeOf(p), c) == Some(p)
  {
    Assoc(Le32(p.msize), PutStr(p.version), tail);
    ReadU32At(c, p.msize, PutStr(p.version) + tail);
    ReadStrAt(ReadU32(c).1, p.version, tail);
  }

  lemma AttachRoundTrip(c: Cur, p: Pending, tail: seq<byte>)
    requires p.Attach? && Fits(p) && At(c, Body(p) + tail)
    ensures ParseBody(TypeOf(p), c) == Some(p)
  {
    var b3 := PutStr(p.aname) + Le32(p.nUname);
    var b2 := PutStr(p.uname) + b3;
    Assoc(Le32(p.fid), Le32(p.afid) + b2, tail);
    Assoc(Le32(p.afid), b2, tail);
    Assoc(PutStr(p.uname), b3, tail);
    Assoc(PutStr(p.aname), Le32(p.nUname), tail);
    AttachFields(c, p.fid, p.afid, p.uname, p.aname, p.nUname, tail);
  }

  lemma AttachFields(c: Cur, fid: u32, afid: u32, uname: Str, aname: Str, nUname: u32, tail: seq<byte>)
    requires |uname| < 0x1_0000 && |aname| < 0x1_0000
    requires At(c, Le32(fid) + (Le32(afid) + (PutStr(uname) + (PutStr(aname) + (Le32(nUname) + tail)))))
    ensures ParseAttach(c) == Attach(fid, afid, uname, aname, nUname)
  {
    var r3 := Le32(nUname) + tail;
    var r2 := PutStr(aname) + r3;
    var r1 := PutStr(uname) + r2;
    ReadU32At(c, fid, Le32(afid) + r1);
    var c1 := ReadU32(c).1;
    ReadU32At(c1, afid, r1);
    var c2 := ReadU32(c1).1;
    ReadStrAt(c2, uname, r2);
    var c3 := ReadStr(c2).1;
    ReadStrAt(c3, aname, r3);
    ReadU32At(ReadStr(c3).1, nUname, tail);
  }

  lemma WalkRoundTrip(c: Cur, p: Pending, tail: seq<byte>)
    requires p.Walk? && Fits(p) && At(c, Body(p) + tail)
    ensures ParseBody(TypeOf(p), c) == Some(p)
  {
    WalkBody(p, tail);
    WalkFields(c, p.fid, p.newfid, p.names, tail);
    assert TypeOf(p) == T_WALK;
    ParseWalkBody(c);
  }

  lemma ParseWalkBody(c: Cur)
    ensures ParseBody(T_WALK, c) == Some(ParseWalk(c))
  {
  }

  lemma WalkBody(p: Pending, tail: seq<byte>)
    requires p.Walk? && Fits(p)
    ensures Body(p) + tail == Le32(p.fid) + (Le32(p.newfid) + (Le16(|p.names|) + (PutStrs(p.names) + tail)))
  {
    var count := Le16(|p.names|);
    Assoc(Le32(p.fid), Le32(p.newfid) + (count + PutStrs(p.names)), tail);
    Assoc(Le32(p.newfid), count + PutStrs(p.names), tail);
    Assoc(count, PutStrs(p.names), tail);
  }

  lemma WalkFields(c: Cur, fid: u32, newfid: u32, names: seq<Str>, tail: seq<byte>)
    requires |names| < 0x1_0000 && forall i :: 0 <= i < |names| ==> |names[i]| < 0x1_0000
    requires At(c, Le32(fid) + (Le32(newfid) + (Le16(|names|) + (PutStrs(names) + tail))))
    ensures ParseWalk(c) == Walk(fid, newfid, names)
  {
    var r1 := PutStrs(names) + tail;
    ReadU32At(c, fid, Le32(newfid) + (Le16(|names|) + r1));
    var c1 := ReadU32(c).1;
    ReadU32At(c1, newfid, Le16(|names|) + r1);
    var c2 := ReadU32(c1).1;
    ReadU16At(c2, |names|, r1);
    ReadStrsAt(ReadU16(c2).1, names, tail);
  }

  lemma LopenRoundTrip(c: Cur, p: Pending, tail: seq<byte>)
    requires p.Lopen? && At(c, Body(p) + tail)
    ensures ParseBody(TypeOf(p), c) == Some(p)
  {
    Assoc(Le32(p.fid), Le32(p.flags), tail);
    ReadU32At(c, p.fid, Le32(p.flags) + tail);
    ReadU32At(ReadU32(c).1, p.flags, tail);
  }

  lemma LcreateRoundTrip(c: Cur, p: Pending, tail: seq<byte>)
    requires p.Lcreate? && Fits(p) && At(c, Body(p) + tail)
    ensures ParseBody(TypeOf(p), c) == Some(p)
  {
    var r1 := Le32(p.flags) + tail;
    Assoc(Le32(p.fid), PutStr(p.name) + Le32(p.flags), tail);
    Assoc(PutStr(p.name), Le32(p.flags), tail);
    ReadU32At(c, p.fid, PutStr(p.name) + r1);
    var c1 := ReadU32(c).1;
    ReadStrAt(c1, p.name, r1);
    ReadU32At(ReadStr(c1).1, p.flags, tail);
  }

  // ---------- The protocol in numbers ----------

  /** Which request types are followed, by their 9P2000.L numbers. */
  lemma ParsedTypes(m: seq<byte>)
    requires |m| >= 7
    ensures match Parse(m)
            case None => m[4] !in {12, 14, 100, 104, 108, 110, 120, 122}
            case Some(Lopen(_, _)) => m[4] == 12
            case Some(Lcreate(_, _, _)) => m[4] == 14
            case Some(Version(_, _)) => m[4] == 100
            case Some(Attach(_, _, _, _, _)) => m[4] == 104
            case Some(Flush(_)) => m[4] == 108
            case Some(Walk(_, _, _)) => m[4] == 110
            case Some(Clunk(_)) => m[4] == 120
            case Some(Remove(_)) => m[4] == 122
  {
  }

  /** A reply settles the tag in bytes 5 and 6; it is a failure exactly if its type is
      7; what an Rwalk reached is in bytes 7 and 8. */
  lemma RepliesInNumbers(t: Tracker, m: seq<byte>)
    requires |m| >= 7
    ensures var reached: int := if |m| >= 9 then m[7] as int + 0x100 * m[8] as int else 0;
            OnServer(t, m) == Settle(t, m[5] as int + 0x100 * m[6] as int, m[4] == 7, reached)
  {
    HeaderInNumbers(m);
    if |m| >= 9 {
      assert m[7..][0..] == m[7..];
    }
  }

  /** What a tracker starts with: a message size of 256 KiB, and "9p2000.L". */
  lemma StartsInNumbers()
    ensures EMPTY_TRACKER.msize == 262144 && !EMPTY_TRACKER.haveAttach
    ensures EMPTY_TRACKER.version ==
            ['9' as int, 'p' as int, '2' as int, '0' as int, '0' as int, '0' as int, '.' as int, 'L' as int]
    ensures EMPTY_TRACKER.fids == map[] && EMPTY_TRACKER.pending == map[] && EMPTY_TRACKER.outstanding == map[]
  {
  }

  // ---------- What any byte stream keeps ----------

  /** Only unanswered requests have pending effects, and every unanswered
      request has its own place in the send order. */
  ghost predicate TrackerOk(t: Tracker) {
    && t.pending.Keys <= t.outstanding.Keys
    && (forall tag :: tag in t.outstanding ==> 0 < t.outstanding[tag].order <= t.outSeq)
    && (forall a, b :: a in t.outstanding && b in t.outstanding && a != b ==>
          t.outstanding[a].order != t.outstanding[b].order)
  }

  datatype Event = FromKernel(m: seq<byte>) | FromServer(m: seq<byte>)

  function Observe(t: Tracker, e: Event): Tracker {
    match e
    case FromKernel(m) => OnClient(t, m)
    case FromServer(m) => OnServer(t, m)
  }

  function ObserveAll(t: Tracker, es: seq<Event>): Tracker
    decreases |es|
  {
    if es == [] then t else ObserveAll(Observe(t, es[0]), es[1..])
  }

  lemma SettleOk(t: Tracker, tag: u16, failed: bool, nwqid: u16)
    requires TrackerOk(t)
    ensures TrackerOk(Settle(t, tag, failed, nwqid))
    ensures forall x :: x in Settle(t, tag, failed, nwqid).outstanding ==>
      x != tag && x in t.outstanding && Settle(t, tag, failed, nwqid).outstanding[x] == t.outstanding[x]
    ensures Settle(t, tag, failed, nwqid).outSeq == t.outSeq
  {
  }

  lemma ObserveOk(t: Tracker, e: Event)
    requires TrackerOk(t)
    ensures TrackerOk(Observe(t, e))
  {
    match e
    case FromKernel(m) =>
    case FromServer(m) =>
      if |m| >= HEADER_LEN {
        SettleOk(t, MsgTag(m), MsgType(m) == R_LERROR, Nwqid(m));
      }
  }

  /** Safety over whole streams: no sequence of bytes from either side, well
      formed or not, breaks the tracker's invariant. */
  lemma {:induction false} AnyStreamKeepsTrackerOk(t: Tracker, es: seq<Event>)
    requires TrackerOk(t)
    ensures TrackerOk(ObserveAll(t, es))
    decreases |es|
  {
    if es != [] {
      ObserveOk(t, es[0]);
      AnyStreamKeepsTrackerOk(Observe(t, es[0]), es[1..]);
    }
  }
}
