/** Kernel, tracker and server together, over runs in which the host connection is
    lost and rebuilt any number of times. Beside the real server runs an ideal one
    that receives the same requests and never dies. */
module NineWorld {
  import opened Common
  import opened NineWire
  import opened NineSession
  import opened NineServer
  import opened NineReplay

  /** A request the kernel sent: its meaning and its bytes. */
  datatype Request = Request(msg: TMsg, raw: seq<byte>)

  /** A reply the server gave and the proxy has not observed yet. */
  datatype Answer = Answer(tag: u16, msg: TMsg, reply: Reply)

  datatype World = World(
    trk: Tracker,
    waiting: map<u16, Request>,   // the kernel's view: neither answered nor flushed
    inflight: map<u16, Request>,  // sent to the server, not executed
    answers: seq<Answer>,         // executed, reply not yet observed, in execution order
    host: Server,
    ideal: Server,
    version: Pending,             // the last Tversion the server accepted
    attach: Option<Pending>,      // the Tattach it accepted
    realReplies: seq<Reply>,
    idealReplies: seq<Reply>)

  /** The root fid, once attached. */
  function RootOf(attach: Option<Pending>): Option<u32> {
    if attach.Some? && attach.value.Attach? then Some(attach.value.fid) else None
  }

  function AcceptAttach(attach: Option<Pending>, msg: TMsg, r: Reply): Option<Pending> {
    if msg.Tracked? && msg.p.Attach? && r.ROk? then Some(msg.p) else attach
  }

  /** A Tversion that names no version leaves the last one in force. */
  function AcceptVersion(v: Pending, msg: TMsg, r: Reply): Pending {
    if msg.Tracked? && msg.p.Version? && r.ROk? then
      if msg.p.version == [] && v.Version? then msg.p.(version := v.version) else msg.p
    else v
  }

  // ---------- Requests and replies as bytes ----------

  ghost predicate RawRequest(raw: seq<byte>, tag: u16, msg: TMsg) {
    && |raw| >= HEADER_LEN && MsgTag(raw) == tag
    && Parse(raw) == if msg.Tracked? then Some(msg.p) else None
  }

  ghost predicate RawReply(raw: seq<byte>, a: Answer) {
    && |raw| >= HEADER_LEN && MsgTag(raw) == a.tag
    && (MsgType(raw) == R_LERROR <==> a.reply.RError?)
    && (a.reply.RWalk? ==> Nwqid(raw) == a.reply.nwqid)
  }

  /** Every encodable request has such bytes: a frame of its type and fields, or
      for an unparsed request any frame of a type the tracker does not know. */
  lemma RequestsHaveBytes(tag: u16, msg: TMsg, typ: byte, tail: seq<byte>)
    requires if msg.Tracked? then Fits(msg.p) else typ !in PARSED_TYPES
    ensures RawRequest(if msg.Tracked? then FrameOf(TypeOf(msg.p), tag, Body(msg.p) + tail)
                       else FrameOf(typ, tag, tail), tag, msg)
  {
    if msg.Tracked? {
      FrameFields(TypeOf(msg.p), tag, Body(msg.p) + tail);
      ParseRoundTrip(tag, msg.p, tail);
    } else {
      FrameFields(typ, tag, tail);
    }
  }

  lemma RepliesHaveBytes(a: Answer, typ: byte, tail: seq<byte>)
    requires typ == R_LERROR <==> a.reply.RError?
    ensures RawReply(FrameOf(typ, a.tag, (if a.reply.RWalk? then Le16(a.reply.nwqid) else []) + tail), a)
  {
    var body := (if a.reply.RWalk? then Le16(a.reply.nwqid) else []) + tail;
    FrameFields(typ, a.tag, body);
    if a.reply.RWalk? {
      ReadU16At(Cur(body, 0, false), a.reply.nwqid, tail);
    }
  }

  // ---------- Steps ----------

  datatype Step =
    | Send(tag: u16, msg: TMsg, raw: seq<byte>)
    | Run(tag: u16, refuse: bool)
    | Deliver(raw: seq<byte>)
    | Reconnect

  /** The requests left after an answer: an answered Tflush takes its target along. */
  function Drop(waiting: map<u16, Request>, tag: u16, msg: TMsg): map<u16, Request> {
    waiting - (if msg.Tracked? && msg.p.Flush? then {tag, msg.p.oldtag} else {tag})
  }

  /** What the environment promises: a tag is not reused while it, or a flush of
      it, is unanswered (flush(5)); requests keep the v9fs discipline; a connection
      is only replaced when every executed request has been observed. */
  ghost predicate Enabled(w: World, s: Step) {
    match s
    case Send(tag, msg, raw) =>
      tag !in w.waiting && NoFlushOf(w.trk, tag) && RawRequest(raw, tag, msg)
    case Run(tag, _) => tag in w.inflight && Legal(w.ideal, RootOf(w.attach), w.inflight[tag].msg)
    case Deliver(raw) => w.answers != [] && RawReply(raw, w.answers[0])
    case Reconnect => w.answers == [] && w.trk.haveAttach
  }

  ghost predicate NoFlushOf(t: Tracker, tag: u16) {
    forall x :: x in t.pending ==> t.pending[x] != Flush(tag)
  }

  ghost function Apply(w: World, s: Step): World
    requires Enabled(w, s)
  {
    match s
    case Send(tag, msg, raw) =>
      var r := Request(msg, raw);
      w.(trk := OnClient(w.trk, raw), waiting := w.waiting[tag := r], inflight := w.inflight[tag := r])
    case Run(tag, refuse) =>
      var msg := w.inflight[tag].msg;
      var host := Exec(w.host, msg, refuse);
      var ideal := Exec(w.ideal, msg, refuse);
      w.(host := host.server, ideal := ideal.server,
         inflight := Drop(w.inflight, tag, msg),
         answers := w.answers + [Answer(tag, msg, host.reply)],
         version := AcceptVersion(w.version, msg, host.reply), attach := AcceptAttach(w.attach, msg, host.reply),
         realReplies := w.realReplies + [host.reply],
         idealReplies := w.idealReplies + [ideal.reply])
    case Deliver(raw) =>
      var a := w.answers[0];
      w.(trk := OnServer(w.trk, raw), waiting := Drop(w.waiting, a.tag, a.msg), answers := w.answers[1..])
    case Reconnect =>
      // The old server is gone with whatever it had not executed; the new one has
      // the replayed table and receives exactly the re-sent bytes.
      Replaced(w)
  }

  function Replaced(w: World): World {
    w.(host := Server(w.host.tree, Rebuilt(w.trk)),
       inflight := map tag | tag in w.trk.outstanding.Keys * w.waiting.Keys ::
                     Request(w.waiting[tag].msg, w.trk.outstanding[tag].raw))
  }

  ghost predicate LegalRun(w: World, steps: seq<Step>)
    decreases |steps|
  {
    steps == [] || (Enabled(w, steps[0]) && LegalRun(Apply(w, steps[0]), steps[1..]))
  }

  ghost function Final(w: World, steps: seq<Step>): World
    requires LegalRun(w, steps)
    decreases |steps|
  {
    if steps == [] then w else Final(Apply(w, steps[0]), steps[1..])
  }

  ghost function Start(tree: map<Path, Str>): World {
    World(EMPTY_TRACKER, map[], map[], [], Server(tree, map[]), Server(tree, map[]),
          VersionOf(EMPTY_TRACKER), None, [], [])
  }

  // ---------- What the tracker will be once all answers are observed ----------

  function SettleAnswer(t: Tracker, a: Answer): Tracker {
    Settle(t, a.tag, a.reply.RError?, if a.reply.RWalk? then a.reply.nwqid else 0)
  }

  function SettleAll(t: Tracker, answers: seq<Answer>): Tracker
    decreases |answers|
  {
    if answers == [] then t else SettleAll(SettleAnswer(t, answers[0]), answers[1..])
  }

  function DropAll(waiting: map<u16, Request>, answers: seq<Answer>): map<u16, Request>
    decreases |answers|
  {
    if answers == [] then waiting
    else DropAll(Drop(waiting, answers[0].tag, answers[0].msg), answers[1..])
  }

  /** Each answer is for a request still waited for when it arrives. */
  ghost predicate Expected(waiting: map<u16, Request>, answers: seq<Answer>)
    decreases |answers|
  {
    answers == [] ||
    (var a := answers[0];
     && a.tag in waiting && waiting[a.tag].msg == a.msg && WellTyped(a)
     && Expected(Drop(waiting, a.tag, a.msg), answers[1..]))
  }

  ghost predicate WellTyped(a: Answer) {
    a.msg.Tracked? && a.msg.p.Walk? && !a.reply.RError? ==> a.reply.RWalk?
  }

  /** The tracker's outstanding and pending tables are the kernel's open requests. */
  ghost predicate Agrees(t: Tracker, waiting: map<u16, Request>) {
    && t.outstanding.Keys == waiting.Keys
    && t.pending.Keys <= waiting.Keys
    && forall tag :: tag in waiting ==>
         && t.outstanding[tag].raw == waiting[tag].raw
         && (if waiting[tag].msg.Tracked? then tag in t.pending && t.pending[tag] == waiting[tag].msg.p
             else tag !in t.pending)
  }

  lemma AgreesSettle(t: Tracker, waiting: map<u16, Request>, a: Answer)
    requires Agrees(t, waiting) && a.tag in waiting && waiting[a.tag].msg == a.msg
    ensures Agrees(SettleAnswer(t, a), Drop(waiting, a.tag, a.msg))
  {
  }

  lemma {:induction false} AgreesSettleAll(t: Tracker, waiting: map<u16, Request>, answers: seq<Answer>)
    requires Agrees(t, waiting) && Expected(waiting, answers)
    ensures Agrees(SettleAll(t, answers), DropAll(waiting, answers))
    decreases |answers|
  {
    if answers != [] {
      var a := answers[0];
      AgreesSettle(t, waiting, a);
      AgreesSettleAll(SettleAnswer(t, a), Drop(waiting, a.tag, a.msg), answers[1..]);
    }
  }

  lemma {:induction false} AppendAnswer(t: Tracker, waiting: map<u16, Request>, answers: seq<Answer>, a: Answer)
    requires Expected(waiting, answers)
    requires a.tag in DropAll(waiting, answers) && DropAll(waiting, answers)[a.tag].msg == a.msg && WellTyped(a)
    ensures SettleAll(t, answers + [a]) == SettleAnswer(SettleAll(t, answers), a)
    ensures DropAll(waiting, answers + [a]) == Drop(DropAll(waiting, answers), a.tag, a.msg)
    ensures Expected(waiting, answers + [a])
    decreases |answers|
  {
    if answers != [] {
      var first := answers[0];
      assert (answers + [a])[1..] == answers[1..] + [a];
      AppendAnswer(SettleAnswer(t, first), Drop(waiting, first.tag, first.msg), answers[1..], a);
    }
  }

  lemma RecordNegotiateCommute(t: Tracker, q: Pending, failed: bool, tag: u16, raw: seq<byte>, p: Option<Pending>)
    ensures Negotiate(Record(t, tag, raw, p), q, failed) == Record(Negotiate(t, q, failed), tag, raw, p)
  {
  }

  /** Observing a new request and settling an old one commute. */
  lemma RecordSettleCommute(t: Tracker, a: Answer, tag: u16, raw: seq<byte>, p: Option<Pending>)
    requires tag !in Settled(t, a.tag)
    ensures SettleAnswer(Record(t, tag, raw, p), a) == Record(SettleAnswer(t, a), tag, raw, p)
  {
    var gone := Settled(t, a.tag);
    var after := Record(t, tag, raw, p);
    assert Settled(after, a.tag) == gone;
    assert after.outstanding - gone == (t.outstanding - gone)[tag := Outstanding(t.outSeq + 1, raw)];
    assert after.pending - gone == if p.Some? then (t.pending - gone)[tag := p.value] else t.pending - gone;
    if a.tag in t.pending {
      var q := t.pending[a.tag];
      var fids := CommitFids(t.fids, q, a.reply.RError?, if a.reply.RWalk? then a.reply.nwqid else 0);
      var u := t.(outstanding := t.outstanding - gone, pending := t.pending - gone, fids := fids);
      RecordNegotiateCommute(u, q, a.reply.RError?, tag, raw, p);
    }
  }

  lemma {:induction false} SendCommutes(t: Tracker, waiting: map<u16, Request>, answers: seq<Answer>,
                                        tag: u16, r: Request)
    requires Agrees(t, waiting) && Expected(waiting, answers)
    requires tag !in waiting && NoFlushOf(t, tag)
    ensures var p := if r.msg.Tracked? then Some(r.msg.p) else None;
            SettleAll(Record(t, tag, r.raw, p), answers) == Record(SettleAll(t, answers), tag, r.raw, p)
    ensures DropAll(waiting[tag := r], answers) == DropAll(waiting, answers)[tag := r]
    ensures Expected(waiting[tag := r], answers)
    decreases |answers|
  {
    if answers != [] {
      var a := answers[0];
      var p := if r.msg.Tracked? then Some(r.msg.p) else None;
      assert tag !in Settled(t, a.tag);
      RecordSettleCommute(t, a, tag, r.raw, p);
      AgreesSettle(t, waiting, a);
      var rest := Drop(waiting, a.tag, a.msg);
      assert Drop(waiting[tag := r], a.tag, a.msg) == rest[tag := r];
      SendCommutes(SettleAnswer(t, a), rest, answers[1..], tag, r);
    }
  }

  // ---------- The invariant ----------

  /** The settled tracker `f` is the ideal server's table, and knows the handshake. */
  ghost predicate Tracks(f: Tracker, ideal: Server, version: Pending, attach: Option<Pending>) {
    && Table(f.fids) == ideal.fids
    && Replayable(f)
    && version == VersionOf(f)
    && f.haveAttach == attach.Some?
    && (attach.Some? ==> attach.value == AttachOf(f) && f.rootFid in f.fids)
  }

  ghost predicate Inv(w: World) {
    && Agrees(w.trk, w.waiting)
    && Expected(w.waiting, w.answers)
    && DropAll(w.waiting, w.answers) == w.inflight
    && Tracks(SettleAll(w.trk, w.answers), w.ideal, w.version, w.attach)
    && Same(w.host, w.ideal)
    && Live(w.ideal)
    && w.realReplies == w.idealReplies
  }

  lemma StartInv(tree: map<Path, Str>)
    requires TreeOk(tree)
    ensures Inv(Start(tree))
  {
  }

  /** Committing an executed request keeps the tracker in step with the server. */
  lemma TracksCommit(f: Tracker, ideal: Server, version: Pending, attach: Option<Pending>,
                     tag: u16, p: Pending, refuse: bool)
    requires Tracks(f, ideal, version, attach) && Legal(ideal, RootOf(attach), Tracked(p))
    requires tag in f.pending && f.pending[tag] == p
    ensures var out := Exec(ideal, Tracked(p), refuse);
            Tracks(SettleAnswer(f, Answer(tag, Tracked(p), out.reply)), out.server,
                   AcceptVersion(version, Tracked(p), out.reply), AcceptAttach(attach, Tracked(p), out.reply))
  {
    var out := Exec(ideal, Tracked(p), refuse);
    var nwqid: u16 := if out.reply.RWalk? then out.reply.nwqid else 0;
    CommitTracks(f, ideal, version, attach, p, refuse, nwqid);
    var gone := Settled(f, tag);
    var fids := CommitFids(f.fids, p, out.reply.RError?, nwqid);
    TracksIgnoresRequests(Negotiate(f.(fids := fids), p, out.reply.RError?), f.outstanding - gone, f.pending - gone,
                          out.server, AcceptVersion(version, Tracked(p), out.reply),
                          AcceptAttach(attach, Tracked(p), out.reply));
  }

  /** Tracks says nothing about requests. */
  lemma TracksIgnoresRequests(f: Tracker, o: map<u16, Outstanding>, q: map<u16, Pending>,
                              ideal: Server, version: Pending, attach: Option<Pending>)
    requires Tracks(f, ideal, version, attach)
    ensures Tracks(f.(outstanding := o, pending := q), ideal, version, attach)
  {
  }

  lemma CommitTracks(f: Tracker, ideal: Server, version: Pending, attach: Option<Pending>, p: Pending,
                     refuse: bool, nwqid: u16)
    requires Tracks(f, ideal, version, attach) && Legal(ideal, RootOf(attach), Tracked(p))
    requires Exec(ideal, Tracked(p), refuse).reply.RWalk? ==> nwqid == Exec(ideal, Tracked(p), refuse).reply.nwqid
    ensures var out := Exec(ideal, Tracked(p), refuse);
            Tracks(Negotiate(f.(fids := CommitFids(f.fids, p, out.reply.RError?, nwqid)), p, out.reply.RError?),
                   out.server, AcceptVersion(version, Tracked(p), out.reply),
                   AcceptAttach(attach, Tracked(p), out.reply))
  {
    assert Table(f.fids).Keys == f.fids.Keys;
    if p.Version? {
      assert f.fids.Keys == {};
    }
    CommitMatchesExec(ideal, f.fids, p, refuse, nwqid);
    CommitKeepsReplayable(f, ideal, version, attach, p, refuse, nwqid);
  }

  lemma CommitKeepsReplayable(f: Tracker, ideal: Server, version: Pending, attach: Option<Pending>, p: Pending,
                              refuse: bool, nwqid: u16)
    requires Tracks(f, ideal, version, attach) && Legal(ideal, RootOf(attach), Tracked(p))
    ensures var out := Exec(ideal, Tracked(p), refuse);
            var fids := CommitFids(f.fids, p, out.reply.RError?, nwqid);
            && Replayable(Negotiate(f.(fids := fids), p, out.reply.RError?))
            && (attach.Some? ==> f.rootFid in fids)
            && (p.Attach? && out.reply.ROk? ==> p.fid in fids)
  {
    assert Table(f.fids).Keys == f.fids.Keys;
  }

  lemma StepInv(w: World, s: Step)
    requires Inv(w) && Enabled(w, s)
    ensures Inv(Apply(w, s))
  {
    match s
    case Send(tag, msg, raw) => SendInv(w, tag, msg, raw);
    case Run(tag, refuse) => RunInv(w, tag, refuse);
    case Deliver(raw) => DeliverInv(w, raw);
    case Reconnect => ReconnectInv(w);
  }

  lemma SendInv(w: World, tag: u16, msg: TMsg, raw: seq<byte>)
    requires Inv(w) && Enabled(w, Send(tag, msg, raw))
    ensures Inv(Apply(w, Send(tag, msg, raw)))
  {
    var p, r := if msg.Tracked? then Some(msg.p) else None, Request(msg, raw);
    assert OnClient(w.trk, raw) == Record(w.trk, tag, raw, p);
    SendCommutes(w.trk, w.waiting, w.answers, tag, r);
    RecordAgrees(w.trk, w.waiting, tag, r);
    RecordTracks(SettleAll(w.trk, w.answers), w.ideal, w.version, w.attach, tag, raw, p);
  }

  lemma RecordAgrees(t: Tracker, waiting: map<u16, Request>, tag: u16, r: Request)
    requires Agrees(t, waiting) && tag !in waiting
    ensures Agrees(Record(t, tag, r.raw, if r.msg.Tracked? then Some(r.msg.p) else None), waiting[tag := r])
  {
  }

  lemma RecordTracks(f: Tracker, ideal: Server, version: Pending, attach: Option<Pending>,
                     tag: u16, raw: seq<byte>, p: Option<Pending>)
    requires Tracks(f, ideal, version, attach)
    ensures Tracks(Record(f, tag, raw, p), ideal, version, attach)
  {
  }

  lemma RunInv(w: World, tag: u16, refuse: bool)
    requires Inv(w) && Enabled(w, Run(tag, refuse))
    ensures Inv(Apply(w, Run(tag, refuse)))
  {
    var msg := w.inflight[tag].msg;
    ExecSame(w.host, w.ideal, msg, refuse);
    ExecKeepsLive(w.ideal, RootOf(w.attach), msg, refuse);
    var a := Answer(tag, msg, Exec(w.ideal, msg, refuse).reply);
    AppendAnswer(w.trk, w.waiting, w.answers, a);
    RunTracks(w, tag, refuse);
  }

  lemma RunTracks(w: World, tag: u16, refuse: bool)
    requires Inv(w) && Enabled(w, Run(tag, refuse))
    ensures var msg := w.inflight[tag].msg;
            var out := Exec(w.ideal, msg, refuse);
            Tracks(SettleAnswer(SettleAll(w.trk, w.answers), Answer(tag, msg, out.reply)), out.server,
                   AcceptVersion(w.version, msg, out.reply), AcceptAttach(w.attach, msg, out.reply))
  {
    var msg := w.inflight[tag].msg;
    AgreesSettleAll(w.trk, w.waiting, w.answers);
    TracksRun(SettleAll(w.trk, w.answers), w.ideal, w.version, w.attach, tag, msg, refuse);
  }

  lemma TracksRun(f: Tracker, ideal: Server, version: Pending, attach: Option<Pending>,
                  tag: u16, msg: TMsg, refuse: bool)
    requires Tracks(f, ideal, version, attach) && Legal(ideal, RootOf(attach), msg)
    requires if msg.Tracked? then tag in f.pending && f.pending[tag] == msg.p else tag !in f.pending
    ensures var out := Exec(ideal, msg, refuse);
            Tracks(SettleAnswer(f, Answer(tag, msg, out.reply)), out.server,
                   AcceptVersion(version, msg, out.reply), AcceptAttach(attach, msg, out.reply))
  {
    if msg.Tracked? {
      TracksCommit(f, ideal, version, attach, tag, msg.p, refuse);
    } else {
      TracksIgnoresRequests(f, f.outstanding - {tag}, f.pending, ideal, version, attach);
    }
  }

  lemma DeliverInv(w: World, raw: seq<byte>)
    requires Inv(w) && Enabled(w, Deliver(raw))
    ensures Inv(Apply(w, Deliver(raw)))
  {
    var a := w.answers[0];
    AgreesSettle(w.trk, w.waiting, a);
    assert OnServer(w.trk, raw) == SettleAnswer(w.trk, a);
  }

  lemma ReconnectInv(w: World)
    requires Inv(w) && Enabled(w, Reconnect)
    ensures Inv(Apply(w, Reconnect))
  {
    RebuiltExactIffRootLive(w.trk);
    assert Apply(w, Reconnect).inflight == w.inflight;
  }

  // ---------- Main results ----------

  /** Resume is transparent, over whole runs: however often the connection was
      lost, every reply equals the one a server that never died would have given. */
  lemma {:induction false} ResumeIsTransparent(w: World, steps: seq<Step>)
    requires Inv(w) && LegalRun(w, steps)
    ensures Inv(Final(w, steps))
    ensures Final(w, steps).realReplies == Final(w, steps).idealReplies
    decreases |steps|
  {
    if steps != [] {
      StepInv(w, steps[0]);
      ResumeIsTransparent(Apply(w, steps[0]), steps[1..]);
    }
  }

  /** Tracker refinement: from a fresh mount, at all times the outstanding tags
      are exactly the requests neither answered nor flushed and only they have
      pending effects; and once every reply is observed, the tracked table is the
      ideal server's and, creation flags aside, the real one's, and the handshake a
      replay would send is the one the server accepted. */
  lemma TrackerRefinesServer(tree: map<Path, Str>, steps: seq<Step>)
    requires TreeOk(tree) && LegalRun(Start(tree), steps)
    ensures var w := Final(Start(tree), steps);
            && w.trk.pending.Keys <= w.trk.outstanding.Keys == w.waiting.Keys
            && (w.answers == [] ==>
                  && Table(w.trk.fids) == w.ideal.fids && SameTable(w.host.fids, Table(w.trk.fids))
                  && w.host.tree == w.ideal.tree && w.waiting == w.inflight
                  && w.version == VersionOf(w.trk)
                  && w.attach == if w.trk.haveAttach then Some(AttachOf(w.trk)) else None)
  {
    StartInv(tree);
    ResumeIsTransparent(Start(tree), steps);
  }

  /** Whenever a reconnect is possible, Replay's conditions hold: the session is
      replayable and an obliging server over the same tree has every path it needs. */
  lemma ReconnectCanReplay(tree: map<Path, Str>, steps: seq<Step>)
    requires TreeOk(tree) && LegalRun(Start(tree), steps)
    ensures var w := Final(Start(tree), steps);
            w.answers == [] ==> Replayable(w.trk) && PathsExist(w.trk.fids, w.host.tree)
  {
    StartInv(tree);
    ResumeIsTransparent(Start(tree), steps);
    var w := Final(Start(tree), steps);
    assert Table(w.trk.fids).Keys == w.trk.fids.Keys;
  }

  /** Why an executed request must have been observed first: a Tmkdir that succeeded
      on the old server and whose reply was lost is re-sent and fails on the new one. */
  lemma UnobservedMkdirFails(w: World, tag: u16)
    requires Inv(w) && w.answers == [] && w.trk.haveAttach
    requires tag in w.inflight && w.inflight[tag].msg.Mkdir?
    requires Exec(w.host, w.inflight[tag].msg, false).reply.ROk?
    ensures var lost := Replaced(Apply(w, Run(tag, false)));
            && tag in lost.inflight && lost.inflight[tag] == w.inflight[tag]
            && Exec(lost.host, lost.inflight[tag].msg, false).reply.RError?
  {
    var ran := Apply(w, Run(tag, false));
    assert Table(w.trk.fids).Keys == w.trk.fids.Keys;
    assert ran.trk == w.trk && w.waiting == w.inflight;
  }
}
