/** A sample run of `NineWorld`: its legal runs include ones that lose a connection
    with a request in flight. */
module NineSample {
  import opened Common
  import opened NineWire
  import opened NineSession
  import opened NineServer
  import opened NineWorld

  const R_ATTACH: byte := 105
  const T_MKDIR: byte := 72

  /** The attach every run starts with. */
  function AttachMsg(fid: u32): TMsg { Tracked(Attach(fid, 0, [], [], 0)) }

  /** A kernel attaches, asks for a directory, and loses its connection. */
  function LossyRun(fid: u32, name: Str, first: seq<byte>, reply: seq<byte>, second: seq<byte>): seq<Step> {
    [Send(0, AttachMsg(fid), first), Run(0, false), Deliver(reply), Send(1, Mkdir(fid, name), second), Reconnect]
  }

  lemma AttachSent(tree: map<Path, Str>, fid: u32, first: seq<byte>)
    requires RawRequest(first, 0, AttachMsg(fid)) && fid < TEMP_FID_BASE
    ensures Enabled(Start(tree), Send(0, AttachMsg(fid), first))
    ensures var w := Apply(Start(tree), Send(0, AttachMsg(fid), first));
            && w.waiting == w.inflight == map[0 := Request(AttachMsg(fid), first)]
            && w.trk == Record(EMPTY_TRACKER, 0, first, Some(AttachMsg(fid).p))
            && w.answers == [] && w.attach == None && w.ideal == w.host == Server(tree, map[])
  {
  }

  lemma AttachExecuted(w: World, tree: map<Path, Str>, fid: u32, first: seq<byte>)
    requires w.inflight == map[0 := Request(AttachMsg(fid), first)] && w.answers == [] && w.attach == None
    requires w.ideal == w.host == Server(tree, map[]) && fid < TEMP_FID_BASE
    ensures Enabled(w, Run(0, false))
    ensures var w' := Apply(w, Run(0, false));
            && w'.answers == [Answer(0, AttachMsg(fid), ROk)] && w'.inflight == map[]
            && w'.trk == w.trk && w'.waiting == w.waiting
  {
  }

  lemma AttachSettled(w: World, fid: u32, first: seq<byte>, reply: seq<byte>)
    requires w.trk == Record(EMPTY_TRACKER, 0, first, Some(AttachMsg(fid).p))
    requires w.answers == [Answer(0, AttachMsg(fid), ROk)] && RawReply(reply, w.answers[0])
    requires w.waiting == map[0 := Request(AttachMsg(fid), first)]
    ensures Enabled(w, Deliver(reply))
    ensures var w' := Apply(w, Deliver(reply));
            && w'.trk.pending == map[] && w'.trk.outstanding == map[] && w'.waiting == map[] && w'.answers == []
            && w'.trk.haveAttach && w'.trk.rootFid == fid && fid in w'.trk.fids && w'.inflight == w.inflight
  {
    assert OnServer(w.trk, reply) == Settle(w.trk, 0, false, Nwqid(reply));
  }

  lemma MkdirLost(w: World, fid: u32, name: Str, second: seq<byte>)
    requires w.trk.pending == map[] && w.waiting == map[] && w.answers == [] && RawRequest(second, 1, Mkdir(fid, name))
    requires w.trk.haveAttach && w.trk.rootFid == fid && fid in w.trk.fids && w.trk.outstanding == map[]
    ensures Enabled(w, Send(1, Mkdir(fid, name), second))
    ensures var w' := Apply(w, Send(1, Mkdir(fid, name), second));
            && Enabled(w', Reconnect)
            && var w'' := Apply(w', Reconnect);
               w''.inflight.Keys == {1} && w''.inflight[1].msg == Mkdir(fid, name) && fid in w''.host.fids
  {
    var w' := Apply(w, Send(1, Mkdir(fid, name), second));
    assert w'.trk.outstanding.Keys == {1} && w'.waiting.Keys == {1};
  }

  lemma AttachBytes(fid: u32) returns (raw: seq<byte>)
    ensures RawRequest(raw, 0, AttachMsg(fid))
  {
    raw := FrameOf(TypeOf(AttachMsg(fid).p), 0, Body(AttachMsg(fid).p) + []);
    RequestsHaveBytes(0, AttachMsg(fid), 0, []);
  }

  lemma AnswerBytes(a: Answer) returns (raw: seq<byte>)
    requires a.reply == ROk
    ensures RawReply(raw, a)
  {
    raw := FrameOf(R_ATTACH, a.tag, [] + []);
    RepliesHaveBytes(a, R_ATTACH, []);
  }

  lemma MkdirBytes(fid: u32, name: Str) returns (raw: seq<byte>)
    ensures RawRequest(raw, 1, Mkdir(fid, name))
  {
    raw := FrameOf(T_MKDIR, 1, []);
    RequestsHaveBytes(1, Mkdir(fid, name), T_MKDIR, []);
  }

  /** There is such a run, carried by real bytes; it is legal, and it ends with the
      request in flight on a server that knows the root fid again. */
  lemma LossyRunIsLegal(tree: map<Path, Str>, fid: u32, name: Str)
    returns (first: seq<byte>, reply: seq<byte>, second: seq<byte>)
    requires fid < TEMP_FID_BASE
    ensures LegalRun(Start(tree), LossyRun(fid, name, first, reply, second))
    ensures var w := Final(Start(tree), LossyRun(fid, name, first, reply, second));
            w.inflight.Keys == {1} && w.inflight[1].msg == Mkdir(fid, name) && fid in w.host.fids
  {
    first := AttachBytes(fid);
    reply := AnswerBytes(Answer(0, AttachMsg(fid), ROk));
    second := MkdirBytes(fid, name);
    LossyRunFrom(tree, fid, name, first, reply, second);
  }

  lemma LossyRunFrom(tree: map<Path, Str>, fid: u32, name: Str, first: seq<byte>, reply: seq<byte>, second: seq<byte>)
    requires fid < TEMP_FID_BASE && RawRequest(first, 0, AttachMsg(fid)) && RawRequest(second, 1, Mkdir(fid, name))
    requires RawReply(reply, Answer(0, AttachMsg(fid), ROk))
    ensures LegalRun(Start(tree), LossyRun(fid, name, first, reply, second))
    ensures var w := Final(Start(tree), LossyRun(fid, name, first, reply, second));
            w.inflight.Keys == {1} && w.inflight[1].msg == Mkdir(fid, name) && fid in w.host.fids
  {
    AttachSent(tree, fid, first);
    var w1 := Apply(Start(tree), Send(0, AttachMsg(fid), first));
    AttachExecuted(w1, tree, fid, first);
    var w2 := Apply(w1, Run(0, false));
    AttachSettled(w2, fid, first, reply);
    MkdirLost(Apply(w2, Deliver(reply)), fid, name, second);
    Unrolled(Start(tree), Send(0, AttachMsg(fid), first), Run(0, false), Deliver(reply),
             Send(1, Mkdir(fid, name), second), Reconnect);
  }

  lemma Prepend(w: World, a: Step, rest: seq<Step>)
    requires Enabled(w, a) && LegalRun(Apply(w, a), rest)
    ensures LegalRun(w, [a] + rest) && Final(w, [a] + rest) == Final(Apply(w, a), rest)
  {
    assert ([a] + rest)[0] == a && ([a] + rest)[1..] == rest;
  }

  lemma Unrolled(w: World, a: Step, b: Step, c: Step, d: Step, e: Step)
    requires Enabled(w, a)
    requires Enabled(Apply(w, a), b)
    requires Enabled(Apply(Apply(w, a), b), c)
    requires Enabled(Apply(Apply(Apply(w, a), b), c), d)
    requires Enabled(Apply(Apply(Apply(Apply(w, a), b), c), d), e)
    ensures LegalRun(w, [a, b, c, d, e])
    ensures Final(w, [a, b, c, d, e]) == Apply(Apply(Apply(Apply(Apply(w, a), b), c), d), e)
  {
    var w1 := Apply(w, a);
    var w2 := Apply(w1, b);
    var w3 := Apply(w2, c);
    Prepend(Apply(w3, d), e, []);
    Prepend(w3, d, [e]);
    Prepend(w2, c, [d] + [e]);
    Prepend(w1, b, [c] + ([d] + [e]));
    Prepend(w, a, [b] + ([c] + ([d] + [e])));
    assert [a] + ([b] + ([c] + ([d] + [e]))) == [a, b, c, d, e];
  }
}
