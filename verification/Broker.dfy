/** The event broker: ids, a ring of recent events, and fan-out to subscriber
    channels that may be slow, cancelled or closed. */
module Broker {
  import opened Common

  const DEFAULT_CAPACITY := 500
  const DEFAULT_DEPTH := 64

  /** An event's type is None when its discriminator cannot be read. */
  datatype Event = Event(typ: Option<string>, body: string)

  datatype Entry = Entry(id: nat, event: Event)

  /** A Go channel: what is buffered, and whether it was closed. */
  datatype Chan = Chan(buf: seq<Entry>, closed: bool)

  datatype Core = Core(
    cap: nat, depth: nat,
    nextID: nat,
    ring: seq<Entry>,
    subs: map<nat, nat>,            // subscriber id to channel
    nextSub: nat,
    closed: bool,
    filter: Option<set<string>>,
    chans: map<nat, Chan>,          // every channel ever made
    nextChan: nat,
    panicked: bool)                 // a send on, or second close of, a closed channel

  function Init(capacity: int, depth: int): Core {
    Core(if capacity <= 0 then DEFAULT_CAPACITY else capacity, if depth <= 0 then DEFAULT_DEPTH else depth,
         0, [], map[], 0, false, None, map[], 0, false)
  }

  predicate Observes(c: Core, e: Event) {
    e.typ.None? || c.filter.None? || e.typ.value in c.filter.value
  }

  // ---------- Channel operations ----------

  function CloseChan(c: Core, ch: nat): Core
    requires ch in c.chans
  {
    if c.chans[ch].closed then c.(panicked := true)
    else c.(chans := c.chans[ch := c.chans[ch].(closed := true)])
  }

  /** A non-blocking send: a full buffer drops the entry. */
  function Offer(k: Chan, e: Entry, depth: nat): Chan {
    if |k.buf| < depth then k.(buf := k.buf + [e]) else k
  }

  function Offered(chans: map<nat, Chan>, to: set<nat>, e: Entry, depth: nat): map<nat, Chan> {
    map ch | ch in chans :: if ch in to then Offer(chans[ch], e, depth) else chans[ch]
  }

  // ---------- Operations ----------

  function Keep(ring: seq<Entry>, e: Entry, cap: nat): seq<Entry> {
    if |ring| < cap || ring == [] then ring + [e] else ring[1..] + [e]
  }

  function Targets(c: Core): set<nat> { set s | s in c.subs :: c.subs[s] }

  function Published(c: Core, ev: Event): Core {
    var e := Entry(c.nextID + 1, ev);
    if !Observes(c, ev) then c.(nextID := c.nextID + 1)
    else
      c.(nextID := c.nextID + 1,
         ring := Keep(c.ring, e, c.cap),
         panicked := c.panicked || exists ch :: ch in Targets(c) && ch in c.chans && c.chans[ch].closed,
         chans := Offered(c.chans, Targets(c), e, c.depth))
  }

  function Above(es: seq<Entry>, after: int): seq<Entry> {
    if es == [] then []
    else if es[|es| - 1].id > after then Above(es[..|es| - 1], after) + [es[|es| - 1]]
    else Above(es[..|es| - 1], after)
  }

  function Subscribed(c: Core): Core {
    if c.closed then
      c.(chans := c.chans[c.nextChan := Chan([], true)], nextChan := c.nextChan + 1)
    else
      c.(chans := c.chans[c.nextChan := Chan([], false)], nextChan := c.nextChan + 1,
         subs := c.subs[c.nextSub := c.nextChan], nextSub := c.nextSub + 1)
  }

  /** unsubscribe with the channel the cancel function holds. */
  function Unsubscribed(c: Core, sub: nat, ch: nat): Core
    requires ch in c.chans
  {
    if sub !in c.subs then c else CloseChan(c.(subs := c.subs - {sub}), ch)
  }

  // ---------- The broker as an object ----------

  class PubSub {
    const cap: nat
    const depth: nat
    var nextID: nat
    var ring: seq<Entry>
    var subs: map<nat, nat>
    var nextSub: nat
    var closed: bool
    var filter: Option<set<string>>
    var chans: map<nat, Chan>
    var nextChan: nat
    var panicked: bool

    ghost function View(): Core
      reads this
    {
      Core(cap, depth, nextID, ring, subs, nextSub, closed, filter, chans, nextChan, panicked)
    }

    /** The ring has room and every subscriber's channel exists. */
    ghost predicate Valid()
      reads this
    {
      cap > 0 && Targets(View()) <= chans.Keys
    }

    constructor (capacity: int, subDepth: int)
      ensures Valid() && View() == Init(capacity, subDepth)
    {
      cap := if capacity <= 0 then DEFAULT_CAPACITY else capacity;
      depth := if subDepth <= 0 then DEFAULT_DEPTH else subDepth;
      nextID, ring, subs, nextSub, closed, filter := 0, [], map[], 0, false, None;
      chans, nextChan, panicked := map[], 0, false;
    }

    method Publish(ev: Event) returns (id: nat)
      requires Valid()
      modifies this
      ensures Valid() && View() == Published(old(View()), ev) && id == old(nextID) + 1
    {
      nextID := nextID + 1;
      var e := Entry(nextID, ev);
      if ev.typ.None? || filter.None? || ev.typ.value in filter.value {
        if |ring| < cap {
          ring := ring + [e];
        } else {
          ring := ring[1..] + [e];
        }
        FanOut(e);
      }
      id := nextID;
    }

    /** The send loop over all subscribers, in any order. */
    method FanOut(e: Entry)
      requires Targets(View()) <= chans.Keys
      modifies this`chans, this`panicked
      ensures chans == Offered(old(chans), Targets(View()), e, depth)
      ensures panicked == (old(panicked) ||
                           exists ch :: ch in Targets(View()) && ch in old(chans) && old(chans)[ch].closed)
    {
      var rest := set s | s in subs :: subs[s];
      ghost var all, done: set<nat> := rest, {};
      while rest != {}
        invariant done + rest == all == Targets(View()) && done !! rest && all <= chans.Keys
        invariant chans == Offered(old(chans), done, e, depth)
        invariant panicked == (old(panicked) || exists ch :: ch in done && ch in old(chans) && old(chans)[ch].closed)
        decreases rest
      {
        var ch :| ch in rest;
        if chans[ch].closed {
          panicked := true;
        }
        if |chans[ch].buf| < depth {
          chans := chans[ch := chans[ch].(buf := chans[ch].buf + [e])];
        }
        rest, done := rest - {ch}, done + {ch};
      }
      assert done == all;
    }

    method Subscribe(after: int) returns (replay: seq<Entry>, ch: nat)
      requires Valid()
      modifies this
      ensures Valid() && View() == Subscribed(old(View())) && ch == old(nextChan)
      ensures replay == if old(closed) then [] else Above(old(ring), after)
    {
      ch := nextChan;
      nextChan := nextChan + 1;
      replay := [];
      if closed {
        chans := chans[ch := Chan([], true)];
        return;
      }
      for i := 0 to |ring|
        invariant replay == Above(ring[..i], after)
      {
        assert ring[..i + 1][..i] == ring[..i];
        if ring[i].id > after {
          replay := replay + [ring[i]];
        }
      }
      assert ring[..|ring|] == ring;
      chans := chans[ch := Chan([], false)];
      subs := subs[nextSub := ch];
      nextSub := nextSub + 1;
    }

    method Unsubscribe(sub: nat, ch: nat)
      requires Valid() && ch in chans
      modifies this`subs, this`chans, this`panicked
      ensures Valid() && View() == Unsubscribed(old(View()), sub, ch)
    {
      if sub !in subs {
        return;
      }
      subs := subs - {sub};
      if chans[ch].closed {
        panicked := true;
      } else {
        chans := chans[ch := chans[ch].(closed := true)];
      }
    }
  }

  // ---------- Runs ----------

  /** What a subscriber has: its replay slice, the entries it received, where in
      the stream it joined, and whether a send to it was dropped. */
  datatype Client = Client(after: int, replay: seq<Entry>, got: seq<Entry>, start: nat, dropped: bool)

  datatype State = State(
    core: Core,
    observed: seq<Entry>,          // everything published and observed
    clients: map<nat, Client>,     // by channel
    issued: map<nat, nat>,         // cancel functions handed out: subscriber to channel
    closing: set<nat>)             // taken by Close, not closed yet

  datatype Step =
    | Publish(ev: Event)
    | Subscribe(after: int)
    | Cancel(sub: nat)
    | Receive(ch: nat)
    | SetFilter(filter: Option<set<string>>)
    | CloseBroker                  // Close, under the lock
    | CloseOne(ch: nat)            // Close, outside the lock

  predicate Enabled(s: State, step: Step) {
    match step
    case Cancel(sub) => sub in s.issued && s.issued[sub] in s.core.chans
    case Receive(ch) => ch in s.core.chans && s.core.chans[ch].buf != [] && ch in s.clients
    case CloseOne(ch) => ch in s.closing && ch in s.core.chans
    case _ => true
  }

  function Start(capacity: int, depth: int): State { State(Init(capacity, depth), [], map[], map[], {}) }

  function Apply(s: State, step: Step): State
    requires Enabled(s, step)
  {
    var c := s.core;
    match step
    case Publish(ev) =>
      if ev.typ.Some? && c.filter.Some? && ev.typ.value !in c.filter.value then s.(core := Published(c, ev))
      else
        s.(core := Published(c, ev), observed := s.observed + [Entry(c.nextID + 1, ev)],
           clients := map ch | ch in s.clients ::
                        if ch in Targets(c) && ch in c.chans && |c.chans[ch].buf| >= c.depth
                        then s.clients[ch].(dropped := true) else s.clients[ch])
    case Subscribe(after) =>
      if c.closed then s.(core := Subscribed(c))
      else
        s.(core := Subscribed(c), issued := s.issued[c.nextSub := c.nextChan],
           clients := s.clients[c.nextChan := Client(after, Above(c.ring, after), [], |s.observed|, false)])
    case Cancel(sub) => s.(core := Unsubscribed(c, sub, s.issued[sub]))
    case Receive(ch) =>
      s.(core := c.(chans := c.chans[ch := c.chans[ch].(buf := c.chans[ch].buf[1..])]),
         clients := s.clients[ch := s.clients[ch].(got := s.clients[ch].got + [c.chans[ch].buf[0]])])
    case SetFilter(f) => s.(core := c.(filter := f))
    case CloseBroker =>
      if c.closed then s
      else s.(core := c.(closed := true, subs := map[]), closing := Targets(c))
    case CloseOne(ch) => s.(core := CloseChan(c, ch), closing := s.closing - {ch})
  }

  predicate LegalRun(s: State, steps: seq<Step>)
    decreases |steps|
  {
    steps == [] || (Enabled(s, steps[0]) && LegalRun(Apply(s, steps[0]), steps[1..]))
  }

  function Final(s: State, steps: seq<Step>): State
    requires LegalRun(s, steps)
    decreases |steps|
  {
    if steps == [] then s else Final(Apply(s, steps[0]), steps[1..])
  }

  // ---------- The invariant ----------

  function LastOf(es: seq<Entry>, n: nat): seq<Entry> { if |es| <= n then es else es[|es| - n..] }

  ghost predicate Increasing(es: seq<Entry>, bound: nat) {
    && (forall i, j :: 0 <= i < j < |es| ==> es[i].id < es[j].id)
    && forall i :: 0 <= i < |es| ==> es[i].id <= bound
  }

  ghost predicate RingOk(s: State) {
    && s.core.cap > 0
    && s.core.ring == LastOf(s.observed, s.core.cap)
    && Increasing(s.observed, s.core.nextID)
  }

  /** Channels in use are open and belong to one subscriber each. */
  ghost predicate ChannelsOk(s: State) {
    var c := s.core;
    && !c.panicked
    && (forall ch :: ch in c.chans ==> ch < c.nextChan)
    && (forall x :: x in s.issued ==> x < c.nextSub && s.issued[x] in c.chans && s.issued[x] in s.clients)
    && (forall x, y :: x in s.issued && y in s.issued && x != y ==> s.issued[x] != s.issued[y])
    && (forall x :: x in c.subs ==> x in s.issued && s.issued[x] == c.subs[x] && !c.chans[c.subs[x]].closed)
    && (forall ch :: ch in s.closing ==> ch in c.chans && !c.chans[ch].closed && ch !in Targets(c))
    && (forall ch :: ch in s.clients ==> ch in c.chans)
    && (c.closed ==> c.subs == map[]) && (!c.closed ==> s.closing == {})
  }

  /** `a` is `b` with some entries left out. */
  ghost predicate Thinned(a: seq<Entry>, b: seq<Entry>)
    decreases |b|
  {
    a == [] ||
    (b != [] &&
     var older := b[..|b| - 1];
     Thinned(a, older) || (a[|a| - 1] == b[|b| - 1] && Thinned(a[..|a| - 1], older)))
  }

  lemma ThinnedGrows(a: seq<Entry>, b: seq<Entry>, e: Entry)
    requires Thinned(a, b)
    ensures Thinned(a, b + [e]) && Thinned(a + [e], b + [e])
  {
    assert (b + [e])[..|b|] == b && (a + [e])[..|a|] == a;
  }

  lemma {:induction false} ThinnedIncreasing(a: seq<Entry>, b: seq<Entry>, bound: nat)
    requires Thinned(a, b) && Increasing(b, bound)
    ensures Increasing(a, bound) && forall x :: x in a ==> x in b
    decreases |b|
  {
    if a != [] {
      var older, last := b[..|b| - 1], b[|b| - 1];
      assert b == older + [last];
      SplitIncreasing(b, bound, |b| - 1);
      if Thinned(a, older) {
        ThinnedIncreasing(a, older, bound);
      } else {
        var front := a[..|a| - 1];
        ThinnedIncreasing(front, older, bound);
        assert a == front + [last] && b[|b| - 1..] == [last];
        JoinIncreasing(front, [last], older, [last], bound);
      }
    }
  }

  /** A subscriber's stream: the retained entries above its mark, then what was
      observed since, without a gap or a repeat at the seam, until a drop. After a
      drop entries may be missing, but none is repeated, reordered or made up. */
  ghost predicate Streams(k: Client, buf: seq<Entry>, observed: seq<Entry>, cap: nat, inUse: bool) {
    && k.start <= |observed|
    && k.replay == Above(LastOf(observed[..k.start], cap), k.after)
    && Thinned(k.got + buf, observed[k.start..])
    && (!k.dropped ==> k.got + buf <= observed[k.start..])
    && (!k.dropped && inUse ==> k.got + buf == observed[k.start..])
  }

  ghost predicate StreamOk(s: State, ch: nat)
    requires ch in s.clients && ch in s.core.chans
  {
    Streams(s.clients[ch], s.core.chans[ch].buf, s.observed, s.core.cap, ch in Targets(s.core))
  }

  ghost predicate Inv(s: State) {
    RingOk(s) && ChannelsOk(s) && forall ch :: ch in s.clients ==> StreamOk(s, ch)
  }

  lemma KeepIsLast(observed: seq<Entry>, e: Entry, cap: nat)
    requires cap > 0
    ensures Keep(LastOf(observed, cap), e, cap) == LastOf(observed + [e], cap)
  {
  }

  lemma OfferedKeeps(chans: map<nat, Chan>, to: set<nat>, e: Entry, depth: nat)
    ensures Offered(chans, to, e, depth).Keys == chans.Keys
    ensures forall ch :: ch in chans ==> Offered(chans, to, e, depth)[ch].closed == chans[ch].closed
  {
  }

  lemma TargetsAreOpen(s: State)
    requires ChannelsOk(s)
    ensures forall ch :: ch in Targets(s.core) ==> ch in s.core.chans && !s.core.chans[ch].closed
  {
    forall ch | ch in Targets(s.core) ensures ch in s.core.chans && !s.core.chans[ch].closed {
      var x :| x in s.core.subs && s.core.subs[x] == ch;
    }
  }

  /** Nothing that ChannelsOk speaks of differs. */
  lemma SameChannels(s: State, t: State)
    requires ChannelsOk(s)
    requires t.core.subs == s.core.subs && t.issued == s.issued && t.closing == s.closing
    requires t.clients.Keys == s.clients.Keys && t.core.chans.Keys == s.core.chans.Keys
    requires t.core.nextSub == s.core.nextSub && t.core.nextChan == s.core.nextChan && t.core.closed == s.core.closed
    requires !t.core.panicked && forall ch :: ch in s.core.chans ==> t.core.chans[ch].closed == s.core.chans[ch].closed
    ensures ChannelsOk(t)
  {
    assert Targets(t.core) == Targets(s.core);
  }

  lemma PublishedFrame(c: Core, ev: Event)
    ensures var d := Published(c, ev);
            && d.subs == c.subs && d.nextSub == c.nextSub && d.nextChan == c.nextChan && d.closed == c.closed
            && d.chans.Keys == c.chans.Keys
            && forall ch :: ch in c.chans ==> d.chans[ch].closed == c.chans[ch].closed
  {
    OfferedKeeps(c.chans, Targets(c), Entry(c.nextID + 1, ev), c.depth);
  }

  lemma PublishFrame(s: State, ev: Event)
    ensures var t := Apply(s, Publish(ev));
            && t.core == Published(s.core, ev) && t.issued == s.issued && t.closing == s.closing
            && t.clients.Keys == s.clients.Keys
  {
  }

  lemma PublishNoPanic(c: Core, ev: Event)
    requires !c.panicked && forall ch :: ch in Targets(c) && ch in c.chans ==> !c.chans[ch].closed
    ensures !Published(c, ev).panicked
  {
  }

  lemma PublishKeepsChannels(s: State, ev: Event)
    requires ChannelsOk(s)
    ensures ChannelsOk(Apply(s, Publish(ev)))
  {
    TargetsAreOpen(s);
    PublishFrame(s, ev);
    PublishedFrame(s.core, ev);
    PublishNoPanic(s.core, ev);
    SameChannels(s, Apply(s, Publish(ev)));
  }

  /** One more observed entry, offered to a channel in use and to no other. */
  lemma OfferKeepsStream(k: Client, buf: seq<Entry>, observed: seq<Entry>, cap: nat, inUse: bool, e: Entry, room: bool)
    requires Streams(k, buf, observed, cap, inUse)
    ensures Streams(if inUse && !room then k.(dropped := true) else k,
                    if inUse && room then buf + [e] else buf, observed + [e], cap, inUse)
  {
    assert (observed + [e])[..k.start] == observed[..k.start];
    assert (observed + [e])[k.start..] == observed[k.start..] + [e];
    assert k.got + (buf + [e]) == (k.got + buf) + [e];
    ThinnedGrows(k.got + buf, observed[k.start..], e);
  }

  /** What publishing an observed event does to one subscriber. */
  lemma PublishEffect(s: State, ev: Event, ch: nat)
    requires Observes(s.core, ev) && ch in s.clients && ch in s.core.chans
    ensures var t := Apply(s, Publish(ev));
            var e, inUse := Entry(s.core.nextID + 1, ev), ch in Targets(s.core);
            var room := |s.core.chans[ch].buf| < s.core.depth;
            && ch in t.clients && ch in t.core.chans && t.observed == s.observed + [e] && t.core.cap == s.core.cap
            && t.clients[ch] == (if inUse && !room then s.clients[ch].(dropped := true) else s.clients[ch])
            && t.core.chans[ch].buf == (if inUse && room then s.core.chans[ch].buf + [e] else s.core.chans[ch].buf)
            && Targets(t.core) == Targets(s.core)
  {
  }

  lemma PublishKeepsStream(s: State, ev: Event, ch: nat)
    requires Observes(s.core, ev) && ch in s.clients && ch in s.core.chans && StreamOk(s, ch)
    ensures var t := Apply(s, Publish(ev)); ch in t.clients && ch in t.core.chans && StreamOk(t, ch)
  {
    PublishEffect(s, ev, ch);
    OfferKeepsStream(s.clients[ch], s.core.chans[ch].buf, s.observed, s.core.cap, ch in Targets(s.core),
                     Entry(s.core.nextID + 1, ev), |s.core.chans[ch].buf| < s.core.depth);
  }

  lemma IncreasingAppend(es: seq<Entry>, e: Entry, bound: nat)
    requires Increasing(es, bound) && e.id > bound
    ensures Increasing(es + [e], e.id)
  {
  }

  lemma PublishKeepsRing(s: State, ev: Event)
    requires RingOk(s)
    ensures RingOk(Apply(s, Publish(ev)))
  {
    var e := Entry(s.core.nextID + 1, ev);
    KeepIsLast(s.observed, e, s.core.cap);
    IncreasingAppend(s.observed, e, s.core.nextID);
    var t := Apply(s, Publish(ev));
    assert t.core.nextID == e.id && t.core.cap == s.core.cap;
    if Observes(s.core, ev) {
      assert t.observed == s.observed + [e] && t.core.ring == Keep(s.core.ring, e, s.core.cap);
    } else {
      assert t.observed == s.observed && t.core.ring == s.core.ring;
    }
  }

  lemma PublishInv(s: State, ev: Event)
    requires Inv(s)
    ensures Inv(Apply(s, Publish(ev)))
  {
    PublishKeepsRing(s, ev);
    PublishKeepsChannels(s, ev);
    var t := Apply(s, Publish(ev));
    forall ch | ch in t.clients ensures StreamOk(t, ch) {
      assert StreamOk(s, ch);
      if Observes(s.core, ev) {
        PublishKeepsStream(s, ev, ch);
      }
    }
  }

  lemma SubscribeKeepsChannels(s: State, after: int)
    requires ChannelsOk(s)
    ensures ChannelsOk(Apply(s, Subscribe(after)))
    ensures Targets(Apply(s, Subscribe(after)).core) <= Targets(s.core) + {s.core.nextChan}
  {
    var t := Apply(s, Subscribe(after));
    assert s.core.nextChan !in s.core.chans && s.core.nextSub !in s.issued;
  }

  lemma SubscribeInv(s: State, after: int)
    requires Inv(s)
    ensures Inv(Apply(s, Subscribe(after)))
  {
    var t := Apply(s, Subscribe(after));
    SubscribeKeepsChannels(s, after);
    forall ch | ch in t.clients ensures StreamOk(t, ch) {
      if ch in s.clients {
        assert StreamOk(s, ch);
      } else {
        assert s.observed[..|s.observed|] == s.observed;
      }
    }
  }

  lemma CloseKeepsChannels(s: State, subs: map<nat, nat>, closing: set<nat>, ch: nat)
    requires ChannelsOk(s) && ch in s.core.chans && !s.core.chans[ch].closed
    requires subs.Keys <= s.core.subs.Keys && (forall x :: x in subs ==> subs[x] == s.core.subs[x] && subs[x] != ch)
    requires closing <= s.closing - {ch}
    ensures var t := s.(core := CloseChan(s.core.(subs := subs), ch), closing := closing);
            ChannelsOk(t) && Targets(t.core) <= Targets(s.core)
  {
  }

  /** Closing one open channel that nobody sends to any more keeps everything. */
  lemma CloseChanInv(s: State, subs: map<nat, nat>, closing: set<nat>, ch: nat)
    requires Inv(s) && ch in s.core.chans && !s.core.chans[ch].closed
    requires subs.Keys <= s.core.subs.Keys && (forall x :: x in subs ==> subs[x] == s.core.subs[x] && subs[x] != ch)
    requires closing <= s.closing - {ch}
    ensures Inv(s.(core := CloseChan(s.core.(subs := subs), ch), closing := closing))
  {
    CloseKeepsChannels(s, subs, closing, ch);
    var t := s.(core := CloseChan(s.core.(subs := subs), ch), closing := closing);
    forall c | c in t.clients ensures StreamOk(t, c) {
      assert StreamOk(s, c);
    }
  }

  lemma CancelInv(s: State, sub: nat)
    requires Inv(s) && Enabled(s, Cancel(sub))
    ensures Inv(Apply(s, Cancel(sub)))
  {
    if sub in s.core.subs {
      var ch := s.issued[sub];
      assert ch in Targets(s.core);
      CloseChanInv(s, s.core.subs - {sub}, s.closing, ch);
    }
  }

  lemma CloseOneInv(s: State, ch: nat)
    requires Inv(s) && Enabled(s, CloseOne(ch))
    ensures Inv(Apply(s, CloseOne(ch)))
  {
    assert forall x :: x in s.core.subs ==> s.core.subs[x] in Targets(s.core);
    CloseChanInv(s, s.core.subs, s.closing - {ch}, ch);
  }

  lemma CloseBrokerInv(s: State)
    requires Inv(s)
    ensures Inv(Apply(s, CloseBroker))
  {
    var t := Apply(s, CloseBroker);
    if !s.core.closed {
      forall ch | ch in t.closing ensures ch in t.core.chans && !t.core.chans[ch].closed {
        var x :| x in s.core.subs && s.core.subs[x] == ch;
      }
      assert Targets(t.core) == {};
      forall ch | ch in t.clients ensures StreamOk(t, ch) {
        assert StreamOk(s, ch);
      }
    }
  }

  lemma TakeKeepsStream(k: Client, buf: seq<Entry>, observed: seq<Entry>, cap: nat, inUse: bool)
    requires Streams(k, buf, observed, cap, inUse) && buf != []
    ensures Streams(k.(got := k.got + [buf[0]]), buf[1..], observed, cap, inUse)
  {
    assert (k.got + [buf[0]]) + buf[1..] == k.got + buf;
  }

  lemma ReceiveKeepsChannels(s: State, ch: nat)
    requires ChannelsOk(s) && Enabled(s, Receive(ch))
    ensures ChannelsOk(Apply(s, Receive(ch)))
    ensures Targets(Apply(s, Receive(ch)).core) == Targets(s.core)
  {
  }

  lemma ReceiveInv(s: State, ch: nat)
    requires Inv(s) && Enabled(s, Receive(ch))
    ensures Inv(Apply(s, Receive(ch)))
  {
    var t := Apply(s, Receive(ch));
    ReceiveKeepsChannels(s, ch);
    assert StreamOk(s, ch);
    TakeKeepsStream(s.clients[ch], s.core.chans[ch].buf, s.observed, s.core.cap, ch in Targets(s.core));
    forall c | c in t.clients ensures StreamOk(t, c) {
      assert StreamOk(s, c);
      if c != ch {
        assert t.clients[c] == s.clients[c] && t.core.chans[c] == s.core.chans[c];
      }
    }
  }

  lemma StepKeepsInv(s: State, step: Step)
    requires Inv(s) && Enabled(s, step)
    ensures Inv(Apply(s, step))
  {
    match step
    case Publish(ev) => PublishInv(s, ev);
    case Subscribe(after) => SubscribeInv(s, after);
    case Cancel(sub) => CancelInv(s, sub);
    case Receive(ch) => ReceiveInv(s, ch);
    case SetFilter(f) => SetFilterInv(s, f);
    case CloseBroker => CloseBrokerInv(s);
    case CloseOne(ch) => CloseOneInv(s, ch);
  }

  lemma {:induction false} RunKeepsInv(s: State, steps: seq<Step>)
    requires Inv(s) && LegalRun(s, steps)
    ensures Inv(Final(s, steps))
    decreases |steps|
  {
    if steps != [] {
      StepKeepsInv(s, steps[0]);
      RunKeepsInv(Apply(s, steps[0]), steps[1..]);
    }
  }

  lemma SetFilterInv(s: State, f: Option<set<string>>)
    requires Inv(s)
    ensures Inv(Apply(s, SetFilter(f)))
  {
    var t := Apply(s, SetFilter(f));
    assert Targets(t.core) == Targets(s.core);
    forall c | c in t.clients ensures StreamOk(t, c) {
      assert StreamOk(s, c);
    }
  }

  // ---------- What is observed, and defaults ----------

  /** With no filter everything is observed; a filter lets exactly its own types
      through, none if it is empty, and events whose type cannot be read. What is
      observed enters the ring under the next id, what is not leaves it alone; the
      id is used either way. */
  lemma FilterDecides(c: Core, ev: Event)
    ensures var d := Published(c, ev);
            var seen := c.filter.None? || ev.typ.None? || ev.typ.value in c.filter.value;
            && d.nextID == c.nextID + 1
            && (seen ==> d.ring != [] && d.ring[|d.ring| - 1] == Entry(c.nextID + 1, ev))
            && (!seen ==> d.ring == c.ring && d.chans == c.chans)
  {
  }

  lemma Defaults(capacity: int, depth: int)
    ensures var c := Init(capacity, depth);
            && c.cap == (if capacity > 0 then capacity else 500) && c.depth == (if depth > 0 then depth else 64)
            && c.filter == None && !c.closed && c.ring == [] && c.nextID == 0
  {
  }

  /** A closed broker hands out a closed channel and registers nobody; an open one an
      open, empty channel, registered under a new number. */
  lemma SubscribeHandsOut(c: Core)
    ensures var d := Subscribed(c);
            && d.chans[c.nextChan] == Chan([], c.closed)
            && (c.closed ==> d.subs == c.subs)
            && (!c.closed ==> d.subs == c.subs[c.nextSub := c.nextChan])
  {
  }

  /** Cancelling closes the channel and unregisters it, once. */
  lemma CancelCloses(s: State, sub: nat)
    requires ChannelsOk(s) && sub in s.issued
    ensures var t, ch := Apply(s, Cancel(sub)), s.issued[sub];
            && sub !in t.core.subs
            && (sub in s.core.subs ==> t.core.chans[ch].closed && !t.core.panicked)
            && (sub !in s.core.subs ==> t == s)
  {
    if sub in s.core.subs {
      assert s.core.subs[sub] == s.issued[sub];
    }
  }

  /** Every subscriber is still registered, about to be closed, or closed. */
  ghost predicate Accounted(s: State) {
    forall ch :: ch in s.clients ==> AccountedAt(s, ch)
  }

  lemma StepAccounted(s: State, step: Step)
    requires Inv(s) && Accounted(s) && Enabled(s, step)
    ensures Accounted(Apply(s, step))
  {
    var t := Apply(s, step);
    forall ch | ch in t.clients ensures AccountedAt(t, ch) {
      AccountedFor(s, step, ch);
    }
  }

  ghost predicate AccountedAt(s: State, ch: nat) {
    ch in s.core.chans ==> s.core.chans[ch].closed || ch in Targets(s.core) || ch in s.closing
  }

  lemma AccountedFor(s: State, step: Step, ch: nat)
    requires Inv(s) && Accounted(s) && Enabled(s, step) && ch in Apply(s, step).clients
    ensures AccountedAt(Apply(s, step), ch)
  {
    match step
    case Publish(ev) => PublishAccounts(s, ev, ch);
    case Subscribe(after) => SubscribeAccounts(s, after, ch);
    case Cancel(sub) => CancelAccounts(s, sub, ch);
    case Receive(c) => ReceiveAccounts(s, c, ch);
    case SetFilter(_) => assert Targets(Apply(s, step).core) == Targets(s.core);
    case CloseBroker => CloseBrokerAccounts(s, ch);
    case CloseOne(c) => CloseOneAccounts(s, c, ch);
  }

  lemma SubscribeAccounts(s: State, after: int, ch: nat)
    requires ChannelsOk(s) && Accounted(s) && ch in Apply(s, Subscribe(after)).clients
    ensures AccountedAt(Apply(s, Subscribe(after)), ch)
  {
    if !s.core.closed {
      RegisteredTargets(s.core);
    }
  }

  lemma ReceiveAccounts(s: State, c: nat, ch: nat)
    requires Accounted(s) && Enabled(s, Receive(c)) && ch in s.clients
    ensures AccountedAt(Apply(s, Receive(c)), ch)
  {
    assert Targets(Apply(s, Receive(c)).core) == Targets(s.core);
  }

  lemma CloseBrokerAccounts(s: State, ch: nat)
    requires Accounted(s) && ChannelsOk(s) && ch in s.clients
    ensures AccountedAt(Apply(s, CloseBroker), ch)
  {
  }

  lemma CloseOneAccounts(s: State, c: nat, ch: nat)
    requires Accounted(s) && ChannelsOk(s) && Enabled(s, CloseOne(c)) && ch in s.clients
    ensures AccountedAt(Apply(s, CloseOne(c)), ch)
  {
    assert Targets(Apply(s, CloseOne(c)).core) == Targets(s.core);
  }

  lemma PublishAccounts(s: State, ev: Event, ch: nat)
    requires Accounted(s) && ch in s.clients
    ensures AccountedAt(Apply(s, Publish(ev)), ch)
  {
    PublishFrame(s, ev);
    PublishedFrame(s.core, ev);
    assert AccountedAt(s, ch) && Targets(Published(s.core, ev)) == Targets(s.core);
  }

  lemma CancelAccounts(s: State, sub: nat, ch: nat)
    requires ChannelsOk(s) && Accounted(s) && Enabled(s, Cancel(sub)) && ch in s.clients
    ensures AccountedAt(Apply(s, Cancel(sub)), ch)
  {
    if sub in s.core.subs && ch != s.issued[sub] && ch in Targets(s.core) {
      var x :| x in s.core.subs && s.core.subs[x] == ch;
      assert x != sub && Apply(s, Cancel(sub)).core.subs[x] == ch;
    }
  }

  lemma RegisteredTargets(c: Core)
    requires !c.closed && forall x :: x in c.subs ==> x < c.nextSub
    ensures Targets(Subscribed(c)) == Targets(c) + {c.nextChan}
  {
    var d := Subscribed(c);
    assert d.subs[c.nextSub] == c.nextChan;
    forall ch | ch in Targets(c) ensures ch in Targets(d) {
      var x :| x in c.subs && c.subs[x] == ch;
      assert d.subs[x] == ch;
    }
  }

  lemma {:induction false} RunAccounted(s: State, steps: seq<Step>)
    requires Inv(s) && Accounted(s) && LegalRun(s, steps)
    ensures Accounted(Final(s, steps))
    decreases |steps|
  {
    if steps != [] {
      StepAccounted(s, steps[0]);
      StepKeepsInv(s, steps[0]);
      RunAccounted(Apply(s, steps[0]), steps[1..]);
    }
  }

  // ---------- Main results ----------

  lemma {:induction false} AboveMembers(es: seq<Entry>, after: int)
    ensures forall x :: x in Above(es, after) <==> x in es && x.id > after
  {
    if es != [] {
      var front, last := es[..|es| - 1], es[|es| - 1];
      AboveMembers(front, after);
      assert es == front + [last];
    }
  }

  lemma {:induction false} AboveIncreasing(es: seq<Entry>, after: int, bound: nat)
    requires Increasing(es, bound)
    ensures Increasing(Above(es, after), bound)
  {
    if |es| > 1 {
      var front, last := es[..|es| - 1], es[|es| - 1];
      assert es[0].id < last.id;
      assert Increasing(front, last.id - 1);
      AboveIncreasing(front, after, last.id - 1);
      IncreasingAppend(Above(front, after), last, last.id - 1);
    }
  }

  /** Over every run: no channel is closed twice or sent to after closing; the ring
      is the last `cap` observed entries; and a subscriber that was never dropped has
      replay, received and buffered entries that form one stream. */
  lemma BrokerStreams(capacity: int, depth: int, steps: seq<Step>, ch: nat)
    requires LegalRun(Start(capacity, depth), steps)
    ensures var s := Final(Start(capacity, depth), steps);
            && !s.core.panicked
            && s.core.ring == LastOf(s.observed, s.core.cap) && Increasing(s.observed, s.core.nextID)
            && (ch in s.clients ==> ch in s.core.chans && StreamOk(s, ch))
  {
    var start := Start(capacity, depth);
    assert Targets(start.core) == {};
    RunKeepsInv(start, steps);
  }

  /** Nobody is forgotten, over every run: a subscriber's channel is open only while
      it is registered or Close is about to close it, so that once Close is through
      every channel ever handed to a subscriber is closed. */
  lemma CloseReachesAll(capacity: int, depth: int, steps: seq<Step>, ch: nat)
    requires LegalRun(Start(capacity, depth), steps) && ch in Final(Start(capacity, depth), steps).clients
    ensures var s := Final(Start(capacity, depth), steps);
            && ch in s.core.chans
            && (s.core.closed && s.closing == {} ==> s.core.chans[ch].closed)
            && (!s.core.chans[ch].closed ==> ch in Targets(s.core) || ch in s.closing)
  {
    var start := Start(capacity, depth);
    assert Targets(start.core) == {};
    RunKeepsInv(start, steps);
    RunAccounted(start, steps);
    var s := Final(start, steps);
    assert AccountedAt(s, ch) && (s.core.closed ==> Targets(s.core) == {});
  }

  lemma IncreasingConcat(a: seq<Entry>, b: seq<Entry>, bound: nat)
    requires Increasing(a, bound) && Increasing(b, bound)
    requires forall x, y :: x in a && y in b ==> x.id < y.id
    ensures Increasing(a + b, bound)
  {
    forall i, j | 0 <= i < j < |a + b| ensures (a + b)[i].id < (a + b)[j].id {
      if i < |a| <= j {
        assert a[i] in a && b[j - |a|] in b;
      }
    }
  }

  lemma IncreasingSlice(es: seq<Entry>, bound: nat, lo: nat, hi: nat)
    requires Increasing(es, bound) && lo <= hi <= |es|
    ensures Increasing(es[lo..hi], bound)
    ensures forall x, y :: x in es[..lo] && y in es[lo..] ==> x.id < y.id
  {
    forall x, y | x in es[..lo] && y in es[lo..] ensures x.id < y.id {
      var i :| 0 <= i < lo && es[i] == x;
      var j :| lo <= j < |es| && es[j] == y;
    }
  }

  lemma RetainedFromHead(head: seq<Entry>, cap: nat, after: int, bound: nat)
    requires Increasing(head, bound)
    ensures Increasing(Above(LastOf(head, cap), after), bound)
    ensures forall x :: x in Above(LastOf(head, cap), after) ==> x in head && x.id > after
  {
    var kept := LastOf(head, cap);
    var from := |head| - |kept|;
    assert kept == head[from..|head|];
    IncreasingSlice(head, bound, from, |head|);
    AboveIncreasing(kept, after, bound);
    AboveMembers(kept, after);
    assert forall x :: x in kept ==> x in head;
  }

  lemma SplitIncreasing(es: seq<Entry>, bound: nat, k: nat)
    requires Increasing(es, bound) && k <= |es|
    ensures Increasing(es[..k], bound) && Increasing(es[k..], bound)
    ensures forall x, y :: x in es[..k] && y in es[k..] ==> x.id < y.id
  {
    IncreasingSlice(es, bound, k, |es|);
    assert es[k..|es|] == es[k..];
  }

  lemma JoinIncreasing(a: seq<Entry>, b: seq<Entry>, head: seq<Entry>, tail: seq<Entry>, bound: nat)
    requires Increasing(a, bound) && Increasing(b, bound)
    requires (forall x :: x in a ==> x in head) && (forall x :: x in b ==> x in tail)
    requires forall x, y :: x in head && y in tail ==> x.id < y.id
    ensures Increasing(a + b, bound)
  {
    IncreasingConcat(a, b, bound);
  }

  lemma SeamOfOne(k: Client, buf: seq<Entry>, observed: seq<Entry>, cap: nat, inUse: bool, bound: nat)
    requires Streams(k, buf, observed, cap, inUse) && Increasing(observed, bound)
    ensures Increasing(k.replay + (k.got + buf), bound)
    ensures forall x :: x in k.replay ==> x.id > k.after
  {
    var head, tail := observed[..k.start], observed[k.start..];
    SplitIncreasing(observed, bound, k.start);
    RetainedFromHead(head, cap, k.after, bound);
    ThinnedIncreasing(k.got + buf, tail, bound);
    JoinIncreasing(k.replay, k.got + buf, head, tail, bound);
  }

  /** Nothing is repeated or reordered, at the seam or later, over every run and for
      every subscriber, dropped or not: replay, then everything received, then
      everything buffered has strictly increasing ids, and what came live is the
      stream since it joined with entries left out at most. */
  lemma SeamHasNoRepeat(capacity: int, depth: int, steps: seq<Step>, ch: nat)
    requires LegalRun(Start(capacity, depth), steps) && ch in Final(Start(capacity, depth), steps).clients
    ensures var s := Final(Start(capacity, depth), steps);
            && ch in s.core.chans
            && var k, buf := s.clients[ch], s.core.chans[ch].buf;
               && k.start <= |s.observed| && Thinned(k.got + buf, s.observed[k.start..])
               && Increasing(k.replay + (k.got + buf), s.core.nextID)
               && forall x :: x in k.replay ==> x.id > k.after
  {
    BrokerStreams(capacity, depth, steps, ch);
    var s := Final(Start(capacity, depth), steps);
    SeamOfOne(s.clients[ch], s.core.chans[ch].buf, s.observed, s.core.cap, ch in Targets(s.core), s.core.nextID);
  }
}
