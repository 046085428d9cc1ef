/** Framing of 9P2000.L messages: little-endian fields, the parsing cursor, the
    message builder and the size-framed reader. */
module NineWire {
  import opened Common

  const HEADER_LEN := 7
  const MAX_MESSAGE := 0x100_0000

  // ---------- Little-endian integers ----------

  function Le16(v: u16): seq<byte> { [v % 0x100, v / 0x100] }

  function Le32(v: u32): seq<byte> {
    [v % 0x100, v / 0x100 % 0x100, v / 0x1_0000 % 0x100, v / 0x100_0000]
  }

  function Get16(b: seq<byte>): u16
    requires |b| >= 2
  {
    var b0: int, b1: int := b[0], b[1];
    b0 + 0x100 * b1
  }

  function Get32(b: seq<byte>): u32
    requires |b| >= 4
  {
    var b0: int, b1: int, b2: int, b3: int := b[0], b[1], b[2], b[3];
    b0 + 0x100 * b1 + 0x1_0000 * b2 + 0x100_0000 * b3
  }

  lemma Le16RoundTrip(v: u16, rest: seq<byte>)
    ensures Get16(Le16(v) + rest) == v
  {
  }

  lemma Le32RoundTrip(v: u32, rest: seq<byte>)
    ensures Get32(Le32(v) + rest) == v
  {
    var a, b := v / 0x100, v / 0x1_0000;
    assert v == v % 0x100 + 0x100 * a;
    assert a == a % 0x100 + 0x100 * (a / 0x100) && a / 0x100 == b;
    assert b == b % 0x100 + 0x100 * (b / 0x100) && b / 0x100 == v / 0x100_0000;
  }

  // ---------- The cursor ----------

  /** The value of a cursor: the body, the read offset and the sticky error. */
  datatype Cur = Cur(b: seq<byte>, off: nat, failed: bool)

  ghost predicate CurValid(c: Cur) { c.off <= |c.b| }

  function ReadU16(c: Cur): (u16, Cur) {
    if c.failed || c.off + 2 > |c.b| then (0, c.(failed := true))
    else (Get16(c.b[c.off..]), c.(off := c.off + 2))
  }

  function ReadU32(c: Cur): (u32, Cur) {
    if c.failed || c.off + 4 > |c.b| then (0, c.(failed := true))
    else (Get32(c.b[c.off..]), c.(off := c.off + 4))
  }

  function ReadStr(c: Cur): (Str, Cur) {
    var (n, d) := ReadU16(c);
    if d.failed || d.off + n > |d.b| then ([], d.(failed := true))
    else (d.b[d.off..d.off + n], d.(off := d.off + n))
  }

  function ReadStrs(c: Cur, n: nat): (seq<Str>, Cur)
    decreases n
  {
    if n == 0 then ([], c)
    else
      var (s, d) := ReadStr(c);
      var (rest, e) := ReadStrs(d, n - 1);
      ([s] + rest, e)
  }

  /** `c` has not failed and has exactly `rest` left to read. */
  ghost predicate At(c: Cur, rest: seq<byte>) {
    !c.failed && c.off <= |c.b| && c.b[c.off..] == rest
  }

  lemma ReadU16At(c: Cur, v: u16, rest: seq<byte>)
    requires At(c, Le16(v) + rest)
    ensures ReadU16(c).0 == v && At(ReadU16(c).1, rest)
  {
    Le16RoundTrip(v, rest);
    assert c.b[c.off..][2..] == c.b[c.off + 2..];
    assert (Le16(v) + rest)[2..] == rest;
  }

  lemma ReadU32At(c: Cur, v: u32, rest: seq<byte>)
    requires At(c, Le32(v) + rest)
    ensures ReadU32(c).0 == v && At(ReadU32(c).1, rest)
  {
    Le32RoundTrip(v, rest);
    assert c.b[c.off..][4..] == c.b[c.off + 4..];
    assert (Le32(v) + rest)[4..] == rest;
  }

  lemma ReadStrAt(c: Cur, s: Str, rest: seq<byte>)
    requires |s| < 0x1_0000
    requires At(c, PutStr(s) + rest)
    ensures ReadStr(c).0 == s && At(ReadStr(c).1, rest)
  {
    assert PutStr(s) + rest == Le16(|s|) + (s + rest);
    ReadU16At(c, |s|, s + rest);
    var d := ReadU16(c).1;
    assert d.b[d.off..][..|s|] == s;
    assert d.b[d.off..][|s|..] == d.b[d.off + |s|..];
  }

  lemma {:induction false} ReadStrsAt(c: Cur, ss: seq<Str>, rest: seq<byte>)
    requires forall i :: 0 <= i < |ss| ==> |ss[i]| < 0x1_0000
    requires At(c, PutStrs(ss) + rest)
    ensures ReadStrs(c, |ss|).0 == ss && At(ReadStrs(c, |ss|).1, rest)
    decreases |ss|
  {
    if ss != [] {
      assert PutStrs(ss) + rest == PutStr(ss[0]) + (PutStrs(ss[1..]) + rest);
      ReadStrAt(c, ss[0], PutStrs(ss[1..]) + rest);
      ReadStrsAt(ReadStr(c).1, ss[1..], rest);
    }
  }

  /** On arbitrary bytes a read stays inside the body and never clears the error. */
  lemma {:induction false} ReadsStayInside(c: Cur, n: nat)
    requires CurValid(c)
    ensures CurValid(ReadU16(c).1) && CurValid(ReadU32(c).1) && CurValid(ReadStr(c).1)
    ensures CurValid(ReadStrs(c, n).1) && |ReadStrs(c, n).0| == n
    ensures c.failed ==> ReadU16(c) == (0, c) && ReadU32(c) == (0, c) && ReadStr(c) == ([], c)
    ensures c.failed ==> ReadStrs(c, n).1 == c && forall i :: 0 <= i < n ==> ReadStrs(c, n).0[i] == []
    ensures !ReadStrs(c, n).1.failed ==> !c.failed
    decreases n
  {
    if n > 0 {
      var d := ReadStr(c).1;
      assert CurValid(ReadU16(c).1);
      ReadsStayInside(d, n - 1);
    }
  }

  /** cursor: reads fields off a message body, advancing `off` in place. */
  class Cursor {
    const b: seq<byte>
    var off: nat
    var failed: bool

    ghost function View(): Cur
      reads this
    {
      Cur(b, off, failed)
    }

    constructor (body: seq<byte>)
      ensures View() == Cur(body, 0, false)
    {
      b, off, failed := body, 0, false;
    }

    method U16() returns (v: u16)
      modifies this
      ensures (v, View()) == ReadU16(old(View()))
    {
      if failed || off + 2 > |b| {
        failed := true;
        return 0;
      }
      v := Get16(b[off..]);
      off := off + 2;
    }

    method U32() returns (v: u32)
      modifies this
      ensures (v, View()) == ReadU32(old(View()))
    {
      if failed || off + 4 > |b| {
        failed := true;
        return 0;
      }
      v := Get32(b[off..]);
      off := off + 4;
    }

    method Text() returns (s: Str)
      modifies this
      ensures (s, View()) == ReadStr(old(View()))
    {
      var n := U16();
      if failed || off + n > |b| {
        failed := true;
        return [];
      }
      s := b[off..off + n];
      off := off + n;
    }

    /** The name loop of a Twalk: `n` strings, one after the other. */
    method Texts(n: nat) returns (ss: seq<Str>)
      modifies this
      ensures (ss, View()) == ReadStrs(old(View()), n)
    {
      ss := [];
      var i := 0;
      ghost var start := View();
      assert [] + ReadStrs(start, n).0 == ReadStrs(start, n).0;
      while i < n
        invariant 0 <= i <= n && |ss| == i
        invariant ReadStrs(start, n) == (ss + ReadStrs(View(), n - i).0, ReadStrs(View(), n - i).1)
      {
        ghost var before, done := View(), ss;
        var s := Text();
        assert done + ([s] + ReadStrs(View(), n - i - 1).0) == (done + [s]) + ReadStrs(View(), n - i - 1).0;
        ss := ss + [s];
        i := i + 1;
      }
      assert ss + [] == ss;
    }
  }

  // ---------- The builder ----------

  /** builder.str: a 16-bit length (truncated as Go truncates it), then the bytes. */
  function PutStr(s: Str): seq<byte> { Le16(|s| % 0x1_0000) + s }

  function PutStrs(ss: seq<Str>): seq<byte> {
    if ss == [] then [] else PutStr(ss[0]) + PutStrs(ss[1..])
  }

  /** The bytes of a whole message. */
  function FrameOf(typ: byte, tag: u16, body: seq<byte>): seq<byte> {
    Le32((HEADER_LEN + |body|) % 0x1_0000_0000) + [typ] + Le16(tag) + body
  }

  /** frame: writes a size placeholder, the header and the body, then patches
      the size in place. */
  method Frame(typ: byte, tag: u16, body: seq<byte>) returns (m: seq<byte>)
    ensures m == FrameOf(typ, tag, body)
  {
    m := Le32(0);
    m := m + [typ];
    m := m + Le16(tag);
    m := m + body;
    var size := Le32(|m| % 0x1_0000_0000);
    m := size + m[4..];
  }

  function MsgType(m: seq<byte>): byte
    requires |m| >= HEADER_LEN
  {
    m[4]
  }

  function MsgTag(m: seq<byte>): u16
    requires |m| >= HEADER_LEN
  {
    Get16(m[5..])
  }

  function MsgBody(m: seq<byte>): seq<byte>
    requires |m| >= HEADER_LEN
  {
    m[HEADER_LEN..]
  }

  lemma FrameFields(typ: byte, tag: u16, body: seq<byte>)
    ensures var m := FrameOf(typ, tag, body);
            && |m| == HEADER_LEN + |body|
            && MsgType(m) == typ && MsgTag(m) == tag && MsgBody(m) == body
  {
    var m := FrameOf(typ, tag, body);
    assert m[5..] == Le16(tag) + body;
    Le16RoundTrip(tag, body);
    assert m[HEADER_LEN..] == body;
  }

  // ---------- The reader ----------

  datatype ReadResult = Msg(m: seq<byte>, rest: seq<byte>) | Eof | BadSize

  /** ReadMsg on the bytes still to come from a connection. */
  function ReadMsg(s: seq<byte>): ReadResult {
    if |s| < 4 then Eof
    else
      var n := Get32(s);
      if n < HEADER_LEN || n > MAX_MESSAGE then BadSize
      else if |s| < n then Eof
      else Msg(s[..n], s[n..])
  }

  /** The reader in numbers: the first four bytes, lowest first, are the size; it is
      refused below 7 and above 2^24. */
  lemma ReadMsgInNumbers(s: seq<byte>)
    requires |s| >= 4
    ensures var n: int := s[0] as int + 0x100 * s[1] as int + 0x1_0000 * s[2] as int + 0x100_0000 * s[3] as int;
            ReadMsg(s) == if n < 7 || n > 16777216 then BadSize
                          else if |s| < n then Eof
                          else Msg(s[..n], s[n..])
  {
  }

  lemma HeaderInNumbers(m: seq<byte>)
    requires |m| >= 7
    ensures MsgType(m) == m[4] && MsgTag(m) as int == m[5] as int + 0x100 * m[6] as int && MsgBody(m) == m[7..]
  {
  }

  /** A byte string is one whole message: its size field is its length. */
  ghost predicate Framed(m: seq<byte>) {
    HEADER_LEN <= |m| <= MAX_MESSAGE && Get32(m) == |m|
  }

  /** ReadMsg returns `m` and leaves `rest` exactly when the stream is a framed
      message `m` followed by `rest`. */
  lemma ReadMsgIffFramed(s: seq<byte>, m: seq<byte>, rest: seq<byte>)
    ensures ReadMsg(s) == Msg(m, rest) <==> Framed(m) && s == m + rest
  {
    if ReadMsg(s) == Msg(m, rest) {
      assert s == s[..|m|] + s[|m|..];
    }
    if Framed(m) && s == m + rest {
      assert s[..|m|] == m && s[|m|..] == rest;
    }
  }

  lemma FramesAreFramed(typ: byte, tag: u16, body: seq<byte>)
    requires HEADER_LEN + |body| <= MAX_MESSAGE
    ensures Framed(FrameOf(typ, tag, body))
  {
    FrameFields(typ, tag, body);
    var n := HEADER_LEN + |body|;
    assert FrameOf(typ, tag, body) == Le32(n) + ([typ] + Le16(tag) + body);
    Le32RoundTrip(n, [typ] + Le16(tag) + body);
  }

  /** Framing round trip: a built frame followed by any bytes reads back as that
      frame and leaves the bytes. */
  lemma FrameRoundTrip(typ: byte, tag: u16, body: seq<byte>, rest: seq<byte>)
    requires HEADER_LEN + |body| <= MAX_MESSAGE
    ensures ReadMsg(FrameOf(typ, tag, body) + rest) == Msg(FrameOf(typ, tag, body), rest)
  {
    FramesAreFramed(typ, tag, body);
    ReadMsgIffFramed(FrameOf(typ, tag, body) + rest, FrameOf(typ, tag, body), rest);
  }

  function Concat(ms: seq<seq<byte>>): seq<byte> {
    if ms == [] then [] else ms[0] + Concat(ms[1..])
  }

  /** Reads messages until the stream yields none, as both pump loops do. */
  function ReadAll(s: seq<byte>): (seq<seq<byte>>, seq<byte>)
    decreases |s|
  {
    match ReadMsg(s)
    case Msg(m, rest) => var (ms, tail) := ReadAll(rest); ([m] + ms, tail)
    case _ => ([], s)
  }

  /** A stream of framed messages has one reading: the messages that were
      written, in order, then whatever follows them. */
  lemma {:induction false} StreamRoundTrip(ms: seq<seq<byte>>, tail: seq<byte>)
    requires forall i :: 0 <= i < |ms| ==> Framed(ms[i])
    requires !ReadMsg(tail).Msg?
    ensures ReadAll(Concat(ms) + tail) == (ms, tail)
  {
    if ms == [] {
      assert Concat(ms) + tail == tail;
    } else {
      assert Concat(ms) + tail == ms[0] + (Concat(ms[1..]) + tail);
      ReadMsgIffFramed(Concat(ms) + tail, ms[0], Concat(ms[1..]) + tail);
      StreamRoundTrip(ms[1..], tail);
      assert [ms[0]] + ms[1..] == ms;
    }
  }
}
