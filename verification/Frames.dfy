/** The AnyTLS frame layout: one command byte, a 4-byte big-endian stream id, a 2-byte
    big-endian payload length, then the payload. The length field keeps only the low 16 bits
    of the payload length. */
module Frames {
  import opened Basics
  import Seqs

  type U32 = x: int | 0 <= x < 0x1_0000_0000

  const CMD_WASTE: Byte := 0
  const CMD_SYN: Byte := 1
  const CMD_PSH: Byte := 2
  const CMD_FIN: Byte := 3
  const CMD_SETTINGS: Byte := 4
  const CMD_ALERT: Byte := 5
  const CMD_UPDATE_PADDING_SCHEME: Byte := 6
  const CMD_SYNACK: Byte := 7
  const CMD_HEART_REQUEST: Byte := 8
  const CMD_HEART_RESPONSE: Byte := 9
  const CMD_SERVER_SETTINGS: Byte := 10

  const HEADER_SIZE: nat := 7

  datatype Frame = Frame(cmd: Byte, sid: U32, data: Bytes)

  /** The commands after whose header the receive loop reads a payload. For every other
      command the loop goes straight to the next header, whatever the length field says. */
  predicate CarriesData(cmd: Byte) {
    cmd in {CMD_WASTE, CMD_PSH, CMD_SETTINGS, CMD_ALERT, CMD_UPDATE_PADDING_SCHEME, CMD_SYNACK, CMD_SERVER_SETTINGS}
  }

  /** The frames that survive the trip over the wire; see RoundTripExactlyWhenWellFormed. */
  predicate WellFormed(f: Frame) {
    |f.data| < 0x1_0000 && (CarriesData(f.cmd) || f.data == [])
  }

  predicate AllWellFormed(fs: seq<Frame>) {
    forall f | f in fs :: WellFormed(f)
  }

  // ---------- encoding ----------

  function PutU32(v: U32): (b: Bytes)
    ensures |b| == 4 && GetU32(b) == v
  {
    var hi: int, lo: int := v / 0x1_0000, v % 0x1_0000;
    PutU16(hi) + PutU16(lo)
  }

  function GetU32(b: Bytes): U32
    requires |b| == 4
  {
    GetU16(b[..2]) * 0x1_0000 + GetU16(b[2..])
  }

  /** The length field: a conversion to 16 bits drops the high bits. */
  function PutU16(n: nat): (b: Bytes)
    ensures |b| == 2 && GetU16(b) == n % 0x1_0000
  {
    var low := n % 0x1_0000;
    [low / 0x100, low % 0x100]
  }

  function GetU16(b: Bytes): (n: nat)
    requires |b| == 2
    ensures n < 0x1_0000
  {
    var hi: int, lo: int := b[0], b[1];
    hi * 0x100 + lo
  }

  function Header(cmd: Byte, sid: U32, n: nat): (h: Bytes)
    ensures |h| == HEADER_SIZE
  {
    [cmd] + PutU32(sid) + PutU16(n)
  }

  function Encode(f: Frame): (b: Bytes)
    ensures |b| == HEADER_SIZE + |f.data|
  {
    Header(f.cmd, f.sid, |f.data|) + f.data
  }

  function EncodeAll(fs: seq<Frame>): Bytes {
    if fs == [] then [] else Encode(fs[0]) + EncodeAll(fs[1..])
  }

  // ---------- decoding ----------

  datatype Parsed = Parsed(frames: seq<Frame>, rest: Bytes)

  /** The first frame of `w`, as the receive loop reads it, or None when `w` ends too early. */
  function ParseOne(w: Bytes): (r: Option<Frame>)
    ensures r.Some? ==> HEADER_SIZE + |r.value.data| <= |w|
  {
    if |w| < HEADER_SIZE then None
    else
      var cmd, sid, len := w[0], GetU32(w[1..5]), GetU16(w[5..7]);
      var n := if CarriesData(cmd) then len else 0;
      if |w| < HEADER_SIZE + n then None
      else Some(Frame(cmd, sid, w[HEADER_SIZE..HEADER_SIZE + n]))
  }

  /** How many bytes the first frame takes. */
  function Used(f: Frame): nat { HEADER_SIZE + |f.data| }

  /** Every complete frame of `w` in order, and the incomplete tail. */
  function Parse(w: Bytes): Parsed
    decreases |w|
  {
    match ParseOne(w)
    case None => Parsed([], w)
    case Some(f) =>
      var p := Parse(w[Used(f)..]);
      Parsed([f] + p.frames, p.rest)
  }

  function DropWaste(fs: seq<Frame>): seq<Frame> {
    if fs == [] then []
    else (if fs[0].cmd == CMD_WASTE then [] else [fs[0]]) + DropWaste(fs[1..])
  }

  // ---------- round trips ----------

  /** The layout on the wire, byte by byte: numbers stand with their high bytes first. */
  lemma EncodedBytes(f: Frame)
    ensures var b, n := Encode(f), |f.data|;
            && b[0] == f.cmd
            && b[1] == f.sid / 0x100_0000 && b[2] == f.sid / 0x1_0000 % 0x100
            && b[3] == f.sid / 0x100 % 0x100 && b[4] == f.sid % 0x100
            && b[5] == n / 0x100 % 0x100 && b[6] == n % 0x100 && b[7..] == f.data
  {
    U32Bytes(f.sid);
    U16Bytes(|f.data|);
  }

  lemma HalvesDivide(n: int, hi: int, lo: int)
    requires n == hi * 0x1_0000 + lo && 0 <= hi && 0 <= lo < 0x1_0000
    ensures hi / 0x100 == n / 0x100_0000 && hi == n / 0x1_0000
    ensures lo / 0x100 == n / 0x100 % 0x100 && lo % 0x100 == n % 0x100
  {
  }

  lemma U32Bytes(v: U32)
    ensures PutU32(v) == [v / 0x100_0000, v / 0x1_0000 % 0x100, v / 0x100 % 0x100, v % 0x100]
  {
    var n: int, hi: int, lo: int := v, v / 0x1_0000, v % 0x1_0000;
    HalvesDivide(n, hi, lo);
    assert PutU16(hi) == [hi / 0x100, hi % 0x100] && PutU16(lo) == [lo / 0x100, lo % 0x100];
  }

  lemma U16Bytes(n: nat)
    ensures PutU16(n) == [n / 0x100 % 0x100, n % 0x100]
  {
    var hi: int, low: int := n / 0x1_0000, n % 0x1_0000;
    assert n == hi * 0x1_0000 + low;
    assert n / 0x100 == hi * 0x100 + low / 0x100;
  }

  lemma HeaderFields(f: Frame, w: Bytes)
    ensures var b := Encode(f) + w;
            |b| >= HEADER_SIZE && b[0] == f.cmd && GetU32(b[1..5]) == f.sid &&
            GetU16(b[5..7]) == |f.data| % 0x1_0000 && b[HEADER_SIZE..] == f.data + w
  {
    var b := Encode(f) + w;
    assert b[1..5] == PutU32(f.sid);
    assert b[5..7] == PutU16(|f.data|);
  }

  lemma ParseOneEncoded(f: Frame, w: Bytes)
    requires WellFormed(f)
    ensures ParseOne(Encode(f) + w) == Some(f) && (Encode(f) + w)[Used(f)..] == w
  {
    HeaderFields(f, w);
    var b := Encode(f) + w;
    assert b[HEADER_SIZE..HEADER_SIZE + |f.data|] == b[HEADER_SIZE..][..|f.data|] == f.data;
  }

  lemma ParseStep(f: Frame, w: Bytes)
    requires WellFormed(f)
    ensures Parse(Encode(f) + w) == Parsed([f] + Parse(w).frames, Parse(w).rest)
  {
    ParseOneEncoded(f, w);
  }

  /** A frame comes back from the wire exactly when its payload fits the length field and its
      command is one after which the receiver reads a payload (or it has none). */
  lemma RoundTripExactlyWhenWellFormed(f: Frame)
    ensures Parse(Encode(f)) == Parsed([f], []) <==> WellFormed(f)
  {
    assert Encode(f) + [] == Encode(f);
    if WellFormed(f) {
      ParseOneEncoded(f, []);
    } else {
      HeaderFields(f, []);
      var g := ParseOne(Encode(f));
      assert g.Some? ==> |g.value.data| != |f.data|;
    }
  }

  /** A payload of 65536 bytes is read back as an empty one. */
  lemma LongPayloadIsLost(f: Frame)
    requires |f.data| == 0x1_0000
    ensures ParseOne(Encode(f)) == Some(Frame(f.cmd, f.sid, []))
  {
    HeaderFields(f, []);
    assert Encode(f) + [] == Encode(f);
    assert Encode(f)[HEADER_SIZE..HEADER_SIZE] == [];
  }

  lemma {:induction false} EncodeAllConcat(a: seq<Frame>, b: seq<Frame>)
    ensures EncodeAll(a + b) == EncodeAll(a) + EncodeAll(b)
  {
    if a == [] {
      assert a + b == b;
    } else {
      assert (a + b)[1..] == a[1..] + b;
      EncodeAllConcat(a[1..], b);
    }
  }

  lemma ParseOnePrefix(a: Bytes, b: Bytes)
    requires ParseOne(a).Some?
    ensures ParseOne(a + b) == ParseOne(a)
    ensures (a + b)[Used(ParseOne(a).value)..] == a[Used(ParseOne(a).value)..] + b
  {
    assert (a + b)[1..5] == a[1..5] && (a + b)[5..7] == a[5..7];
    var f := ParseOne(a).value;
    assert (a + b)[HEADER_SIZE..Used(f)] == a[HEADER_SIZE..Used(f)];
  }

  /** Bytes that end on a frame boundary can be parsed on their own. */
  lemma {:induction false} ParseConcat(a: Bytes, b: Bytes)
    requires Parse(a).rest == []
    ensures Parse(a + b) == Parsed(Parse(a).frames + Parse(b).frames, Parse(b).rest)
    decreases |a|
  {
    match ParseOne(a) {
      case None =>
        Seqs.LeftUnit(b);
        Seqs.LeftUnit(Parse(b).frames);
      case Some(f) =>
        ParseOnePrefix(a, b);
        ParseConcat(a[Used(f)..], b);
        Seqs.Assoc([f], Parse(a[Used(f)..]).frames, Parse(b).frames);
    }
  }

  /** Whole frames are recovered one by one, in order. */
  lemma {:induction false} ParseEncoded(fs: seq<Frame>)
    requires AllWellFormed(fs)
    ensures Parse(EncodeAll(fs)) == Parsed(fs, [])
    decreases |fs|
  {
    if fs != [] {
      ParseEncoded(fs[1..]);
      ParseStep(fs[0], EncodeAll(fs[1..]));
    }
  }

  lemma {:induction false} DropWasteConcat(a: seq<Frame>, b: seq<Frame>)
    ensures DropWaste(a + b) == DropWaste(a) + DropWaste(b)
  {
    if a == [] {
      assert a + b == b;
    } else {
      assert (a + b)[1..] == a[1..] + b;
      DropWasteConcat(a[1..], b);
    }
  }

  /** More bytes never change the frames already there. */
  lemma {:induction false} ParsePrefix(a: Bytes, b: Bytes)
    ensures Parse(a).frames <= Parse(a + b).frames
    decreases |a|
  {
    if ParseOne(a).Some? {
      ParseOnePrefix(a, b);
      ParsePrefix(a[Used(ParseOne(a).value)..], b);
    }
  }

  lemma DropWastePrefix(a: seq<Frame>, b: seq<Frame>)
    requires a <= b
    ensures DropWaste(a) <= DropWaste(b)
  {
    DropWasteConcat(a, b[|a|..]);
    assert a + b[|a|..] == b;
  }
}
