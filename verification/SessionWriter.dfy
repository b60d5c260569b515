/** The sending half of an AnyTLS session: frames are cut into records of scheduled sizes, mixed
    with waste frames, and may be held back in a pending buffer. */
module SessionWriter {
  import opened Basics
  import opened Frames
  import Seqs

  /** One entry of a padding schedule: a record size, or a mark that ends the padding when no
      payload is left. */
  datatype PktSize = CheckMark | Size(n: nat)

  /** The transport: each call to Write is one record, and a failing call may have sent part of it. */
  class Conn {
    var records: seq<Bytes>

    constructor ()
      ensures records == []
    {
      records := [];
    }

    method Write(p: Bytes) returns (n: nat, ok: bool)
      modifies this
      ensures n <= |p| && (ok ==> n == |p|)
      ensures records == old(records) + [p[..n]]
    {
      ok := *;
      n := |p|;
      if !ok {
        n :| n <= |p|;
      }
      records := records + [p[..n]];
    }
  }

  // ---------- what a successful writeConn sends ----------

  function Waste(n: nat): Frame { Frame(CMD_WASTE, 0, seq(n, _ => 0)) }

  /** The records that carry payload `b` under the schedule `sizes`. */
  function Records(b: Bytes, sizes: seq<PktSize>): seq<Bytes>
    decreases |sizes|
  {
    if sizes == [] then
      if b == [] then [] else [b]
    else match sizes[0]
      case CheckMark =>
        if b == [] then [] else Records(b, sizes[1..])
      case Size(l) =>
        if |b| > l then [b[..l]] + Records(b[l..], sizes[1..])
        else if |b| > 0 then [b + FillUp(|b|, l)] + Records([], sizes[1..])
        else [Encode(Waste(l))] + Records([], sizes[1..])
  }

  /** The waste frame that brings a last payload record of `len` bytes up to size `l`, if its
      header and at least one byte fit. */
  function FillUp(len: nat, l: nat): Bytes {
    if l - len - HEADER_SIZE > 0 then Encode(Waste(l - len - HEADER_SIZE)) else []
  }

  /** The waste frames that follow a payload of `len` bytes, computed from lengths alone. */
  function WasteAfter(len: nat, sizes: seq<PktSize>): seq<Frame>
    decreases |sizes|
  {
    if sizes == [] || (len == 0 && sizes[0].CheckMark?) then []
    else match sizes[0]
      case CheckMark => WasteAfter(len, sizes[1..])
      case Size(l) =>
        if len > l then WasteAfter(len - l, sizes[1..])
        else if len == 0 then [Waste(l)] + WasteAfter(0, sizes[1..])
        else (if l - len - HEADER_SIZE > 0 then [Waste(l - len - HEADER_SIZE)] else []) + WasteAfter(0, sizes[1..])
  }

  function Flatten(rs: seq<Bytes>): Bytes {
    if rs == [] then [] else rs[0] + Flatten(rs[1..])
  }

  /** Every scheduled size fits the 16-bit length field of a waste frame. */
  predicate FitsLengthField(sizes: seq<PktSize>) {
    forall s | s in sizes :: s.Size? ==> s.n < 0x1_0000
  }

  lemma {:induction false} FlattenConcat(a: seq<Bytes>, b: seq<Bytes>)
    ensures Flatten(a + b) == Flatten(a) + Flatten(b)
  {
    if a == [] {
      Seqs.LeftUnit(b);
      Seqs.LeftUnit(Flatten(b));
    } else {
      Seqs.TailOfConcat(a, b);
      FlattenConcat(a[1..], b);
      Seqs.Assoc(a[0], Flatten(a[1..]), Flatten(b));
    }
  }

  /** Whatever the schedule, the records carry the payload in order and after it nothing but
      complete waste frames. */
  lemma {:induction false} RecordsCarryPayloadThenWaste(b: Bytes, sizes: seq<PktSize>)
    ensures Flatten(Records(b, sizes)) == b + EncodeAll(WasteAfter(|b|, sizes))
    decreases |sizes|
  {
    if sizes == [] {
    } else {
      var tail := sizes[1..];
      match sizes[0]
      case CheckMark =>
        if b != [] {
          RecordsCarryPayloadThenWaste(b, tail);
        }
      case Size(l) =>
        assert sizes == [Size(l)] + tail;
        if |b| > l {
          RecordsCarryPayloadThenWaste(b[l..], tail);
          Seqs.Assoc(b[..l], b[l..], EncodeAll(WasteAfter(|b| - l, tail)));
          Seqs.Split(b, l);
        } else {
          RecordsCarryPayloadThenWaste([], tail);
          LastPayloadRecord(b, l, tail);
        }
    }
  }

  lemma LastPayloadRecord(b: Bytes, l: nat, tail: seq<PktSize>)
    requires |b| <= l && Flatten(Records([], tail)) == [] + EncodeAll(WasteAfter(0, tail))
    ensures Flatten(Records(b, [Size(l)] + tail)) == b + EncodeAll(WasteAfter(|b|, [Size(l)] + tail))
  {
    var rest := WasteAfter(0, tail);
    assert ([Size(l)] + tail)[1..] == tail;
    Seqs.LeftUnit(EncodeAll(rest));
    if |b| == 0 {
      EncodeAllCons(Waste(l), rest);
      Seqs.LeftUnit(EncodeAll([Waste(l)] + rest));
    } else if l - |b| - HEADER_SIZE > 0 {
      EncodeAllCons(Waste(l - |b| - HEADER_SIZE), rest);
      Seqs.Assoc(b, FillUp(|b|, l), EncodeAll(rest));
    } else {
      Seqs.RightUnit(b);
      Seqs.LeftUnit(rest);
    }
  }

  lemma EncodeAllCons(f: Frame, fs: seq<Frame>)
    ensures EncodeAll([f] + fs) == Encode(f) + EncodeAll(fs)
  {
    assert ([f] + fs)[1..] == fs;
  }

  lemma {:induction false} WasteAfterIsWaste(len: nat, sizes: seq<PktSize>)
    requires FitsLengthField(sizes)
    ensures AllWellFormed(WasteAfter(len, sizes)) && DropWaste(WasteAfter(len, sizes)) == []
    decreases |sizes|
  {
    if sizes != [] {
      var tail := sizes[1..];
      match sizes[0]
      case CheckMark =>
        if len != 0 {
          WasteAfterIsWaste(len, tail);
        }
      case Size(l) =>
        assert sizes[0] in sizes;
        if len > l {
          WasteAfterIsWaste(len - l, tail);
        } else {
          WasteAfterIsWaste(0, tail);
          var rest := WasteAfter(0, tail);
          if len == 0 {
            DropWasteConcat([Waste(l)], rest);
          } else if l - len - HEADER_SIZE > 0 {
            DropWasteConcat([Waste(l - len - HEADER_SIZE)], rest);
          } else {
            Seqs.LeftUnit(rest);
          }
        }
    }
  }

  /** All waste goes out on stream 0 and is zeros. */
  lemma {:induction false} WasteIsZeros(len: nat, sizes: seq<PktSize>)
    ensures forall f | f in WasteAfter(len, sizes) :: f.sid == 0 && forall k :: 0 <= k < |f.data| ==> f.data[k] == 0
    decreases |sizes|
  {
    if sizes != [] {
      match sizes[0]
      case CheckMark => WasteIsZeros(len, sizes[1..]);
      case Size(l) => WasteIsZeros(if len > l then len - l else 0, sizes[1..]);
    }
  }

  /** The scheduled sizes that a payload of `len` bytes uses: marks are passed while payload is left, and
      the first one after that ends the padding. */
  function SizesUsed(len: nat, sizes: seq<PktSize>): seq<nat>
    decreases |sizes|
  {
    if sizes == [] || (len == 0 && sizes[0].CheckMark?) then []
    else match sizes[0]
      case CheckMark => SizesUsed(len, sizes[1..])
      case Size(l) => [l] + SizesUsed(if len > l then len - l else 0, sizes[1..])
  }

  function Total(ls: seq<nat>): nat { if ls == [] then 0 else ls[0] + Total(ls[1..]) }

  /** The length on the wire of a record of scheduled size `l` when `left` payload bytes remain. */
  function RecordSize(left: int, l: nat): nat {
    if left > l then l
    else if left <= 0 then l + HEADER_SIZE
    else if l - left > HEADER_SIZE then l
    else left
  }

  /** What is left of the payload after the first size of a schedule. */
  function Later(b: Bytes, l: nat): Bytes { if |b| > l then b[l..] else [] }

  lemma FirstRecord(b: Bytes, sizes: seq<PktSize>)
    requires sizes != [] && sizes[0].Size?
    ensures Records(b, sizes) != [] && |Records(b, sizes)[0]| == RecordSize(|b|, sizes[0].n)
    ensures Records(b, sizes)[1..] == Records(Later(b, sizes[0].n), sizes[1..])
  {
  }

  /** There is one record for each size used, and one more for payload that outlasts the schedule. */
  lemma {:induction false} RecordCount(b: Bytes, sizes: seq<PktSize>)
    ensures var u := SizesUsed(|b|, sizes);
            && |Records(b, sizes)| == |u| + (if |b| > Total(u) then 1 else 0)
            && (|b| > Total(u) ==> |Records(b, sizes)[|u|]| == |b| - Total(u))
    decreases |sizes|
  {
    if sizes != [] {
      if sizes[0].Size? {
        var later := Later(b, sizes[0].n);
        FirstRecord(b, sizes);
        RecordCount(later, sizes[1..]);
        assert SizesUsed(|b|, sizes)[1..] == SizesUsed(|later|, sizes[1..]);
      } else if b != [] {
        RecordCount(b, sizes[1..]);
      }
    }
  }

  /** Record `i` has its scheduled size, except that the last payload record stays bare when no waste frame
      fits behind it and that an all-padding record is longer by one header. */
  lemma {:induction false} RecordSizes(b: Bytes, sizes: seq<PktSize>, i: nat)
    requires i < |SizesUsed(|b|, sizes)|
    ensures i < |Records(b, sizes)|
    ensures var u := SizesUsed(|b|, sizes); |Records(b, sizes)[i]| == RecordSize(|b| - Total(u[..i]), u[i])
    decreases |sizes|
  {
    RecordCount(b, sizes);
    var u := SizesUsed(|b|, sizes);
    if sizes[0].CheckMark? {
      RecordSizes(b, sizes[1..], i);
    } else {
      FirstRecord(b, sizes);
      if i > 0 {
        var later := Later(b, sizes[0].n);
        assert u[1..] == SizesUsed(|later|, sizes[1..]) && u[..i][1..] == u[1..][..i - 1];
        RecordSizes(later, sizes[1..], i - 1);
        assert Records(b, sizes)[i] == Records(later, sizes[1..])[i - 1];
      }
    }
  }

  // ---------- the session's sending state ----------

  datatype Sender = Sender(records: seq<Bytes>, buffering: bool, buffer: Bytes, sendPadding: bool, pktCounter: U32)

  function NextPkt(c: U32): U32 { (c + 1) % 0x1_0000_0000 }

  /** The records of one write of `b` outside buffering. `stop` and `sizes` are the padding
      scheme's limit and its draw for this packet. */
  function Plan(s: Sender, b: Bytes, stop: U32, sizes: seq<PktSize>): seq<Bytes> {
    if s.sendPadding && NextPkt(s.pktCounter) < stop then Records(s.buffer + b, sizes) else [s.buffer + b]
  }

  /** The state after a write that does not fail. */
  function WriteStep(s: Sender, b: Bytes, stop: U32, sizes: seq<PktSize>): Sender {
    if s.buffering then s.(buffer := s.buffer + b)
    else s.(records := s.records + Plan(s, b, stop, sizes),
            buffer := [],
            pktCounter := if s.sendPadding then NextPkt(s.pktCounter) else s.pktCounter,
            sendPadding := s.sendPadding && NextPkt(s.pktCounter) < stop)
  }

  /** `sent` is a failed attempt at `plan`: complete records up to one that was cut short. */
  predicate CutShort(plan: seq<Bytes>, sent: seq<Bytes>) {
    0 < |sent| <= |plan| && sent[..|sent| - 1] == plan[..|sent| - 1] && sent[|sent| - 1] <= plan[|sent| - 1]
  }

  /** So even a failed write leaves nothing on the wire but a beginning of the planned bytes. */
  lemma CutShortIsABeginning(plan: seq<Bytes>, sent: seq<Bytes>)
    requires CutShort(plan, sent)
    ensures Flatten(sent) <= Flatten(plan)
  {
    var k := |sent| - 1;
    var front, last, rest := plan[..k], plan[k], plan[k + 1..];
    assert plan == front + ([last] + rest) && sent == front + [sent[k]];
    FlattenConcat(front, [last] + rest);
    FlattenConcat([last], rest);
    FlattenConcat(front, [sent[k]]);
    assert Flatten([last]) == last && Flatten([sent[k]]) == sent[k];
  }

  /** `t` is what a failed write of `b` leaves of `s`: a cut-short plan is on the wire, and the pending bytes
      are lost. */
  predicate FailedWrite(s: Sender, b: Bytes, stop: U32, sizes: seq<PktSize>, t: Sender) {
    && !s.buffering && s.records <= t.records
    && CutShort(Plan(s, b, stop, sizes), t.records[|s.records|..])
    && t == WriteStep(s, b, stop, sizes).(records := t.records)
  }

  class Session {
    const conn: Conn
    var closed: bool
    var buffering: bool
    var buffer: Bytes
    var sendPadding: bool
    var pktCounter: U32

    /** A client session: padding is on until the scheme's limit is reached. */
    constructor ()
      ensures fresh(conn) && State() == Sender([], false, [], true, 0) && !closed
    {
      conn := new Conn();
      closed, buffering, buffer, sendPadding, pktCounter := false, false, [], true, 0;
    }

    function State(): Sender
      reads this, conn
    {
      Sender(conn.records, buffering, buffer, sendPadding, pktCounter)
    }

    /** One write under the connection lock. On success the whole plan is on the wire and the
        count covers the pending bytes too; on failure a cut-short plan is. */
    method WriteConn(b: Bytes, stop: U32, sizes: seq<PktSize>) returns (n: nat, ok: bool)
      modifies this`buffer, this`sendPadding, this`pktCounter, conn
      ensures ok ==> State() == WriteStep(old(State()), b, stop, sizes)
      ensures ok ==> n == |b| + if old(buffering) then 0 else |old(buffer)|
      ensures !ok ==> FailedWrite(old(State()), b, stop, sizes, State())
    {
      if buffering {
        buffer := buffer + b;
        return |b|, true;
      }
      var payload := buffer + b;
      buffer := [];
      if sendPadding {
        pktCounter := NextPkt(pktCounter);
        if pktCounter < stop {
          n, ok := WritePadded(payload, sizes);
          return;
        } else {
          sendPadding := false;
        }
      }
      ghost var before := conn.records;
      n, ok := conn.Write(payload);
      if ok {
        Seqs.Whole(payload);
      } else {
        CutShortAt(before, [], payload, n, [], [payload]);
      }
    }

    method WriteDataFrame(sid: U32, data: Bytes, stop: U32, sizes: seq<PktSize>) returns (n: nat, ok: bool)
      modifies this`buffer, this`sendPadding, this`pktCounter, conn
      ensures ok ==> n == |data| && State() == Perform(old(State()), WriteFrame(Frame(CMD_PSH, sid, data), stop, sizes))
      ensures !ok ==> n == 0 && FailedWrite(old(State()), Encode(Frame(CMD_PSH, sid, data)), stop, sizes, State())
    {
      n, ok := WriteConn(Header(CMD_PSH, sid, |data|) + data, stop, sizes);
      n := if ok then |data| else 0;
    }

    /** A control frame that cannot be written closes the session. */
    method WriteControlFrame(frame: Frame, stop: U32, sizes: seq<PktSize>) returns (n: nat, ok: bool)
      modifies this`closed, this`buffer, this`sendPadding, this`pktCounter, conn
      ensures ok ==> n == |frame.data| && State() == Perform(old(State()), WriteFrame(frame, stop, sizes))
      ensures !ok ==> n == 0 && FailedWrite(old(State()), Encode(frame), stop, sizes, State())
      ensures closed == (old(closed) || !ok)
      ensures old(buffering) ==> ok && conn.records == old(conn.records)
    {
      n, ok := WriteConn(Header(frame.cmd, frame.sid, |frame.data|) + frame.data, stop, sizes);
      if !ok {
        closed := true;
        return 0, false;
      }
      n := |frame.data|;
    }

    /** The start of a client session: everything from the settings frame on is held back. */
    method Run(settings: Bytes, stop: U32, sizes: seq<PktSize>)
      modifies this, conn
      ensures State() == PerformAll(old(State()),
                                    [SetBuffering(true), WriteFrame(Frame(CMD_SETTINGS, 0, settings), stop, sizes)])
      ensures conn.records == old(conn.records) && closed == old(closed)
    {
      buffering := true;
      PerformTwo(old(State()), SetBuffering(true), WriteFrame(Frame(CMD_SETTINGS, 0, settings), stop, sizes));
      var _, _ := WriteControlFrame(Frame(CMD_SETTINGS, 0, settings), stop, sizes);
    }

    /** The part of openStream that touches the sending half. */
    method AnnounceStream(sid: U32, stop: U32, sizes: seq<PktSize>) returns (ok: bool)
      modifies this, conn
      ensures ok ==> State() == PerformAll(old(State()),
                                           [WriteFrame(Frame(CMD_SYN, sid, []), stop, sizes), SetBuffering(false)])
      ensures !ok ==> closed
    {
      var _, sent := WriteControlFrame(Frame(CMD_SYN, sid, []), stop, sizes);
      if !sent {
        return false;
      }
      PerformTwo(old(State()), WriteFrame(Frame(CMD_SYN, sid, []), stop, sizes), SetBuffering(false));
      buffering := false;
      return true;
    }

    /** The padded branch of WriteConn: a loop over the schedule, then whatever payload is left. */
    method WritePadded(payload: Bytes, sizes: seq<PktSize>) returns (n: nat, ok: bool)
      modifies conn
      ensures ok ==> n == |payload| && conn.records == old(conn.records) + Records(payload, sizes)
      ensures !ok ==> old(conn.records) <= conn.records &&
                      CutShort(Records(payload, sizes), conn.records[|old(conn.records)|..])
    {
      ghost var before := conn.records;
      n := 0;
      var rest, i := payload, 0;
      ghost var plan, done := Records(payload, sizes), [];
      while i < |sizes|
        invariant i <= |sizes| && n + |rest| == |payload|
        invariant conn.records == before + done
        invariant plan == done + Records(rest, sizes[i..])
      {
        if sizes[i] == CheckMark {
          if rest == [] {
            break;
          }
        } else {
          var out, taken := NextRecord(rest, sizes[i].n, sizes[i + 1..]);
          ghost var later := Records(rest[taken..], sizes[i + 1..]);
          Seqs.Uncons(sizes, i);
          var m, sent := conn.Write(out);
          if !sent {
            CutShortAt(before, done, out, m, later, plan);
            return 0, false;
          }
          Seqs.Whole(out);
          Seqs.Assoc(before, done, [out]);
          Seqs.Assoc(done, [out], later);
          done, n, rest := done + [out], n + taken, rest[taken..];
        }
        i := i + 1;
      }
      if rest == [] {
        assert Records(rest, sizes[i..]) == [];
        return n, true;
      }
      assert sizes[i..] == [];
      var n2, sent := conn.Write(rest);
      if !sent {
        CutShortAt(before, done, rest, n2, [], plan);
      } else {
        Seqs.Whole(rest);
      }
      return n + n2, sent;
    }

    /** The record for size `l`: all payload, the last payload with its padding, or all padding. */
    method NextRecord(rest: Bytes, l: nat, ghost tail: seq<PktSize>) returns (out: Bytes, taken: nat)
      ensures taken == if |rest| > l then l else |rest|
      ensures Records(rest, [Size(l)] + tail) == [out] + Records(rest[taken..], tail)
    {
      assert ([Size(l)] + tail)[1..] == tail;
      if |rest| > l {
        return rest[..l], l;
      } else if |rest| > 0 {
        assert rest[|rest|..] == [];
        var paddingLen := l - |rest| - HEADER_SIZE;
        if paddingLen > 0 {
          return rest + (Header(CMD_WASTE, 0, paddingLen) + seq(paddingLen, _ => 0)), |rest|;
        }
        Seqs.RightUnit(rest);
        return rest, |rest|;
      } else {
        return Header(CMD_WASTE, 0, l) + seq(l, _ => 0), 0;
      }
    }
  }

  lemma PerformTwo(s: Sender, a: Op, b: Op)
    ensures PerformAll(s, [a, b]) == Perform(Perform(s, a), b)
  {
    assert [a, b][1..] == [b] && [b][1..] == [];
    assert PerformAll(Perform(s, a), [b]) == Perform(Perform(s, a), b);
  }

  lemma CutShortAt(before: seq<Bytes>, done: seq<Bytes>, out: Bytes, m: nat, later: seq<Bytes>, plan: seq<Bytes>)
    requires plan == done + ([out] + later) && m <= |out|
    ensures var now := before + done + [out[..m]];
            before <= now && CutShort(plan, now[|before|..])
  {
    var now := before + done + [out[..m]];
    assert now[|before|..] == done + [out[..m]];
  }

  // ---------- frames over whole runs ----------

  /** What the session does to its sending half: Run switches buffering on, openStream switches it
      off, and every data or control frame is one write. */
  datatype Op = SetBuffering(on: bool) | WriteFrame(frame: Frame, stop: U32, sizes: seq<PktSize>)

  predicate ValidOp(op: Op) {
    op.WriteFrame? ==> WellFormed(op.frame) && op.frame.cmd != CMD_WASTE && FitsLengthField(op.sizes)
  }

  function Perform(s: Sender, op: Op): Sender {
    match op
    case SetBuffering(on) => s.(buffering := on)
    case WriteFrame(f, stop, sizes) => WriteStep(s, Encode(f), stop, sizes)
  }

  /** The state after an error-free run. */
  function PerformAll(s: Sender, ops: seq<Op>): Sender
    decreases |ops|
  {
    if ops == [] then s else PerformAll(Perform(s, ops[0]), ops[1..])
  }

  function FramesOf(ops: seq<Op>): seq<Frame> {
    if ops == [] then []
    else (if ops[0].WriteFrame? then [ops[0].frame] else []) + FramesOf(ops[1..])
  }

  function Wire(s: Sender): Bytes { Flatten(s.records) }

  /** The frames a receiver reads off the wire, waste dropped. */
  function OnWire(s: Sender): seq<Frame> { DropWaste(Parse(Wire(s)).frames) }

  function Pending(s: Sender): seq<Frame> { Parse(s.buffer).frames }

  /** Wire and pending buffer both end on a frame boundary, and no waste is pending. */
  predicate Aligned(s: Sender) {
    Parse(Wire(s)).rest == [] && Parse(s.buffer).rest == [] && DropWaste(Pending(s)) == Pending(s)
  }

  /** What one write outside buffering adds to the wire: the pending bytes, the payload, then
      complete waste frames. */
  lemma PlanBytes(s: Sender, b: Bytes, stop: U32, sizes: seq<PktSize>) returns (waste: seq<Frame>)
    requires FitsLengthField(sizes)
    ensures Flatten(Plan(s, b, stop, sizes)) == s.buffer + b + EncodeAll(waste)
    ensures AllWellFormed(waste) && DropWaste(waste) == []
  {
    var payload := s.buffer + b;
    if s.sendPadding && NextPkt(s.pktCounter) < stop {
      RecordsCarryPayloadThenWaste(payload, sizes);
      WasteAfterIsWaste(|payload|, sizes);
      waste := WasteAfter(|payload|, sizes);
    } else {
      waste := [];
      Seqs.RightUnit(payload);
    }
  }

  /** Parsing a whole-frame payload followed by waste and dropping the waste gives the payload's
      frames back. */
  lemma WastePadded(b: Bytes, waste: seq<Frame>)
    requires Parse(b).rest == [] && AllWellFormed(waste) && DropWaste(waste) == []
    ensures var p := Parse(b + EncodeAll(waste)); p.rest == [] && DropWaste(p.frames) == DropWaste(Parse(b).frames)
  {
    ParseEncoded(waste);
    ParseConcat(b, EncodeAll(waste));
    DropWasteConcat(Parse(b).frames, waste);
    Seqs.RightUnit(DropWaste(Parse(b).frames));
  }

  lemma OneFrame(f: Frame)
    requires WellFormed(f) && f.cmd != CMD_WASTE
    ensures Parse(Encode(f)) == Parsed([f], []) && DropWaste([f]) == [f]
  {
    RoundTripExactlyWhenWellFormed(f);
    assert [f][1..] == [];
  }

  lemma PerformKeepsFrames(s: Sender, op: Op)
    requires Aligned(s) && ValidOp(op)
    ensures Aligned(Perform(s, op))
    ensures OnWire(Perform(s, op)) + Pending(Perform(s, op)) == OnWire(s) + Pending(s) + FramesOf([op])
  {
    assert [op][1..] == [];
    if op.WriteFrame? {
      var f, t := op.frame, Perform(s, op);
      OneFrame(f);
      ParseConcat(s.buffer, Encode(f));
      DropWasteConcat(Pending(s), [f]);
      assert FramesOf([op]) == [f] + FramesOf([]) == [f];
      if s.buffering {
        Seqs.Assoc(OnWire(s), Pending(s), [f]);
      } else {
        var payload := s.buffer + Encode(f);
        var waste := PlanBytes(s, Encode(f), op.stop, op.sizes);
        WastePadded(payload, waste);
        var sent := payload + EncodeAll(waste);
        FlattenConcat(s.records, Plan(s, Encode(f), op.stop, op.sizes));
        ParseConcat(Wire(s), sent);
        DropWasteConcat(Parse(Wire(s)).frames, Parse(sent).frames);
        assert OnWire(t) == OnWire(s) + (Pending(s) + [f]);
        Seqs.Assoc(OnWire(s), Pending(s), [f]);
        Seqs.RightUnit(OnWire(t));
      }
    } else {
      Seqs.RightUnit(OnWire(s) + Pending(s));
    }
  }

  /** Over every error-free run the frames on the wire followed by those still pending are the
      frames submitted: none lost, repeated or reordered. */
  lemma {:induction false} RunKeepsFrames(s: Sender, ops: seq<Op>)
    requires Aligned(s) && forall op | op in ops :: ValidOp(op)
    ensures Aligned(PerformAll(s, ops))
    ensures OnWire(PerformAll(s, ops)) + Pending(PerformAll(s, ops)) == OnWire(s) + Pending(s) + FramesOf(ops)
    decreases |ops|
  {
    if ops == [] {
      Seqs.RightUnit(OnWire(s) + Pending(s));
    } else {
      var t := Perform(s, ops[0]);
      PerformKeepsFrames(s, ops[0]);
      RunKeepsFrames(t, ops[1..]);
      assert FramesOf([ops[0]]) + FramesOf(ops[1..]) == FramesOf(ops) by {
        assert [ops[0]][1..] == [];
        Seqs.RightUnit(if ops[0].WriteFrame? then [ops[0].frame] else []);
      }
      Seqs.Assoc(OnWire(s) + Pending(s), FramesOf([ops[0]]), FramesOf(ops[1..]));
    }
  }

  /** The first write after buffering is switched off leaves nothing pending, so everything
      submitted so far is on the wire. */
  lemma FlushDeliversEverything(s: Sender, ops: seq<Op>, last: Op)
    requires Aligned(s) && s.buffer == [] && forall op | op in ops + [last] :: ValidOp(op)
    requires last.WriteFrame? && !PerformAll(s, ops).buffering
    ensures OnWire(PerformAll(s, ops + [last])) == OnWire(s) + FramesOf(ops + [last])
  {
    RunKeepsFrames(s, ops + [last]);
    PerformAllSnoc(s, ops, last);
    Seqs.RightUnit(OnWire(s));
    Seqs.RightUnit(OnWire(PerformAll(s, ops + [last])));
  }

  lemma {:induction false} PerformAllSnoc(s: Sender, ops: seq<Op>, last: Op)
    ensures PerformAll(s, ops + [last]) == Perform(PerformAll(s, ops), last)
    decreases |ops|
  {
    if ops == [] {
      assert ops + [last] == [last] && [last][1..] == [];
    } else {
      assert (ops + [last])[1..] == ops[1..] + [last];
      PerformAllSnoc(Perform(s, ops[0]), ops[1..], last);
    }
  }

  // ---------- a run whose last write fails ----------

  lemma FailedWire(s: Sender, f: Frame, stop: U32, sizes: seq<PktSize>, t: Sender)
    requires FailedWrite(s, Encode(f), stop, sizes, t)
    ensures Wire(s) <= Wire(t) <= Wire(WriteStep(s, Encode(f), stop, sizes))
  {
    var plan, sent := Plan(s, Encode(f), stop, sizes), t.records[|s.records|..];
    CutShortIsABeginning(plan, sent);
    assert t.records == s.records + sent;
    FlattenConcat(s.records, sent);
    FlattenConcat(s.records, plan);
  }

  lemma WireGrows(a: Sender, b: Sender)
    requires Wire(a) <= Wire(b)
    ensures OnWire(a) <= OnWire(b)
  {
    var more := Wire(b)[|Wire(a)|..];
    assert Wire(a) + more == Wire(b);
    ParsePrefix(Wire(a), more);
    DropWastePrefix(Parse(Wire(a)).frames, Parse(Wire(b)).frames);
  }

  /** When the last write of a run fails, what the receiver reads is a beginning of the frames submitted, and
      no shorter than before that write. */
  lemma FailedRunKeepsABeginning(s: Sender, ops: seq<Op>, last: Op, t: Sender)
    requires Aligned(s) && forall op | op in ops + [last] :: ValidOp(op)
    requires last.WriteFrame? && FailedWrite(PerformAll(s, ops), Encode(last.frame), last.stop, last.sizes, t)
    ensures OnWire(PerformAll(s, ops)) <= OnWire(t) <= OnWire(s) + Pending(s) + FramesOf(ops + [last])
  {
    var p := PerformAll(s, ops);
    FailedWire(p, last.frame, last.stop, last.sizes, t);
    WireGrows(p, t);
    WireGrows(t, Perform(p, last));
    PerformAllSnoc(s, ops, last);
    RunKeepsFrames(s, ops + [last]);
  }

  // ---------- which writes are padded ----------

  /** The number that the last of some more unbuffered writes gets, counted from `c`. */
  function CountedOn(c: U32, buffering: bool, ops: seq<Op>): U32
    decreases |ops|
  {
    if ops == [] then c
    else match ops[0]
      case SetBuffering(on) => CountedOn(c, on, ops[1..])
      case WriteFrame(_, _, _) => CountedOn(if buffering then c else (c + 1) % 0x1_0000_0000, buffering, ops[1..])
  }

  /** Every unbuffered write of the run has a number below the limit that the padding scheme then sets. */
  predicate AllBelowStop(c: U32, buffering: bool, ops: seq<Op>)
    decreases |ops|
  {
    if ops == [] then true
    else match ops[0]
      case SetBuffering(on) => AllBelowStop(c, on, ops[1..])
      case WriteFrame(_, stop, _) =>
        if buffering then AllBelowStop(c, buffering, ops[1..])
        else
          var n := (c + 1) % 0x1_0000_0000;
          n < stop && AllBelowStop(n, buffering, ops[1..])
  }

  lemma {:induction false} NeverPaddedAgain(s: Sender, ops: seq<Op>)
    requires !s.sendPadding
    ensures !PerformAll(s, ops).sendPadding
    decreases |ops|
  {
    if ops != [] {
      NeverPaddedAgain(Perform(s, ops[0]), ops[1..]);
    }
  }

  /** Padding is on exactly as long as every unbuffered write so far was below the limit, and until then
      the writes are counted. */
  lemma {:induction false} PaddingIsOnExactlyWhile(s: Sender, ops: seq<Op>)
    requires s.sendPadding
    ensures PerformAll(s, ops).sendPadding <==> AllBelowStop(s.pktCounter, s.buffering, ops)
    ensures PerformAll(s, ops).sendPadding ==> PerformAll(s, ops).pktCounter == CountedOn(s.pktCounter, s.buffering, ops)
    decreases |ops|
  {
    if ops != [] {
      var t := Perform(s, ops[0]);
      if t.sendPadding {
        PaddingIsOnExactlyWhile(t, ops[1..]);
      } else {
        NeverPaddedAgain(t, ops[1..]);
      }
    }
  }

  /** The records of one write have the sizes that the schedule gives a payload of `len` bytes. */
  predicate FollowsSchedule(records: seq<Bytes>, len: nat, sizes: seq<PktSize>) {
    var u := SizesUsed(len, sizes);
    && |records| == |u| + (if len > Total(u) then 1 else 0)
    && (len > Total(u) ==> |records[|u|]| == len - Total(u))
    && forall i :: 0 <= i < |u| ==> |records[i]| == RecordSize(len - Total(u[..i]), u[i])
  }

  lemma RecordsFollowSchedule(b: Bytes, sizes: seq<PktSize>)
    ensures FollowsSchedule(Records(b, sizes), |b|, sizes)
  {
    var u := SizesUsed(|b|, sizes);
    RecordCount(b, sizes);
    forall i | 0 <= i < |u| ensures |Records(b, sizes)[i]| == RecordSize(|b| - Total(u[..i]), u[i]) {
      RecordSizes(b, sizes, i);
    }
  }

  lemma ConcatTail(a: seq<Bytes>, b: seq<Bytes>)
    ensures a <= a + b && (a + b)[|a|..] == b
  {
  }

  /** In every run of a session whose padding is on, an unbuffered write below the limit follows its
      schedule; the first one at the limit and all later ones are a single record of what was to be sent. */
  lemma WritesArePaddedExactlyWhile(s: Sender, ops: seq<Op>, last: Op)
    requires s.sendPadding && last.WriteFrame? && !PerformAll(s, ops).buffering
    ensures var p, t := PerformAll(s, ops), PerformAll(s, ops + [last]);
            && p.records <= t.records && t.buffer == []
            && var sent, payload := t.records[|p.records|..], p.buffer + Encode(last.frame);
               if AllBelowStop(s.pktCounter, s.buffering, ops + [last]) then FollowsSchedule(sent, |payload|, last.sizes)
               else sent == [payload]
  {
    var p := PerformAll(s, ops);
    PerformAllSnoc(s, ops, last);
    PaddingIsOnExactlyWhile(s, ops + [last]);
    ConcatTail(p.records, Plan(p, Encode(last.frame), last.stop, last.sizes));
    RecordsFollowSchedule(p.buffer + Encode(last.frame), last.sizes);
  }

  /** While buffering nothing is sent. */
  lemma BufferedWritesStay(s: Sender, ops: seq<Op>, last: Op)
    requires last.WriteFrame? && PerformAll(s, ops).buffering
    ensures PerformAll(s, ops + [last]) ==
            PerformAll(s, ops).(buffer := PerformAll(s, ops).buffer + Encode(last.frame))
  {
    PerformAllSnoc(s, ops, last);
  }
}
