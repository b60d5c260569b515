/** The receiving half of an AnyTLS session: the receive loop reads frames off the byte stream
    and hands their payloads to the streams registered under their ids. */
module SessionReader {
  import opened Basics
  import opened Frames
  import opened SessionWriter
  import Seqs

  /** A registered stream: the bytes written into its pipe, and whether the pipe is still open. */
  datatype Stream = Stream(inbox: Bytes, open: bool)

  /** What the loop asks of its surroundings: whether a peer's settings name another padding
      scheme, the version found in settings, the payloads of the two answers and the text of the
      alert for a client that sends no settings. */
  datatype Config = Config(stalePadding: Bytes -> bool, version: Bytes -> Option<int>,
                           scheme: Bytes, settings: Bytes, alert: Bytes)

  /** The loop's state. `retired` keeps the closed streams that left the table; `sendsLeft` is how many
      control frames the connection will still accept; `stopped` says that the loop is about to return
      or that the session was closed under it. */
  datatype Receiver = Receiver(isClient: bool, stopped: bool, gotSettings: bool, peerVersion: Byte,
                               streams: map<U32, Stream>, retired: multiset<(U32, Stream)>,
                               replies: seq<Frame>, sendsLeft: nat)

  // ---------- what one frame does ----------

  /** Session close: every stream in the table is closed and leaves it. */
  function CloseAll(r: Receiver): Receiver {
    r.(stopped := true, streams := map[], retired := r.retired + multiset(ClosedStreams(r.streams, r.streams.Keys)))
  }

  function ClosedStreams(streams: map<U32, Stream>, sids: set<U32>): set<(U32, Stream)>
    requires sids <= streams.Keys
  {
    set sid | sid in sids :: (sid, streams[sid].(open := false))
  }

  /** An answer; when it cannot be written the session is closed. */
  function Reply(r: Receiver, f: Frame): Receiver {
    if r.sendsLeft == 0 then CloseAll(r)
    else r.(replies := r.replies + [f], sendsLeft := r.sendsLeft - 1)
  }

  function Retire(r: Receiver, sid: U32): Receiver {
    if sid !in r.streams then r
    else r.(streams := r.streams - {sid}, retired := r.retired + multiset{(sid, r.streams[sid].(open := false))})
  }

  function OnPsh(r: Receiver, sid: U32, data: Bytes): Receiver {
    if sid in r.streams && r.streams[sid].open then
      r.(streams := r.streams[sid := Stream(r.streams[sid].inbox + data, true)])
    else r
  }

  function OnSyn(r: Receiver, sid: U32, alert: Bytes): Receiver {
    if !r.isClient && !r.gotSettings then Reply(r, Frame(CMD_ALERT, 0, alert)).(stopped := true)
    else if sid in r.streams then r
    else r.(streams := r.streams[sid := Stream([], true)])
  }

  /** An error report closes the stream: a FIN goes out and the stream leaves the table, with all others
      when the FIN cannot be sent. A stream that was closed before stays where it is. */
  function OnSynAck(r: Receiver, sid: U32): Receiver {
    if sid in r.streams && r.streams[sid].open then Retire(Reply(r, Frame(CMD_FIN, sid, [])), sid)
    else r
  }

  function OnSettings(r: Receiver, data: Bytes, c: Config): Receiver {
    if r.isClient then r
    else
      var q := r.(gotSettings := true);
      var p := if c.stalePadding(data) then Reply(q, Frame(CMD_UPDATE_PADDING_SCHEME, 0, c.scheme)) else q;
      if p.stopped then p
      else match c.version(data)
        case None => p
        case Some(v) =>
          if v >= 2 then Reply(p.(peerVersion := v % 0x100), Frame(CMD_SERVER_SETTINGS, 0, c.settings)) else p
  }

  function Step(r: Receiver, f: Frame, c: Config): Receiver {
    if f.cmd == CMD_SYN then OnSyn(r, f.sid, c.alert)
    else if f.cmd == CMD_FIN then Retire(r, f.sid)
    else if f.cmd == CMD_HEART_REQUEST then Reply(r, Frame(CMD_HEART_RESPONSE, f.sid, []))
    else if f.data == [] then r
    else if f.cmd == CMD_PSH then OnPsh(r, f.sid, f.data)
    else if f.cmd == CMD_SYNACK then OnSynAck(r, f.sid)
    else if f.cmd == CMD_SETTINGS then OnSettings(r, f.data, c)
    else if f.cmd == CMD_ALERT then r.(stopped := true)
    else if f.cmd == CMD_SERVER_SETTINGS && r.isClient && c.version(f.data).Some? then
      r.(peerVersion := c.version(f.data).value % 0x100)
    else r
  }

  /** The frames in order, up to the one that stops the loop. */
  function Process(r: Receiver, fs: seq<Frame>, c: Config): Receiver
    decreases |fs|
  {
    if fs == [] || r.stopped then r else Process(Step(r, fs[0], c), fs[1..], c)
  }

  /** The receiver of a session that has just begun. */
  function Fresh(isClient: bool, sends: nat): Receiver {
    Receiver(isClient, false, false, 0, map[], multiset{}, [], sends)
  }

  /** How often closing the streams of a table makes `st` out of the stream under `sid`: once, if that stream
      has the same bytes and `st` is closed. */
  function ClosedAs(streams: map<U32, Stream>, sid: U32, st: Stream): nat {
    if sid in streams && st == Stream(streams[sid].inbox, false) then 1 else 0
  }

  lemma ClosedOnce(streams: map<U32, Stream>, sid: U32, st: Stream)
    ensures multiset(ClosedStreams(streams, streams.Keys))[(sid, st)] == ClosedAs(streams, sid, st)
  {
    assert (sid, st) in ClosedStreams(streams, streams.Keys) <==>
           sid in streams && st == streams[sid].(open := false);
  }

  /** The loop of session close over the table. */
  method CloseEach(table: map<U32, Stream>) returns (closed: multiset<(U32, Stream)>)
    ensures closed == multiset(ClosedStreams(table, table.Keys))
  {
    var rest := table.Keys;
    closed := multiset{};
    while rest != {}
      invariant rest <= table.Keys && closed == multiset(ClosedStreams(table, table.Keys - rest))
    {
      var sid := Seqs.Pick(rest);
      OneMoreClosed(table, table.Keys - rest, sid);
      closed := closed + multiset{(sid, table[sid].(open := false))};
      assert table.Keys - rest + {sid} == table.Keys - (rest - {sid});
      rest := rest - {sid};
    }
    assert table.Keys - rest == table.Keys;
  }

  lemma EachClosedOnce(streams: map<U32, Stream>, was: multiset<(U32, Stream)>, now: multiset<(U32, Stream)>)
    requires now == was + multiset(ClosedStreams(streams, streams.Keys))
    ensures forall sid, st :: now[(sid, st)] == was[(sid, st)] + ClosedAs(streams, sid, st)
  {
    forall sid, st ensures now[(sid, st)] == was[(sid, st)] + ClosedAs(streams, sid, st) {
      ClosedOnce(streams, sid, st);
    }
  }

  class ReadSide {
    const isClient: bool
    const config: Config
    var stopped: bool
    var peerVersion: Byte
    var streams: map<U32, Stream>
    var retired: multiset<(U32, Stream)>
    var replies: seq<Frame>
    var sendsLeft: nat

    function State(gotSettings: bool): Receiver
      reads this
    {
      Receiver(isClient, stopped, gotSettings, peerVersion, streams, retired, replies, sendsLeft)
    }

    /** One end of a connection that has just been made. */
    constructor (isClient: bool, config: Config, sends: nat)
      ensures State(false) == Fresh(isClient, sends) && this.config == config
    {
      this.isClient, this.config, sendsLeft := isClient, config, sends;
      stopped, peerVersion, streams, retired, replies := false, 0, map[], multiset{}, [];
    }

    method Close()
      modifies this`stopped, this`streams, this`retired
      ensures forall g :: State(g) == CloseAll(old(State(g)))
      ensures stopped && streams == map[]
      ensures forall sid, st :: retired[(sid, st)] == old(retired)[(sid, st)] + ClosedAs(old(streams), sid, st)
    {
      var closed := CloseEach(streams);
      EachClosedOnce(streams, retired, retired + closed);
      stopped, streams, retired := true, map[], retired + closed;
    }

    method WriteControlFrame(f: Frame) returns (ok: bool)
      modifies this`stopped, this`streams, this`retired, this`replies, this`sendsLeft
      ensures forall g :: State(g) == Reply(old(State(g)), f)
      ensures ok == (old(sendsLeft) > 0)
    {
      if sendsLeft == 0 {
        Close();
        return false;
      }
      replies, sendsLeft := replies + [f], sendsLeft - 1;
      return true;
    }

    method Remove(sid: U32)
      modifies this`streams, this`retired
      ensures forall g :: State(g) == Retire(old(State(g)), sid)
    {
      if sid in streams {
        retired := retired + multiset{(sid, streams[sid].(open := false))};
        streams := streams - {sid};
      }
    }

    /** The peer could not open a stream. */
    method ReportError(sid: U32, ghost settled: bool)
      modifies this`stopped, this`streams, this`retired, this`replies, this`sendsLeft
      ensures State(settled) == OnSynAck(old(State(settled)), sid)
    {
      if sid in streams && streams[sid].open {
        ClosedThenReported(State(settled), sid);
        streams := streams[sid := streams[sid].(open := false)];
        var _ := WriteControlFrame(Frame(CMD_FIN, sid, []));
        Remove(sid);
      }
    }

    method TakeSettings(data: Bytes, ghost settled: bool)
      requires !isClient && !stopped
      modifies this`stopped, this`peerVersion, this`streams, this`retired, this`replies, this`sendsLeft
      ensures State(true) == OnSettings(old(State(settled)), data, config)
    {
      if config.stalePadding(data) {
        var ok := WriteControlFrame(Frame(CMD_UPDATE_PADDING_SCHEME, 0, config.scheme));
        if !ok {
          return;
        }
      }
      var v := config.version(data);
      if v.Some? && v.value >= 2 {
        peerVersion := v.value % 0x100;
        var _ := WriteControlFrame(Frame(CMD_SERVER_SETTINGS, 0, config.settings));
      }
    }

    /** The switch of the receive loop, after the frame's bytes have been read. */
    method Handle(cmd: Byte, sid: U32, data: Bytes, settled: bool) returns (gotSettings: bool)
      requires !stopped
      modifies this`stopped, this`peerVersion, this`streams, this`retired, this`replies, this`sendsLeft
      ensures State(gotSettings) == Step(old(State(settled)), Frame(cmd, sid, data), config)
    {
      gotSettings := settled;
      if cmd == CMD_PSH {
        if |data| > 0 && sid in streams && streams[sid].open {
          streams := streams[sid := Stream(streams[sid].inbox + data, true)];
        }
      } else if cmd == CMD_SYN {
        if !isClient && !settled {
          var _ := WriteControlFrame(Frame(CMD_ALERT, 0, config.alert));
          stopped := true;
        } else if sid !in streams {
          streams := streams[sid := Stream([], true)];
        }
      } else if cmd == CMD_SYNACK {
        if |data| > 0 {
          ReportError(sid, settled);
        }
      } else if cmd == CMD_FIN {
        Remove(sid);
      } else if cmd == CMD_SETTINGS {
        if |data| > 0 && !isClient {
          gotSettings := true;
          TakeSettings(data, settled);
        }
      } else if cmd == CMD_ALERT {
        stopped := |data| > 0;
      } else if cmd == CMD_HEART_REQUEST {
        var _ := WriteControlFrame(Frame(CMD_HEART_RESPONSE, sid, []));
      } else if cmd == CMD_SERVER_SETTINGS {
        if |data| > 0 && isClient {
          var v := config.version(data);
          if v.Some? {
            peerVersion := v.value % 0x100;
          }
        }
      }
    }

    /** The loop over everything that can be read from `input`: whatever the bytes are, it does
        what the complete frames in them say, in order. */
    method ReadFrames(input: Bytes) returns (gotSettings: bool)
      modifies this
      ensures State(gotSettings) == Process(old(State(false)), Parse(input).frames, config)
    {
      gotSettings := false;
      var pos := 0;
      assert input[0..] == input;
      while !stopped
        invariant pos <= |input|
        invariant Process(State(gotSettings), Parse(input[pos..]).frames, config) ==
                  Process(old(State(false)), Parse(input).frames, config)
        decreases |input| - pos
      {
        var rest := input[pos..];
        if |rest| < HEADER_SIZE {
          return;
        }
        var cmd, sid, len := rest[0], GetU32(rest[1..5]), GetU16(rest[5..7]);
        var n := if CarriesData(cmd) then len else 0;
        if |rest| < HEADER_SIZE + n {
          return;
        }
        var data := rest[HEADER_SIZE..HEADER_SIZE + n];
        ghost var f, tail := Frame(cmd, sid, data), Parse(rest[Used(Frame(cmd, sid, data))..]).frames;
        assert Parse(rest).frames == [f] + tail;
        assert ([f] + tail)[1..] == tail;
        gotSettings := Handle(cmd, sid, data, gotSettings);
        pos := pos + HEADER_SIZE + n;
        assert input[pos..] == rest[Used(f)..];
      }
    }

    /** When nothing more can be read, or a frame stopped the loop, the session is closed: each stream still
        in the table is closed once and leaves it, and the others stay as they were. */
    method RecvLoop(input: Bytes) returns (gotSettings: bool)
      modifies this
      ensures State(gotSettings) == CloseAll(Process(old(State(false)), Parse(input).frames, config))
      ensures stopped && streams == map[]
      ensures var p := Process(old(State(false)), Parse(input).frames, config);
              && replies == p.replies
              && forall sid, st :: retired[(sid, st)] == p.retired[(sid, st)] + ClosedAs(p.streams, sid, st)
    {
      gotSettings := ReadFrames(input);
      Close();
    }
  }

  lemma OneMoreClosed(streams: map<U32, Stream>, sids: set<U32>, sid: U32)
    requires sids <= streams.Keys && sid in streams && sid !in sids
    ensures multiset(ClosedStreams(streams, sids + {sid})) ==
            multiset(ClosedStreams(streams, sids)) + multiset{(sid, streams[sid].(open := false))}
  {
    assert ClosedStreams(streams, sids + {sid}) == ClosedStreams(streams, sids) + {(sid, streams[sid].(open := false))};
  }

  /** A stream closed just before the session ends up as any other. */
  lemma ClosingOneFirst(r: Receiver, sid: U32)
    requires sid in r.streams
    ensures CloseAll(r.(streams := r.streams[sid := r.streams[sid].(open := false)])) == CloseAll(r)
  {
    var t := r.streams[sid := r.streams[sid].(open := false)];
    assert t.Keys == r.streams.Keys;
    forall x ensures x in ClosedStreams(t, t.Keys) <==> x in ClosedStreams(r.streams, r.streams.Keys) {
      assert x.0 in t ==> t[x.0].(open := false) == r.streams[x.0].(open := false);
    }
  }

  /** Closing a stream before its FIN goes out makes no difference to what is left afterwards. */
  lemma ClosedThenReported(r: Receiver, sid: U32)
    requires sid in r.streams
    ensures var t := r.(streams := r.streams[sid := r.streams[sid].(open := false)]);
            Retire(Reply(t, Frame(CMD_FIN, sid, [])), sid) == Retire(Reply(r, Frame(CMD_FIN, sid, [])), sid)
  {
    ClosingOneFirst(r, sid);
    assert r.streams[sid := r.streams[sid].(open := false)] - {sid} == r.streams - {sid};
  }

  // ---------- no stream is lost ----------

  /** Every stream there has been, with its bytes so far: those retired and those still in the table. */
  function Everyone(r: Receiver): multiset<(U32, Stream)> { r.retired + InTable(r.streams) }

  function Entries(streams: map<U32, Stream>): set<(U32, Stream)> {
    set sid | sid in streams :: (sid, Stream(streams[sid].inbox, false))
  }

  function InTable(streams: map<U32, Stream>): multiset<(U32, Stream)> { multiset(Entries(streams)) }

  lemma EntryIs(streams: map<U32, Stream>, e: (U32, Stream))
    ensures e in Entries(streams) <==> e.0 in streams && e.1 == Stream(streams[e.0].inbox, false)
  {
  }

  lemma OneMoreInTable(streams: map<U32, Stream>, sid: U32, st: Stream)
    requires sid !in streams
    ensures InTable(streams[sid := st]) == InTable(streams) + multiset{(sid, Stream(st.inbox, false))}
  {
    var added := (sid, Stream(st.inbox, false));
    forall e: (U32, Stream) ensures e in Entries(streams[sid := st]) <==> e in Entries(streams) || e == added {
      EntryOfMore(streams, sid, st, e);
    }
    EntryIs(streams, added);
    assert Entries(streams[sid := st]) == Entries(streams) + {added};
  }

  lemma EntryOfMore(streams: map<U32, Stream>, sid: U32, st: Stream, e: (U32, Stream))
    requires sid !in streams
    ensures e in Entries(streams[sid := st]) <==> e in Entries(streams) || e == (sid, Stream(st.inbox, false))
  {
    EntryIs(streams[sid := st], e);
    EntryIs(streams, e);
  }

  lemma OneLessInTable(streams: map<U32, Stream>, sid: U32)
    requires sid in streams
    ensures InTable(streams) == InTable(streams - {sid}) + multiset{(sid, Stream(streams[sid].inbox, false))}
  {
    assert (streams - {sid})[sid := streams[sid]] == streams;
    OneMoreInTable(streams - {sid}, sid, streams[sid]);
  }

  lemma CloseKeepsEveryone(r: Receiver)
    ensures Everyone(CloseAll(r)) == Everyone(r)
  {
    forall e: (U32, Stream) ensures InTable(r.streams)[e] == multiset(ClosedStreams(r.streams, r.streams.Keys))[e] {
      ClosedOnce(r.streams, e.0, e.1);
      EntryIs(r.streams, e);
    }
    assert InTable(map[]) == multiset{};
  }

  lemma ReplyKeepsEveryone(r: Receiver, f: Frame)
    ensures Everyone(Reply(r, f)) == Everyone(r)
  {
    CloseKeepsEveryone(r);
  }

  lemma RetireKeepsEveryone(r: Receiver, sid: U32)
    ensures Everyone(Retire(r, sid)) == Everyone(r)
  {
    if sid in r.streams {
      OneLessInTable(r.streams, sid);
    }
  }

  lemma SettingsKeepEveryone(r: Receiver, data: Bytes, c: Config)
    ensures Everyone(OnSettings(r, data, c)) == Everyone(r)
  {
    if !r.isClient {
      var q := r.(gotSettings := true);
      assert Everyone(q) == Everyone(r);
      ReplyKeepsEveryone(q, Frame(CMD_UPDATE_PADDING_SCHEME, 0, c.scheme));
      var p := if c.stalePadding(data) then Reply(q, Frame(CMD_UPDATE_PADDING_SCHEME, 0, c.scheme)) else q;
      if !p.stopped && c.version(data).Some? {
        var v := p.(peerVersion := c.version(data).value % 0x100);
        assert Everyone(v) == Everyone(p);
        ReplyKeepsEveryone(v, Frame(CMD_SERVER_SETTINGS, 0, c.settings));
      }
    }
  }

  /** The frame registers a stream. */
  predicate Registers(r: Receiver, f: Frame) {
    f.cmd == CMD_SYN && (r.isClient || r.gotSettings) && f.sid !in r.streams
  }

  /** The frame brings bytes for an open stream. */
  predicate Feeds(r: Receiver, f: Frame) { f.cmd == CMD_PSH && f.data != [] && OpenIn(r, f.sid) }

  lemma FeedingKeepsOthers(r: Receiver, f: Frame)
    requires Feeds(r, f)
    ensures var was, now := Stream(r.streams[f.sid].inbox, false), Stream(r.streams[f.sid].inbox + f.data, false);
            && (f.sid, was) in Everyone(r)
            && Everyone(OnPsh(r, f.sid, f.data)) == Everyone(r) - multiset{(f.sid, was)} + multiset{(f.sid, now)}
  {
    var rest, st := r.streams - {f.sid}, Stream(r.streams[f.sid].inbox + f.data, true);
    OneLessInTable(r.streams, f.sid);
    OneMoreInTable(rest, f.sid, st);
    assert rest[f.sid := st] == OnPsh(r, f.sid, f.data).streams;
  }

  /** A frame adds a stream when it registers one and bytes to the stream it feeds; beyond that it leaves the
      streams there have been as they are. */
  lemma StepKeepsEveryone(r: Receiver, f: Frame, c: Config)
    ensures var all := Everyone(Step(r, f, c));
            if Registers(r, f) then all == Everyone(r) + multiset{(f.sid, Stream([], false))}
            else if Feeds(r, f) then
              var was, now := Stream(r.streams[f.sid].inbox, false), Stream(r.streams[f.sid].inbox + f.data, false);
              (f.sid, was) in Everyone(r) && all == Everyone(r) - multiset{(f.sid, was)} + multiset{(f.sid, now)}
            else all == Everyone(r)
  {
    if Registers(r, f) {
      OneMoreInTable(r.streams, f.sid, Stream([], true));
    } else if Feeds(r, f) {
      FeedingKeepsOthers(r, f);
    } else {
      OtherKeepsEveryone(r, f, c);
    }
  }

  lemma OtherKeepsEveryone(r: Receiver, f: Frame, c: Config)
    requires !Registers(r, f) && !Feeds(r, f)
    ensures Everyone(Step(r, f, c)) == Everyone(r)
  {
    if f.cmd == CMD_SYN {
      ReplyKeepsEveryone(r, Frame(CMD_ALERT, 0, c.alert));
    } else if f.cmd == CMD_FIN {
      RetireKeepsEveryone(r, f.sid);
    } else if f.cmd == CMD_HEART_REQUEST {
      ReplyKeepsEveryone(r, Frame(CMD_HEART_RESPONSE, f.sid, []));
    } else if f.cmd == CMD_SYNACK {
      ReplyKeepsEveryone(r, Frame(CMD_FIN, f.sid, []));
      RetireKeepsEveryone(Reply(r, Frame(CMD_FIN, f.sid, [])), f.sid);
    } else if f.cmd == CMD_SETTINGS {
      SettingsKeepEveryone(r, f.data, c);
    }
  }

  /** How many streams the frames register, as far as the loop gets. */
  function Registrations(r: Receiver, fs: seq<Frame>, c: Config): nat
    decreases |fs|
  {
    if fs == [] || r.stopped then 0
    else (if Registers(r, fs[0]) then 1 else 0) + Registrations(Step(r, fs[0], c), fs[1..], c)
  }

  /** Whatever the frames, every stream that was registered is in the table or retired, and no other is. */
  lemma {:induction false} NoStreamIsLost(r: Receiver, fs: seq<Frame>, c: Config)
    ensures |Everyone(Process(r, fs, c))| == |Everyone(r)| + Registrations(r, fs, c)
    decreases |fs|
  {
    if fs != [] && !r.stopped {
      StepKeepsEveryone(r, fs[0], c);
      NoStreamIsLost(Step(r, fs[0], c), fs[1..], c);
    }
  }

  // ---------- what is answered ----------

  /** What a frame calls for, in order. */
  function Called(r: Receiver, f: Frame, c: Config): seq<Frame> {
    if f.cmd == CMD_HEART_REQUEST then [Frame(CMD_HEART_RESPONSE, f.sid, [])]
    else if f.cmd == CMD_SYN && !r.isClient && !r.gotSettings then [Frame(CMD_ALERT, 0, c.alert)]
    else if f.cmd == CMD_SYNACK && f.data != [] && OpenIn(r, f.sid) then [Frame(CMD_FIN, f.sid, [])]
    else if f.cmd == CMD_SETTINGS && f.data != [] && !r.isClient then
      (if c.stalePadding(f.data) then [Frame(CMD_UPDATE_PADDING_SCHEME, 0, c.scheme)] else [])
      + if ModernPeer(c, f.data) then [Frame(CMD_SERVER_SETTINGS, 0, c.settings)] else []
    else []
  }

  /** Settings that name version 2 or later. */
  predicate ModernPeer(c: Config, data: Bytes) { c.version(data).Some? && c.version(data).value >= 2 }

  /** The frame tells a server its client's version, when that is 2 or later, or a client its server's. */
  predicate TellsVersion(r: Receiver, f: Frame, c: Config) {
    && f.data != [] && c.version(f.data).Some?
    && if r.isClient then f.cmd == CMD_SERVER_SETTINGS else f.cmd == CMD_SETTINGS && c.version(f.data).value >= 2
  }

  /** As long as the connection takes them, exactly the answers called for go out, and settings are remembered;
      the first that cannot go out closes the session and all its streams. */
  lemma AnswersGoOut(r: Receiver, f: Frame, c: Config)
    requires !r.stopped
    ensures var q, called := Step(r, f, c), Called(r, f, c);
            if |called| <= r.sendsLeft then
              && q.replies == r.replies + called && q.sendsLeft == r.sendsLeft - |called|
              && q.gotSettings == (r.gotSettings || (f.cmd == CMD_SETTINGS && f.data != [] && !r.isClient))
              && q.peerVersion == if TellsVersion(r, f, c) then c.version(f.data).value % 0x100 else r.peerVersion
            else
              && q.replies == r.replies + called[..r.sendsLeft] && q.sendsLeft == 0 && q.stopped && q.streams == map[]
  {
    Seqs.RightUnit(r.replies);
    if f.cmd == CMD_SETTINGS && f.data != [] && !r.isClient && c.stalePadding(f.data) {
      Seqs.Assoc(r.replies, [Frame(CMD_UPDATE_PADDING_SCHEME, 0, c.scheme)],
                 if ModernPeer(c, f.data) then [Frame(CMD_SERVER_SETTINGS, 0, c.settings)] else []);
    }
  }

  // ---------- what reaches the streams ----------

  /** The concatenation of the PSH payloads for stream `sid`. */
  function PayloadsFor(fs: seq<Frame>, sid: U32): Bytes {
    if fs == [] then []
    else (if fs[0].cmd == CMD_PSH && fs[0].sid == sid then fs[0].data else []) + PayloadsFor(fs[1..], sid)
  }

  /** A frame that takes stream `sid` out of the table. */
  predicate Ends(f: Frame, sid: U32) {
    f.sid == sid && (f.cmd == CMD_FIN || (f.cmd == CMD_SYNACK && f.data != []))
  }

  predicate OpenIn(r: Receiver, sid: U32) { sid in r.streams && r.streams[sid].open }

  lemma {:induction false} ProcessConcat(r: Receiver, a: seq<Frame>, b: seq<Frame>, c: Config)
    ensures Process(r, a + b, c) == Process(Process(r, a, c), b, c)
    decreases |a|
  {
    if a == [] {
      Seqs.LeftUnit(b);
    } else if !r.stopped {
      Seqs.TailOfConcat(a, b);
      ProcessConcat(Step(r, a[0], c), a[1..], b, c);
    }
  }

  /** Waste frames have no effect. */
  lemma {:induction false} WasteIsInert(r: Receiver, fs: seq<Frame>, c: Config)
    ensures Process(r, fs, c) == Process(r, DropWaste(fs), c)
    decreases |fs|
  {
    if fs != [] && !r.stopped {
      WasteIsInert(Step(r, fs[0], c), fs[1..], c);
      if fs[0].cmd == CMD_WASTE {
        Seqs.LeftUnit(DropWaste(fs[1..]));
      } else {
        assert DropWaste(fs)[1..] == DropWaste(fs[1..]);
      }
    }
  }

  /** An open stream that no frame ends has received exactly its own payloads, in order. */
  lemma {:induction false} StreamReceivesItsPayloads(r: Receiver, fs: seq<Frame>, sid: U32, c: Config)
    requires OpenIn(r, sid) && forall f | f in fs :: !Ends(f, sid)
    requires !Process(r, fs, c).stopped
    ensures OpenIn(Process(r, fs, c), sid)
    ensures Process(r, fs, c).streams[sid].inbox == r.streams[sid].inbox + PayloadsFor(fs, sid)
    decreases |fs|
  {
    if fs == [] {
      Seqs.RightUnit(r.streams[sid].inbox);
    } else {
      var f, q := fs[0], Step(r, fs[0], c);
      assert f in fs;
      assert !q.stopped;
      StepOnOpenStream(r, f, sid, c);
      StreamReceivesItsPayloads(q, fs[1..], sid, c);
      var p := if f.cmd == CMD_PSH && f.sid == sid then f.data else [];
      Seqs.Assoc(r.streams[sid].inbox, p, PayloadsFor(fs[1..], sid));
    }
  }

  lemma ReplyLeavesStreams(r: Receiver, f: Frame)
    requires !Reply(r, f).stopped
    ensures Reply(r, f).streams == r.streams
  {
  }

  lemma SettingsLeaveStreams(r: Receiver, data: Bytes, c: Config)
    requires !OnSettings(r, data, c).stopped
    ensures OnSettings(r, data, c).streams == r.streams
  {
  }

  lemma ErrorLeavesOthers(r: Receiver, sid: U32)
    requires !OnSynAck(r, sid).stopped
    ensures OnSynAck(r, sid).streams - {sid} == r.streams - {sid}
  {
  }

  /** A frame that does not stop the loop leaves every stream alone that it is not about. */
  lemma OthersUntouched(r: Receiver, f: Frame, c: Config)
    requires !Step(r, f, c).stopped
    ensures Step(r, f, c).streams - {f.sid} == r.streams - {f.sid}
    ensures f.cmd !in {CMD_PSH, CMD_SYN, CMD_SYNACK, CMD_FIN} ==> Step(r, f, c).streams == r.streams
  {
    if f.cmd == CMD_HEART_REQUEST {
      ReplyLeavesStreams(r, Frame(CMD_HEART_RESPONSE, f.sid, []));
    } else if f.cmd == CMD_SYNACK && f.data != [] {
      ErrorLeavesOthers(r, f.sid);
    } else if f.cmd == CMD_SETTINGS && f.data != [] {
      SettingsLeaveStreams(r, f.data, c);
    }
  }

  lemma StepOnOpenStream(r: Receiver, f: Frame, sid: U32, c: Config)
    requires OpenIn(r, sid) && !Ends(f, sid) && !Step(r, f, c).stopped
    ensures OpenIn(Step(r, f, c), sid)
    ensures Step(r, f, c).streams[sid].inbox ==
            r.streams[sid].inbox + if f.cmd == CMD_PSH && f.sid == sid then f.data else []
  {
    OthersUntouched(r, f, c);
    assert sid != f.sid ==> sid in r.streams - {f.sid};
    Seqs.RightUnit(r.streams[sid].inbox);
  }

  /** A FIN retires the stream with exactly the payloads that came before it. */
  lemma FinRetiresTheStream(r: Receiver, before: seq<Frame>, fin: Frame, after: seq<Frame>, sid: U32, c: Config)
    requires OpenIn(r, sid) && forall f | f in before :: !Ends(f, sid)
    requires fin.cmd == CMD_FIN && fin.sid == sid
    requires !Process(r, before, c).stopped
    ensures (sid, Stream(r.streams[sid].inbox + PayloadsFor(before, sid), false))
            in Process(r, before + [fin] + after, c).retired
  {
    StreamReceivesItsPayloads(r, before, sid, c);
    ProcessConcat(r, before + [fin], after, c);
    ProcessConcat(r, before, [fin], c);
    var q := Process(r, before, c);
    assert [fin][1..] == [];
    assert Process(q, [fin], c) == Step(q, fin, c);
    RetiredOnlyGrows(Step(q, fin, c), after, c);
  }

  /** A SYNACK with a text does the same to the stream it is about, and a FIN goes out for it. */
  lemma ErrorRetiresTheStream(r: Receiver, before: seq<Frame>, error: Frame, after: seq<Frame>, sid: U32, c: Config)
    requires OpenIn(r, sid) && forall f | f in before :: !Ends(f, sid)
    requires error.cmd == CMD_SYNACK && error.sid == sid && error.data != []
    requires !Process(r, before, c).stopped && Process(r, before, c).sendsLeft >= 1
    ensures (sid, Stream(r.streams[sid].inbox + PayloadsFor(before, sid), false))
            in Process(r, before + [error] + after, c).retired
    ensures Process(r, before + [error], c).replies == Process(r, before, c).replies + [Frame(CMD_FIN, sid, [])]
    ensures sid !in Process(r, before + [error], c).streams
  {
    StreamReceivesItsPayloads(r, before, sid, c);
    ProcessConcat(r, before + [error], after, c);
    ProcessConcat(r, before, [error], c);
    var q := Process(r, before, c);
    assert [error][1..] == [];
    assert Process(q, [error], c) == Step(q, error, c);
    AnswersGoOut(q, error, c);
    RetiredOnlyGrows(Step(q, error, c), after, c);
  }

  lemma {:induction false} RetiredOnlyGrows(r: Receiver, fs: seq<Frame>, c: Config)
    ensures r.retired <= Process(r, fs, c).retired
    decreases |fs|
  {
    if fs != [] && !r.stopped {
      RetiredOnlyGrows(Step(r, fs[0], c), fs[1..], c);
    }
  }

  /** How many answers the frames can call for. */
  function AnswersTo(fs: seq<Frame>): nat {
    if fs == [] then 0
    else
      (if fs[0].cmd == CMD_SETTINGS then 2 else if fs[0].cmd in {CMD_HEART_REQUEST, CMD_SYNACK} then 1 else 0)
      + AnswersTo(fs[1..])
  }

  /** No alert with a text, and no SYN before settings came. */
  predicate Welcome(settled: bool, fs: seq<Frame>)
    decreases |fs|
  {
    fs == [] ||
    (&& !(fs[0].cmd == CMD_ALERT && fs[0].data != []) && (fs[0].cmd == CMD_SYN ==> settled)
     && Welcome(settled || (fs[0].cmd == CMD_SETTINGS && fs[0].data != []), fs[1..]))
  }

  lemma {:induction false} StoppedStays(r: Receiver, fs: seq<Frame>, c: Config)
    requires r.stopped
    ensures Process(r, fs, c) == r
  {
  }

  /** On a connection that takes the answers the loop runs through all the frames if and only if none of
      them is an alert with a text, or a SYN to a server that has had no settings yet. */
  lemma {:induction false} LoopRunsExactlyWhen(r: Receiver, fs: seq<Frame>, c: Config)
    requires !r.stopped && r.sendsLeft >= AnswersTo(fs)
    ensures !Process(r, fs, c).stopped <==> Welcome(r.isClient || r.gotSettings, fs)
    decreases |fs|
  {
    if fs != [] {
      var q := Step(r, fs[0], c);
      if !q.stopped {
        LoopRunsExactlyWhen(q, fs[1..], c);
      }
    }
  }

  // ---------- sender and receiver ----------

  /** The frames of a run that have left the sender. */
  function Left(s: Sender, ops: seq<Op>): seq<Frame>
    requires |Pending(PerformAll(s, ops))| <= |FramesOf(ops)|
  {
    FramesOf(ops)[..|FramesOf(ops)| - |Pending(PerformAll(s, ops))|]
  }

  /** Sender and receiver compose: after every error-free run of a new session every stream, answer and
      retirement at the other end is what the frames that have left would have caused by themselves:
      padding is invisible to the receiver. */
  lemma PaddingIsInvisible(s: Sender, ops: seq<Op>, r: Receiver, c: Config)
    requires s.records == [] && s.buffer == [] && forall op | op in ops :: ValidOp(op)
    ensures |Pending(PerformAll(s, ops))| <= |FramesOf(ops)|
    ensures Process(r, Parse(Wire(PerformAll(s, ops))).frames, c) == Process(r, Left(s, ops), c)
    ensures PerformAll(s, ops).buffer == [] ==> Left(s, ops) == FramesOf(ops)
  {
    var t := PerformAll(s, ops);
    RunKeepsFrames(s, ops);
    Seqs.LeftUnit(FramesOf(ops));
    assert OnWire(t) + Pending(t) == FramesOf(ops);
    assert OnWire(t) == Left(s, ops);
    WasteIsInert(r, Parse(Wire(t)).frames, c);
  }

  /** When the last write of such a run fails, the other end is as after a beginning of the frames. */
  lemma FailureOnlyCuts(s: Sender, ops: seq<Op>, last: Op, t: Sender, r: Receiver, c: Config)
    requires s.records == [] && s.buffer == [] && forall op | op in ops + [last] :: ValidOp(op)
    requires last.WriteFrame? && FailedWrite(PerformAll(s, ops), Encode(last.frame), last.stop, last.sizes, t)
    ensures exists n :: 0 <= n <= |FramesOf(ops + [last])| &&
              Process(r, Parse(Wire(t)).frames, c) == Process(r, FramesOf(ops + [last])[..n], c)
  {
    FailedRunKeepsABeginning(s, ops, last, t);
    Seqs.LeftUnit(FramesOf(ops + [last]));
    WasteIsInert(r, Parse(Wire(t)).frames, c);
    assert OnWire(t) == FramesOf(ops + [last])[..|OnWire(t)|];
  }

  /** A stream that a SYN among the frames registers receives exactly the payloads that come after it. */
  lemma SynThenPayloads(r: Receiver, before: seq<Frame>, sid: U32, after: seq<Frame>, c: Config)
    requires sid !in Process(r, before, c).streams && forall f | f in after :: !Ends(f, sid)
    requires !Process(r, before + [Frame(CMD_SYN, sid, [])] + after, c).stopped
    ensures var q := Process(r, before + [Frame(CMD_SYN, sid, [])] + after, c);
            OpenIn(q, sid) && q.streams[sid].inbox == PayloadsFor(after, sid)
  {
    var syn := Frame(CMD_SYN, sid, []);
    var p := Process(r, before, c);
    ProcessConcat(r, before + [syn], after, c);
    ProcessConcat(r, before, [syn], c);
    assert [syn][1..] == [];
    assert !p.stopped && !Step(p, syn, c).stopped by {
      if p.stopped { StoppedStays(p, [syn], c); }
      if Process(p, [syn], c).stopped { StoppedStays(Process(p, [syn], c), after, c); }
    }
    StreamReceivesItsPayloads(Step(p, syn, c), after, sid, c);
    Seqs.LeftUnit(PayloadsFor(after, sid));
  }

  /** So over every error-free run of a new session, whatever the padding, a stream announced in it
      receives at the other end exactly the payloads submitted for it, as far as they have left. */
  lemma DeliveredEndToEnd(s: Sender, ops: seq<Op>, r: Receiver, before: seq<Frame>, sid: U32, after: seq<Frame>, c: Config)
    requires s.records == [] && s.buffer == [] && forall op | op in ops :: ValidOp(op)
    requires |Pending(PerformAll(s, ops))| <= |FramesOf(ops)|
    requires Left(s, ops) == before + [Frame(CMD_SYN, sid, [])] + after
    requires sid !in Process(r, before, c).streams && forall f | f in after :: !Ends(f, sid)
    requires !Process(r, Left(s, ops), c).stopped
    ensures var q := Process(r, Parse(Wire(PerformAll(s, ops))).frames, c);
            OpenIn(q, sid) && q.streams[sid].inbox == PayloadsFor(after, sid)
  {
    PaddingIsInvisible(s, ops, r, c);
    SynThenPayloads(r, before, sid, after, c);
  }

  /** And one that ends in it is retired with exactly the payloads between its SYN and its FIN. */
  lemma RetiredEndToEnd(s: Sender, ops: seq<Op>, r: Receiver, before: seq<Frame>, sid: U32, between: seq<Frame>,
                        after: seq<Frame>, c: Config)
    requires s.records == [] && s.buffer == [] && forall op | op in ops :: ValidOp(op)
    requires |Pending(PerformAll(s, ops))| <= |FramesOf(ops)|
    requires Left(s, ops) == before + [Frame(CMD_SYN, sid, [])] + between + [Frame(CMD_FIN, sid, [])] + after
    requires sid !in Process(r, before, c).streams && forall f | f in between :: !Ends(f, sid)
    requires !Process(r, before + [Frame(CMD_SYN, sid, [])] + between, c).stopped
    ensures (sid, Stream(PayloadsFor(between, sid), false)) in Process(r, Parse(Wire(PerformAll(s, ops))).frames, c).retired
  {
    PaddingIsInvisible(s, ops, r, c);
    SynThenPayloads(r, before, sid, between, c);
    var first, fin := before + [Frame(CMD_SYN, sid, [])] + between, Frame(CMD_FIN, sid, []);
    ProcessConcat(r, first + [fin], after, c);
    ProcessConcat(r, first, [fin], c);
    assert [fin][1..] == [];
    RetiredOnlyGrows(Step(Process(r, first, c), fin, c), after, c);
  }

  /** At the end of the input the receiving end closes the stream with exactly these payloads. */
  method ReceiveAndClose(side: ReadSide, wire: Bytes, ghost s: Sender, ghost ops: seq<Op>, ghost before: seq<Frame>,
                         ghost sid: U32, ghost after: seq<Frame>)
    requires s.records == [] && s.buffer == [] && (forall op | op in ops :: ValidOp(op)) && wire == Wire(PerformAll(s, ops))
    requires |Pending(PerformAll(s, ops))| <= |FramesOf(ops)|
    requires Left(s, ops) == before + [Frame(CMD_SYN, sid, [])] + after
    requires sid !in Process(side.State(false), before, side.config).streams && forall f | f in after :: !Ends(f, sid)
    requires !Process(side.State(false), Left(s, ops), side.config).stopped
    modifies side
    ensures (sid, Stream(PayloadsFor(after, sid), false)) in side.retired && side.streams == map[]
  {
    ghost var p := Process(side.State(false), Parse(wire).frames, side.config);
    DeliveredEndToEnd(s, ops, side.State(false), before, sid, after, side.config);
    var _ := side.RecvLoop(wire);
    assert ClosedAs(p.streams, sid, Stream(PayloadsFor(after, sid), false)) == 1;
  }

  // ---------- from the start of a session ----------

  /** What a client does: it runs the session, opens its first stream, and writes `data` to it. */
  function FirstStream(settings: Op, syn: Op, data: seq<Op>): seq<Op> {
    [SetBuffering(true), settings, syn, SetBuffering(false)] + data
  }

  predicate DataOp(op: Op) { op.WriteFrame? && op.frame.cmd == CMD_PSH && ValidOp(op) }

  lemma {:induction false} DataFrames(data: seq<Op>)
    requires forall op | op in data :: DataOp(op)
    ensures |FramesOf(data)| == |data| && forall f | f in FramesOf(data) :: f.cmd == CMD_PSH
    ensures AnswersTo(FramesOf(data)) == 0 && forall settled :: Welcome(settled, FramesOf(data))
    decreases |data|
  {
    if data != [] {
      assert data[0] in data;
      DataFrames(data[1..]);
      assert FramesOf(data)[1..] == FramesOf(data[1..]);
    }
  }

  lemma FirstFrames(settings: Op, syn: Op, data: seq<Op>)
    requires settings.WriteFrame? && syn.WriteFrame?
    ensures FramesOf(FirstStream(settings, syn, data)) == [settings.frame] + [syn.frame] + FramesOf(data)
  {
    var on, off := SetBuffering(true), SetBuffering(false);
    var ops := FirstStream(settings, syn, data);
    assert ops[1..] == [settings, syn, off] + data;
    assert ops[1..][1..] == [syn, off] + data;
    assert ops[1..][1..][1..] == [off] + data;
    assert ops[1..][1..][1..][1..] == data;
    assert FramesOf([off] + data) == [] + FramesOf(data);
    assert FramesOf([syn, off] + data) == [syn.frame] + FramesOf([off] + data);
  }

  /** Buffering is off once the first stream is open, so the first data frame flushes everything. */
  lemma {:induction false} NothingPending(s: Sender, data: seq<Op>)
    requires !s.buffering && (data != [] || s.buffer == []) && forall op | op in data :: DataOp(op)
    ensures PerformAll(s, data).buffer == []
    decreases |data|
  {
    if data != [] {
      assert data[0] in data;
      NothingPending(Perform(s, data[0]), data[1..]);
    }
  }

  lemma FirstStreamFlushes(s: Sender, settings: Op, syn: Op, data: seq<Op>)
    requires settings.WriteFrame? && syn.WriteFrame? && data != [] && forall op | op in data :: DataOp(op)
    ensures PerformAll(s, FirstStream(settings, syn, data)).buffer == []
  {
    var ops := FirstStream(settings, syn, data);
    var on, off := SetBuffering(true), SetBuffering(false);
    assert ops[1..] == [settings, syn, off] + data;
    assert ops[1..][1..] == [syn, off] + data;
    assert ops[1..][1..][1..] == [off] + data;
    assert ops[1..][1..][1..][1..] == data;
    var a := Perform(s, on);
    var b := Perform(a, settings);
    var d := Perform(b, syn);
    assert PerformAll(s, ops) == PerformAll(a, ops[1..]) == PerformAll(b, [syn, off] + data);
    assert PerformAll(b, [syn, off] + data) == PerformAll(d, [off] + data) == PerformAll(Perform(d, off), data);
    NothingPending(Perform(d, off), data);
  }

  lemma FirstFramesWelcome(settings: Frame, syn: Frame, after: seq<Frame>)
    requires settings.cmd == CMD_SETTINGS && settings.data != [] && syn.cmd == CMD_SYN
    requires AnswersTo(after) == 0 && Welcome(true, after)
    ensures var fs := [settings] + [syn] + after; AnswersTo(fs) == 2 && Welcome(false, fs)
  {
    var fs := [settings] + [syn] + after;
    assert fs[1..] == [syn] + after && ([syn] + after)[1..] == after;
  }

  lemma SettingsRegisterNothing(settings: Frame, c: Config, sends: nat)
    requires settings.cmd == CMD_SETTINGS && settings.data != [] && sends >= 2
    ensures Process(Fresh(false, sends), [settings], c).streams == map[]
  {
    var r := Fresh(false, sends);
    assert [settings][1..] == [];
    assert Process(r, [settings], c) == Step(r, settings, c);
    SettingsLeaveStreams(r, settings.data, c);
  }

  lemma FirstFramesArrive(settings: Frame, sid: U32, after: seq<Frame>, c: Config, sends: nat)
    requires settings.cmd == CMD_SETTINGS && settings.data != [] && sends >= 2
    requires AnswersTo(after) == 0 && Welcome(true, after) && forall f | f in after :: f.cmd == CMD_PSH
    ensures var q := Process(Fresh(false, sends), [settings] + [Frame(CMD_SYN, sid, [])] + after, c);
            !q.stopped && OpenIn(q, sid) && q.streams[sid].inbox == PayloadsFor(after, sid)
  {
    var syn := Frame(CMD_SYN, sid, []);
    FirstFramesWelcome(settings, syn, after);
    LoopRunsExactlyWhen(Fresh(false, sends), [settings] + [syn] + after, c);
    SettingsRegisterNothing(settings, c, sends);
    SynThenPayloads(Fresh(false, sends), [settings], sid, after, c);
  }

  /** From the start of both ends: a client's first stream arrives at the server, and with it exactly the
      payloads written to it, whatever settings and padding there are. */
  lemma FirstStreamArrives(s: Sender, settings: Op, sid: U32, syn: Op, data: seq<Op>, c: Config, sends: nat)
    requires s.records == [] && s.buffer == [] && sends >= 2
    requires ValidOp(settings) && settings.WriteFrame? && settings.frame.cmd == CMD_SETTINGS && settings.frame.data != []
    requires ValidOp(syn) && syn.WriteFrame? && syn.frame == Frame(CMD_SYN, sid, [])
    requires data != [] && forall op | op in data :: DataOp(op)
    ensures var q := Process(Fresh(false, sends), Parse(Wire(PerformAll(s, FirstStream(settings, syn, data)))).frames, c);
            !q.stopped && OpenIn(q, sid) && q.streams[sid].inbox == PayloadsFor(FramesOf(data), sid)
  {
    FirstStreamFlushes(s, settings, syn, data);
    FirstFrames(settings, syn, data);
    PaddingIsInvisible(s, FirstStream(settings, syn, data), Fresh(false, sends), c);
    DataFrames(data);
    FirstFramesArrive(settings.frame, sid, FramesOf(data), c, sends);
  }

  lemma {:induction false} PayloadsSnoc(fs: seq<Frame>, f: Frame, sid: U32)
    requires f.cmd == CMD_PSH && f.sid == sid
    ensures PayloadsFor(fs + [f], sid) == PayloadsFor(fs, sid) + f.data
    decreases |fs|
  {
    if fs == [] {
      assert [] + [f] == [f] && [f][1..] == [];
      Seqs.RightUnit(f.data);
      Seqs.LeftUnit(f.data);
    } else {
      Seqs.TailOfConcat(fs, [f]);
      PayloadsSnoc(fs[1..], f, sid);
      var p := if fs[0].cmd == CMD_PSH && fs[0].sid == sid then fs[0].data else [];
      Seqs.Assoc(p, PayloadsFor(fs[1..], sid), f.data);
    }
  }

  lemma {:induction false} FramesSnoc(ops: seq<Op>, op: Op)
    requires op.WriteFrame?
    ensures FramesOf(ops + [op]) == FramesOf(ops) + [op.frame]
    decreases |ops|
  {
    if ops == [] {
      assert [] + [op] == [op] && [op][1..] == [];
    } else {
      Seqs.TailOfConcat(ops, [op]);
      FramesSnoc(ops[1..], op);
      Seqs.Assoc(if ops[0].WriteFrame? then [ops[0].frame] else [], FramesOf(ops[1..]), [op.frame]);
    }
  }

  /** The two ends put together: a client session runs, opens stream 1 and writes `chunks` to it, each under
      a padding of its own; the server reads what is on the wire. When no write failed, the server's stream
      holds exactly the chunks. */
  method Deliver(settings: Bytes, chunks: seq<Bytes>, stop: U32, padding: nat -> seq<PktSize>, c: Config, sends: nat)
      returns (inbox: Bytes, ok: bool)
    requires 0 < |settings| < 0x1_0000 && chunks != [] && sends >= 2
    requires (forall b | b in chunks :: |b| < 0x1_0000) && forall k :: FitsLengthField(padding(k))
    ensures ok ==> inbox == Flatten(chunks)
  {
    var client := new Session();
    ghost var s := client.State();
    ghost var first := WriteFrame(Frame(CMD_SETTINGS, 0, settings), stop, padding(0));
    ghost var syn := WriteFrame(Frame(CMD_SYN, 1, []), stop, padding(1));
    ghost var data: seq<Op> := [];
    client.Run(settings, stop, padding(0));
    var announced := client.AnnounceStream(1, stop, padding(1));
    if !announced {
      return [], false;
    }
    FirstOps(s, first, syn);
    for i := 0 to |chunks|
      invariant client.State() == PerformAll(s, FirstStream(first, syn, data))
      invariant |data| == i && (forall op | op in data :: DataOp(op))
      invariant PayloadsFor(FramesOf(data), 1) == Flatten(chunks[..i])
      invariant fresh(client) && fresh(client.conn)
    {
      var n, sent := client.WriteDataFrame(1, chunks[i], stop, padding(i + 2));
      if !sent {
        return [], false;
      }
      ghost var op := WriteFrame(Frame(CMD_PSH, 1, chunks[i]), stop, padding(i + 2));
      OneMoreChunk(s, first, syn, data, op, chunks, i);
      data := data + [op];
    }
    Seqs.Whole(chunks);
    var server := new ReadSide(false, c, sends);
    FirstStreamArrives(s, first, 1, syn, data, c, sends);
    var _ := server.ReadFrames(Flatten(client.conn.records));
    return server.streams[1].inbox, true;
  }

  lemma FirstOps(s: Sender, settings: Op, syn: Op)
    ensures PerformAll(PerformAll(s, [SetBuffering(true), settings]), [syn, SetBuffering(false)])
         == PerformAll(s, FirstStream(settings, syn, []))
  {
    var on, off := SetBuffering(true), SetBuffering(false);
    PerformTwo(s, on, settings);
    PerformTwo(PerformAll(s, [on, settings]), syn, off);
    PerformTwo(Perform(Perform(s, on), settings), syn, off);
    var ops := FirstStream(settings, syn, []);
    assert ops[1..] == [settings, syn, off] && ops[1..][1..] == [syn, off];
    assert PerformAll(s, ops) == PerformAll(Perform(s, on), ops[1..])
           == PerformAll(Perform(Perform(s, on), settings), [syn, off]);
  }

  lemma OneMoreChunk(s: Sender, settings: Op, syn: Op, data: seq<Op>, op: Op, chunks: seq<Bytes>, i: nat)
    requires i < |chunks| && op.WriteFrame? && op.frame == Frame(CMD_PSH, 1, chunks[i])
    requires PayloadsFor(FramesOf(data), 1) == Flatten(chunks[..i])
    ensures PerformAll(s, FirstStream(settings, syn, data + [op])) ==
            Perform(PerformAll(s, FirstStream(settings, syn, data)), op)
    ensures PayloadsFor(FramesOf(data + [op]), 1) == Flatten(chunks[..i + 1])
  {
    Seqs.Assoc([SetBuffering(true), settings, syn, SetBuffering(false)], data, [op]);
    PerformAllSnoc(s, FirstStream(settings, syn, data), op);
    FramesSnoc(data, op);
    PayloadsSnoc(FramesOf(data), op.frame, 1);
    assert chunks[..i + 1] == chunks[..i] + [chunks[i]];
    FlattenConcat(chunks[..i], [chunks[i]]);
    var last := [chunks[i]];
    assert last[1..] == [];
    assert Flatten(last) == chunks[i] + Flatten([]);
    Seqs.RightUnit(chunks[i]);
  }
}
