/** The AnyTLS client's session pool as interleaved steps: CreateStream, the die hooks that give
    sessions back, session close, client close and idle cleanup. A section under one of the
    client's locks is one step. */
module ClientPool {
  import Seqs

  /** The one right to use a session: it lies in the idle list, is held by goroutine `t`, belongs to
      stream `id`, or is gone for good. */
  datatype Right = Idle | Held(t: nat) | Using(id: nat) | Gone

  datatype Session = Session(closed: bool, right: Right)

  /** A stream made for the client: its session's number, and whether its close guard is unused. */
  datatype Stream = Stream(seqNo: nat, live: bool)

  /** Where a goroutine is. */
  datatype Task =
    | Dialing                       // CreateStream: found the idle list empty
    | Opening(seqNo: nat)           // CreateStream: has a session, stream not yet open
    | Abandoning(seqNo: nat)        // CreateStream: opening failed, about to close the session
    | HookStarts(seqNo: nat)        // won a stream's guard, before the hook's checks
    | GivingBack(seqNo: nat)        // the hook saw an open session and an open client
    | SessionHook(seqNo: nat)       // won a session's guard, before its die hook
    | Collecting                    // client Close: the client is dead, its sessions not yet collected
    | ClosingAll(todo: set<nat>)    // client Close: about to close the collected sessions
    | ClosingOne(seqNo: nat, todo: set<nat>) // client Close: won a session's guard, before its die hook
    | Done

  /** `idle` is keyed as the skip list is, `known` is the client's table of sessions, and `sessions`
      are all that were ever made; `collected` is the counter when Close last collected the sessions. */
  datatype State = State(counter: nat, collected: nat, sessions: map<nat, Session>, known: set<nat>, idle: map<int, nat>,
                         clientClosed: bool, streams: seq<Stream>, tasks: map<nat, Task>)

  const MAX_KEY: int := 0xFFFF_FFFF_FFFF_FFFF

  function Key(seqNo: nat): int { MAX_KEY - seqNo }

  const INIT := State(0, 0, map[], {}, map[], false, [], map[])

  datatype Label =
    | Take(t: nat, key: int)
    | Dial(t: nat, ok: bool)
    | Open(t: nat, ok: bool)
    | StreamEnds(t: nat, id: nat)
    | HookCheck(t: nat)
    | GiveBack(t: nat)
    | CloseSession(t: nat, seqNo: nat)
    | SessionHookRuns(t: nat)
    | Cleanup(expired: set<int>)
    | CloseClient(t: nat)
    | Collect(t: nat)
    | CloseNext(t: nat, seqNo: nat)
    | NextHookRuns(t: nat)
    | ClosedAll(t: nat)

  /** getIdleSession takes the entry with the smallest key. */
  ghost predicate IsFirst(idle: map<int, nat>, k: int) {
    k in idle && forall j | j in idle :: k <= j
  }

  ghost predicate Enabled(s: State, l: Label) {
    match l
    case Take(t, k) => t !in s.tasks && !s.clientClosed && (s.idle == map[] || IsFirst(s.idle, k))
    case Dial(t, _) => t in s.tasks && s.tasks[t].Dialing?
    case Open(t, ok) => t in s.tasks && s.tasks[t].Opening? && s.tasks[t].seqNo in s.sessions &&
                        (ok ==> !s.sessions[s.tasks[t].seqNo].closed)
    case StreamEnds(t, id) => t !in s.tasks && id < |s.streams| && s.streams[id].seqNo in s.sessions
    case HookCheck(t) => t in s.tasks && s.tasks[t].HookStarts? && s.tasks[t].seqNo in s.sessions
    case GiveBack(t) => t in s.tasks && s.tasks[t].GivingBack? && s.tasks[t].seqNo in s.sessions
    case CloseSession(t, n) => n in s.sessions && (t in s.tasks ==> s.tasks[t] == Abandoning(n))
    case SessionHookRuns(t) => t in s.tasks && s.tasks[t].SessionHook? && s.tasks[t].seqNo in s.sessions
    case Cleanup(expired) => expired <= s.idle.Keys
    case CloseClient(t) => t !in s.tasks
    case Collect(t) => t in s.tasks && s.tasks[t].Collecting?
    case CloseNext(t, n) => t in s.tasks && s.tasks[t].ClosingAll? && n in s.tasks[t].todo && n in s.sessions
    case NextHookRuns(t) => t in s.tasks && s.tasks[t].ClosingOne? && s.tasks[t].seqNo in s.sessions
    case ClosedAll(t) => t in s.tasks && s.tasks[t] == ClosingAll({})
  }

  function Put(s: State, t: nat, k: Task): State { s.(tasks := s.tasks[t := k]) }

  function Give(s: State, n: nat, r: Right): State
    requires n in s.sessions
  {
    s.(sessions := s.sessions[n := s.sessions[n].(right := r)])
  }

  function TakeIdle(s: State, t: nat, k: int): State {
    if s.idle == map[] || k !in s.idle || s.idle[k] !in s.sessions then Put(s, t, Dialing)
    else Put(Give(s.(idle := s.idle - {k}), s.idle[k], Held(t)), t, Opening(s.idle[k]))
  }

  function NewSession(s: State, t: nat): State {
    var n := s.counter + 1;
    Put(s.(counter := n, sessions := s.sessions[n := Session(false, Held(t))], known := s.known + {n}), t, Opening(n))
  }

  function NewStream(s: State, t: nat, n: nat): State
    requires n in s.sessions
  {
    Put(Give(s.(streams := s.streams + [Stream(n, true)]), n, Using(|s.streams|)), t, Done)
  }

  function EndStream(s: State, t: nat, id: nat): State
    requires id < |s.streams| && s.streams[id].seqNo in s.sessions
  {
    var st := s.streams[id];
    if st.live
    then Put(Give(s.(streams := s.streams[id := st.(live := false)]), st.seqNo, Held(t)), t, HookStarts(st.seqNo))
    else s
  }

  /** The die hook's two checks: a closed session is not given back, and a closed client closes it. */
  function CheckHook(s: State, t: nat, n: nat): State
    requires n in s.sessions
  {
    if s.sessions[n].closed then Put(Give(s, n, Gone), t, Done)
    else if s.clientClosed then Put(Give(s, n, Gone), t, Abandoning(n))
    else Put(s, t, GivingBack(n))
  }

  function InsertIdle(s: State, t: nat, n: nat): State
    requires n in s.sessions
  {
    Put(Give(s.(idle := s.idle[Key(n) := n]), n, Idle), t, Done)
  }

  /** Session close: the winner of the guard goes on to the die hook as `won`, everybody else as `lost`. */
  function Shut(s: State, t: nat, n: nat, won: Task, lost: Task): State
    requires n in s.sessions
  {
    if s.sessions[n].closed then Put(s, t, lost)
    else Put(s.(sessions := s.sessions[n := s.sessions[n].(closed := true)]), t, won)
  }

  function Forget(s: State, t: nat, n: nat, next: Task): State
    requires n in s.sessions
  {
    var u := Put(s.(known := s.known - {n}), t, next);
    if Key(n) in s.idle then Give(u.(idle := s.idle - {Key(n)}), n, Gone) else u
  }

  function Trim(s: State, expired: set<int>): State
    requires expired <= s.idle.Keys
  {
    s.(idle := s.idle - expired,
       sessions := map n | n in s.sessions ::
         if Key(n) in expired then s.sessions[n].(right := Gone) else s.sessions[n])
  }

  function Do(s: State, l: Label): State
    requires Enabled(s, l)
  {
    match l
    case Take(t, k) => TakeIdle(s, t, k)
    case Dial(t, ok) => if ok then NewSession(s, t) else Put(s, t, Done)
    case Open(t, ok) =>
      var n := s.tasks[t].seqNo;
      if ok then NewStream(s, t, n) else Put(Give(s, n, Gone), t, Abandoning(n))
    case StreamEnds(t, id) => EndStream(s, t, id)
    case HookCheck(t) => CheckHook(s, t, s.tasks[t].seqNo)
    case GiveBack(t) => InsertIdle(s, t, s.tasks[t].seqNo)
    case CloseSession(t, n) => Shut(s, t, n, SessionHook(n), Done)
    case SessionHookRuns(t) => Forget(s, t, s.tasks[t].seqNo, Done)
    case Cleanup(expired) => Trim(s, expired)
    case CloseClient(t) => Put(s.(clientClosed := true), t, Collecting)
    case Collect(t) => Put(s.(known := {}, collected := s.counter), t, ClosingAll(s.known))
    case CloseNext(t, n) =>
      Shut(s, t, n, ClosingOne(n, s.tasks[t].todo - {n}), ClosingAll(s.tasks[t].todo - {n}))
    case NextHookRuns(t) => Forget(s, t, s.tasks[t].seqNo, ClosingAll(s.tasks[t].todo))
    case ClosedAll(t) => Put(s, t, Done)
  }

  ghost predicate CanRun(s: State, ls: seq<Label>)
    decreases |ls|
  {
    ls == [] || (Enabled(s, ls[0]) && CanRun(Do(s, ls[0]), ls[1..]))
  }

  ghost function Run(s: State, ls: seq<Label>): State
    requires CanRun(s, ls)
    decreases |ls|
  {
    if ls == [] then s else Run(Do(s, ls[0]), ls[1..])
  }

  // ---------- what every step keeps ----------

  predicate HoldsSession(k: Task) { k.Opening? || k.HookStarts? || k.GivingBack? }

  ghost predicate TaskOk(s: State, t: nat)
    requires t in s.tasks
  {
    var k := s.tasks[t];
    && (HoldsSession(k) ==> k.seqNo in s.sessions && s.sessions[k.seqNo].right == Held(t))
    && (k.Abandoning? || k.SessionHook? || k.ClosingOne? ==> k.seqNo in s.sessions)
    && (k.SessionHook? || k.ClosingOne? ==> s.sessions[k.seqNo].closed)
    && (k.ClosingAll? || k.ClosingOne? ==> k.todo <= s.sessions.Keys)
  }

  ghost predicate StreamOk(s: State, id: nat)
    requires id < |s.streams|
  {
    var st := s.streams[id];
    && st.seqNo in s.sessions
    && (st.live ==> s.sessions[st.seqNo].right == Using(id))
  }

  ghost predicate IdleOk(s: State, k: int)
    requires k in s.idle
  {
    var n := s.idle[k];
    && k == Key(n) && n in s.sessions && s.sessions[n].right == Idle
  }

  ghost predicate SessionOk(s: State, n: nat)
    requires n in s.sessions
  {
    n <= s.counter && (s.sessions[n].right == Idle ==> Key(n) in s.idle)
  }

  ghost predicate Inv(s: State) {
    && (forall t | t in s.tasks :: TaskOk(s, t))
    && (forall id | 0 <= id < |s.streams| :: StreamOk(s, id))
    && (forall k | k in s.idle :: IdleOk(s, k))
    && (forall n | n in s.sessions :: SessionOk(s, n))
    && s.known <= s.sessions.Keys
  }

  lemma TakeIdleKeeps(s: State, t: nat, k: int)
    requires Inv(s) && t !in s.tasks
    ensures Inv(TakeIdle(s, t, k))
  {
    assert k in s.idle ==> IdleOk(s, k);
    var u := TakeIdle(s, t, k);
    forall x | x in u.tasks ensures TaskOk(u, x) { assert x in s.tasks ==> TaskOk(s, x); }
    forall i | 0 <= i < |u.streams| ensures StreamOk(u, i) { assert i < |s.streams| ==> StreamOk(s, i); }
    forall k | k in u.idle ensures IdleOk(u, k) { assert k in s.idle ==> IdleOk(s, k); }
    forall m | m in u.sessions ensures SessionOk(u, m) { assert m in s.sessions ==> SessionOk(s, m); }
  }

  lemma NewSessionKeeps(s: State, t: nat)
    requires Inv(s) && t in s.tasks && s.tasks[t].Dialing?
    ensures Inv(NewSession(s, t))
  {
    forall n | n in s.sessions ensures n <= s.counter { assert SessionOk(s, n); }
    var u := NewSession(s, t);
    forall x | x in u.tasks ensures TaskOk(u, x) { assert x in s.tasks ==> TaskOk(s, x); }
    forall i | 0 <= i < |u.streams| ensures StreamOk(u, i) { assert i < |s.streams| ==> StreamOk(s, i); }
    forall k | k in u.idle ensures IdleOk(u, k) { assert k in s.idle ==> IdleOk(s, k); }
    forall m | m in u.sessions ensures SessionOk(u, m) { assert m in s.sessions ==> SessionOk(s, m); }
  }

  lemma NewStreamKeeps(s: State, t: nat)
    requires Inv(s) && t in s.tasks && s.tasks[t].Opening? && s.tasks[t].seqNo in s.sessions
    ensures Inv(NewStream(s, t, s.tasks[t].seqNo))
  {
    assert TaskOk(s, t);
    var u := NewStream(s, t, s.tasks[t].seqNo);
    forall x | x in u.tasks ensures TaskOk(u, x) { assert x in s.tasks ==> TaskOk(s, x); }
    forall i | 0 <= i < |u.streams| ensures StreamOk(u, i) { assert i < |s.streams| ==> StreamOk(s, i); }
    forall k | k in u.idle ensures IdleOk(u, k) { assert k in s.idle ==> IdleOk(s, k); }
    forall m | m in u.sessions ensures SessionOk(u, m) { assert m in s.sessions ==> SessionOk(s, m); }
  }

  lemma LoseRightKeeps(s: State, t: nat, k: Task)
    requires Inv(s) && t in s.tasks && HoldsSession(s.tasks[t]) && s.tasks[t].seqNo in s.sessions
    requires k == Abandoning(s.tasks[t].seqNo) || k.Done?
    ensures Inv(Put(Give(s, s.tasks[t].seqNo, Gone), t, k))
  {
    assert TaskOk(s, t);
    var u := Put(Give(s, s.tasks[t].seqNo, Gone), t, k);
    forall x | x in u.tasks ensures TaskOk(u, x) { assert x in s.tasks ==> TaskOk(s, x); }
    forall i | 0 <= i < |u.streams| ensures StreamOk(u, i) { assert i < |s.streams| ==> StreamOk(s, i); }
    forall k | k in u.idle ensures IdleOk(u, k) { assert k in s.idle ==> IdleOk(s, k); }
    forall m | m in u.sessions ensures SessionOk(u, m) { assert m in s.sessions ==> SessionOk(s, m); }
  }

  lemma EndStreamKeeps(s: State, t: nat, id: nat)
    requires Inv(s) && t !in s.tasks && id < |s.streams| && s.streams[id].seqNo in s.sessions
    ensures Inv(EndStream(s, t, id))
  {
    assert StreamOk(s, id);
    var u := EndStream(s, t, id);
    forall x | x in u.tasks ensures TaskOk(u, x) { assert x in s.tasks ==> TaskOk(s, x); }
    forall i | 0 <= i < |u.streams| ensures StreamOk(u, i) { assert i < |s.streams| ==> StreamOk(s, i); }
    forall k | k in u.idle ensures IdleOk(u, k) { assert k in s.idle ==> IdleOk(s, k); }
    forall m | m in u.sessions ensures SessionOk(u, m) { assert m in s.sessions ==> SessionOk(s, m); }
  }

  lemma InsertIdleKeeps(s: State, t: nat)
    requires Inv(s) && t in s.tasks && s.tasks[t].GivingBack? && s.tasks[t].seqNo in s.sessions
    ensures Inv(InsertIdle(s, t, s.tasks[t].seqNo))
  {
    assert TaskOk(s, t);
    var u := InsertIdle(s, t, s.tasks[t].seqNo);
    forall x | x in u.tasks ensures TaskOk(u, x) { assert x in s.tasks ==> TaskOk(s, x); }
    forall i | 0 <= i < |u.streams| ensures StreamOk(u, i) { assert i < |s.streams| ==> StreamOk(s, i); }
    forall k | k in u.idle ensures IdleOk(u, k) { assert k in s.idle ==> IdleOk(s, k); }
    forall m | m in u.sessions ensures SessionOk(u, m) { assert m in s.sessions ==> SessionOk(s, m); }
  }

  lemma WonKeeps(s: State, t: nat, n: nat, won: Task)
    requires Inv(s) && n in s.sessions && (t in s.tasks ==> !HoldsSession(s.tasks[t]))
    requires won == SessionHook(n) || (won.ClosingOne? && won.seqNo == n && won.todo <= s.sessions.Keys)
    ensures Inv(Put(s.(sessions := s.sessions[n := s.sessions[n].(closed := true)]), t, won))
  {
    assert SessionOk(s, n);
    var u := Put(s.(sessions := s.sessions[n := s.sessions[n].(closed := true)]), t, won);
    forall x | x in u.tasks ensures TaskOk(u, x) { assert x in s.tasks ==> TaskOk(s, x); }
    forall i | 0 <= i < |u.streams| ensures StreamOk(u, i) { assert StreamOk(s, i); }
    forall k | k in u.idle ensures IdleOk(u, k) { assert IdleOk(s, k); }
    forall m | m in u.sessions ensures SessionOk(u, m) { assert SessionOk(s, m); }
  }

  lemma LostKeeps(s: State, t: nat, lost: Task)
    requires Inv(s) && (t in s.tasks ==> !HoldsSession(s.tasks[t]))
    requires lost.Done? || (lost.ClosingAll? && lost.todo <= s.sessions.Keys)
    ensures Inv(Put(s, t, lost))
  {
    var u := Put(s, t, lost);
    forall x | x in u.tasks ensures TaskOk(u, x) { assert x in s.tasks ==> TaskOk(s, x); }
    forall i | 0 <= i < |u.streams| ensures StreamOk(u, i) { assert StreamOk(s, i); }
    forall k | k in u.idle ensures IdleOk(u, k) { assert IdleOk(s, k); }
    forall m | m in u.sessions ensures SessionOk(u, m) { assert SessionOk(s, m); }
  }

  lemma ShutKeeps(s: State, t: nat, n: nat, won: Task, lost: Task)
    requires Inv(s) && n in s.sessions && (t in s.tasks ==> !HoldsSession(s.tasks[t]))
    requires won == SessionHook(n) || (won.ClosingOne? && won.seqNo == n && won.todo <= s.sessions.Keys)
    requires lost.Done? || (lost.ClosingAll? && lost.todo <= s.sessions.Keys)
    ensures Inv(Shut(s, t, n, won, lost))
  {
    if s.sessions[n].closed { LostKeeps(s, t, lost); } else { WonKeeps(s, t, n, won); }
  }

  lemma ForgetKeeps(s: State, t: nat, n: nat, next: Task)
    requires Inv(s) && t in s.tasks && !HoldsSession(s.tasks[t]) && n in s.sessions
    requires next.Done? || (next.ClosingAll? && next.todo <= s.sessions.Keys)
    ensures Inv(Forget(s, t, n, next))
  {
    assert Key(n) in s.idle ==> IdleOk(s, Key(n));
    var u := Forget(s, t, n, next);
    forall x | x in u.tasks ensures TaskOk(u, x) { assert x in s.tasks ==> TaskOk(s, x); }
    forall i | 0 <= i < |u.streams| ensures StreamOk(u, i) { assert i < |s.streams| ==> StreamOk(s, i); }
    forall k | k in u.idle ensures IdleOk(u, k) { assert k in s.idle ==> IdleOk(s, k); }
    forall m | m in u.sessions ensures SessionOk(u, m) { assert m in s.sessions ==> SessionOk(s, m); }
  }

  lemma CollectKeeps(s: State, t: nat)
    requires Inv(s) && t in s.tasks && s.tasks[t].Collecting?
    ensures Inv(Put(s.(known := {}, collected := s.counter), t, ClosingAll(s.known)))
  {
    var u := Put(s.(known := {}, collected := s.counter), t, ClosingAll(s.known));
    forall x | x in u.tasks ensures TaskOk(u, x) { assert x in s.tasks ==> TaskOk(s, x); }
    forall i | 0 <= i < |u.streams| ensures StreamOk(u, i) { assert i < |s.streams| ==> StreamOk(s, i); }
    forall k | k in u.idle ensures IdleOk(u, k) { assert k in s.idle ==> IdleOk(s, k); }
    forall m | m in u.sessions ensures SessionOk(u, m) { assert m in s.sessions ==> SessionOk(s, m); }
  }

  lemma CloseClientKeeps(s: State, t: nat)
    requires Inv(s) && t !in s.tasks
    ensures Inv(Put(s.(clientClosed := true), t, Collecting))
  {
    var u := Put(s.(clientClosed := true), t, Collecting);
    forall x | x in u.tasks ensures TaskOk(u, x) { assert x in s.tasks ==> TaskOk(s, x); }
    forall i | 0 <= i < |u.streams| ensures StreamOk(u, i) { assert i < |s.streams| ==> StreamOk(s, i); }
    forall k | k in u.idle ensures IdleOk(u, k) { assert k in s.idle ==> IdleOk(s, k); }
    forall m | m in u.sessions ensures SessionOk(u, m) { assert m in s.sessions ==> SessionOk(s, m); }
  }

  lemma TrimKeeps(s: State, expired: set<int>)
    requires Inv(s) && expired <= s.idle.Keys
    ensures Inv(Trim(s, expired))
  {
    assert forall k | k in expired :: IdleOk(s, k);
    var u := Trim(s, expired);
    forall x | x in u.tasks ensures TaskOk(u, x) { assert x in s.tasks ==> TaskOk(s, x); }
    forall i | 0 <= i < |u.streams| ensures StreamOk(u, i) { assert i < |s.streams| ==> StreamOk(s, i); }
    forall k | k in u.idle ensures IdleOk(u, k) { assert k in s.idle ==> IdleOk(s, k); }
    forall m | m in u.sessions ensures SessionOk(u, m) { assert m in s.sessions ==> SessionOk(s, m); }
  }

  /** Steps that move one goroutine without touching any session's right. */
  lemma MoveKeeps(s: State, t: nat, k: Task)
    requires Inv(s) && t in s.tasks
    requires k.Done? || (k.GivingBack? && s.tasks[t] == HookStarts(k.seqNo))
    ensures Inv(Put(s, t, k))
  {
    assert TaskOk(s, t);
    var u := Put(s, t, k);
    forall x | x in u.tasks ensures TaskOk(u, x) { assert x in s.tasks ==> TaskOk(s, x); }
    forall i | 0 <= i < |u.streams| ensures StreamOk(u, i) { assert i < |s.streams| ==> StreamOk(s, i); }
    forall k | k in u.idle ensures IdleOk(u, k) { assert k in s.idle ==> IdleOk(s, k); }
    forall m | m in u.sessions ensures SessionOk(u, m) { assert m in s.sessions ==> SessionOk(s, m); }
  }

  lemma StepKeepsInv(s: State, l: Label)
    requires Inv(s) && Enabled(s, l)
    ensures Inv(Do(s, l))
  {
    match l {
      case Take(t, k) => TakeIdleKeeps(s, t, k);
      case Dial(t, ok) => if ok { NewSessionKeeps(s, t); } else { MoveKeeps(s, t, Done); }
      case Open(t, ok) => if ok { NewStreamKeeps(s, t); } else { LoseRightKeeps(s, t, Abandoning(s.tasks[t].seqNo)); }
      case StreamEnds(t, id) => EndStreamKeeps(s, t, id);
      case HookCheck(t) =>
        var n := s.tasks[t].seqNo;
        LoseRightKeeps(s, t, Done);
        LoseRightKeeps(s, t, Abandoning(n));
        MoveKeeps(s, t, GivingBack(n));
      case GiveBack(t) => InsertIdleKeeps(s, t);
      case CloseSession(t, n) => ShutKeeps(s, t, n, SessionHook(n), Done);
      case SessionHookRuns(t) => ForgetKeeps(s, t, s.tasks[t].seqNo, Done);
      case Cleanup(expired) => TrimKeeps(s, expired);
      case CloseClient(t) => CloseClientKeeps(s, t);
      case Collect(t) => CollectKeeps(s, t);
      case CloseNext(t, n) =>
        assert TaskOk(s, t);
        var todo := s.tasks[t].todo - {n};
        ShutKeeps(s, t, n, ClosingOne(n, todo), ClosingAll(todo));
      case NextHookRuns(t) =>
        assert TaskOk(s, t);
        ForgetKeeps(s, t, s.tasks[t].seqNo, ClosingAll(s.tasks[t].todo));
      case ClosedAll(t) => MoveKeeps(s, t, Done);
    }
  }

  lemma {:induction false} RunKeepsInv(s: State, ls: seq<Label>)
    requires Inv(s) && CanRun(s, ls)
    ensures Inv(Run(s, ls))
    decreases |ls|
  {
    if ls != [] {
      StepKeepsInv(s, ls[0]);
      RunKeepsInv(Do(s, ls[0]), ls[1..]);
    }
  }

  // ---------- main results ----------

  /** A goroutine between getting a session and handing its stream out, or between a stream's close
      and giving the session back. */
  predicate Holds(s: State, t: nat, n: nat) {
    t in s.tasks && HoldsSession(s.tasks[t]) && s.tasks[t].seqNo == n
  }

  predicate Uses(s: State, id: nat, n: nat) {
    id < |s.streams| && s.streams[id].live && s.streams[id].seqNo == n
  }

  /** In every reachable state a session has at most one live stream, is in at most one goroutine's
      hands, and never both; a session in the idle list has neither. */
  lemma OneUserPerSession(ls: seq<Label>, n: nat)
    requires CanRun(INIT, ls)
    ensures var s := Run(INIT, ls);
            && (forall i, j | Uses(s, i, n) && Uses(s, j, n) :: i == j)
            && (forall t, u | Holds(s, t, n) && Holds(s, u, n) :: t == u)
            && (forall i, t | Uses(s, i, n) :: !Holds(s, t, n))
            && (forall k | k in s.idle && s.idle[k] == n :: (forall i :: !Uses(s, i, n)) && (forall t :: !Holds(s, t, n)))
  {
    var s := Run(INIT, ls);
    RunKeepsInv(INIT, ls);
    forall i | Uses(s, i, n) ensures n in s.sessions && s.sessions[n].right == Using(i) { assert StreamOk(s, i); }
    forall t | Holds(s, t, n) ensures n in s.sessions && s.sessions[n].right == Held(t) { assert TaskOk(s, t); }
    forall k | k in s.idle && s.idle[k] == n ensures n in s.sessions && s.sessions[n].right == Idle { assert IdleOk(s, k); }
  }

  /** Idle entries sit under their session's own key, so no two entries share a session, and a
      session that is given back never overwrites an entry. */
  lemma IdleKeysAreDistinct(ls: seq<Label>)
    requires CanRun(INIT, ls)
    ensures var s := Run(INIT, ls);
            && (forall k | k in s.idle :: k == Key(s.idle[k]))
            && (forall j, k | j in s.idle && k in s.idle && s.idle[j] == s.idle[k] :: j == k)
            && (forall t | t in s.tasks && s.tasks[t].GivingBack? :: Key(s.tasks[t].seqNo) !in s.idle)
  {
    var s := Run(INIT, ls);
    RunKeepsInv(INIT, ls);
    forall k | k in s.idle ensures IdleOk(s, k) {}
    forall t | t in s.tasks && s.tasks[t].GivingBack? ensures Key(s.tasks[t].seqNo) !in s.idle { assert TaskOk(s, t); }
  }

  /** A dialled session gets a number no session had before. */
  lemma NumbersAreNeverReused(ls: seq<Label>, t: nat)
    requires CanRun(INIT, ls) && Enabled(Run(INIT, ls), Dial(t, true))
    ensures var s := Run(INIT, ls);
            Do(s, Dial(t, true)).tasks[t].seqNo !in s.sessions &&
            Do(s, Dial(t, true)).sessions.Keys == s.sessions.Keys + {Do(s, Dial(t, true)).tasks[t].seqNo}
  {
    var s := Run(INIT, ls);
    RunKeepsInv(INIT, ls);
    forall n | n in s.sessions ensures n <= s.counter { assert SessionOk(s, n); }
  }

  /** CreateStream reuses the newest idle session. */
  lemma TakesTheNewest(ls: seq<Label>, t: nat, key: int)
    requires CanRun(INIT, ls) && Enabled(Run(INIT, ls), Take(t, key)) && Run(INIT, ls).idle != map[]
    ensures var s := Run(INIT, ls);
            && Do(s, Take(t, key)).tasks[t] == Opening(s.idle[key])
            && forall k | k in s.idle :: s.idle[k] <= s.idle[key]
  {
    var s := Run(INIT, ls);
    RunKeepsInv(INIT, ls);
    forall k | k in s.idle ensures IdleOk(s, k) {}
  }

  // ---------- closed sessions in the idle list ----------

  /** Somebody won session `n`'s guard and has yet to run its die hook. */
  predicate Closing(s: State, n: nat) { exists t :: t in s.tasks && RunsHook(s.tasks[t], n) }

  predicate RunsHook(k: Task, n: nat) { k == SessionHook(n) || (k.ClosingOne? && k.seqNo == n) }

  /** The session is closed and its die hook is through. */
  predicate HookRan(s: State, n: nat) { n in s.sessions && s.sessions[n].closed && !Closing(s, n) }

  /** The session is given back when its die hook is through already. */
  predicate GivesBackLate(s: State, l: Label, n: nat) {
    l.GiveBack? && l.t in s.tasks && s.tasks[l.t].GivingBack? && s.tasks[l.t].seqNo == n && HookRan(s, n)
  }

  ghost predicate GivenBackLate(s: State, ls: seq<Label>, n: nat)
    requires CanRun(s, ls)
    decreases |ls|
  {
    ls != [] && (GivesBackLate(s, ls[0], n) || GivenBackLate(Do(s, ls[0]), ls[1..], n))
  }

  predicate LateOk(s: State, n: nat, late: bool) {
    && (late ==> HookRan(s, n))
    && (HookRan(s, n) && s.sessions[n].right == Idle ==> late)
  }

  lemma HookStaysRun(s: State, l: Label, n: nat)
    requires Inv(s) && Enabled(s, l) && HookRan(s, n)
    ensures HookRan(Do(s, l), n)
  {
    assert SessionOk(s, n);
    var u := Do(s, l);
    forall t | t in u.tasks ensures !RunsHook(u.tasks[t], n) {
      assert t in s.tasks ==> !RunsHook(s.tasks[t], n);
    }
  }

  lemma OthersClosing(s: State, t: nat, k: Task, n: nat)
    requires !RunsHook(k, n) && (t in s.tasks ==> !RunsHook(s.tasks[t], n))
    ensures Closing(Put(s, t, k), n) <==> Closing(s, n)
  {
    var u := Put(s, t, k);
    if x :| x in s.tasks && RunsHook(s.tasks[x], n) {
      assert RunsHook(u.tasks[x], n);
    }
  }

  lemma HookTakesItOut(s: State, t: nat, m: nat, next: Task, n: nat)
    requires Inv(s) && t in s.tasks && m in s.sessions && RunsHook(s.tasks[t], m) && (next.Done? || next.ClosingAll?)
    requires HookRan(Forget(s, t, m, next), n) && Forget(s, t, m, next).sessions[n].right == Idle
    ensures HookRan(s, n) && s.sessions[n].right == Idle
  {
    assert TaskOk(s, t) && SessionOk(s, n);
    if m != n {
      OthersClosing(s, t, next, n);
    }
  }

  lemma CloserComesFirst(s: State, t: nat, m: nat, won: Task, lost: Task, n: nat)
    requires m in s.sessions && RunsHook(won, m) && (lost.Done? || lost.ClosingAll?)
    requires t in s.tasks ==> forall x :: !RunsHook(s.tasks[t], x)
    requires HookRan(Shut(s, t, m, won, lost), n)
    ensures HookRan(s, n) && Shut(s, t, m, won, lost).sessions[n] == s.sessions[n]
  {
    var u := Shut(s, t, m, won, lost);
    if !s.sessions[m].closed {
      assert u.tasks[t] == won;
    }
    OthersClosing(s, t, u.tasks[t], n);
  }

  lemma OthersAfterHook(s: State, l: Label, n: nat)
    requires Inv(s) && Enabled(s, l) && !l.SessionHookRuns? && !l.NextHookRuns? && !l.CloseSession? && !l.CloseNext?
    requires !l.Cleanup? && !l.StreamEnds? && HookRan(Do(s, l), n) && Do(s, l).sessions[n].right == Idle
    ensures GivesBackLate(s, l, n) || (HookRan(s, n) && s.sessions[n].right == Idle)
  {
    OthersClosing(s, l.t, Do(s, l).tasks[l.t], n);
  }

  /** A session only comes to lie idle with its hook through by being given back then: the hook takes out
      the one it finds. */
  lemma IdleAfterHook(s: State, l: Label, n: nat)
    requires Inv(s) && Enabled(s, l)
    requires HookRan(Do(s, l), n) && Do(s, l).sessions[n].right == Idle
    ensures GivesBackLate(s, l, n) || (HookRan(s, n) && s.sessions[n].right == Idle)
  {
    var u := Do(s, l);
    match l
    case SessionHookRuns(t) => HookTakesItOut(s, t, s.tasks[t].seqNo, Done, n);
    case NextHookRuns(t) => HookTakesItOut(s, t, s.tasks[t].seqNo, ClosingAll(s.tasks[t].todo), n);
    case CloseSession(t, m) => CloserComesFirst(s, t, m, SessionHook(m), Done, n);
    case CloseNext(t, m) =>
      var todo := s.tasks[t].todo - {m};
      CloserComesFirst(s, t, m, ClosingOne(m, todo), ClosingAll(todo), n);
    case Cleanup(_) => assert u.tasks == s.tasks;
    case StreamEnds(t, id) => if s.streams[id].live { OthersClosing(s, t, u.tasks[t], n); }
    case _ => OthersAfterHook(s, l, n);
  }

  lemma {:induction false} RunLate(s: State, ls: seq<Label>, n: nat, late: bool)
    requires Inv(s) && CanRun(s, ls) && LateOk(s, n, late)
    ensures LateOk(Run(s, ls), n, late || GivenBackLate(s, ls, n))
    decreases |ls|
  {
    if ls != [] {
      var l, u := ls[0], Do(s, ls[0]);
      StepKeepsInv(s, l);
      if HookRan(s, n) {
        HookStaysRun(s, l, n);
      }
      if HookRan(u, n) && u.sessions[n].right == Idle {
        IdleAfterHook(s, l, n);
      }
      RunLate(u, ls[1..], n, late || GivesBackLate(s, l, n));
    }
  }

  /** In every reachable state an idle session is open exactly when nobody is closing it and it was not
      given back after its die hook ran. */
  lemma IdleIsOpenExactlyWhen(ls: seq<Label>, k: int)
    requires CanRun(INIT, ls) && k in Run(INIT, ls).idle
    ensures var s := Run(INIT, ls);
            && s.idle[k] in s.sessions
            && (!s.sessions[s.idle[k]].closed <==> !Closing(s, s.idle[k]) && !GivenBackLate(INIT, ls, s.idle[k]))
  {
    var s := Run(INIT, ls);
    RunKeepsInv(INIT, ls);
    assert IdleOk(s, k);
    RunLate(INIT, ls, s.idle[k], false);
    if t :| t in s.tasks && RunsHook(s.tasks[t], s.idle[k]) {
      assert TaskOk(s, t);
    }
  }

  /** So CreateStream can succeed with the idle session it takes exactly then, and fails otherwise although
      a new session could be dialled. */
  lemma ReuseCanSucceedExactlyWhen(ls: seq<Label>, t: nat, k: int)
    requires CanRun(INIT, ls) && k in Run(INIT, ls).idle && Enabled(Run(INIT, ls), Take(t, k))
    ensures var s := Run(INIT, ls);
            Enabled(Do(s, Take(t, k)), Open(t, true)) <==>
            !Closing(s, s.idle[k]) && !GivenBackLate(INIT, ls, s.idle[k])
  {
    IdleIsOpenExactlyWhen(ls, k);
  }

  lemma {:induction false} RunSnoc(s: State, ls: seq<Label>, l: Label)
    requires CanRun(s, ls) && Enabled(Run(s, ls), l)
    ensures CanRun(s, ls + [l]) && Run(s, ls + [l]) == Do(Run(s, ls), l)
    decreases |ls|
  {
    if ls == [] {
      assert [] + [l] == [l] && [l][1..] == [];
    } else {
      assert (ls + [l])[1..] == ls[1..] + [l];
      RunSnoc(Do(s, ls[0]), ls[1..], l);
    }
  }

  lemma Extend(ls: seq<Label>, s: State, l: Label) returns (longer: seq<Label>, next: State)
    requires CanRun(INIT, ls) && Run(INIT, ls) == s && Enabled(s, l)
    ensures next == Do(s, l) && CanRun(INIT, longer) && Run(INIT, longer) == next && longer == ls + [l]
  {
    RunSnoc(INIT, ls, l);
    longer, next := ls + [l], Do(s, l);
  }

  /** One session, whose only stream has ended. */
  function Ended(closed: bool, right: Right, known: set<nat>, tasks: map<nat, Task>): State {
    State(1, 0, map[1 := Session(closed, right)], known, if right == Idle then map[Key(1) := 1] else map[], false,
          [Stream(1, false)], tasks)
  }

  lemma StreamCameAndWent() returns (ls: seq<Label>)
    ensures CanRun(INIT, ls) && Run(INIT, ls) == Ended(false, Held(1), {1}, map[0 := Done, 1 := GivingBack(1)])
  {
    var s: State;
    ls, s := Extend([], INIT, Take(0, 0));
    assert s == INIT.(tasks := map[0 := Dialing]);
    ls, s := Extend(ls, s, Dial(0, true));
    assert s == State(1, 0, map[1 := Session(false, Held(0))], {1}, map[], false, [], map[0 := Opening(1)]);
    ls, s := Extend(ls, s, Open(0, true));
    assert s == State(1, 0, map[1 := Session(false, Using(0))], {1}, map[], false, [Stream(1, true)], map[0 := Done]);
    ls, s := Extend(ls, s, StreamEnds(1, 0));
    assert s == Ended(false, Held(1), {1}, map[0 := Done, 1 := HookStarts(1)]);
    ls, s := Extend(ls, s, HookCheck(1));
    assert s == Ended(false, Held(1), {1}, map[0 := Done, 1 := GivingBack(1)]);
  }

  lemma ClosesBeforeItIsGivenBack() returns (ls: seq<Label>)
    ensures CanRun(INIT, ls)
    ensures Run(INIT, ls) == Ended(true, Held(1), {}, map[0 := Done, 1 := GivingBack(1), 2 := Done])
  {
    ls := StreamCameAndWent();
    var s := Run(INIT, ls);
    ls, s := Extend(ls, s, CloseSession(2, 1));
    assert s == Ended(true, Held(1), {1}, map[0 := Done, 1 := GivingBack(1), 2 := SessionHook(1)]);
    ls, s := Extend(ls, s, SessionHookRuns(2));
    assert s == Ended(true, Held(1), {}, map[0 := Done, 1 := GivingBack(1), 2 := Done]);
  }

  predicate StaysIdleClosed(s: State, n: nat) {
    Key(n) in s.idle && n in s.sessions && s.sessions[n].closed && forall t | t in s.tasks :: s.tasks[t].Done?
  }

  /** It does happen: a session that closes between the hook's check and the insertion stays in the idle
      list, with nobody left to take it out but the next CreateStream. */
  lemma ClosedSessionCanStayIdle()
    ensures exists ls: seq<Label>, n: nat :: CanRun(INIT, ls) && StaysIdleClosed(Run(INIT, ls), n)
  {
    var ls := ClosesBeforeItIsGivenBack();
    var s := Run(INIT, ls);
    ls, s := Extend(ls, s, GiveBack(1));
    assert s == Ended(true, Idle, {}, map[0 := Done, 1 := Done, 2 := Done]);
    assert StaysIdleClosed(s, 1);
  }

  // ---------- use and return ----------

  /** A stream of an open session ends: the session becomes idle. */
  lemma EndReturns(ls: seq<Label>, s: State, ender: nat, id: nat)
    requires CanRun(INIT, ls) && s == Run(INIT, ls) && !s.clientClosed && ender !in s.tasks
    requires id < |s.streams| && s.streams[id].live
    requires s.streams[id].seqNo in s.sessions && !s.sessions[s.streams[id].seqNo].closed
    ensures var n, longer := s.streams[id].seqNo, ls + [StreamEnds(ender, id), HookCheck(ender), GiveBack(ender)];
            && CanRun(INIT, longer)
            && Run(INIT, longer) == s.(idle := s.idle[Key(n) := n], sessions := s.sessions[n := Session(false, Idle)],
                                       streams := s.streams[id := Stream(n, false)], tasks := s.tasks[ender := Done])
  {
    var n := s.streams[id].seqNo;
    var more, u := Extend(ls, s, StreamEnds(ender, id));
    assert u.tasks[ender] == HookStarts(n);
    more, u := Extend(more, u, HookCheck(ender));
    more, u := Extend(more, u, GiveBack(ender));
    assert u.sessions == s.sessions[n := Session(false, Idle)] && u.tasks == s.tasks[ender := Done];
    assert more == ls + [StreamEnds(ender, id), HookCheck(ender), GiveBack(ender)];
  }

  /** CreateStream on an idle session that is open. */
  lemma IdleOpens(ls: seq<Label>, s: State, key: int, t: nat)
    requires CanRun(INIT, ls) && s == Run(INIT, ls) && IsFirst(s.idle, key) && !s.clientClosed && t !in s.tasks
    requires s.idle[key] in s.sessions && !s.sessions[s.idle[key]].closed
    ensures var n, longer := s.idle[key], ls + [Take(t, key), Open(t, true)];
            && CanRun(INIT, longer)
            && Run(INIT, longer) == s.(idle := s.idle - {key}, tasks := s.tasks[t := Done],
                                       sessions := s.sessions[n := Session(false, Using(|s.streams|))],
                                       streams := s.streams + [Stream(n, true)])
  {
    var n := s.idle[key];
    var more, u := Extend(ls, s, Take(t, key));
    assert u.tasks[t] == Opening(n);
    more, u := Extend(more, u, Open(t, true));
    assert u.sessions == s.sessions[n := Session(false, Using(|s.streams|))] && u.tasks == s.tasks[t := Done];
    assert more == ls + [Take(t, key), Open(t, true)];
  }

  /** An idle session is taken, a stream opened on it, and the stream ends. */
  function UsedOnce(key: int, t: nat, ender: nat, id: nat): seq<Label> {
    [Take(t, key), Open(t, true)] + [StreamEnds(ender, id), HookCheck(ender), GiveBack(ender)]
  }

  /** From every reachable state an open client's newest idle session, when it is open, can be used for one stream
      and is idle again afterwards, the pool being as before. */
  lemma UseReturnsTheSession(ls: seq<Label>, key: int, t: nat, ender: nat)
    requires CanRun(INIT, ls) && IsFirst(Run(INIT, ls).idle, key) && !Run(INIT, ls).clientClosed
    requires Run(INIT, ls).idle[key] in Run(INIT, ls).sessions && !Run(INIT, ls).sessions[Run(INIT, ls).idle[key]].closed
    requires t !in Run(INIT, ls).tasks && ender !in Run(INIT, ls).tasks && t != ender
    ensures var s := Run(INIT, ls);
            var longer := ls + UsedOnce(key, t, ender, |s.streams|);
            && CanRun(INIT, longer)
            && Run(INIT, longer) == s.(streams := s.streams + [Stream(s.idle[key], false)],
                                       tasks := s.tasks[t := Done][ender := Done])
  {
    var s := Run(INIT, ls);
    var n, id := s.idle[key], |s.streams|;
    RunKeepsInv(INIT, ls);
    assert IdleOk(s, key);
    IdleOpens(ls, s, key, t);
    var half := ls + [Take(t, key), Open(t, true)];
    var u := Run(INIT, half);
    EndReturns(half, u, ender, id);
    Seqs.Assoc(ls, [Take(t, key), Open(t, true)], [StreamEnds(ender, id), HookCheck(ender), GiveBack(ender)]);
    assert (s.idle - {key})[key := n] == s.idle;
    assert u.sessions[n := Session(false, Idle)] == s.sessions;
    assert u.streams[id := Stream(n, false)] == s.streams + [Stream(n, false)];
  }

  // ---------- closing the client ----------

  /** A dead client pools nothing any more: a stream's hook that comes to its checks then closes the session,
      unless somebody else has. */
  lemma DeadClientPoolsNothing(ls: seq<Label>, t: nat)
    requires CanRun(INIT, ls) && Enabled(Run(INIT, ls), HookCheck(t)) && Run(INIT, ls).clientClosed
    ensures var s := Run(INIT, ls);
            var u, n := Do(s, HookCheck(t)), s.tasks[t].seqNo;
            && u.tasks[t] == (if s.sessions[n].closed then Done else Abandoning(n))
            && u.sessions[n].right == Gone && u.idle == s.idle
  {
  }

  /** Goroutine `t` is inside Close of the client and has the session ahead of it. */
  predicate HasAhead(k: Task, n: nat) { (k.ClosingAll? || k.ClosingOne?) && n in k.todo }

  predicate Awaits(s: State, n: nat) { exists t :: t in s.tasks && HasAhead(s.tasks[t], n) }

  /** An open session is in the client's table, or a Close has collected it; what is in the table was made since
      the last Close collected. */
  predicate ReachOk(s: State, n: nat)
    requires n in s.sessions
  {
    (!s.sessions[n].closed ==> n in s.known || Awaits(s, n)) && (n in s.known ==> s.collected < n)
  }

  ghost predicate AllReach(s: State) { s.collected <= s.counter && forall n | n in s.sessions :: ReachOk(s, n) }

  lemma StillAwaits(s: State, u: State, t: nat, n: nat)
    requires u.tasks - {t} == s.tasks - {t} && Awaits(s, n)
    requires t in s.tasks && HasAhead(s.tasks[t], n) ==> t in u.tasks && HasAhead(u.tasks[t], n)
    ensures Awaits(u, n)
  {
    var x :| x in s.tasks && HasAhead(s.tasks[x], n);
    if x != t {
      assert x in s.tasks - {t} && (s.tasks - {t})[x] == s.tasks[x];
      assert x in u.tasks - {t} && (u.tasks - {t})[x] == u.tasks[x];
    }
    assert x in u.tasks && HasAhead(u.tasks[x], n);
  }

  /** A step of goroutine `t` that opens no session, forgets none that is open and leaves the closer's list. */
  lemma QuietStepReaches(s: State, u: State, t: nat)
    requires AllReach(s) && u.sessions.Keys == s.sessions.Keys && u.collected == s.collected && s.counter <= u.counter
    requires u.tasks - {t} == s.tasks - {t}
    requires forall n | n in s.sessions && !u.sessions[n].closed :: !s.sessions[n].closed && (n in s.known ==> n in u.known)
    requires u.known <= s.known
    requires forall n | n in s.sessions && !u.sessions[n].closed && t in s.tasks && HasAhead(s.tasks[t], n) ::
               t in u.tasks && HasAhead(u.tasks[t], n)
    ensures AllReach(u)
  {
    forall n | n in u.sessions ensures ReachOk(u, n) {
      assert ReachOk(s, n);
      if !u.sessions[n].closed && n !in u.known {
        StillAwaits(s, u, t, n);
      }
    }
  }

  lemma PutTouchesOne(s: State, t: nat, k: Task)
    ensures Put(s, t, k).tasks - {t} == s.tasks - {t}
  {
  }

  lemma NewSessionReaches(s: State, t: nat)
    requires Inv(s) && AllReach(s) && t in s.tasks && s.tasks[t].Dialing?
    ensures AllReach(NewSession(s, t))
  {
    var u := NewSession(s, t);
    PutTouchesOne(s, t, Opening(s.counter + 1));
    forall n | n in u.sessions ensures ReachOk(u, n) {
      if n in s.sessions {
        assert ReachOk(s, n) && SessionOk(s, n);
        if Awaits(s, n) {
          StillAwaits(s, u, t, n);
        }
      }
    }
  }

  lemma CollectReaches(s: State, t: nat)
    requires Inv(s) && AllReach(s) && t in s.tasks && s.tasks[t].Collecting?
    ensures AllReach(Do(s, Collect(t)))
  {
    var u := Do(s, Collect(t));
    PutTouchesOne(s, t, ClosingAll(s.known));
    forall n | n in u.sessions ensures ReachOk(u, n) {
      assert ReachOk(s, n);
      if n in s.known {
        assert HasAhead(u.tasks[t], n);
      } else if Awaits(s, n) {
        StillAwaits(s, u, t, n);
      }
    }
  }

  lemma ShutReaches(s: State, l: Label)
    requires Inv(s) && AllReach(s) && Enabled(s, l) && (l.CloseSession? || l.CloseNext?)
    ensures AllReach(Do(s, l))
  {
    assert l.t in s.tasks ==> TaskOk(s, l.t);
    QuietStepReaches(s, Do(s, l), l.t);
  }

  lemma ForgetReaches(s: State, l: Label)
    requires Inv(s) && AllReach(s) && Enabled(s, l) && (l.SessionHookRuns? || l.NextHookRuns?)
    ensures AllReach(Do(s, l))
  {
    assert TaskOk(s, l.t);
    QuietStepReaches(s, Do(s, l), l.t);
  }

  lemma UserReaches(s: State, l: Label)
    requires Inv(s) && AllReach(s) && Enabled(s, l)
    requires l.Take? || l.Open? || l.StreamEnds? || l.HookCheck? || l.GiveBack? || (l.Dial? && !l.ok)
    ensures AllReach(Do(s, l))
  {
    QuietStepReaches(s, Do(s, l), l.t);
  }

  lemma StepReaches(s: State, l: Label)
    requires Inv(s) && AllReach(s) && Enabled(s, l)
    ensures AllReach(Do(s, l))
  {
    match l
    case Collect(t) => CollectReaches(s, t);
    case Dial(t, ok) => if ok { NewSessionReaches(s, t); } else { UserReaches(s, l); }
    case Cleanup(_) => QuietStepReaches(s, Do(s, l), 0);
    case CloseClient(t) => QuietStepReaches(s, Do(s, l), t);
    case ClosedAll(t) => QuietStepReaches(s, Do(s, l), t);
    case CloseSession(_, _) => ShutReaches(s, l);
    case CloseNext(_, _) => ShutReaches(s, l);
    case SessionHookRuns(_) => ForgetReaches(s, l);
    case NextHookRuns(_) => ForgetReaches(s, l);
    case _ => UserReaches(s, l);
  }

  lemma {:induction false} RunReaches(s: State, ls: seq<Label>)
    requires Inv(s) && AllReach(s) && CanRun(s, ls)
    ensures AllReach(Run(s, ls))
    decreases |ls|
  {
    if ls != [] {
      StepKeepsInv(s, ls[0]);
      StepReaches(s, ls[0]);
      RunReaches(Do(s, ls[0]), ls[1..]);
    }
  }

  /** The client is closed, and no Close of it is under way any more. */
  predicate ClientGone(s: State) {
    s.clientClosed && forall t | t in s.tasks :: !s.tasks[t].Collecting? && !s.tasks[t].ClosingAll? && !s.tasks[t].ClosingOne?
  }

  /** Session `n` is open although the client is gone, in a run that makes at most `late` sessions after the last
      Close of the client has collected the sessions. */
  ghost predicate Outlives(ls: seq<Label>, n: nat, late: nat) {
    && CanRun(INIT, ls) && ClientGone(Run(INIT, ls)) && n in Run(INIT, ls).sessions
    && !Run(INIT, ls).sessions[n].closed && Run(INIT, ls).counter - Run(INIT, ls).collected <= late
  }

  /** Whatever is open when the client is gone was made after the last Close collected the sessions. */
  lemma OpenSessionsAreLate(ls: seq<Label>, n: nat)
    requires CanRun(INIT, ls) && ClientGone(Run(INIT, ls)) && n in Run(INIT, ls).sessions
    requires !Run(INIT, ls).sessions[n].closed
    ensures Run(INIT, ls).collected < n <= Run(INIT, ls).counter && n in Run(INIT, ls).known
  {
    RunReaches(INIT, ls);
    RunKeepsInv(INIT, ls);
    assert SessionOk(Run(INIT, ls), n);
    assert ReachOk(Run(INIT, ls), n);
  }

  /** A CreateStream that was let in before the client closed dials after that. */
  lemma LateSessionOutlives() returns (ls: seq<Label>)
    ensures Outlives(ls, 1, 1)
  {
    var s: State;
    ls, s := Extend([], INIT, Take(0, 0));
    assert s == INIT.(tasks := map[0 := Dialing]);
    ls, s := Extend(ls, s, CloseClient(1));
    assert s == INIT.(clientClosed := true, tasks := map[0 := Dialing, 1 := Collecting]);
    ls, s := Extend(ls, s, Collect(1));
    assert s == INIT.(clientClosed := true, tasks := map[0 := Dialing, 1 := ClosingAll({})]);
    ls, s := Extend(ls, s, ClosedAll(1));
    assert s == INIT.(clientClosed := true, tasks := map[0 := Dialing, 1 := Done]);
    ls, s := Extend(ls, s, Dial(0, true));
    assert s.tasks == map[0 := Opening(1), 1 := Done];
  }

  /** When Close of the client is done every session is closed, in all runs that make at most `late` sessions
      after it has collected them, if and only if that is none. */
  lemma ClientCloseIsCompleteExactlyWhen(late: nat)
    ensures (forall ls, n :: !Outlives(ls, n, late)) <==> late == 0
  {
    if late > 0 {
      var ls := LateSessionOutlives();
      assert Outlives(ls, 1, late);
    } else {
      forall ls, n ensures !Outlives(ls, n, late) {
        if Outlives(ls, n, late) {
          OpenSessionsAreLate(ls, n);
        }
      }
    }
  }
}
