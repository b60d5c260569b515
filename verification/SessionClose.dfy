/** openStream, the stream close paths and the session's Close as interleaved steps. A step is
    what one goroutine does between two points where another may run: a section under the stream
    lock is one step, except Close's sweep, which keeps the lock over many. */
module SessionClose {
  import opened Basics
  import Seqs

  /** The once-only close guard of a stream: unused, won by goroutine `t` which has yet to run the
      die hook, or won and through with the hook. */
  datatype Guard = Unused | Won(t: nat) | Through

  /** How far openStream has come with a stream: in goroutine `t`'s hands, in the table, or given
      up before that. */
  datatype Stage = Opening(t: nat) | Registered | Dropped

  /** A stream object. `ours` tells openStream's streams from those registered for a SYN of the
      peer, `late` those whose SYN came when the session's sweep was done; `hook` says
      whether a die hook was set; `fin` is the goroutine that took the stream out of the table for a FIN
      and has yet to close it. */
  datatype Stream = Stream(sid: nat, ours: bool, late: bool, hook: bool, stage: Stage, guard: Guard, hookRuns: nat,
                           fin: Option<nat>)

  /** The session's own guard: unused, won by goroutine `t` which has yet to finish the sweep, or
      swept. The die channel is closed as soon as it is not Running. */
  datatype Life = Running | Ending(t: nat) | Swept

  /** Where a goroutine is. Streams are named by their position in State.streams. */
  datatype Task =
    | Announcing(id: nat)                      // openStream: past the first check, SYN not yet written
    | Registering(id: nat)                     // openStream: SYN written, before the stream lock
    | Closing                                  // Close: won the session's guard, before the stream lock
    | Sweeping(todo: set<nat>)                 // Close: holds the stream lock
    | SweepHook(id: nat, todo: set<nat>)       // Close: won a stream's guard during the sweep
    | FinFound(id: nat)                        // receive loop: took the stream out of the table for a FIN
    | RunningHook(id: nat, notify: bool)       // won the stream's guard, before its hook
    | Notifying(id: nat)                       // closeWithError: before the closed check in streamClosed
    | Removing(id: nat)                        // streamClosed: before the stream lock
    | Done                                     // finished

  /** `lock` is the goroutine that keeps the stream lock; `handedOut[k]` is the stream to which
      openStream gave the id k + 1; `accepted` are the ids under which a SYN of the peer registered a
      stream, with the last such stream, and `again` those under which that happened more than once. */
  datatype State = State(life: Life, lock: Option<nat>, handedOut: seq<nat>, accepted: map<nat, nat>, again: set<nat>,
                         streams: seq<Stream>, table: map<nat, nat>, tasks: map<nat, Task>)

  const INIT := State(Running, None, [], map[], {}, [], map[], map[])

  datatype Label =
    | OpenBegin(t: nat, hook: bool)
    | OpenAnnounce(t: nat, ok: bool)
    | OpenRegister(t: nat)
    | CloseBegin(t: nat)
    | SweepBegin(t: nat)
    | SweepOne(t: nat, id: nat)
    | SweepHookRun(t: nat)
    | SweepEnd(t: nat)
    | CloseStream(t: nat, id: nat, notify: bool)
    | RunHook(t: nat)
    | Notify(t: nat)
    | Remove(t: nat)
    | Fin(t: nat, sid: nat)
    | FinClose(t: nat)
    | PeerSyn(sid: nat)

  predicate At(s: State, t: nat) { t in s.tasks }

  predicate Enabled(s: State, l: Label) {
    match l
    case OpenBegin(t, _) => !At(s, t) && s.life.Running?
    case OpenAnnounce(t, _) => At(s, t) && s.tasks[t].Announcing? && s.tasks[t].id < |s.streams|
    case OpenRegister(t) => At(s, t) && s.tasks[t].Registering? && s.lock.None? && s.tasks[t].id < |s.streams|
    case CloseBegin(t) => !At(s, t) && s.life.Running?
    case SweepBegin(t) => At(s, t) && s.tasks[t].Closing? && s.lock.None?
    case SweepOne(t, id) => At(s, t) && s.tasks[t].Sweeping? && id in s.tasks[t].todo && id < |s.streams|
    case SweepHookRun(t) => At(s, t) && s.tasks[t].SweepHook? && s.tasks[t].id < |s.streams|
    case SweepEnd(t) => At(s, t) && s.tasks[t] == Sweeping({})
    case CloseStream(t, id, _) => !At(s, t) && id < |s.streams| && s.streams[id].stage.Registered?
    case RunHook(t) => At(s, t) && s.tasks[t].RunningHook? && s.tasks[t].id < |s.streams|
    case Notify(t) => At(s, t) && s.tasks[t].Notifying?
    case Remove(t) => At(s, t) && s.tasks[t].Removing? && s.lock.None? && s.tasks[t].id < |s.streams|
    case Fin(t, sid) => !At(s, t) && s.lock.None?
    case FinClose(t) => At(s, t) && s.tasks[t].FinFound? && s.tasks[t].id < |s.streams|
    case PeerSyn(sid) => s.lock.None?
  }

  function Put(s: State, t: nat, k: Task): State { s.(tasks := s.tasks[t := k]) }

  function Drop(s: State, t: nat): State { s.(tasks := s.tasks - {t}) }

  function SetStream(s: State, id: nat, st: Stream): State
    requires id < |s.streams|
  {
    s.(streams := s.streams[id := st])
  }

  /** Goroutine `t` wins the guard of stream `id` and goes on as `k`. */
  function Win(s: State, t: nat, id: nat, k: Task): State
    requires id < |s.streams|
  {
    Put(SetStream(s, id, s.streams[id].(guard := Won(t))), t, k)
  }

  function Begin(s: State, t: nat, hook: bool): State {
    Put(s.(handedOut := s.handedOut + [|s.streams|],
           streams := s.streams + [Stream(|s.handedOut| + 1, true, false, hook, Opening(t), Unused, 0, None)]),
        t, Announcing(|s.streams|))
  }

  function GiveUp(s: State, t: nat, id: nat): State
    requires id < |s.streams|
  {
    Drop(SetStream(s, id, s.streams[id].(stage := Dropped)), t)
  }

  /** openStream's section under the stream lock: a stream is registered only while the session is
      still running. */
  function Register(s: State, t: nat, id: nat): State
    requires id < |s.streams|
  {
    if s.life.Running? then
      Drop(SetStream(s.(table := s.table[s.streams[id].sid := id]), id, s.streams[id].(stage := Registered)), t)
    else GiveUp(s, t, id)
  }

  function VisitStream(s: State, t: nat, id: nat, todo: set<nat>): State
    requires id < |s.streams|
  {
    if s.streams[id].guard.Unused? then Win(s, t, id, SweepHook(id, todo)) else Put(s, t, Sweeping(todo))
  }

  function HookRun(s: State, t: nat, id: nat, k: Task): State
    requires id < |s.streams|
  {
    var st := s.streams[id];
    Put(SetStream(s, id, st.(guard := Through, hookRuns := st.hookRuns + if st.hook then 1 else 0)), t, k)
  }

  function TakeForFin(s: State, t: nat, sid: nat): State {
    if sid in s.table && s.table[sid] < |s.streams| then
      var id := s.table[sid];
      Put(SetStream(s.(table := s.table - {sid}), id, s.streams[id].(fin := Some(t))), t, FinFound(id))
    else s
  }

  function CloseForFin(s: State, t: nat, id: nat): State
    requires id < |s.streams|
  {
    var st := s.streams[id].(fin := None);
    if st.guard.Unused? then Put(SetStream(s, id, st.(guard := Won(t))), t, RunningHook(id, false))
    else Drop(SetStream(s, id, st), t)
  }

  function Accept(s: State, sid: nat): State {
    if sid in s.table then s
    else s.(accepted := s.accepted[sid := |s.streams|], again := s.again + if sid in s.accepted then {sid} else {},
            streams := s.streams + [Stream(sid, false, s.life.Swept?, false, Registered, Unused, 0, None)],
            table := s.table[sid := |s.streams|])
  }

  function Do(s: State, l: Label): State
    requires Enabled(s, l)
  {
    match l
    case OpenBegin(t, hook) => Begin(s, t, hook)
    case OpenAnnounce(t, ok) =>
      if ok then Put(s, t, Registering(s.tasks[t].id)) else GiveUp(s, t, s.tasks[t].id)
    case OpenRegister(t) => Register(s, t, s.tasks[t].id)
    case CloseBegin(t) => Put(s.(life := Ending(t)), t, Closing)
    case SweepBegin(t) => Put(s.(lock := Some(t)), t, Sweeping(s.table.Values))
    case SweepOne(t, id) => VisitStream(s, t, id, s.tasks[t].todo - {id})
    case SweepHookRun(t) => HookRun(s, t, s.tasks[t].id, Sweeping(s.tasks[t].todo))
    case SweepEnd(t) => Drop(s.(table := map[], lock := None, life := Swept), t)
    case CloseStream(t, id, notify) =>
      if s.streams[id].guard.Unused? then Win(s, t, id, RunningHook(id, notify)) else s
    case RunHook(t) => HookRun(s, t, s.tasks[t].id, if s.tasks[t].notify then Notifying(s.tasks[t].id) else Done)
    case Notify(t) => if s.life.Running? then Put(s, t, Removing(s.tasks[t].id)) else Drop(s, t)
    case Remove(t) => Drop(s.(table := s.table - {s.streams[s.tasks[t].id].sid}), t)
    case Fin(t, sid) => TakeForFin(s, t, sid)
    case FinClose(t) => CloseForFin(s, t, s.tasks[t].id)
    case PeerSyn(sid) => Accept(s, sid)
  }

  /** `ls` is an interleaving that can run from `s`. */
  predicate CanRun(s: State, ls: seq<Label>)
    decreases |ls|
  {
    ls == [] || (Enabled(s, ls[0]) && CanRun(Do(s, ls[0]), ls[1..]))
  }

  function Run(s: State, ls: seq<Label>): State
    requires CanRun(s, ls)
    decreases |ls|
  {
    if ls == [] then s else Run(Do(s, ls[0]), ls[1..])
  }

  // ---------- what every step keeps ----------

  predicate Opens(k: Task) { k.Announcing? || k.Registering? }

  predicate OwnsHook(k: Task) { k.SweepHook? || k.RunningHook? }

  predicate Closes(k: Task) { k.Closing? || k.Sweeping? || k.SweepHook? }

  predicate HoldsLock(k: Task) { k.Sweeping? || k.SweepHook? }

  predicate HasId(k: Task) { !k.Closing? && !k.Sweeping? && !k.Done? }

  predicate InTable(s: State, i: nat)
    requires i < |s.streams|
  {
    s.streams[i].sid in s.table && s.table[s.streams[i].sid] == i
  }

  /** What each goroutine can rely on at its program point. */
  ghost predicate TaskOk(s: State, t: nat)
    requires t in s.tasks
  {
    var k := s.tasks[t];
    && (HasId(k) ==> k.id < |s.streams|)
    && (Opens(k) ==> s.streams[k.id].stage == Opening(t))
    && (OwnsHook(k) ==> s.streams[k.id].guard == Won(t))
    && (k.FinFound? ==> s.streams[k.id].stage.Registered?)
    && (k.Notifying? || k.Removing? ==> !s.streams[k.id].guard.Unused?)
    && (Closes(k) ==> s.life == Ending(t))
    && (HoldsLock(k) ==>
          s.lock == Some(t) && forall id | id in k.todo :: id < |s.streams| && s.streams[id].stage.Registered?)
  }

  /** openStream gives every stream an id of its own; the others carry an id the peer chose.
      The winner of the guard owns the hook until it has run it, once. */
  ghost predicate StreamOk(s: State, i: nat)
    requires i < |s.streams|
  {
    var st := s.streams[i];
    && (if st.ours then 0 < st.sid <= |s.handedOut| && s.handedOut[st.sid - 1] == i
        else st.sid in s.accepted && (st.sid in s.again || s.accepted[st.sid] == i) && st.stage.Registered?)
    && (st.late ==> !st.ours)
    && (!st.stage.Registered? ==> st.guard.Unused?)
    && st.hookRuns == (if st.guard.Through? && st.hook then 1 else 0)
    && (st.guard.Won? ==> st.guard.t in s.tasks && OwnsHook(s.tasks[st.guard.t]) && s.tasks[st.guard.t].id == i)
    && (st.fin.Some? ==> st.fin.value in s.tasks && s.tasks[st.fin.value] == FinFound(i))
  }

  /** No other stream was made under this one's id. */
  predicate Alone(s: State, i: nat)
    requires i < |s.streams|
  {
    var sid := s.streams[i].sid;
    if s.streams[i].ours then sid !in s.accepted else sid !in s.again && (sid == 0 || |s.handedOut| < sid)
  }

  /** An unclosed stream alone under its id can be reached from the table or is in the hands of a FIN. */
  ghost predicate ReachOk(s: State, i: nat)
    requires i < |s.streams|
  {
    var st := s.streams[i];
    st.stage.Registered? && st.guard.Unused? && Alone(s, i) ==> InTable(s, i) || st.fin.Some?
  }

  /** Table entries sit under their stream's id; a sweep has each of them ahead of it or behind it,
      and after the sweep only late streams are in it. */
  ghost predicate EntryOk(s: State, sid: nat)
    requires sid in s.table
  {
    var id := s.table[sid];
    && id < |s.streams| && s.streams[id].sid == sid && s.streams[id].stage.Registered?
    && (s.lock.Some? && s.lock.value in s.tasks && HoldsLock(s.tasks[s.lock.value]) ==>
          id in s.tasks[s.lock.value].todo || !s.streams[id].guard.Unused?)
    && (s.life.Swept? ==> s.streams[id].late)
  }

  ghost predicate LockOk(s: State) {
    s.lock.Some? ==> s.lock.value in s.tasks && HoldsLock(s.tasks[s.lock.value])
  }

  ghost predicate Inv(s: State) {
    && LockOk(s)
    && (forall t | t in s.tasks :: TaskOk(s, t))
    && (forall i | 0 <= i < |s.streams| :: StreamOk(s, i) && ReachOk(s, i))
    && (forall sid | sid in s.table :: EntryOk(s, sid))
  }

  lemma BeginKeeps(s: State, t: nat, hook: bool)
    requires Inv(s) && t !in s.tasks
    ensures Inv(Begin(s, t, hook))
  {
    var u := Begin(s, t, hook);
    forall x | x in u.tasks ensures TaskOk(u, x) { assert x in s.tasks ==> TaskOk(s, x); }
    forall i | 0 <= i < |u.streams| ensures StreamOk(u, i) && ReachOk(u, i) {
      assert i < |s.streams| ==> StreamOk(s, i) && ReachOk(s, i);
    }
    forall n | n in u.table ensures EntryOk(u, n) { assert n in s.table ==> EntryOk(s, n); }
  }

  lemma GiveUpKeeps(s: State, t: nat)
    requires Inv(s) && t in s.tasks && Opens(s.tasks[t]) && s.tasks[t].id < |s.streams|
    ensures Inv(GiveUp(s, t, s.tasks[t].id))
  {
    assert TaskOk(s, t);
    assert StreamOk(s, s.tasks[t].id);
    var u := GiveUp(s, t, s.tasks[t].id);
    forall x | x in u.tasks ensures TaskOk(u, x) { assert x in s.tasks ==> TaskOk(s, x); }
    forall i | 0 <= i < |u.streams| ensures StreamOk(u, i) && ReachOk(u, i) {
      assert i < |s.streams| ==> StreamOk(s, i) && ReachOk(s, i);
    }
    forall n | n in u.table ensures EntryOk(u, n) { assert n in s.table ==> EntryOk(s, n); }
  }

  lemma RegisterKeeps(s: State, t: nat, id: nat)
    requires Inv(s) && t in s.tasks && s.tasks[t] == Registering(id) && s.lock.None? && id < |s.streams|
    requires s.life.Running?
    ensures Inv(Register(s, t, id))
  {
    assert TaskOk(s, t) && StreamOk(s, id);
    var u := Register(s, t, id);
    forall x | x in u.tasks ensures TaskOk(u, x) { assert TaskOk(s, x); }
    forall i | 0 <= i < |u.streams| ensures StreamOk(u, i) && ReachOk(u, i) { assert StreamOk(s, i) && ReachOk(s, i); }
    forall n | n in u.table ensures EntryOk(u, n) { assert n in s.table ==> EntryOk(s, n); }
  }

  lemma ClaimKeeps(s: State, t: nat, id: nat, todo: set<nat>)
    requires Inv(s) && t in s.tasks && s.tasks[t].Sweeping? && id in s.tasks[t].todo && todo == s.tasks[t].todo - {id}
    requires id < |s.streams| && s.streams[id].guard.Unused?
    ensures Inv(Win(s, t, id, SweepHook(id, todo)))
  {
    assert TaskOk(s, t);
    var u := Win(s, t, id, SweepHook(id, todo));
    forall x | x in u.tasks ensures TaskOk(u, x) { assert TaskOk(s, x); }
    forall i | 0 <= i < |u.streams| ensures StreamOk(u, i) && ReachOk(u, i) { assert StreamOk(s, i) && ReachOk(s, i); }
    forall n | n in u.table ensures EntryOk(u, n) { assert EntryOk(s, n); }
  }

  lemma PassByKeeps(s: State, t: nat, id: nat, todo: set<nat>)
    requires Inv(s) && t in s.tasks && s.tasks[t].Sweeping? && id in s.tasks[t].todo && todo == s.tasks[t].todo - {id}
    requires id < |s.streams| && !s.streams[id].guard.Unused?
    ensures Inv(Put(s, t, Sweeping(todo)))
  {
    assert TaskOk(s, t);
    var u := Put(s, t, Sweeping(todo));
    forall x | x in u.tasks ensures TaskOk(u, x) { assert TaskOk(s, x); }
    forall i | 0 <= i < |u.streams| ensures StreamOk(u, i) && ReachOk(u, i) { assert StreamOk(s, i) && ReachOk(s, i); }
    forall n | n in u.table ensures EntryOk(u, n) { assert EntryOk(s, n); }
  }

  lemma SweepHookRunKeeps(s: State, t: nat)
    requires Inv(s) && t in s.tasks && s.tasks[t].SweepHook? && s.tasks[t].id < |s.streams|
    ensures Inv(HookRun(s, t, s.tasks[t].id, Sweeping(s.tasks[t].todo)))
  {
    assert TaskOk(s, t);
    assert StreamOk(s, s.tasks[t].id);
    var u := HookRun(s, t, s.tasks[t].id, Sweeping(s.tasks[t].todo));
    forall x | x in u.tasks ensures TaskOk(u, x) { assert x in s.tasks ==> TaskOk(s, x); }
    forall i | 0 <= i < |u.streams| ensures StreamOk(u, i) && ReachOk(u, i) {
      assert i < |s.streams| ==> StreamOk(s, i) && ReachOk(s, i);
    }
    forall n | n in u.table ensures EntryOk(u, n) { assert n in s.table ==> EntryOk(s, n); }
  }

  lemma RunHookKeeps(s: State, t: nat, k: Task)
    requires Inv(s) && t in s.tasks && s.tasks[t].RunningHook? && s.tasks[t].id < |s.streams|
    requires k.Done? || k == Notifying(s.tasks[t].id)
    ensures Inv(HookRun(s, t, s.tasks[t].id, k))
  {
    assert TaskOk(s, t);
    assert StreamOk(s, s.tasks[t].id);
    var u := HookRun(s, t, s.tasks[t].id, k);
    forall x | x in u.tasks ensures TaskOk(u, x) { assert x in s.tasks ==> TaskOk(s, x); }
    forall i | 0 <= i < |u.streams| ensures StreamOk(u, i) && ReachOk(u, i) {
      assert i < |s.streams| ==> StreamOk(s, i) && ReachOk(s, i);
    }
    forall n | n in u.table ensures EntryOk(u, n) { assert n in s.table ==> EntryOk(s, n); }
  }

  lemma TakeForFinKeeps(s: State, t: nat, sid: nat)
    requires Inv(s) && t !in s.tasks && s.lock.None?
    ensures Inv(TakeForFin(s, t, sid))
  {
    if sid in s.table {
      assert EntryOk(s, sid) && StreamOk(s, s.table[sid]);
    }
    var u := TakeForFin(s, t, sid);
    forall x | x in u.tasks ensures TaskOk(u, x) { assert x in s.tasks ==> TaskOk(s, x); }
    forall i | 0 <= i < |u.streams| ensures StreamOk(u, i) && ReachOk(u, i) {
      assert i < |s.streams| ==> StreamOk(s, i) && ReachOk(s, i);
    }
    forall n | n in u.table ensures EntryOk(u, n) { assert n in s.table ==> EntryOk(s, n); }
  }

  lemma FinWinsKeeps(s: State, t: nat, id: nat)
    requires Inv(s) && t in s.tasks && s.tasks[t] == FinFound(id) && id < |s.streams| && s.streams[id].guard.Unused?
    ensures Inv(Put(SetStream(s, id, s.streams[id].(fin := None, guard := Won(t))), t, RunningHook(id, false)))
  {
    assert TaskOk(s, t);
    assert StreamOk(s, id) && ReachOk(s, id);
    var u := Put(SetStream(s, id, s.streams[id].(fin := None, guard := Won(t))), t, RunningHook(id, false));
    forall x | x in u.tasks ensures TaskOk(u, x) { assert x in s.tasks ==> TaskOk(s, x); }
    forall i | 0 <= i < |u.streams| ensures StreamOk(u, i) && ReachOk(u, i) { assert StreamOk(s, i) && ReachOk(s, i); }
    forall n | n in u.table ensures EntryOk(u, n) { assert EntryOk(s, n); }
  }

  lemma FinIsLateKeeps(s: State, t: nat, id: nat)
    requires Inv(s) && t in s.tasks && s.tasks[t] == FinFound(id) && id < |s.streams| && !s.streams[id].guard.Unused?
    ensures Inv(Drop(SetStream(s, id, s.streams[id].(fin := None)), t))
  {
    assert TaskOk(s, t);
    assert StreamOk(s, id) && ReachOk(s, id);
    var u := Drop(SetStream(s, id, s.streams[id].(fin := None)), t);
    forall x | x in u.tasks ensures TaskOk(u, x) { assert x in s.tasks ==> TaskOk(s, x); }
    forall i | 0 <= i < |u.streams| ensures StreamOk(u, i) && ReachOk(u, i) { assert StreamOk(s, i) && ReachOk(s, i); }
    forall n | n in u.table ensures EntryOk(u, n) { assert EntryOk(s, n); }
  }

  lemma CloseForFinKeeps(s: State, t: nat)
    requires Inv(s) && t in s.tasks && s.tasks[t].FinFound? && s.tasks[t].id < |s.streams|
    ensures Inv(CloseForFin(s, t, s.tasks[t].id))
  {
    var id := s.tasks[t].id;
    if s.streams[id].guard.Unused? { FinWinsKeeps(s, t, id); } else { FinIsLateKeeps(s, t, id); }
  }

  lemma AcceptKeeps(s: State, sid: nat)
    requires Inv(s) && s.lock.None?
    ensures Inv(Accept(s, sid))
  {
    var u := Accept(s, sid);
    forall x | x in u.tasks ensures TaskOk(u, x) { assert x in s.tasks ==> TaskOk(s, x); }
    forall i | 0 <= i < |u.streams| ensures StreamOk(u, i) && ReachOk(u, i) {
      assert i < |s.streams| ==> StreamOk(s, i) && ReachOk(s, i);
    }
    forall n | n in u.table ensures EntryOk(u, n) { assert n in s.table ==> EntryOk(s, n); }
  }

  lemma MoveKeeps(s: State, l: Label)
    requires Inv(s) && Enabled(s, l)
    requires (l.OpenAnnounce? && l.ok) || l.Notify?
    ensures Inv(Do(s, l))
  {
    assert TaskOk(s, l.t);
    var u := Do(s, l);
    forall x | x in u.tasks ensures TaskOk(u, x) { assert x in s.tasks ==> TaskOk(s, x); }
    forall i | 0 <= i < |u.streams| ensures StreamOk(u, i) && ReachOk(u, i) {
      assert i < |s.streams| ==> StreamOk(s, i) && ReachOk(s, i);
    }
    forall n | n in u.table ensures EntryOk(u, n) { assert n in s.table ==> EntryOk(s, n); }
  }

  lemma CloseBeginKeeps(s: State, t: nat)
    requires Inv(s) && t !in s.tasks && s.life.Running?
    ensures Inv(Put(s.(life := Ending(t)), t, Closing))
  {
    var u := Put(s.(life := Ending(t)), t, Closing);
    forall x | x in u.tasks ensures TaskOk(u, x) { assert x in s.tasks ==> TaskOk(s, x); }
    forall i | 0 <= i < |u.streams| ensures StreamOk(u, i) && ReachOk(u, i) { assert StreamOk(s, i) && ReachOk(s, i); }
    forall n | n in u.table ensures EntryOk(u, n) { assert EntryOk(s, n); }
  }

  lemma SweepBeginKeeps(s: State, t: nat)
    requires Inv(s) && t in s.tasks && s.tasks[t].Closing? && s.lock.None?
    ensures Inv(Put(s.(lock := Some(t)), t, Sweeping(s.table.Values)))
  {
    assert TaskOk(s, t);
    var u := Put(s.(lock := Some(t)), t, Sweeping(s.table.Values));
    forall x | x in u.tasks ensures TaskOk(u, x) { assert TaskOk(s, x); }
    forall i | 0 <= i < |u.streams| ensures StreamOk(u, i) && ReachOk(u, i) { assert StreamOk(s, i) && ReachOk(s, i); }
    forall n | n in u.table ensures EntryOk(u, n) { assert EntryOk(s, n); }
  }

  lemma SweepEndKeeps(s: State, t: nat)
    requires Inv(s) && t in s.tasks && s.tasks[t] == Sweeping({})
    ensures Inv(Drop(s.(table := map[], lock := None, life := Swept), t))
  {
    assert TaskOk(s, t);
    assert forall n | n in s.table :: EntryOk(s, n);
    var u := Drop(s.(table := map[], lock := None, life := Swept), t);
    forall x | x in u.tasks ensures TaskOk(u, x) { assert TaskOk(s, x); }
    forall i | 0 <= i < |u.streams| ensures StreamOk(u, i) && ReachOk(u, i) { assert StreamOk(s, i) && ReachOk(s, i); }
  }

  lemma RemoveKeeps(s: State, l: Label)
    requires Inv(s) && Enabled(s, l)
    requires l.Remove?
    ensures Inv(Do(s, l))
  {
    assert TaskOk(s, l.t);
    assert StreamOk(s, s.tasks[l.t].id);
    var u := Do(s, l);
    forall x | x in u.tasks ensures TaskOk(u, x) { assert x in s.tasks ==> TaskOk(s, x); }
    forall i | 0 <= i < |u.streams| ensures StreamOk(u, i) && ReachOk(u, i) {
      assert i < |s.streams| ==> StreamOk(s, i) && ReachOk(s, i);
    }
    forall n | n in u.table ensures EntryOk(u, n) { assert n in s.table ==> EntryOk(s, n); }
  }

  lemma CloseStreamKeeps(s: State, t: nat, id: nat, notify: bool)
    requires Inv(s) && t !in s.tasks && id < |s.streams|
    requires s.streams[id].stage.Registered? && s.streams[id].guard.Unused?
    ensures Inv(Win(s, t, id, RunningHook(id, notify)))
  {
    assert StreamOk(s, id);
    var u := Win(s, t, id, RunningHook(id, notify));
    forall x | x in u.tasks ensures TaskOk(u, x) { assert x in s.tasks ==> TaskOk(s, x); }
    forall i | 0 <= i < |u.streams| ensures StreamOk(u, i) && ReachOk(u, i) { assert StreamOk(s, i) && ReachOk(s, i); }
    forall n | n in u.table ensures EntryOk(u, n) { assert EntryOk(s, n); }
  }

  lemma StepKeepsInv(s: State, l: Label)
    requires Inv(s) && Enabled(s, l)
    ensures Inv(Do(s, l))
  {
    match l {
      case OpenBegin(t, hook) => BeginKeeps(s, t, hook);
      case OpenAnnounce(t, ok) => if ok { MoveKeeps(s, l); } else { GiveUpKeeps(s, t); }
      case OpenRegister(t) => if s.life.Running? { RegisterKeeps(s, t, s.tasks[t].id); } else { GiveUpKeeps(s, t); }
      case SweepOne(t, id) =>
        var todo := s.tasks[t].todo - {id};
        if s.streams[id].guard.Unused? { ClaimKeeps(s, t, id, todo); } else { PassByKeeps(s, t, id, todo); }
      case SweepHookRun(t) => SweepHookRunKeeps(s, t);
      case RunHook(t) => RunHookKeeps(s, t, if s.tasks[t].notify then Notifying(s.tasks[t].id) else Done);
      case Fin(t, sid) => TakeForFinKeeps(s, t, sid);
      case FinClose(t) => CloseForFinKeeps(s, t);
      case PeerSyn(sid) => AcceptKeeps(s, sid);
      case Notify(_) => MoveKeeps(s, l);
      case Remove(_) => RemoveKeeps(s, l);
      case CloseStream(t, id, notify) => if s.streams[id].guard.Unused? { CloseStreamKeeps(s, t, id, notify); }
      case CloseBegin(t) => CloseBeginKeeps(s, t);
      case SweepBegin(t) => SweepBeginKeeps(s, t);
      case SweepEnd(t) => SweepEndKeeps(s, t);
    }
  }

  lemma InitInv()
    ensures Inv(INIT)
  {
  }

  lemma {:induction false} RunKeepsInv(s: State, ls: seq<Label>)
    requires Inv(s) && CanRun(s, ls)
    ensures Inv(Run(s, ls))
    decreases |ls|
  {
    if ls != [] {
      StepKeepsInv(s, ls[0]);
      RunKeepsInv(Do(s, ls[0]), ls[1..]);
    }
  }

  // ---------- main results ----------

  /** In every interleaving, once Close's sweep is done the table holds late streams only, none of them
      openStream's, and every stream that was alone under its id and not late has been closed, or is about
      to be by the FIN that took it out of the table. */
  lemma NoStreamSurvivesClose(ls: seq<Label>, i: nat)
    requires CanRun(INIT, ls) && Run(INIT, ls).life.Swept? && i < |Run(INIT, ls).streams|
    ensures var s, st := Run(INIT, ls), Run(INIT, ls).streams[i];
            && (InTable(s, i) ==> st.late) && (st.late ==> !st.ours)
            && (st.stage.Registered? && Alone(s, i) && !st.late && st.guard.Unused? ==>
                  st.fin.Some? && st.fin.value in s.tasks && s.tasks[st.fin.value] == FinFound(i))
  {
    var s := Run(INIT, ls);
    InitInv();
    RunKeepsInv(INIT, ls);
    assert StreamOk(s, i) && ReachOk(s, i);
    assert forall sid | sid in s.table :: EntryOk(s, sid);
  }

  /** In every interleaving of local closes, FINs, error closes and session closes, a die hook runs
      at most once, only after the stream's guard was won, and exactly once when the winner is
      through. */
  lemma HookRunsAtMostOnce(ls: seq<Label>, i: nat)
    requires CanRun(INIT, ls) && i < |Run(INIT, ls).streams|
    ensures var st := Run(INIT, ls).streams[i];
            && st.hookRuns <= 1
            && (st.hookRuns == 1 ==> st.guard.Through?)
            && (st.guard.Through? && st.hook ==> st.hookRuns == 1)
  {
    InitInv();
    RunKeepsInv(INIT, ls);
    assert StreamOk(Run(INIT, ls), i);
  }

  /** So when every goroutine has finished, each such stream is closed and its die hook has run, once. */
  lemma NothingIsLeftOpen(ls: seq<Label>, i: nat)
    requires CanRun(INIT, ls) && Run(INIT, ls).life.Swept? && i < |Run(INIT, ls).streams|
    requires forall t | t in Run(INIT, ls).tasks :: Run(INIT, ls).tasks[t].Done?
    requires Run(INIT, ls).streams[i].stage.Registered? && Alone(Run(INIT, ls), i) && !Run(INIT, ls).streams[i].late
    ensures var st := Run(INIT, ls).streams[i]; st.guard.Through? && st.hookRuns == if st.hook then 1 else 0
  {
    NoStreamSurvivesClose(ls, i);
    InitInv();
    RunKeepsInv(INIT, ls);
    assert StreamOk(Run(INIT, ls), i);
  }

  /** When the sweep is about to empty the table, every stream in it has had its guard won. */
  lemma SweepHasClaimedEveryEntry(ls: seq<Label>, t: nat, sid: nat)
    requires CanRun(INIT, ls) && Enabled(Run(INIT, ls), SweepEnd(t)) && sid in Run(INIT, ls).table
    ensures var s := Run(INIT, ls); s.table[sid] < |s.streams| && !s.streams[s.table[sid]].guard.Unused?
  {
    var s := Run(INIT, ls);
    InitInv();
    RunKeepsInv(INIT, ls);
    assert TaskOk(s, t) && EntryOk(s, sid);
  }

  // ---------- what is not closed ----------

  /** The session runs, and stream `i` is open with nobody about to close it. */
  predicate StreamOpen(s: State, i: nat) {
    && i < |s.streams| && s.streams[i].guard.Unused? && s.streams[i].fin.None? && s.life.Running?
    && forall t | t in s.tasks :: !Closes(s.tasks[t]) && !(s.tasks[t].FinFound? && s.tasks[t].id == i)
  }

  /** The step neither closes the stream or the session, nor takes a FIN for the stream. */
  predicate LeavesAlone(s: State, l: Label, i: nat) {
    match l
    case CloseBegin(_) => false
    case CloseStream(_, id, _) => id != i
    case Fin(_, sid) => sid in s.table ==> s.table[sid] != i
    case _ => true
  }

  predicate RunLeavesAlone(s: State, ls: seq<Label>, i: nat)
    requires CanRun(s, ls)
    decreases |ls|
  {
    ls == [] || (LeavesAlone(s, ls[0], i) && RunLeavesAlone(Do(s, ls[0]), ls[1..], i))
  }

  lemma StepLeavesOpen(s: State, l: Label, i: nat)
    requires Inv(s) && Enabled(s, l) && StreamOpen(s, i) && LeavesAlone(s, l, i)
    ensures StreamOpen(Do(s, l), i)
  {
    var u := Do(s, l);
    assert StreamOk(s, i);
    if l.RunHook? {
      assert TaskOk(s, l.t);
    }
    forall t | t in u.tasks ensures !Closes(u.tasks[t]) && !(u.tasks[t].FinFound? && u.tasks[t].id == i) {
      assert t in s.tasks ==> !Closes(s.tasks[t]) && !(s.tasks[t].FinFound? && s.tasks[t].id == i);
    }
  }

  /** A stream is closed by its own close, by its FIN or with the session, and by nothing else. */
  lemma {:induction false} StaysOpen(s: State, ls: seq<Label>, i: nat)
    requires Inv(s) && CanRun(s, ls) && StreamOpen(s, i) && RunLeavesAlone(s, ls, i)
    ensures StreamOpen(Run(s, ls), i)
    decreases |ls|
  {
    if ls != [] {
      StepKeepsInv(s, ls[0]);
      StepLeavesOpen(s, ls[0], i);
      StaysOpen(Do(s, ls[0]), ls[1..], i);
    }
  }

  // ---------- what leaves the table ----------

  /** The stream whose entry is taken out or replaced by the step, if any. */
  predicate TakesOut(s: State, l: Label, sid: nat)
    requires Enabled(s, l)
  {
    match l
    case OpenRegister(t) => s.life.Running? && s.streams[s.tasks[t].id].sid == sid
    case Remove(t) => s.streams[s.tasks[t].id].sid == sid
    case Fin(_, x) => x == sid
    case SweepEnd(_) => true
    case _ => false
  }

  /** A registered stream is found under its id until its FIN comes, a stream of this id is removed or
      registered by openStream, or the sweep empties the table; a SYN of the peer never displaces it. */
  lemma EntriesStay(s: State, l: Label, sid: nat)
    requires Inv(s) && Enabled(s, l) && sid in s.table && !TakesOut(s, l, sid)
    ensures sid in Do(s, l).table && Do(s, l).table[sid] == s.table[sid]
  {
    if l.Fin? && l.sid in s.table {
      assert EntryOk(s, l.sid);
    }
  }

  /** The session is not running, and no stream is about to be removed that ended while it was. */
  predicate NoRemovals(s: State) { !s.life.Running? && forall t | t in s.tasks :: !s.tasks[t].Removing? }

  predicate NoFinFor(l: Label, sid: nat) { l.Fin? ==> l.sid != sid }

  lemma SweepIsOver(s: State)
    requires Inv(s) && s.life.Swept?
    ensures forall t | t in s.tasks :: !Closes(s.tasks[t])
  {
    assert forall t | t in s.tasks :: TaskOk(s, t);
  }

  lemma StepKeepsLateEntry(s: State, l: Label, sid: nat)
    requires Inv(s) && s.life.Swept? && NoRemovals(s) && sid in s.table && Enabled(s, l) && NoFinFor(l, sid)
    ensures var u := Do(s, l); u.life.Swept? && NoRemovals(u) && sid in u.table && u.table[sid] == s.table[sid]
  {
    var u := Do(s, l);
    SweepIsOver(s);
    EntriesStay(s, l, sid);
    forall t | t in u.tasks ensures !u.tasks[t].Removing? {
      assert t in s.tasks ==> !s.tasks[t].Removing?;
    }
  }

  /** After the session's close a late stream stays in the table through its own close and everybody else's:
      only its FIN takes it out. */
  lemma {:induction false} LateEntryStays(s: State, ls: seq<Label>, sid: nat)
    requires Inv(s) && s.life.Swept? && NoRemovals(s) && sid in s.table
    requires CanRun(s, ls) && forall l | l in ls :: NoFinFor(l, sid)
    ensures sid in Run(s, ls).table && Run(s, ls).table[sid] == s.table[sid]
    decreases |ls|
  {
    if ls != [] {
      assert ls[0] in ls;
      StepKeepsInv(s, ls[0]);
      StepKeepsLateEntry(s, ls[0], sid);
      LateEntryStays(Do(s, ls[0]), ls[1..], sid);
    }
  }

  // ---------- what a SYN of the peer can do ----------

  lemma {:induction false} RunConcat(s: State, a: seq<Label>, b: seq<Label>)
    requires CanRun(s, a) && CanRun(Run(s, a), b)
    ensures CanRun(s, a + b) && Run(s, a + b) == Run(Run(s, a), b)
    decreases |a|
  {
    if a == [] {
      Seqs.LeftUnit(b);
    } else {
      Seqs.TailOfConcat(a, b);
      RunConcat(Do(s, a[0]), a[1..], b);
    }
  }

  lemma RunOne(s: State, l: Label)
    requires Enabled(s, l)
    ensures CanRun(s, [l]) && Run(s, [l]) == Do(s, l)
  {
    var one := [l];
    assert one[0] == l && one[1..] == [];
    assert CanRun(Do(s, l), one[1..]) && Run(Do(s, l), one[1..]) == Do(s, l);
  }

  lemma Extend(s: State, ls: seq<Label>, l: Label) returns (longer: seq<Label>)
    requires CanRun(s, ls) && Enabled(Run(s, ls), l)
    ensures CanRun(s, longer) && Run(s, longer) == Do(Run(s, ls), l)
  {
    RunOne(Run(s, ls), l);
    RunConcat(s, ls, [l]);
    longer := ls + [l];
  }

  /** A running session in which nobody is in the middle of anything. */
  predicate AtRest(s: State) { s.life.Running? && s.lock.None? && s.tasks == map[] }

  function Ours(sid: nat): Stream { Stream(sid, true, false, false, Registered, Unused, 0, None) }

  function Opened(s: State): State {
    var id := |s.streams|;
    s.(handedOut := s.handedOut + [id], streams := s.streams + [Ours(|s.handedOut| + 1)],
       table := s.table[|s.handedOut| + 1 := id])
  }

  /** openStream, undisturbed. */
  lemma OpensOne(s: State) returns (ls: seq<Label>)
    requires AtRest(s)
    ensures CanRun(s, ls) && Run(s, ls) == Opened(s)
  {
    var id, sid := |s.streams|, |s.handedOut| + 1;
    ls := Extend(s, [], OpenBegin(0, false));
    var u := Run(s, ls);
    assert u.tasks == map[0 := Announcing(id)] && u.streams[id] == Ours(sid).(stage := Opening(0));
    ls := Extend(s, ls, OpenAnnounce(0, true));
    ls := Extend(s, ls, OpenRegister(0));
    var v := Run(s, ls);
    assert v.tasks == map[];
    assert v.streams == s.streams + [Ours(sid)];
  }

  function Ended(s: State, id: nat): State
    requires id < |s.streams|
  {
    s.(streams := s.streams[id := s.streams[id].(guard := Through)], table := s.table - {s.streams[id].sid})
  }

  /** The owner closes a stream, undisturbed. */
  lemma ClosesOne(s: State, id: nat) returns (ls: seq<Label>)
    requires AtRest(s) && id < |s.streams| && s.streams[id].stage.Registered? && s.streams[id].guard.Unused?
    requires !s.streams[id].hook
    ensures CanRun(s, ls) && Run(s, ls) == Ended(s, id)
  {
    ls := Extend(s, [], CloseStream(0, id, true));
    ls := Extend(s, ls, RunHook(0));
    ls := Extend(s, ls, Notify(0));
    ls := Extend(s, ls, Remove(0));
    var u := Run(s, ls);
    assert u.tasks == map[];
    assert u.streams == Ended(s, id).streams;
  }

  /** The session closes with nothing in its table. */
  lemma SweepsNothing(s: State) returns (ls: seq<Label>)
    requires AtRest(s) && s.table == map[]
    ensures CanRun(s, ls) && Run(s, ls) == s.(life := Swept)
  {
    ls := Extend(s, [], CloseBegin(0));
    assert s.table.Values == {};
    ls := Extend(s, ls, SweepBegin(0));
    assert Run(s, ls).tasks == map[0 := Sweeping({})];
    ls := Extend(s, ls, SweepEnd(0));
    assert Run(s, ls).tasks == map[];
  }

  function Theirs(sid: nat): Stream { Stream(sid, false, false, false, Registered, Unused, 0, None) }

  /** The peer had a stream registered under `k`, and openStream's first `n` streams came and went. */
  predicate Prepared(s: State, k: nat, n: nat) {
    && AtRest(s) && |s.handedOut| == n && s.accepted.Keys == {k} && s.table == map[k := 0]
    && |s.streams| > 0 && s.streams[0] == Theirs(k)
  }

  lemma {:induction false} ReachesPrepared(k: nat, n: nat) returns (ls: seq<Label>)
    requires n < k
    ensures CanRun(INIT, ls) && Prepared(Run(INIT, ls), k, n)
  {
    if n == 0 {
      ls := Extend(INIT, [], PeerSyn(k));
    } else {
      ls := ReachesPrepared(k, n - 1);
      var s := Run(INIT, ls);
      var a := OpensOne(s);
      RunConcat(INIT, ls, a);
      var b := ClosesOne(Opened(s), |s.streams|);
      RunConcat(INIT, ls + a, b);
      assert Ended(Opened(s), |s.streams|).table == map[k := 0];
      ls := ls + a + b;
    }
  }

  /** After the sweep a stream under id `k` is still open, and nobody is about to close it. */
  predicate Survivor(ls: seq<Label>, i: nat, k: nat) {
    && CanRun(INIT, ls) && Run(INIT, ls).life.Swept? && i < |Run(INIT, ls).streams|
    && var st := Run(INIT, ls).streams[i];
       st.sid == k && st.stage.Registered? && st.guard.Unused? && st.fin.None?
  }

  /** It is openStream's, and the peer had streams registered under none but `ids`. */
  predicate OurSurvivor(ls: seq<Label>, i: nat, k: nat, ids: set<nat>) {
    Survivor(ls, i, k) && Run(INIT, ls).streams[i].ours && Run(INIT, ls).accepted.Keys <= ids
  }

  /** When the peer's stream and openStream's share the id, the close of the former takes the latter out of
      the table. */
  lemma CollidingSynLeavesAStreamOpen(k: nat) returns (ls: seq<Label>, i: nat)
    requires k > 0
    ensures OurSurvivor(ls, i, k, {k})
  {
    ls := ReachesPrepared(k, k - 1);
    var s := Run(INIT, ls);
    i := |s.streams|;
    var a := OpensOne(s);
    RunConcat(INIT, ls, a);
    var b := ClosesOne(Opened(s), 0);
    RunConcat(INIT, ls + a, b);
    assert Ended(Opened(s), 0).table == map[];
    var c := SweepsNothing(Ended(Opened(s), 0));
    RunConcat(INIT, ls + a + b, c);
    ls := ls + a + b + c;
  }

  /** The condition is exact: whatever ids the peer may get streams registered under, openStream's `k`-th
      stream is safe from surviving a session close if and only if `k` is none of them. */
  lemma SafeExactlyWhen(ids: set<nat>, k: nat)
    requires k > 0
    ensures (forall ls, i :: !OurSurvivor(ls, i, k, ids)) <==> k !in ids
  {
    if k in ids {
      var ls, i := CollidingSynLeavesAStreamOpen(k);
      assert OurSurvivor(ls, i, k, ids);
    } else {
      forall ls, i ensures !OurSurvivor(ls, i, k, ids) {
        if OurSurvivor(ls, i, k, ids) {
          NoStreamSurvivesClose(ls, i);
        }
      }
    }
  }

  /** It is the peer's; `late` allows that its SYN came after the sweep, `shared` that its id was used for
      another stream too. */
  predicate PeerSurvivor(ls: seq<Label>, i: nat, k: nat, late: bool, shared: bool) {
    && Survivor(ls, i, k) && !Run(INIT, ls).streams[i].ours
    && (late || !Run(INIT, ls).streams[i].late) && (shared || Alone(Run(INIT, ls), i))
  }

  /** The receive loop registers a stream without looking whether the session is closed. */
  lemma LateSynLeavesAStreamOpen(k: nat) returns (ls: seq<Label>)
    ensures PeerSurvivor(ls, 0, k, true, false)
  {
    var a := SweepsNothing(INIT);
    ls := Extend(INIT, a, PeerSyn(k));
  }

  function Leaving(k: nat): State {
    INIT.(accepted := map[k := 0], table := map[k := 0], streams := [Theirs(k).(guard := Through)],
          tasks := map[0 := Removing(0)])
  }

  /** A stream under `k` is about to leave the table for its owner's close. */
  lemma StreamIsLeaving(k: nat) returns (ls: seq<Label>)
    ensures CanRun(INIT, ls) && Run(INIT, ls) == Leaving(k)
  {
    ls := Extend(INIT, [], PeerSyn(k));
    assert Run(INIT, ls) == Leaving(k).(streams := [Theirs(k)], tasks := map[]);
    ls := Extend(INIT, ls, CloseStream(0, 0, true));
    ls := Extend(INIT, ls, RunHook(0));
    ls := Extend(INIT, ls, Notify(0));
  }

  /** A FIN takes it out first, and the peer has another one registered under the same id. */
  lemma IdIsUsedAgain(k: nat) returns (ls: seq<Label>)
    ensures CanRun(INIT, ls)
    ensures Run(INIT, ls) == Leaving(k).(accepted := map[k := 1], again := {k}, table := map[k := 1],
                                         streams := [Theirs(k).(guard := Through), Theirs(k)])
  {
    ls := StreamIsLeaving(k);
    ls := Extend(INIT, ls, Fin(1, k));
    ls := Extend(INIT, ls, FinClose(1));
    assert Run(INIT, ls) == Leaving(k).(table := map[]);
    ls := Extend(INIT, ls, PeerSyn(k));
  }

  /** The owner's close then takes the new stream out of the table instead. */
  lemma ReusedIdLeavesAStreamOpen(k: nat) returns (ls: seq<Label>)
    ensures PeerSurvivor(ls, 1, k, false, true)
  {
    ls := IdIsUsedAgain(k);
    ls := Extend(INIT, ls, Remove(0));
    var s := Run(INIT, ls);
    assert s.table == map[] && s.tasks == map[];
    var a := SweepsNothing(s);
    RunConcat(INIT, ls, a);
    ls := ls + a;
  }

  /** The peer's streams are safe from surviving a session close if and only if none of them comes late and
      none shares its id. */
  lemma PeerSafeExactlyWhen(k: nat, late: bool, shared: bool)
    ensures (forall ls, i :: !PeerSurvivor(ls, i, k, late, shared)) <==> !late && !shared
  {
    if late {
      var ls := LateSynLeavesAStreamOpen(k);
      assert PeerSurvivor(ls, 0, k, late, shared);
    } else if shared {
      var ls := ReusedIdLeavesAStreamOpen(k);
      assert PeerSurvivor(ls, 1, k, late, shared);
    } else {
      forall ls, i ensures !PeerSurvivor(ls, i, k, late, shared) {
        if PeerSurvivor(ls, i, k, late, shared) {
          NoStreamSurvivesClose(ls, i);
        }
      }
    }
  }
}
