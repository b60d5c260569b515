/** Connection setup (check, register, recheck), revocation (deactivate, then scan) and connection
    closes as interleaved steps. A step is what one goroutine does between two points where another
    may run; operations of the concurrent maps are one step each, except the scan over the registered
    connections, which visits them one by one. All nodes here are managed ones. */
module SingRevocation {
  import opened Basics

  datatype Kind = Tcp | Packet

  /** A TCP connection's close guard: unused, won by goroutine `t` which has yet to close the
      connection below, or through. Packet connections have none. */
  datatype Once = Unused | Won(t: nat) | Through

  /** `setup` is the goroutine that brought the connection; `tracked` says that its wrapper was registered,
      `bypassed` that setup found no limiter and handed the connection back as it came; `sealed` that reads and
      writes are refused; `live` that nothing here has closed it; `remover` is the goroutine that first took it
      out of the registered connections. */
  datatype Conn = Conn(user: string, kind: Kind, setup: nat, tracked: bool, bypassed: bool, once: Once, sealed: bool,
                       live: bool, remover: Option<nat>)

  /** Where a Close call is: not begun, past the guard, past the removal from the registered connections. */
  datatype CloseAt = Entering | Passed | Unlisted

  datatype Call = Call(conn: nat, at: CloseAt)

  datatype SetupAt = Checking | Looking | Storing | Rechecking | Decided

  datatype RevokeAt = Begun | Deactivated | Scanning | Scanned

  /** `adds` is how often the user had been activated when the revocation deactivated it, `todo` the
      connections the scan must still visit. */
  datatype Role = Setup(conn: nat, step: SetupAt) | Revoke(user: string, phase: RevokeAt, adds: nat, todo: set<nat>) | Closer

  /** A goroutine, and the Close call it is inside of. */
  datatype Task = Task(role: Role, call: Option<Call>)

  /** `adds` counts for each user how often it was activated; `limited` are the users whose node has a
      limiter now; `listed` are the registered connections. */
  datatype State = State(active: set<string>, adds: map<string, nat>, limited: set<string>, conns: map<nat, Conn>,
                         listed: set<nat>, tasks: map<nat, Task>)

  const INIT := State({}, map[], {}, map[], {}, map[])

  function Adds(s: State, user: string): nat { if user in s.adds then s.adds[user] else 0 }

  datatype Label =
    | Activate(user: string)
    | Limit(limited: set<string>)
    | Arrive(t: nat, c: nat, user: string, kind: Kind)
    | Check(t: nat)
    | Look(t: nat)
    | Refuse(t: nat)
    | Store(t: nat)
    | Recheck(t: nat)
    | RevokeBegin(t: nat, user: string)
    | Deactivate(t: nat)
    | ScanBegin(t: nat)
    | Visit(t: nat, c: nat)
    | ScanEnd(t: nat)
    | CloseBegin(t: nat, c: nat)
    | Enter(t: nat)
    | Unlist(t: nat)
    | Shut(t: nat)

  predicate SetupIs(s: State, t: nat, step: SetupAt) {
    t in s.tasks && s.tasks[t].role.Setup? && s.tasks[t].role.step == step && s.tasks[t].role.conn in s.conns
  }

  predicate RevokeIs(s: State, t: nat, phase: RevokeAt) {
    t in s.tasks && s.tasks[t].role.Revoke? && s.tasks[t].role.phase == phase && s.tasks[t].call.None?
  }

  predicate CallIs(s: State, t: nat, at: CloseAt) {
    t in s.tasks && s.tasks[t].call.Some? && s.tasks[t].call.value.at == at && s.tasks[t].call.value.conn in s.conns
  }

  function Subject(s: State, t: nat): Conn
    requires t in s.tasks && s.tasks[t].call.Some? && s.tasks[t].call.value.conn in s.conns
  {
    s.conns[s.tasks[t].call.value.conn]
  }

  predicate Enabled(s: State, l: Label) {
    match l
    case Activate(_) => true
    case Limit(_) => true
    case Arrive(t, c, _, _) => t !in s.tasks && c !in s.conns
    case Check(t) => SetupIs(s, t, Checking)
    case Look(t) => SetupIs(s, t, Looking)
    case Refuse(t) => SetupIs(s, t, Storing)
    case Store(t) => SetupIs(s, t, Storing)
    case Recheck(t) => SetupIs(s, t, Rechecking)
    case RevokeBegin(t, _) => t !in s.tasks
    case Deactivate(t) => RevokeIs(s, t, Begun)
    case ScanBegin(t) => RevokeIs(s, t, Deactivated)
    case Visit(t, c) => RevokeIs(s, t, Scanning) && c in s.conns && (c in s.listed || c in s.tasks[t].role.todo)
    case ScanEnd(t) => RevokeIs(s, t, Scanning) && s.tasks[t].role.todo !! s.listed
    case CloseBegin(t, c) => t !in s.tasks && c in s.conns && s.conns[c].tracked
    case Enter(t) => CallIs(s, t, Entering) && !Subject(s, t).once.Won?
    case Unlist(t) => CallIs(s, t, Passed)
    case Shut(t) => CallIs(s, t, Unlisted)
  }

  function Put(s: State, t: nat, role: Role, call: Option<Call>): State { s.(tasks := s.tasks[t := Task(role, call)]) }

  function PutConn(s: State, c: nat, x: Conn): State { s.(conns := s.conns[c := x]) }

  function MoveCall(s: State, t: nat, call: Option<Call>): State
    requires t in s.tasks
  {
    Put(s, t, s.tasks[t].role, call)
  }

  /** The first check: a user who may not connect is closed at once. */
  function FirstCheck(s: State, t: nat, c: nat): State
    requires c in s.conns
  {
    if s.conns[c].user in s.active then Put(s, t, Setup(c, Looking), None) else Reject(s, t, c)
  }

  function Reject(s: State, t: nat, c: nat): State
    requires c in s.conns
  {
    Put(PutConn(s, c, s.conns[c].(live := false)), t, Setup(c, Decided), None)
  }

  /** The lookup of the node's limiter: without one setup ends here, without tracking. */
  function LookUp(s: State, t: nat, c: nat): State
    requires c in s.conns
  {
    if s.conns[c].user in s.limited then Put(s, t, Setup(c, Storing), None)
    else Bypass(s, t, c)
  }

  function Bypass(s: State, t: nat, c: nat): State
    requires c in s.conns
  {
    Put(PutConn(s, c, s.conns[c].(bypassed := true)), t, Setup(c, Decided), None)
  }

  function Register(s: State, t: nat, c: nat): State
    requires c in s.conns
  {
    Put(PutConn(s, c, s.conns[c].(tracked := true)).(listed := s.listed + {c}), t, Setup(c, Rechecking), None)
  }

  function SecondCheck(s: State, t: nat, c: nat): State
    requires c in s.conns
  {
    Put(s, t, Setup(c, Decided), if s.conns[c].user in s.active then None else Some(Call(c, Entering)))
  }

  function VisitConn(s: State, t: nat, c: nat): State
    requires t in s.tasks && s.tasks[t].role.Revoke? && c in s.conns
  {
    var k := s.tasks[t].role;
    Put(s, t, Revoke(k.user, k.phase, k.adds, k.todo - {c}),
        if s.conns[c].user == k.user then Some(Call(c, Entering)) else None)
  }

  /** The once guard of a TCP connection: the winner seals it, those who come when the winner is through
      return at once, and those in between wait. */
  function EnterClose(s: State, t: nat, c: nat): State
    requires t in s.tasks && c in s.conns
  {
    var x := s.conns[c];
    if x.kind.Packet? then MoveCall(s, t, Some(Call(c, Passed)))
    else if x.once.Unused? then MoveCall(PutConn(s, c, x.(once := Won(t), sealed := true)), t, Some(Call(c, Passed)))
    else MoveCall(s, t, None)
  }

  function UnlistConn(s: State, t: nat, c: nat): State
    requires t in s.tasks && c in s.conns
  {
    var x := s.conns[c];
    MoveCall(PutConn(s, c, x.(remover := if x.remover.None? then Some(t) else x.remover)).(listed := s.listed - {c}),
             t, Some(Call(c, Unlisted)))
  }

  function ShutConn(s: State, t: nat, c: nat): State
    requires t in s.tasks && c in s.conns
  {
    var x := s.conns[c];
    MoveCall(PutConn(s, c, x.(live := false, once := if x.kind.Tcp? then Through else x.once)), t, None)
  }

  function Activated(s: State, user: string): State {
    s.(active := s.active + {user}, adds := s.adds[user := Adds(s, user) + 1])
  }

  function Arrived(s: State, t: nat, c: nat, user: string, kind: Kind): State {
    Put(PutConn(s, c, Conn(user, kind, t, false, false, Unused, false, true, None)), t, Setup(c, Checking), None)
  }

  function Deactivating(s: State, t: nat, user: string): State {
    Put(s.(active := s.active - {user}), t, Revoke(user, Deactivated, Adds(s, user), {}), None)
  }

  function Do(s: State, l: Label): State
    requires Enabled(s, l)
  {
    match l
    case Activate(user) => Activated(s, user)
    case Limit(limited) => s.(limited := limited)
    case Arrive(t, c, user, kind) => Arrived(s, t, c, user, kind)
    case Check(t) => FirstCheck(s, t, s.tasks[t].role.conn)
    case Look(t) => LookUp(s, t, s.tasks[t].role.conn)
    case Refuse(t) => Reject(s, t, s.tasks[t].role.conn)
    case Store(t) => Register(s, t, s.tasks[t].role.conn)
    case Recheck(t) => SecondCheck(s, t, s.tasks[t].role.conn)
    case RevokeBegin(t, user) => Put(s, t, Revoke(user, Begun, 0, {}), None)
    case Deactivate(t) => Deactivating(s, t, s.tasks[t].role.user)
    case ScanBegin(t) => Put(s, t, Revoke(s.tasks[t].role.user, Scanning, s.tasks[t].role.adds, s.listed), None)
    case Visit(t, c) => VisitConn(s, t, c)
    case ScanEnd(t) => Put(s, t, Revoke(s.tasks[t].role.user, Scanned, s.tasks[t].role.adds, s.tasks[t].role.todo), None)
    case CloseBegin(t, c) => Put(s, t, Closer, Some(Call(c, Entering)))
    case Enter(t) => EnterClose(s, t, s.tasks[t].call.value.conn)
    case Unlist(t) => UnlistConn(s, t, s.tasks[t].call.value.conn)
    case Shut(t) => ShutConn(s, t, s.tasks[t].call.value.conn)
  }

  predicate CanRun(s: State, ls: seq<Label>)
    decreases |ls|
  {
    ls == [] || (Enabled(s, ls[0]) && CanRun(Do(s, ls[0]), ls[1..]))
  }

  function Run(s: State, ls: seq<Label>): State
    requires CanRun(s, ls)
    decreases |ls|
  {
    if ls == [] then s else Run(Do(s, ls[0]), ls[1..])
  }

  // ---------- what every step keeps ----------

  /** Goroutine `t` is inside a Close call of `c`, past the guard. */
  predicate Inside(s: State, t: nat, c: nat) {
    t in s.tasks && s.tasks[t].call.Some? && s.tasks[t].call.value.conn == c && !s.tasks[t].call.value.at.Entering?
  }

  /** Setup has yet to make its second check, or is closing after it. */
  predicate WillLook(k: Task) { k.role.Setup? && (k.role.step.Rechecking? || k.call.Some?) }

  predicate RoleOk(s: State, t: nat)
    requires t in s.tasks
  {
    var k := s.tasks[t];
    match k.role
    case Setup(c, step) =>
      && c in s.conns && s.conns[c].setup == t && (step != Decided ==> k.call.None?)
      && (step in {Checking, Looking, Storing} ==> !s.conns[c].tracked && s.conns[c].live)
      && (step == Rechecking ==> s.conns[c].tracked) && (k.call.Some? ==> k.call.value.conn == c)
    case Revoke(user, phase, adds, todo) =>
      && (phase != Begun ==> adds <= Adds(s, user) && (adds == Adds(s, user) ==> user !in s.active))
      && (phase == Scanning ==> forall c :: c in todo ==> c in s.conns && s.conns[c].tracked)
      && (phase != Scanning ==> k.call.None?)
    case Closer => true
  }

  predicate CallOk(s: State, t: nat)
    requires t in s.tasks
  {
    s.tasks[t].call.Some? ==>
      var c, at := s.tasks[t].call.value.conn, s.tasks[t].call.value.at;
      && c in s.conns && s.conns[c].tracked
      && (at != Entering && s.conns[c].kind.Tcp? ==> s.conns[c].once == Won(t))
      && (at == Unlisted ==> s.conns[c].remover.Some?)
  }

  /** A tracked connection is registered until somebody takes it out, who has closed it or is about to. */
  predicate ConnOk(s: State, c: nat)
    requires c in s.conns
  {
    var x := s.conns[c];
    && x.setup in s.tasks && s.tasks[x.setup].role.Setup? && s.tasks[x.setup].role.conn == c
    && (if x.tracked then c in s.listed <==> x.remover.None? else x.remover.None? && x.once.Unused? && c !in s.listed)
    && (x.tracked ==> s.tasks[x.setup].role.step in {Rechecking, Decided})
    && (x.bypassed ==> x.live && !x.tracked && s.tasks[x.setup].role.step == Decided)
    && (x.live && !x.tracked && s.tasks[x.setup].role.step == Decided ==> x.bypassed)
    && (x.once.Won? ==> Inside(s, x.once.t, c)) && (x.once.Through? ==> !x.live) && (x.kind.Packet? ==> x.once.Unused?)
    && (x.remover.Some? && x.live ==>
          x.remover.value in s.tasks && s.tasks[x.remover.value].call == Some(Call(c, Unlisted)))
    && (x.kind.Tcp? && (x.remover.Some? || !x.once.Unused? || (x.tracked && !x.live)) ==> x.sealed)
  }

  /** What a scan owes a connection of its user: it is gone already, its setup will look again, or the
      scan has it ahead or in hand. */
  predicate OwedOk(s: State, r: nat, c: nat)
    requires r in s.tasks && c in s.conns
  {
    var k, x := s.tasks[r], s.conns[c];
    k.role.Revoke? && k.role.phase in {Scanning, Scanned} && k.role.adds == Adds(s, k.role.user)
    && x.tracked && x.user == k.role.user ==>
      || !x.live || x.remover.Some?
      || (x.setup in s.tasks && WillLook(s.tasks[x.setup]))
      || (k.role.phase == Scanning && (c in k.role.todo || (k.call.Some? && k.call.value.conn == c)))
  }

  ghost predicate Inv(s: State) {
    && (forall t | t in s.tasks :: RoleOk(s, t) && CallOk(s, t))
    && (forall c | c in s.conns :: ConnOk(s, c))
    && (forall r, c | r in s.tasks && c in s.conns :: OwedOk(s, r, c))
    && s.listed <= s.conns.Keys
  }

  lemma ActivatedKeeps(s: State, user: string)
    requires Inv(s)
    ensures Inv(Activated(s, user))
  {
    var u := Activated(s, user);
    forall x | x in u.tasks ensures RoleOk(u, x) && CallOk(u, x) { assert x in s.tasks ==> RoleOk(s, x) && CallOk(s, x); }
    forall x | x in u.conns ensures ConnOk(u, x) { assert x in s.conns ==> ConnOk(s, x); }
    forall r, x | r in u.tasks && x in u.conns ensures OwedOk(u, r, x) {
      assert r in s.tasks && x in s.conns ==> OwedOk(s, r, x);
    }
  }

  lemma LimitKeeps(s: State, limited: set<string>)
    requires Inv(s)
    ensures Inv(s.(limited := limited))
  {
    var u := s.(limited := limited);
    forall x | x in u.tasks ensures RoleOk(u, x) && CallOk(u, x) { assert RoleOk(s, x) && CallOk(s, x); }
    forall x | x in u.conns ensures ConnOk(u, x) { assert ConnOk(s, x); }
    forall r, x | r in u.tasks && x in u.conns ensures OwedOk(u, r, x) { assert OwedOk(s, r, x); }
  }

  lemma ArrivedKeeps(s: State, t: nat, c: nat, user: string, kind: Kind)
    requires Inv(s) && t !in s.tasks && c !in s.conns
    ensures Inv(Arrived(s, t, c, user, kind))
  {
    var u := Arrived(s, t, c, user, kind);
    forall x | x in u.tasks ensures RoleOk(u, x) && CallOk(u, x) { assert x in s.tasks ==> RoleOk(s, x) && CallOk(s, x); }
    forall x | x in u.conns ensures ConnOk(u, x) { assert x in s.conns ==> ConnOk(s, x); }
    forall r, x | r in u.tasks && x in u.conns ensures OwedOk(u, r, x) {
      assert r in s.tasks && x in s.conns ==> OwedOk(s, r, x);
    }
  }

  lemma AdmitKeeps(s: State, t: nat)
    requires Inv(s) && SetupIs(s, t, Checking)
    ensures Inv(Put(s, t, Setup(s.tasks[t].role.conn, Looking), None))
  {
    assert RoleOk(s, t) && ConnOk(s, s.tasks[t].role.conn);
    var u := Put(s, t, Setup(s.tasks[t].role.conn, Looking), None);
    forall x | x in u.tasks ensures RoleOk(u, x) && CallOk(u, x) { assert x in s.tasks ==> RoleOk(s, x) && CallOk(s, x); }
    forall x | x in u.conns ensures ConnOk(u, x) { assert x in s.conns ==> ConnOk(s, x); }
    forall r, x | r in u.tasks && x in u.conns ensures OwedOk(u, r, x) {
      assert r in s.tasks && x in s.conns ==> OwedOk(s, r, x);
    }
  }

  lemma FoundKeeps(s: State, t: nat)
    requires Inv(s) && SetupIs(s, t, Looking)
    ensures Inv(Put(s, t, Setup(s.tasks[t].role.conn, Storing), None))
  {
    assert RoleOk(s, t) && ConnOk(s, s.tasks[t].role.conn);
    var u := Put(s, t, Setup(s.tasks[t].role.conn, Storing), None);
    forall x | x in u.tasks ensures RoleOk(u, x) && CallOk(u, x) { assert RoleOk(s, x) && CallOk(s, x); }
    forall x | x in u.conns ensures ConnOk(u, x) { assert ConnOk(s, x); }
    forall r, x | r in u.tasks && x in u.conns ensures OwedOk(u, r, x) { assert OwedOk(s, r, x); }
  }

  lemma BypassKeeps(s: State, t: nat)
    requires Inv(s) && SetupIs(s, t, Looking)
    ensures Inv(Bypass(s, t, s.tasks[t].role.conn))
  {
    assert RoleOk(s, t) && ConnOk(s, s.tasks[t].role.conn);
    var u := Bypass(s, t, s.tasks[t].role.conn);
    forall x | x in u.tasks ensures RoleOk(u, x) && CallOk(u, x) { assert RoleOk(s, x) && CallOk(s, x); }
    forall x | x in u.conns ensures ConnOk(u, x) { assert ConnOk(s, x); }
    forall r, x | r in u.tasks && x in u.conns ensures OwedOk(u, r, x) { assert OwedOk(s, r, x); }
  }

  lemma RejectKeeps(s: State, t: nat)
    requires Inv(s) && (SetupIs(s, t, Checking) || SetupIs(s, t, Storing))
    ensures Inv(Reject(s, t, s.tasks[t].role.conn))
  {
    assert RoleOk(s, t) && ConnOk(s, s.tasks[t].role.conn);
    var u := Reject(s, t, s.tasks[t].role.conn);
    forall x | x in u.tasks ensures RoleOk(u, x) && CallOk(u, x) { assert x in s.tasks ==> RoleOk(s, x) && CallOk(s, x); }
    forall x | x in u.conns ensures ConnOk(u, x) { assert x in s.conns ==> ConnOk(s, x); }
    forall r, x | r in u.tasks && x in u.conns ensures OwedOk(u, r, x) {
      assert r in s.tasks && x in s.conns ==> OwedOk(s, r, x);
    }
  }

  lemma RegisterKeeps(s: State, t: nat)
    requires Inv(s) && SetupIs(s, t, Storing)
    ensures Inv(Register(s, t, s.tasks[t].role.conn))
  {
    assert RoleOk(s, t) && ConnOk(s, s.tasks[t].role.conn);
    var u := Register(s, t, s.tasks[t].role.conn);
    forall x | x in u.tasks ensures RoleOk(u, x) && CallOk(u, x) { assert x in s.tasks ==> RoleOk(s, x) && CallOk(s, x); }
    forall x | x in u.conns ensures ConnOk(u, x) { assert x in s.conns ==> ConnOk(s, x); }
    forall r, x | r in u.tasks && x in u.conns ensures OwedOk(u, r, x) {
      assert r in s.tasks && x in s.conns ==> OwedOk(s, r, x);
    }
  }

  lemma SecondCheckKeeps(s: State, t: nat)
    requires Inv(s) && SetupIs(s, t, Rechecking)
    ensures Inv(SecondCheck(s, t, s.tasks[t].role.conn))
  {
    assert RoleOk(s, t) && ConnOk(s, s.tasks[t].role.conn);
    var u := SecondCheck(s, t, s.tasks[t].role.conn);
    forall x | x in u.tasks ensures RoleOk(u, x) && CallOk(u, x) { assert x in s.tasks ==> RoleOk(s, x) && CallOk(s, x); }
    forall x | x in u.conns ensures ConnOk(u, x) { assert x in s.conns ==> ConnOk(s, x); }
    forall r, x | r in u.tasks && x in u.conns ensures OwedOk(u, r, x) {
      assert r in s.tasks && x in s.conns ==> OwedOk(s, r, x);
    }
  }

  lemma RevokeBeginKeeps(s: State, t: nat, user: string)
    requires Inv(s) && t !in s.tasks
    ensures Inv(Put(s, t, Revoke(user, Begun, 0, {}), None))
  {
    var u := Put(s, t, Revoke(user, Begun, 0, {}), None);
    forall x | x in u.tasks ensures RoleOk(u, x) && CallOk(u, x) { assert x in s.tasks ==> RoleOk(s, x) && CallOk(s, x); }
    forall x | x in u.conns ensures ConnOk(u, x) { assert x in s.conns ==> ConnOk(s, x); }
    forall r, x | r in u.tasks && x in u.conns ensures OwedOk(u, r, x) {
      assert r in s.tasks && x in s.conns ==> OwedOk(s, r, x);
    }
  }

  lemma DeactivateKeeps(s: State, t: nat)
    requires Inv(s) && RevokeIs(s, t, Begun)
    ensures Inv(Deactivating(s, t, s.tasks[t].role.user))
  {
    assert RoleOk(s, t);
    var u := Deactivating(s, t, s.tasks[t].role.user);
    forall x | x in u.tasks ensures RoleOk(u, x) && CallOk(u, x) { assert x in s.tasks ==> RoleOk(s, x) && CallOk(s, x); }
    forall x | x in u.conns ensures ConnOk(u, x) { assert x in s.conns ==> ConnOk(s, x); }
    forall r, x | r in u.tasks && x in u.conns ensures OwedOk(u, r, x) {
      assert r in s.tasks && x in s.conns ==> OwedOk(s, r, x);
    }
  }

  lemma ScanBeginKeeps(s: State, t: nat)
    requires Inv(s) && RevokeIs(s, t, Deactivated)
    ensures Inv(Put(s, t, Revoke(s.tasks[t].role.user, Scanning, s.tasks[t].role.adds, s.listed), None))
  {
    assert RoleOk(s, t);
    var u := Put(s, t, Revoke(s.tasks[t].role.user, Scanning, s.tasks[t].role.adds, s.listed), None);
    forall x | x in u.tasks ensures RoleOk(u, x) && CallOk(u, x) { assert x in s.tasks ==> RoleOk(s, x) && CallOk(s, x); }
    forall x | x in u.conns ensures ConnOk(u, x) { assert x in s.conns ==> ConnOk(s, x); }
    forall r, x | r in u.tasks && x in u.conns ensures OwedOk(u, r, x) {
      assert r in s.tasks && x in s.conns ==> OwedOk(s, r, x);
    }
  }

  lemma VisitKeeps(s: State, t: nat, c: nat)
    requires Inv(s) && RevokeIs(s, t, Scanning) && c in s.conns && (c in s.listed || c in s.tasks[t].role.todo)
    ensures Inv(VisitConn(s, t, c))
  {
    assert RoleOk(s, t) && ConnOk(s, c);
    var u := VisitConn(s, t, c);
    forall x | x in u.tasks ensures RoleOk(u, x) && CallOk(u, x) { assert x in s.tasks ==> RoleOk(s, x) && CallOk(s, x); }
    forall x | x in u.conns ensures ConnOk(u, x) { assert x in s.conns ==> ConnOk(s, x); }
    forall r, x | r in u.tasks && x in u.conns ensures OwedOk(u, r, x) {
      assert r in s.tasks && x in s.conns ==> OwedOk(s, r, x);
    }
  }

  lemma ScanEndKeeps(s: State, t: nat)
    requires Inv(s) && RevokeIs(s, t, Scanning) && s.tasks[t].role.todo !! s.listed
    ensures Inv(Put(s, t, Revoke(s.tasks[t].role.user, Scanned, s.tasks[t].role.adds, s.tasks[t].role.todo), None))
  {
    assert RoleOk(s, t);
    var u := Put(s, t, Revoke(s.tasks[t].role.user, Scanned, s.tasks[t].role.adds, s.tasks[t].role.todo), None);
    forall x | x in u.tasks ensures RoleOk(u, x) && CallOk(u, x) { assert x in s.tasks ==> RoleOk(s, x) && CallOk(s, x); }
    forall x | x in u.conns ensures ConnOk(u, x) { assert x in s.conns ==> ConnOk(s, x); }
    forall r, x | r in u.tasks && x in u.conns ensures OwedOk(u, r, x) {
      assert r in s.tasks && x in s.conns ==> OwedOk(s, r, x);
    }
  }

  lemma CloseBeginKeeps(s: State, t: nat, c: nat)
    requires Inv(s) && t !in s.tasks && c in s.conns && s.conns[c].tracked
    ensures Inv(Put(s, t, Closer, Some(Call(c, Entering))))
  {
    var u := Put(s, t, Closer, Some(Call(c, Entering)));
    forall x | x in u.tasks ensures RoleOk(u, x) && CallOk(u, x) { assert x in s.tasks ==> RoleOk(s, x) && CallOk(s, x); }
    forall x | x in u.conns ensures ConnOk(u, x) { assert x in s.conns ==> ConnOk(s, x); }
    forall r, x | r in u.tasks && x in u.conns ensures OwedOk(u, r, x) {
      assert r in s.tasks && x in s.conns ==> OwedOk(s, r, x);
    }
  }

  lemma EnterRoles(s: State, t: nat, c: nat)
    requires t in s.tasks && c in s.conns && s.tasks[t].call == Some(Call(c, Entering)) && s.conns[c].tracked
    requires forall x | x in s.tasks :: RoleOk(s, x)
    ensures var u := EnterClose(s, t, c); forall x | x in u.tasks :: RoleOk(u, x)
  {
    var u := EnterClose(s, t, c);
    forall x | x in u.tasks ensures RoleOk(u, x) { assert RoleOk(s, x); }
  }

  lemma EnterCalls(s: State, t: nat, c: nat)
    requires Inv(s) && t in s.tasks && c in s.conns && s.tasks[t].call == Some(Call(c, Entering)) && !s.conns[c].once.Won?
    ensures var u := EnterClose(s, t, c); forall x | x in u.tasks :: CallOk(u, x)
  {
    assert CallOk(s, t);
    var u := EnterClose(s, t, c);
    forall x | x in u.tasks ensures CallOk(u, x) { assert CallOk(s, x); }
  }

  lemma EnterOwed(s: State, t: nat, c: nat)
    requires Inv(s) && t in s.tasks && c in s.conns && s.tasks[t].call == Some(Call(c, Entering)) && !s.conns[c].once.Won?
    ensures var u := EnterClose(s, t, c); forall r, x | r in u.tasks && x in u.conns :: OwedOk(u, r, x)
  {
    assert RoleOk(s, t) && CallOk(s, t) && ConnOk(s, c);
    var u := EnterClose(s, t, c);
    forall r, x | r in u.tasks && x in u.conns ensures OwedOk(u, r, x) { assert OwedOk(s, r, x); }
  }

  lemma EnterConns(s: State, t: nat, c: nat)
    requires Inv(s) && t in s.tasks && c in s.conns && s.tasks[t].call == Some(Call(c, Entering)) && !s.conns[c].once.Won?
    ensures var u := EnterClose(s, t, c); forall x | x in u.conns :: ConnOk(u, x)
  {
    assert RoleOk(s, t) && CallOk(s, t) && ConnOk(s, c);
    var u := EnterClose(s, t, c);
    forall x | x in u.conns ensures ConnOk(u, x) { assert ConnOk(s, x); }
  }

  lemma UnlistTasks(s: State, t: nat, c: nat)
    requires Inv(s) && t in s.tasks && c in s.conns && s.tasks[t].call == Some(Call(c, Passed))
    ensures var u := UnlistConn(s, t, c); forall x | x in u.tasks :: RoleOk(u, x) && CallOk(u, x)
  {
    assert RoleOk(s, t) && CallOk(s, t) && ConnOk(s, c);
    var u := UnlistConn(s, t, c);
    forall x | x in u.tasks ensures RoleOk(u, x) && CallOk(u, x) { assert RoleOk(s, x) && CallOk(s, x); }
  }

  lemma UnlistOwed(s: State, t: nat, c: nat)
    requires Inv(s) && t in s.tasks && c in s.conns && s.tasks[t].call == Some(Call(c, Passed))
    ensures var u := UnlistConn(s, t, c); forall r, x | r in u.tasks && x in u.conns :: OwedOk(u, r, x)
  {
    assert RoleOk(s, t) && CallOk(s, t) && ConnOk(s, c);
    var u := UnlistConn(s, t, c);
    forall r, x | r in u.tasks && x in u.conns ensures OwedOk(u, r, x) { assert OwedOk(s, r, x); }
  }

  lemma UnlistConns(s: State, t: nat, c: nat)
    requires Inv(s) && t in s.tasks && c in s.conns && s.tasks[t].call == Some(Call(c, Passed))
    ensures var u := UnlistConn(s, t, c); forall x | x in u.conns :: ConnOk(u, x)
  {
    assert RoleOk(s, t) && CallOk(s, t) && ConnOk(s, c);
    var u := UnlistConn(s, t, c);
    forall x | x in u.conns ensures ConnOk(u, x) { assert ConnOk(s, x); }
  }

  lemma ShutTasks(s: State, t: nat, c: nat)
    requires Inv(s) && t in s.tasks && c in s.conns && s.tasks[t].call == Some(Call(c, Unlisted))
    ensures var u := ShutConn(s, t, c); forall x | x in u.tasks :: RoleOk(u, x) && CallOk(u, x)
  {
    assert RoleOk(s, t) && CallOk(s, t) && ConnOk(s, c);
    var u := ShutConn(s, t, c);
    forall x | x in u.tasks ensures RoleOk(u, x) && CallOk(u, x) { assert RoleOk(s, x) && CallOk(s, x); }
  }

  lemma ShutOwed(s: State, t: nat, c: nat)
    requires Inv(s) && t in s.tasks && c in s.conns && s.tasks[t].call == Some(Call(c, Unlisted))
    ensures var u := ShutConn(s, t, c); forall r, x | r in u.tasks && x in u.conns :: OwedOk(u, r, x)
  {
    assert RoleOk(s, t) && CallOk(s, t) && ConnOk(s, c);
    var u := ShutConn(s, t, c);
    forall r, x | r in u.tasks && x in u.conns ensures OwedOk(u, r, x) { assert OwedOk(s, r, x); }
  }

  lemma ShutConns(s: State, t: nat, c: nat)
    requires Inv(s) && t in s.tasks && c in s.conns && s.tasks[t].call == Some(Call(c, Unlisted))
    ensures var u := ShutConn(s, t, c); forall x | x in u.conns :: ConnOk(u, x)
  {
    assert RoleOk(s, t) && CallOk(s, t) && ConnOk(s, c);
    var u := ShutConn(s, t, c);
    forall x | x in u.conns ensures ConnOk(u, x) { assert ConnOk(s, x); }
  }

  lemma StepKeepsInv(s: State, l: Label)
    requires Inv(s) && Enabled(s, l)
    ensures Inv(Do(s, l))
  {
    match l {
      case Activate(user) => ActivatedKeeps(s, user);
      case Limit(limited) => LimitKeeps(s, limited);
      case Arrive(t, c, user, kind) => ArrivedKeeps(s, t, c, user, kind);
      case Check(t) =>
        if s.conns[s.tasks[t].role.conn].user in s.active { AdmitKeeps(s, t); } else { RejectKeeps(s, t); }
      case Look(t) =>
        if s.conns[s.tasks[t].role.conn].user in s.limited { FoundKeeps(s, t); } else { BypassKeeps(s, t); }
      case Refuse(t) => RejectKeeps(s, t);
      case Store(t) => RegisterKeeps(s, t);
      case Recheck(t) => SecondCheckKeeps(s, t);
      case RevokeBegin(t, user) => RevokeBeginKeeps(s, t, user);
      case Deactivate(t) => DeactivateKeeps(s, t);
      case ScanBegin(t) => ScanBeginKeeps(s, t);
      case Visit(t, c) => VisitKeeps(s, t, c);
      case ScanEnd(t) => ScanEndKeeps(s, t);
      case CloseBegin(t, c) => CloseBeginKeeps(s, t, c);
      case Enter(t) =>
        assert CallOk(s, t);
        EnterRoles(s, t, s.tasks[t].call.value.conn);
        EnterCalls(s, t, s.tasks[t].call.value.conn);
        EnterOwed(s, t, s.tasks[t].call.value.conn);
        EnterConns(s, t, s.tasks[t].call.value.conn);
      case Unlist(t) =>
        UnlistTasks(s, t, s.tasks[t].call.value.conn);
        UnlistOwed(s, t, s.tasks[t].call.value.conn);
        UnlistConns(s, t, s.tasks[t].call.value.conn);
      case Shut(t) =>
        ShutTasks(s, t, s.tasks[t].call.value.conn);
        ShutOwed(s, t, s.tasks[t].call.value.conn);
        ShutConns(s, t, s.tasks[t].call.value.conn);
    }
  }

  lemma InitInv()
    ensures Inv(INIT)
  {
  }

  lemma {:induction false} RunKeepsInv(s: State, ls: seq<Label>)
    requires Inv(s) && CanRun(s, ls)
    ensures Inv(Run(s, ls))
    decreases |ls|
  {
    if ls != [] {
      StepKeepsInv(s, ls[0]);
      RunKeepsInv(Do(s, ls[0]), ls[1..]);
    }
  }

  // ---------- main results ----------

  /** The revocation is through and its user has not been added again since it began. */
  predicate RevokedSince(s: State, r: nat) {
    r in s.tasks && s.tasks[r].role.Revoke? && s.tasks[r].role.phase == Scanned
    && s.tasks[r].role.adds == Adds(s, s.tasks[r].role.user)
  }

  predicate SetupThrough(s: State, c: nat)
    requires c in s.conns
  {
    s.conns[c].setup in s.tasks &&
    var k := s.tasks[s.conns[c].setup];
    k.role.Setup? && k.role.step == Decided && k.call.None?
  }

  /** In every interleaving, once a revocation and a connection's setup have both finished and the user was
      not added again, the user may not connect and the tracked connection is closed, or a Close call past
      its removal from the table is about to close it. A TCP connection refuses reads and writes already. */
  lemma NoTrackedConnectionSurvives(ls: seq<Label>, r: nat, c: nat)
    requires CanRun(INIT, ls) && c in Run(INIT, ls).conns && Run(INIT, ls).conns[c].tracked
    requires RevokedSince(Run(INIT, ls), r) && SetupThrough(Run(INIT, ls), c)
    requires Run(INIT, ls).conns[c].user == Run(INIT, ls).tasks[r].role.user
    ensures var s, x := Run(INIT, ls), Run(INIT, ls).conns[c];
            && x.user !in s.active && (x.kind.Tcp? ==> x.sealed)
            && (x.live ==> x.remover.Some? && x.remover.value in s.tasks
                           && s.tasks[x.remover.value].call == Some(Call(c, Unlisted)))
  {
    var s := Run(INIT, ls);
    InitInv();
    RunKeepsInv(INIT, ls);
    assert RoleOk(s, r) && ConnOk(s, c) && OwedOk(s, r, c);
  }

  predicate NobodyCloses(s: State, c: nat) {
    forall t | t in s.tasks :: s.tasks[t].call.None? || s.tasks[t].call.value.conn != c
  }

  /** So when no goroutine is inside a Close call of it any more, it is closed. */
  lemma NothingIsLeftOpen(ls: seq<Label>, r: nat, c: nat)
    requires CanRun(INIT, ls) && c in Run(INIT, ls).conns && Run(INIT, ls).conns[c].tracked
    requires RevokedSince(Run(INIT, ls), r) && SetupThrough(Run(INIT, ls), c)
    requires Run(INIT, ls).conns[c].user == Run(INIT, ls).tasks[r].role.user
    requires NobodyCloses(Run(INIT, ls), c)
    ensures !Run(INIT, ls).conns[c].live
  {
    NoTrackedConnectionSurvives(ls, r, c);
  }

  /** In this step the setup of connection `c` finds that its node has no limiter. */
  predicate LooksInVain(s: State, l: Label, c: nat) {
    l.Look? && SetupIs(s, l.t, Looking) && s.tasks[l.t].role.conn == c && s.conns[c].user !in s.limited
  }

  predicate LookedInVain(s: State, ls: seq<Label>, c: nat)
    requires CanRun(s, ls)
    decreases |ls|
  {
    ls != [] && (LooksInVain(s, ls[0], c) || LookedInVain(Do(s, ls[0]), ls[1..], c))
  }

  predicate Bypassed(s: State, c: nat) { c in s.conns && s.conns[c].bypassed }

  lemma StepBypasses(s: State, l: Label, c: nat)
    requires Enabled(s, l)
    ensures Bypassed(Do(s, l), c) <==> Bypassed(s, c) || LooksInVain(s, l, c)
  {
    if l.Look? && s.tasks[l.t].role.conn == c {
      assert Bypassed(Do(s, l), c) <==> Bypassed(s, c) || LooksInVain(s, l, c);
    }
  }

  lemma {:induction false} RunBypasses(s: State, ls: seq<Label>, c: nat)
    requires CanRun(s, ls)
    ensures Bypassed(Run(s, ls), c) <==> Bypassed(s, c) || LookedInVain(s, ls, c)
    decreases |ls|
  {
    if ls != [] {
      StepBypasses(s, ls[0], c);
      RunBypasses(Do(s, ls[0]), ls[1..], c);
    }
  }

  /** Of all connections of a revoked user those outlive the revocation whose setup looked for a limiter in
      vain, and no others. */
  lemma OpenExactlyWhenBypassed(ls: seq<Label>, r: nat, c: nat)
    requires CanRun(INIT, ls) && c in Run(INIT, ls).conns
    requires RevokedSince(Run(INIT, ls), r) && SetupThrough(Run(INIT, ls), c)
    requires Run(INIT, ls).conns[c].user == Run(INIT, ls).tasks[r].role.user
    requires NobodyCloses(Run(INIT, ls), c)
    ensures Run(INIT, ls).conns[c].live <==> Bypassed(Run(INIT, ls), c)
    ensures Run(INIT, ls).conns[c].live <==> LookedInVain(INIT, ls, c)
  {
    InitInv();
    RunKeepsInv(INIT, ls);
    RunBypasses(INIT, ls, c);
    assert ConnOk(Run(INIT, ls), c);
    if Run(INIT, ls).conns[c].tracked {
      NothingIsLeftOpen(ls, r, c);
    }
  }

  // ---------- who is let in, and who is left alone ----------

  predicate Refused(s: State, c: nat) {
    && c in s.conns && !s.conns[c].live && !s.conns[c].tracked && c !in s.listed
    && forall t | t in s.tasks :: PastIt(s.tasks[t], c)
  }

  predicate PastIt(k: Task, c: nat) {
    && (k.role.Setup? && k.role.conn == c ==> k.role.step == Decided)
    && (k.role.Revoke? && k.role.phase == Scanning ==> c !in k.role.todo)
    && (k.call.Some? ==> k.call.value.conn != c)
  }

  lemma StepStaysRefused(s: State, l: Label, c: nat)
    requires Refused(s, c) && Enabled(s, l)
    ensures Refused(Do(s, l), c)
  {
    var u := Do(s, l);
    forall t | t in u.tasks ensures PastIt(u.tasks[t], c) {
      assert t in s.tasks ==> PastIt(s.tasks[t], c);
    }
  }

  lemma {:induction false} RunStaysRefused(s: State, ls: seq<Label>, c: nat)
    requires Refused(s, c) && CanRun(s, ls)
    ensures Refused(Run(s, ls), c)
    decreases |ls|
  {
    if ls != [] {
      StepStaysRefused(s, ls[0], c);
      RunStaysRefused(Do(s, ls[0]), ls[1..], c);
    }
  }

  /** A connection whose user may not connect when its setup asks is refused, whatever happens then: it is closed
      and never tracked, limiter or none. */
  lemma InactiveUserIsRefused(ls: seq<Label>, t: nat, more: seq<Label>)
    requires CanRun(INIT, ls) && Enabled(Run(INIT, ls), Check(t))
    requires Run(INIT, ls).conns[Run(INIT, ls).tasks[t].role.conn].user !in Run(INIT, ls).active
    requires CanRun(Do(Run(INIT, ls), Check(t)), more)
    ensures Refused(Run(Do(Run(INIT, ls), Check(t)), more), Run(INIT, ls).tasks[t].role.conn)
  {
    var s := Run(INIT, ls);
    var c := s.tasks[t].role.conn;
    InitInv();
    RunKeepsInv(INIT, ls);
    assert RoleOk(s, t) && ConnOk(s, c);
    forall x | x in Do(s, Check(t)).tasks ensures PastIt(Do(s, Check(t)).tasks[x], c) {
      assert RoleOk(s, x) && CallOk(s, x);
    }
    RunStaysRefused(Do(s, Check(t)), more, c);
  }

  /** The user may connect, nobody revokes it, and the connection, if it is there, is the user's and untouched. */
  predicate Untouched(s: State, user: string, c: nat) {
    && user in s.active && NobodyCloses(s, c)
    && (forall t | t in s.tasks && s.tasks[t].role.Revoke? :: s.tasks[t].role.user != user)
    && (c in s.conns ==>
          var x := s.conns[c]; x.user == user && x.live && !x.sealed && x.once.Unused? && x.remover.None?)
  }

  /** The step neither revokes the user, nor closes the connection from outside, nor refuses it for its limits. */
  predicate LeavesAlone(s: State, l: Label, user: string, c: nat) {
    match l
    case RevokeBegin(_, u) => u != user
    case CloseBegin(_, x) => x != c
    case Refuse(t) => !(t in s.tasks && s.tasks[t].role.Setup? && s.tasks[t].role.conn == c)
    case Arrive(_, x, u, _) => x == c ==> u == user
    case _ => true
  }

  predicate RunLeavesAlone(s: State, ls: seq<Label>, user: string, c: nat)
    requires CanRun(s, ls)
    decreases |ls|
  {
    ls == [] || (LeavesAlone(s, ls[0], user, c) && RunLeavesAlone(Do(s, ls[0]), ls[1..], user, c))
  }

  lemma StepStaysUntouched(s: State, l: Label, user: string, c: nat)
    requires Untouched(s, user, c) && Enabled(s, l) && LeavesAlone(s, l, user, c)
    ensures Untouched(Do(s, l), user, c)
  {
    var u := Do(s, l);
    forall t | t in u.tasks ensures u.tasks[t].call.None? || u.tasks[t].call.value.conn != c {
      assert t in s.tasks ==> s.tasks[t].call.None? || s.tasks[t].call.value.conn != c;
    }
  }

  /** The program itself closes only connections of users that were revoked or refused: through every
      interleaving that leaves them alone, other users' connections stay open for reads and writes. */
  lemma {:induction false} OthersStayOpen(s: State, ls: seq<Label>, user: string, c: nat)
    requires CanRun(s, ls) && Untouched(s, user, c) && RunLeavesAlone(s, ls, user, c)
    ensures Untouched(Run(s, ls), user, c)
    decreases |ls|
  {
    if ls != [] {
      StepStaysUntouched(s, ls[0], user, c);
      OthersStayOpen(Do(s, ls[0]), ls[1..], user, c);
    }
  }

  /** Close joins the closer: when a Close call returns, the connection below is closed. */
  lemma CloseReturnsClosed(ls: seq<Label>, t: nat, l: Label)
    requires CanRun(INIT, ls) && Enabled(Run(INIT, ls), l) && (l == Enter(t) || l == Shut(t))
    requires Do(Run(INIT, ls), l).tasks[t].call.None?
    ensures !Do(Run(INIT, ls), l).conns[Run(INIT, ls).tasks[t].call.value.conn].live
  {
    var s := Run(INIT, ls);
    InitInv();
    RunKeepsInv(INIT, ls);
    assert ConnOk(s, s.tasks[t].call.value.conn);
  }

  /** A registered connection stays in reach of every scan until some Close takes it out, and no longer. */
  lemma TrackedConnectionsAreListed(ls: seq<Label>, c: nat)
    requires CanRun(INIT, ls) && c in Run(INIT, ls).conns
    ensures var s, x := Run(INIT, ls), Run(INIT, ls).conns[c];
            c in s.listed <==> x.tracked && x.remover.None?
  {
    InitInv();
    RunKeepsInv(INIT, ls);
    assert ConnOk(Run(INIT, ls), c);
  }

  lemma {:induction false} RunSnoc(s: State, ls: seq<Label>, l: Label)
    requires CanRun(s, ls) && Enabled(Run(s, ls), l)
    ensures CanRun(s, ls + [l]) && Run(s, ls + [l]) == Do(Run(s, ls), l)
    decreases |ls|
  {
    if ls == [] {
      assert [] + [l] == [l] && [l][1..] == [];
    } else {
      assert (ls + [l])[1..] == ls[1..] + [l];
      RunSnoc(Do(s, ls[0]), ls[1..], l);
    }
  }

  lemma Extend(ls: seq<Label>, s: State, l: Label) returns (longer: seq<Label>, next: State)
    requires CanRun(INIT, ls) && Run(INIT, ls) == s && Enabled(s, l)
    ensures next == Do(s, l) && CanRun(INIT, longer) && Run(INIT, longer) == next
  {
    RunSnoc(INIT, ls, l);
    longer, next := ls + [l], Do(s, l);
  }

  function Unwrapped(user: string, through: bool): Conn { Conn(user, Tcp, 0, false, through, Unused, false, true, None) }

  /** Setup hands a connection back unwrapped, for want of a limiter. */
  lemma UnwrappedArrives(user: string) returns (ls: seq<Label>)
    ensures CanRun(INIT, ls)
    ensures Run(INIT, ls) == State({user}, map[user := 1], {}, map[0 := Unwrapped(user, true)], {},
                                   map[0 := Task(Setup(0, Decided), None)])
  {
    var s: State;
    ls, s := Extend([], INIT, Activate(user));
    assert s == INIT.(active := {user}, adds := map[user := 1]);
    ls, s := Extend(ls, s, Arrive(0, 0, user, Tcp));
    assert s == State({user}, map[user := 1], {}, map[0 := Unwrapped(user, false)], {},
                      map[0 := Task(Setup(0, Checking), None)]);
    ls, s := Extend(ls, s, Check(0));
    assert s.tasks == map[0 := Task(Setup(0, Looking), None)];
    ls, s := Extend(ls, s, Look(0));
    assert s.tasks == map[0 := Task(Setup(0, Decided), None)] && s.conns == map[0 := Unwrapped(user, true)];
  }

  function Left(user: string, active: set<string>, revoke: Role): State {
    State(active, map[user := 1], {}, map[0 := Unwrapped(user, true)], {},
          map[0 := Task(Setup(0, Decided), None), 1 := Task(revoke, None)])
  }

  lemma UnwrappedDuringRevoke(user: string) returns (ls: seq<Label>)
    ensures CanRun(INIT, ls) && Run(INIT, ls) == Left(user, {}, Revoke(user, Deactivated, 1, {}))
  {
    ls := UnwrappedArrives(user);
    var s := Run(INIT, ls);
    ls, s := Extend(ls, s, RevokeBegin(1, user));
    assert s == Left(user, {user}, Revoke(user, Begun, 0, {}));
    ls, s := Extend(ls, s, Deactivate(1));
    assert s == Left(user, {}, Revoke(user, Deactivated, 1, {}));
  }

  /** It does happen: a connection that came without a limiter stays open through a revocation. */
  lemma UnwrappedConnectionSurvives(user: string)
    ensures exists ls: seq<Label> ::
              CanRun(INIT, ls) && RevokedSince(Run(INIT, ls), 1) && Run(INIT, ls).tasks[1].role.user == user
              && 0 in Run(INIT, ls).conns && SetupThrough(Run(INIT, ls), 0)
              && Run(INIT, ls).conns[0] == Unwrapped(user, true)
  {
    var ls := UnwrappedDuringRevoke(user);
    var s := Left(user, {}, Revoke(user, Deactivated, 1, {}));
    ls, s := Extend(ls, s, ScanBegin(1));
    assert s == Left(user, {}, Revoke(user, Scanning, 1, {}));
    ls, s := Extend(ls, s, ScanEnd(1));
    assert s == Left(user, {}, Revoke(user, Scanned, 1, {}));
  }
}
