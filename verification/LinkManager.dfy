/** The links of one user of the Xray core: link managers, connection setup (look up the manager, add
    the link, recheck), revocation and re-admission as interleaved steps. A step is what one goroutine
    does between two points where another may run; a section under a manager's mutex is one step. */
module LinkManager {
  import opened Basics
  import Seqs

  /** A manager's table holds the links of it that are InTable. */
  datatype Manager = Manager(closed: bool)

  /** How far goroutine `t` is with closing a link it took: connection, own removal, pipes. */
  datatype CloseAt = Waiting | Cut | Detached

  /** Where a link is: not yet added, in its manager's table, removed by its own Close, in the hands of
      goroutine `t` which closes it, or closed. */
  datatype Place = Pending | InTable | Removed | Taken(t: nat, at: CloseAt) | Gone

  /** `stray`: when the user was last admitted, the link could still be used though the dispatcher's map
      no longer led to it; see Lost. */
  datatype Link = Link(mgr: nat, setup: nat, place: Place, stray: bool)

  datatype SetupAt = Adding | Late | Rechecking | Marking | Sweeping | Unlinking | Refused | Established

  datatype RevokeAt = Begun | Forbidden | Loaded | Closing | Dropping | Through

  datatype AddAt = Entered | Dropped | Admitted

  /** `retire` tells the retirement of a whole node, which takes the manager out before closing it, from
      the removal of a user, which does so afterwards; `adds` is how often the user had been admitted when
      it was forbidden. */
  datatype Task =
    | Setup(link: nat, step: SetupAt)
    | Revoke(retire: bool, phase: RevokeAt, adds: nat, mgr: Option<nat>)
    | Add(stage: AddAt)
    | OwnClose(link: nat)
    | OwnClosed(link: nat)

  /** `lock` is the user map's lock, held by revocations and admissions; `current` the user's manager. */
  datatype State = State(allowed: bool, adds: nat, current: Option<nat>, managers: seq<Manager>,
                         links: map<nat, Link>, tasks: map<nat, Task>, lock: Option<nat>)

  const INIT := State(false, 0, None, [], map[], map[], None)

  datatype Label =
    | Lookup(t: nat, w: nat)
    | AddLink(t: nat)
    | LateDone(t: nat)
    | Recheck(t: nat)
    | Mark(t: nat)
    | SweepDone(t: nat)
    | Unlink(t: nat)
    | RevokeBegin(t: nat, retire: bool)
    | Forbid(t: nat)
    | Load(t: nat)
    | Drop(t: nat)
    | AddBegin(t: nat)
    | AddDrop(t: nat)
    | Admit(t: nat)
    | CloseLink(t: nat, w: nat)
    | OwnBegin(t: nat, w: nat)
    | OwnRemove(t: nat)

  predicate SetupIs(s: State, t: nat, step: SetupAt) {
    t in s.tasks && s.tasks[t].Setup? && s.tasks[t].step == step && s.tasks[t].link in s.links
    && s.links[s.tasks[t].link].mgr < |s.managers|
  }

  predicate RevokeIs(s: State, t: nat, phase: RevokeAt) {
    t in s.tasks && s.tasks[t].Revoke? && s.tasks[t].phase == phase
  }

  predicate NoneTaken(s: State, t: nat) {
    forall w :: w in s.links ==> !(s.links[w].place.Taken? && s.links[w].place.t == t)
  }

  function Table(s: State, m: nat): set<nat> { set w | w in s.links && s.links[w].mgr == m && s.links[w].place.InTable? }

  predicate Known(s: State, w: nat) { w in s.links && s.links[w].mgr < |s.managers| }

  predicate Enabled(s: State, l: Label) {
    match l
    case Lookup(t, w) => t !in s.tasks && w !in s.links
    case AddLink(t) => SetupIs(s, t, Adding)
    case LateDone(t) => SetupIs(s, t, Late) && NoneTaken(s, t)
    case Recheck(t) => SetupIs(s, t, Rechecking)
    case Mark(t) =>
      || SetupIs(s, t, Marking)
      || (RevokeIs(s, t, Loaded) && s.tasks[t].mgr.Some? && s.tasks[t].mgr.value < |s.managers|)
    case SweepDone(t) => (SetupIs(s, t, Sweeping) || RevokeIs(s, t, Closing)) && NoneTaken(s, t)
    case Unlink(t) => SetupIs(s, t, Unlinking)
    case RevokeBegin(t, _) => t !in s.tasks && s.lock.None?
    case Forbid(t) => RevokeIs(s, t, Begun)
    case Load(t) => RevokeIs(s, t, Forbidden)
    case Drop(t) => RevokeIs(s, t, Dropping)
    case AddBegin(t) => t !in s.tasks && s.lock.None?
    case AddDrop(t) => t in s.tasks && s.tasks[t] == Add(Entered)
    case Admit(t) => t in s.tasks && s.tasks[t] == Add(Dropped)
    case CloseLink(t, w) => Known(s, w) && s.links[w].place.Taken? && s.links[w].place.t == t
    case OwnBegin(t, w) => t !in s.tasks && Known(s, w) && !s.links[w].place.Pending?
    case OwnRemove(t) => t in s.tasks && s.tasks[t].OwnClose? && Known(s, s.tasks[t].link)
  }

  function Put(s: State, t: nat, k: Task): State { s.(tasks := s.tasks[t := k]) }

  function PutLink(s: State, w: nat, place: Place): State
    requires w in s.links
  {
    s.(links := s.links[w := s.links[w].(place := place)])
  }

  function PutManager(s: State, m: nat, x: Manager): State
    requires m < |s.managers|
  {
    s.(managers := s.managers[m := x])
  }

  /** The dispatcher's LoadOrStore, then a link that is still to be added. */
  function Looked(s: State, t: nat, w: nat): State {
    var u := if s.current.Some? then s else
               s.(current := Some(|s.managers|), managers := s.managers + [Manager(false)]);
    Put(u.(links := u.links[w := Link(u.current.value, t, Pending, false)]), t, Setup(w, Adding))
  }

  /** A closed manager takes no link: whoever brings one late closes it. */
  function Added(s: State, t: nat, w: nat): State
    requires Known(s, w)
  {
    var m := s.links[w].mgr;
    if s.managers[m].closed then Put(PutLink(s, w, Taken(t, Waiting)), t, Setup(w, Late))
    else Put(PutLink(s, w, InTable), t, Setup(w, Rechecking))
  }

  /** CloseAll's section under the mutex: the manager is closed and its links are in the caller's hands. */
  function Marked(s: State, t: nat, m: nat): State
    requires m < |s.managers|
  {
    PutManager(s, m, s.managers[m].(closed := true)).(
      links := map w | w in s.links ::
                 if w in Table(s, m) then s.links[w].(place := Taken(t, Waiting)) else s.links[w])
  }

  /** The dispatcher's map, or a node's retirement that has just emptied it, leads to the manager. */
  predicate Found(s: State, m: nat) {
    || s.current == Some(m)
    || (s.lock.Some? && RevokeIs(s, s.lock.value, Loaded) && s.tasks[s.lock.value].mgr == Some(m))
  }

  /** A link that nobody would find: its manager is open but nothing leads to it, and its setup has not
      been told that the user may not connect. */
  predicate Lost(s: State, w: nat)
    requires w in s.links
  {
    var x := s.links[w];
    && x.mgr < |s.managers| && !s.managers[x.mgr].closed && !Found(s, x.mgr)
    && (x.place.Pending? || x.place.InTable?)
    && x.setup in s.tasks && s.tasks[x.setup].Setup? && s.tasks[x.setup].step in {Adding, Rechecking, Established}
  }

  /** The end of an admission. */
  function Admitting(s: State, t: nat): State {
    var links := map w | w in s.links :: s.links[w].(stray := s.links[w].stray || Lost(s, w));
    Put(s.(allowed := true, adds := s.adds + 1, lock := None, links := links), t, Add(Admitted))
  }

  function Loading(s: State, t: nat): State
    requires t in s.tasks && s.tasks[t].Revoke?
  {
    var k := s.tasks[t].(mgr := s.current);
    if s.current.None? then Put(s.(lock := None), t, k.(phase := Through))
    else Put(if k.retire then s.(current := None) else s, t, k.(phase := Loaded))
  }

  function Closed(s: State, t: nat, w: nat): State
    requires Known(s, w) && s.links[w].place.Taken?
  {
    match s.links[w].place.at
    case Waiting => PutLink(s, w, Taken(t, Cut))
    case Cut => PutLink(s, w, Taken(t, Detached))
    case Detached => PutLink(s, w, Gone)
  }

  /** The link's own Close takes it out of the table. */
  function SelfRemoved(s: State, t: nat, w: nat): State
    requires Known(s, w)
  {
    Put(if s.links[w].place.InTable? then PutLink(s, w, Removed) else s, t, OwnClosed(w))
  }

  function Swept(s: State, t: nat): State
    requires t in s.tasks && (s.tasks[t].Setup? || s.tasks[t].Revoke?)
  {
    match s.tasks[t]
    case Setup(w, _) => Put(s, t, Setup(w, Unlinking))
    case Revoke(retire, _, adds, mgr) =>
      if retire then Put(s.(lock := None), t, Revoke(retire, Through, adds, mgr))
      else Put(s, t, Revoke(retire, Dropping, adds, mgr))
  }

  function MarkedBy(s: State, t: nat): State
    requires Enabled(s, Mark(t))
  {
    match s.tasks[t]
    case Setup(w, _) => Put(Marked(s, t, s.links[w].mgr), t, Setup(w, Sweeping))
    case Revoke(retire, _, adds, mgr) => Put(Marked(s, t, mgr.value), t, Revoke(retire, Closing, adds, mgr))
  }

  function Do(s: State, l: Label): State
    requires Enabled(s, l)
  {
    match l
    case Lookup(t, w) => Looked(s, t, w)
    case AddLink(t) => Added(s, t, s.tasks[t].link)
    case LateDone(t) => Put(s, t, Setup(s.tasks[t].link, Rechecking))
    case Recheck(t) => Put(s, t, Setup(s.tasks[t].link, if s.allowed then Established else Marking))
    case Mark(t) => MarkedBy(s, t)
    case SweepDone(t) => Swept(s, t)
    case Unlink(t) =>
      var w := s.tasks[t].link;
      Put(if s.current == Some(s.links[w].mgr) then s.(current := None) else s, t, Setup(w, Refused))
    case RevokeBegin(t, retire) => Put(s.(lock := Some(t)), t, Revoke(retire, Begun, 0, None))
    case Forbid(t) => Put(s.(allowed := false), t, Revoke(s.tasks[t].retire, Forbidden, s.adds, None))
    case Load(t) => Loading(s, t)
    case Drop(t) =>
      Put(s.(current := None, lock := None), t, Revoke(s.tasks[t].retire, Through, s.tasks[t].adds, s.tasks[t].mgr))
    case AddBegin(t) => Put(s.(lock := Some(t)), t, Add(Entered))
    case AddDrop(t) => Put(s.(current := None), t, Add(Dropped))
    case Admit(t) => Admitting(s, t)
    case CloseLink(t, w) => Closed(s, t, w)
    case OwnBegin(t, w) => Put(s, t, OwnClose(w))
    case OwnRemove(t) => SelfRemoved(s, t, s.tasks[t].link)
  }

  predicate CanRun(s: State, ls: seq<Label>)
    decreases |ls|
  {
    ls == [] || (Enabled(s, ls[0]) && CanRun(Do(s, ls[0]), ls[1..]))
  }

  function Run(s: State, ls: seq<Label>): State
    requires CanRun(s, ls)
    decreases |ls|
  {
    if ls == [] then s else Run(Do(s, ls[0]), ls[1..])
  }

  // ---------- what every step keeps ----------

  /** Goroutine `t` is closing links it took. */
  predicate Sweeps(k: Task) {
    (k.Setup? && (k.step.Late? || k.step.Sweeping?)) || (k.Revoke? && k.phase.Closing?)
  }

  predicate HoldsLock(k: Task) { (k.Revoke? && !k.phase.Through?) || (k.Add? && !k.stage.Admitted?) }

  /** Setup has yet to recheck, or is about to close the manager after it. */
  predicate WillLook(k: Task) { k.Setup? && (k.step.Late? || k.step.Rechecking? || k.step.Marking?) }

  predicate TaskOk(s: State, t: nat)
    requires t in s.tasks
  {
    var k := s.tasks[t];
    && (HoldsLock(k) <==> s.lock == Some(t))
    && (k.Setup? ==>
          && k.link in s.links && s.links[k.link].setup == t && s.links[k.link].mgr < |s.managers|
          && (k.step.Adding? <==> s.links[k.link].place.Pending?)
          && (k.step in {Late, Sweeping, Unlinking, Refused} ==> s.managers[s.links[k.link].mgr].closed))
    && (k.Revoke? && !k.phase.Begun? ==> k.adds <= s.adds && (k.adds == s.adds ==> !s.allowed))
    && (k.Revoke? && !k.phase.Begun? && !k.phase.Through? ==> k.adds == s.adds)
    && (k.Revoke? && k.phase.Loaded? ==> k.mgr.Some? && k.mgr.value < |s.managers|)
    && (k.OwnClose? ==> k.link in s.links && !s.links[k.link].place.Pending?)
  }

  predicate LinkOk(s: State, w: nat)
    requires w in s.links
  {
    var x := s.links[w];
    && x.mgr < |s.managers| && (x.place.InTable? ==> !s.managers[x.mgr].closed)
    && x.setup in s.tasks && s.tasks[x.setup].Setup? && s.tasks[x.setup].link == w
    && (x.place.Taken? ==> x.place.t in s.tasks && Sweeps(s.tasks[x.place.t]) && s.managers[x.mgr].closed)
    && (x.place.Gone? ==> s.managers[x.mgr].closed)
  }

  /** A lost link is a stray one, unless the user may not connect or is just being admitted. */
  predicate LostOk(s: State, w: nat)
    requires w in s.links
  {
    Lost(s, w) && !s.links[w].stray && s.allowed ==>
      s.lock.Some? && s.lock.value in s.tasks && s.tasks[s.lock.value] == Add(Dropped)
  }

  /** While the user may not connect every link in a table is stray, will be looked at by its setup, or is
      about to be found by the revocation under way. */
  predicate QuietOk(s: State, w: nat)
    requires w in s.links
  {
    var x := s.links[w];
    !s.allowed && x.place.InTable? && !x.stray ==>
      || (x.setup in s.tasks && WillLook(s.tasks[x.setup]))
      || (s.lock.Some? && RevokeIs(s, s.lock.value, Forbidden) && Found(s, x.mgr))
      || (s.lock.Some? && RevokeIs(s, s.lock.value, Loaded) && s.tasks[s.lock.value].mgr == Some(x.mgr))
  }

  /** What a revocation owes a link in a table: the link is stray, its setup will look again, or the
      revocation is about to close the manager. */
  predicate OwedOk(s: State, r: nat, w: nat)
    requires r in s.tasks && w in s.links
  {
    var k, x := s.tasks[r], s.links[w];
    k.Revoke? && !k.phase.Begun? && !k.phase.Forbidden? && k.adds == s.adds && x.place.InTable? && !x.stray ==>
      || (x.setup in s.tasks && WillLook(s.tasks[x.setup]))
      || (k.phase.Loaded? && k.mgr == Some(x.mgr))
  }

  ghost predicate Inv(s: State) {
    && (forall t | t in s.tasks :: TaskOk(s, t))
    && (forall w | w in s.links :: LinkOk(s, w) && LostOk(s, w) && QuietOk(s, w))
    && (forall r, w | r in s.tasks && w in s.links :: OwedOk(s, r, w))
    && (s.lock.Some? ==> s.lock.value in s.tasks) && (s.current.Some? ==> s.current.value < |s.managers|)
  }

  lemma LookedOwed(s: State, t: nat, w: nat)
    requires Inv(s) && t !in s.tasks && w !in s.links
    ensures var u := Looked(s, t, w); forall r, x | r in u.tasks && x in u.links :: OwedOk(u, r, x)
  {
    var u := Looked(s, t, w);
    forall r, x | r in u.tasks && x in u.links ensures OwedOk(u, r, x) {
      assert r in s.tasks && x in s.links ==> OwedOk(s, r, x);
    }
  }

  lemma LookedKeeps(s: State, t: nat, w: nat)
    requires Inv(s) && t !in s.tasks && w !in s.links
    ensures Inv(Looked(s, t, w))
  {
    var u := Looked(s, t, w);
    forall x | x in u.tasks ensures TaskOk(u, x) { assert x in s.tasks ==> TaskOk(s, x); }
    forall x | x in u.links ensures LinkOk(u, x) && LostOk(u, x) && QuietOk(u, x) {
      assert x in s.links ==> LinkOk(s, x) && LostOk(s, x) && QuietOk(s, x);
    }
    LookedOwed(s, t, w);
  }

  lemma LateDoneKeeps(s: State, t: nat, w: nat)
    requires Inv(s) && t in s.tasks && s.tasks[t] == Setup(w, Late) && NoneTaken(s, t)
    ensures Inv(Put(s, t, Setup(w, Rechecking)))
  {
    assert TaskOk(s, t) && LinkOk(s, w);
    var u := Put(s, t, Setup(w, Rechecking));
    forall x | x in u.tasks ensures TaskOk(u, x) { assert x in s.tasks ==> TaskOk(s, x); }
    forall x | x in u.links ensures LinkOk(u, x) && LostOk(u, x) && QuietOk(u, x) {
      assert x in s.links ==> LinkOk(s, x) && LostOk(s, x) && QuietOk(s, x);
    }
    forall r, x | r in u.tasks && x in u.links ensures OwedOk(u, r, x) {
      assert r in s.tasks && x in s.links ==> OwedOk(s, r, x);
    }
  }

  lemma RecheckKeeps(s: State, t: nat, w: nat)
    requires Inv(s) && t in s.tasks && s.tasks[t] == Setup(w, Rechecking)
    ensures Inv(Put(s, t, Setup(w, if s.allowed then Established else Marking)))
  {
    assert TaskOk(s, t) && LinkOk(s, w);
    var u := Put(s, t, Setup(w, if s.allowed then Established else Marking));
    forall x | x in u.tasks ensures TaskOk(u, x) { assert x in s.tasks ==> TaskOk(s, x); }
    forall x | x in u.links ensures LinkOk(u, x) && LostOk(u, x) && QuietOk(u, x) {
      assert x in s.links ==> LinkOk(s, x) && LostOk(s, x) && QuietOk(s, x);
    }
    forall r, x | r in u.tasks && x in u.links ensures OwedOk(u, r, x) {
      assert r in s.tasks && x in s.links ==> OwedOk(s, r, x);
    }
  }

  lemma SetupMarkKeeps(s: State, t: nat, w: nat, m: nat)
    requires Inv(s) && t in s.tasks && s.tasks[t] == Setup(w, Marking) && w in s.links
    requires s.links[w].mgr == m && m < |s.managers|
    ensures Inv(Put(Marked(s, t, m), t, Setup(w, Sweeping)))
  {
    assert TaskOk(s, t) && LinkOk(s, w);
    var u := Put(Marked(s, t, m), t, Setup(w, Sweeping));
    forall x | x in u.tasks ensures TaskOk(u, x) { assert x in s.tasks ==> TaskOk(s, x); }
    forall x | x in u.links ensures LinkOk(u, x) && LostOk(u, x) && QuietOk(u, x) {
      assert x in s.links ==> LinkOk(s, x) && LostOk(s, x) && QuietOk(s, x);
    }
    forall r, x | r in u.tasks && x in u.links ensures OwedOk(u, r, x) {
      assert r in s.tasks && x in s.links ==> OwedOk(s, r, x);
    }
  }

  lemma RevokeMarkKeeps(s: State, t: nat, m: nat)
    requires Inv(s) && RevokeIs(s, t, Loaded) && s.tasks[t].mgr == Some(m) && m < |s.managers|
    ensures Inv(Put(Marked(s, t, m), t, Revoke(s.tasks[t].retire, Closing, s.tasks[t].adds, s.tasks[t].mgr)))
  {
    assert TaskOk(s, t);
    var u := Put(Marked(s, t, m), t, Revoke(s.tasks[t].retire, Closing, s.tasks[t].adds, s.tasks[t].mgr));
    forall x | x in u.tasks ensures TaskOk(u, x) { assert x in s.tasks ==> TaskOk(s, x); }
    forall x | x in u.links ensures LinkOk(u, x) && LostOk(u, x) && QuietOk(u, x) {
      assert x in s.links ==> LinkOk(s, x) && LostOk(s, x) && QuietOk(s, x);
    }
    forall r, x | r in u.tasks && x in u.links ensures OwedOk(u, r, x) {
      assert r in s.tasks && x in s.links ==> OwedOk(s, r, x);
    }
  }

  lemma PlaceKeeps(s: State, w: nat, place: Place)
    requires Inv(s) && w in s.links && s.links[w].mgr < |s.managers|
    requires !s.links[w].place.Pending? && !place.Pending? && !place.InTable?
    requires place.Taken? ==> s.links[w].place.Taken? && s.links[w].place.t == place.t
    requires place.Gone? ==> s.managers[s.links[w].mgr].closed
    ensures Inv(PutLink(s, w, place))
  {
    assert LinkOk(s, w);
    var u := PutLink(s, w, place);
    forall x | x in u.tasks ensures TaskOk(u, x) { assert x in s.tasks ==> TaskOk(s, x); }
    forall x | x in u.links ensures LinkOk(u, x) && LostOk(u, x) && QuietOk(u, x) {
      assert x in s.links ==> LinkOk(s, x) && LostOk(s, x) && QuietOk(s, x);
    }
    forall r, x | r in u.tasks && x in u.links ensures OwedOk(u, r, x) {
      assert r in s.tasks && x in s.links ==> OwedOk(s, r, x);
    }
  }

  lemma LateAddKeeps(s: State, t: nat, w: nat)
    requires Inv(s) && t in s.tasks && s.tasks[t] == Setup(w, Adding) && Known(s, w) && s.managers[s.links[w].mgr].closed
    ensures Inv(Put(PutLink(s, w, Taken(t, Waiting)), t, Setup(w, Late)))
  {
    assert TaskOk(s, t) && LinkOk(s, w);
    var u := Put(PutLink(s, w, Taken(t, Waiting)), t, Setup(w, Late));
    forall x | x in u.tasks ensures TaskOk(u, x) { assert x in s.tasks ==> TaskOk(s, x); }
    forall x | x in u.links ensures LinkOk(u, x) && LostOk(u, x) && QuietOk(u, x) {
      assert x in s.links ==> LinkOk(s, x) && LostOk(s, x) && QuietOk(s, x);
    }
    forall r, x | r in u.tasks && x in u.links ensures OwedOk(u, r, x) {
      assert r in s.tasks && x in s.links ==> OwedOk(s, r, x);
    }
  }

  lemma InTimeAddKeeps(s: State, t: nat, w: nat)
    requires Inv(s) && t in s.tasks && s.tasks[t] == Setup(w, Adding) && Known(s, w) && !s.managers[s.links[w].mgr].closed
    ensures Inv(Put(PutLink(s, w, InTable), t, Setup(w, Rechecking)))
  {
    assert TaskOk(s, t) && LinkOk(s, w);
    var u := Put(PutLink(s, w, InTable), t, Setup(w, Rechecking));
    forall x | x in u.tasks ensures TaskOk(u, x) { assert x in s.tasks ==> TaskOk(s, x); }
    forall x | x in u.links ensures LinkOk(u, x) && LostOk(u, x) && QuietOk(u, x) {
      assert x in s.links ==> LinkOk(s, x) && LostOk(s, x) && QuietOk(s, x);
    }
    forall r, x | r in u.tasks && x in u.links ensures OwedOk(u, r, x) {
      assert r in s.tasks && x in s.links ==> OwedOk(s, r, x);
    }
  }

  lemma SetupSweptKeeps(s: State, t: nat, w: nat)
    requires Inv(s) && t in s.tasks && s.tasks[t] == Setup(w, Sweeping) && NoneTaken(s, t)
    ensures Inv(Put(s, t, Setup(w, Unlinking)))
  {
    assert TaskOk(s, t) && LinkOk(s, w);
    var u := Put(s, t, Setup(w, Unlinking));
    forall x | x in u.tasks ensures TaskOk(u, x) { assert x in s.tasks ==> TaskOk(s, x); }
    forall x | x in u.links ensures LinkOk(u, x) && LostOk(u, x) && QuietOk(u, x) {
      assert x in s.links ==> LinkOk(s, x) && LostOk(s, x) && QuietOk(s, x);
    }
    forall r, x | r in u.tasks && x in u.links ensures OwedOk(u, r, x) {
      assert r in s.tasks && x in s.links ==> OwedOk(s, r, x);
    }
  }

  lemma RevokeSweptKeeps(s: State, t: nat)
    requires Inv(s) && RevokeIs(s, t, Closing) && NoneTaken(s, t) && !s.tasks[t].retire
    ensures Inv(Put(s, t, Revoke(false, Dropping, s.tasks[t].adds, s.tasks[t].mgr)))
  {
    assert TaskOk(s, t);
    var u := Put(s, t, Revoke(false, Dropping, s.tasks[t].adds, s.tasks[t].mgr));
    forall x | x in u.tasks ensures TaskOk(u, x) { assert x in s.tasks ==> TaskOk(s, x); }
    forall x | x in u.links ensures LinkOk(u, x) && LostOk(u, x) && QuietOk(u, x) {
      assert x in s.links ==> LinkOk(s, x) && LostOk(s, x) && QuietOk(s, x);
    }
    forall r, x | r in u.tasks && x in u.links ensures OwedOk(u, r, x) {
      assert r in s.tasks && x in s.links ==> OwedOk(s, r, x);
    }
  }

  lemma RetireSweptKeeps(s: State, t: nat)
    requires Inv(s) && RevokeIs(s, t, Closing) && NoneTaken(s, t) && s.tasks[t].retire
    ensures Inv(Put(s.(lock := None), t, Revoke(true, Through, s.tasks[t].adds, s.tasks[t].mgr)))
  {
    assert TaskOk(s, t);
    var u := Put(s.(lock := None), t, Revoke(true, Through, s.tasks[t].adds, s.tasks[t].mgr));
    forall x | x in u.tasks ensures TaskOk(u, x) { assert x in s.tasks ==> TaskOk(s, x); }
    forall x | x in u.links ensures LinkOk(u, x) && LostOk(u, x) && QuietOk(u, x) {
      assert x in s.links ==> LinkOk(s, x) && LostOk(s, x) && QuietOk(s, x);
    }
    forall r, x | r in u.tasks && x in u.links ensures OwedOk(u, r, x) {
      assert r in s.tasks && x in s.links ==> OwedOk(s, r, x);
    }
  }

  lemma StaleKeeps(s: State)
    requires Inv(s) && (s.current.Some? ==> s.current.value < |s.managers| && s.managers[s.current.value].closed)
    ensures Inv(s.(current := None))
  {
    var u := s.(current := None);
    forall x | x in u.tasks ensures TaskOk(u, x) { assert x in s.tasks ==> TaskOk(s, x); }
    forall x | x in u.links ensures LinkOk(u, x) && LostOk(u, x) && QuietOk(u, x) {
      assert x in s.links ==> LinkOk(s, x) && LostOk(s, x) && QuietOk(s, x);
    }
    forall r, x | r in u.tasks && x in u.links ensures OwedOk(u, r, x) {
      assert r in s.tasks && x in s.links ==> OwedOk(s, r, x);
    }
  }

  lemma RefusedKeeps(s: State, t: nat, w: nat)
    requires Inv(s) && t in s.tasks && s.tasks[t] == Setup(w, Unlinking)
    ensures Inv(Put(s, t, Setup(w, Refused)))
  {
    assert TaskOk(s, t) && LinkOk(s, w);
    var u := Put(s, t, Setup(w, Refused));
    forall x | x in u.tasks ensures TaskOk(u, x) { assert x in s.tasks ==> TaskOk(s, x); }
    forall x | x in u.links ensures LinkOk(u, x) && LostOk(u, x) && QuietOk(u, x) {
      assert x in s.links ==> LinkOk(s, x) && LostOk(s, x) && QuietOk(s, x);
    }
    forall r, x | r in u.tasks && x in u.links ensures OwedOk(u, r, x) {
      assert r in s.tasks && x in s.links ==> OwedOk(s, r, x);
    }
  }

  lemma DropKeeps(s: State, t: nat)
    requires Inv(s) && RevokeIs(s, t, Dropping)
    ensures Inv(Put(s.(current := None, lock := None), t,
                    Revoke(s.tasks[t].retire, Through, s.tasks[t].adds, s.tasks[t].mgr)))
  {
    assert TaskOk(s, t);
    var u := Put(s.(current := None, lock := None), t, Revoke(s.tasks[t].retire, Through, s.tasks[t].adds, s.tasks[t].mgr));
    forall x | x in u.tasks ensures TaskOk(u, x) { assert x in s.tasks ==> TaskOk(s, x); }
    forall x | x in u.links ensures LinkOk(u, x) && LostOk(u, x) && QuietOk(u, x) {
      assert x in s.links ==> LinkOk(s, x) && LostOk(s, x) && QuietOk(s, x);
    }
    forall r, x | r in u.tasks && x in u.links ensures OwedOk(u, r, x) {
      assert r in s.tasks && x in s.links ==> OwedOk(s, r, x);
    }
  }

  lemma AddDropKeeps(s: State, t: nat)
    requires Inv(s) && t in s.tasks && s.tasks[t] == Add(Entered)
    ensures Inv(Put(s.(current := None), t, Add(Dropped)))
  {
    assert TaskOk(s, t);
    var u := Put(s.(current := None), t, Add(Dropped));
    forall x | x in u.tasks ensures TaskOk(u, x) { assert x in s.tasks ==> TaskOk(s, x); }
    forall x | x in u.links ensures LinkOk(u, x) && LostOk(u, x) && QuietOk(u, x) {
      assert x in s.links ==> LinkOk(s, x) && LostOk(s, x) && QuietOk(s, x);
    }
    forall r, x | r in u.tasks && x in u.links ensures OwedOk(u, r, x) {
      assert r in s.tasks && x in s.links ==> OwedOk(s, r, x);
    }
  }

  lemma OwnDoneKeeps(s: State, t: nat)
    requires Inv(s) && t in s.tasks && s.tasks[t].OwnClose?
    ensures Inv(Put(s, t, OwnClosed(s.tasks[t].link)))
  {
    assert TaskOk(s, t);
    var u := Put(s, t, OwnClosed(s.tasks[t].link));
    forall x | x in u.tasks ensures TaskOk(u, x) { assert x in s.tasks ==> TaskOk(s, x); }
    forall x | x in u.links ensures LinkOk(u, x) && LostOk(u, x) && QuietOk(u, x) {
      assert x in s.links ==> LinkOk(s, x) && LostOk(s, x) && QuietOk(s, x);
    }
    forall r, x | r in u.tasks && x in u.links ensures OwedOk(u, r, x) {
      assert r in s.tasks && x in s.links ==> OwedOk(s, r, x);
    }
  }

  lemma RevokeBeginKeeps(s: State, t: nat, retire: bool)
    requires Inv(s) && t !in s.tasks && s.lock.None?
    ensures Inv(Put(s.(lock := Some(t)), t, Revoke(retire, Begun, 0, None)))
  {
    var u := Put(s.(lock := Some(t)), t, Revoke(retire, Begun, 0, None));
    forall x | x in u.tasks ensures TaskOk(u, x) { assert x in s.tasks ==> TaskOk(s, x); }
    forall x | x in u.links ensures LinkOk(u, x) && LostOk(u, x) && QuietOk(u, x) {
      assert x in s.links ==> LinkOk(s, x) && LostOk(s, x) && QuietOk(s, x);
    }
    forall r, x | r in u.tasks && x in u.links ensures OwedOk(u, r, x) {
      assert r in s.tasks && x in s.links ==> OwedOk(s, r, x);
    }
  }

  lemma ForbidKeeps(s: State, t: nat)
    requires Inv(s) && RevokeIs(s, t, Begun)
    ensures Inv(Put(s.(allowed := false), t, Revoke(s.tasks[t].retire, Forbidden, s.adds, None)))
  {
    assert TaskOk(s, t);
    var u := Put(s.(allowed := false), t, Revoke(s.tasks[t].retire, Forbidden, s.adds, None));
    forall x | x in u.tasks ensures TaskOk(u, x) { assert x in s.tasks ==> TaskOk(s, x); }
    forall x | x in u.links ensures LinkOk(u, x) && LostOk(u, x) && QuietOk(u, x) {
      assert x in s.links ==> LinkOk(s, x) && LostOk(s, x) && QuietOk(s, x);
    }
    forall r, x | r in u.tasks && x in u.links ensures OwedOk(u, r, x) {
      assert r in s.tasks && x in s.links ==> OwedOk(s, r, x);
    }
  }

  lemma LoadingKeeps(s: State, t: nat)
    requires Inv(s) && RevokeIs(s, t, Forbidden)
    ensures Inv(Loading(s, t))
  {
    assert TaskOk(s, t);
    var u := Loading(s, t);
    forall x | x in u.tasks ensures TaskOk(u, x) { assert x in s.tasks ==> TaskOk(s, x); }
    forall x | x in u.links ensures LinkOk(u, x) && LostOk(u, x) && QuietOk(u, x) {
      assert x in s.links ==> LinkOk(s, x) && LostOk(s, x) && QuietOk(s, x);
    }
    forall r, x | r in u.tasks && x in u.links ensures OwedOk(u, r, x) {
      assert OwedOk(s, r, x) && LinkOk(s, x) && QuietOk(s, x);
    }
  }

  lemma AddBeginKeeps(s: State, t: nat)
    requires Inv(s) && t !in s.tasks && s.lock.None?
    ensures Inv(Put(s.(lock := Some(t)), t, Add(Entered)))
  {
    var u := Put(s.(lock := Some(t)), t, Add(Entered));
    forall x | x in u.tasks ensures TaskOk(u, x) { assert x in s.tasks ==> TaskOk(s, x); }
    forall x | x in u.links ensures LinkOk(u, x) && LostOk(u, x) && QuietOk(u, x) {
      assert x in s.links ==> LinkOk(s, x) && LostOk(s, x) && QuietOk(s, x);
    }
    forall r, x | r in u.tasks && x in u.links ensures OwedOk(u, r, x) {
      assert r in s.tasks && x in s.links ==> OwedOk(s, r, x);
    }
  }

  lemma AdmitKeeps(s: State, t: nat)
    requires Inv(s) && t in s.tasks && s.tasks[t] == Add(Dropped)
    ensures Inv(Admitting(s, t))
  {
    assert TaskOk(s, t);
    var u := Admitting(s, t);
    forall x | x in u.tasks ensures TaskOk(u, x) { assert x in s.tasks ==> TaskOk(s, x); }
    forall x | x in u.links ensures LinkOk(u, x) && LostOk(u, x) && QuietOk(u, x) {
      assert x in s.links ==> LinkOk(s, x) && LostOk(s, x) && QuietOk(s, x);
    }
    forall r, x | r in u.tasks && x in u.links ensures OwedOk(u, r, x) {
      assert r in s.tasks && x in s.links ==> OwedOk(s, r, x);
    }
  }

  lemma OwnBeginKeeps(s: State, t: nat, w: nat)
    requires Inv(s) && t !in s.tasks && Known(s, w) && !s.links[w].place.Pending?
    ensures Inv(Put(s, t, OwnClose(w)))
  {
    var u := Put(s, t, OwnClose(w));
    forall x | x in u.tasks ensures TaskOk(u, x) { assert x in s.tasks ==> TaskOk(s, x); }
    forall x | x in u.links ensures LinkOk(u, x) && LostOk(u, x) && QuietOk(u, x) {
      assert x in s.links ==> LinkOk(s, x) && LostOk(s, x) && QuietOk(s, x);
    }
    forall r, x | r in u.tasks && x in u.links ensures OwedOk(u, r, x) {
      assert r in s.tasks && x in s.links ==> OwedOk(s, r, x);
    }
  }

  lemma UnlinkKeeps(s: State, t: nat)
    requires Inv(s) && SetupIs(s, t, Unlinking)
    ensures Inv(Do(s, Unlink(t)))
  {
    assert TaskOk(s, t);
    if s.current == Some(s.links[s.tasks[t].link].mgr) {
      StaleKeeps(s);
      RefusedKeeps(s.(current := None), t, s.tasks[t].link);
    } else {
      RefusedKeeps(s, t, s.tasks[t].link);
    }
  }

  lemma SelfRemovedKeeps(s: State, t: nat)
    requires Inv(s) && t in s.tasks && s.tasks[t].OwnClose? && Known(s, s.tasks[t].link)
    ensures Inv(SelfRemoved(s, t, s.tasks[t].link))
  {
    var w := s.tasks[t].link;
    if s.links[w].place.InTable? {
      PlaceKeeps(s, w, Removed);
      OwnDoneKeeps(PutLink(s, w, Removed), t);
    } else {
      OwnDoneKeeps(s, t);
    }
  }

  lemma SetupStepKeeps(s: State, l: Label)
    requires Inv(s) && Enabled(s, l)
    requires l.Lookup? || l.AddLink? || l.LateDone? || l.Recheck? || l.Unlink? || l.CloseLink? || l.OwnBegin?
             || l.OwnRemove?
    ensures Inv(Do(s, l))
  {
    match l {
      case Lookup(t, w) => LookedKeeps(s, t, w);
      case AddLink(t) =>
        var w := s.tasks[t].link;
        if s.managers[s.links[w].mgr].closed { LateAddKeeps(s, t, w); } else { InTimeAddKeeps(s, t, w); }
      case LateDone(t) => LateDoneKeeps(s, t, s.tasks[t].link);
      case Recheck(t) => RecheckKeeps(s, t, s.tasks[t].link);
      case Unlink(t) => UnlinkKeeps(s, t);
      case CloseLink(t, w) =>
        assert LinkOk(s, w);
        PlaceKeeps(s, w, if s.links[w].place.at.Waiting? then Taken(t, Cut)
                         else if s.links[w].place.at.Cut? then Taken(t, Detached) else Gone);
      case OwnBegin(t, w) => OwnBeginKeeps(s, t, w);
      case OwnRemove(t) => SelfRemovedKeeps(s, t);
    }
  }

  lemma CloseAllStepKeeps(s: State, l: Label)
    requires Inv(s) && Enabled(s, l) && (l.Mark? || l.SweepDone?)
    ensures Inv(Do(s, l))
  {
    match l {
      case Mark(t) =>
        if s.tasks[t].Setup? {
          SetupMarkKeeps(s, t, s.tasks[t].link, s.links[s.tasks[t].link].mgr);
        } else {
          RevokeMarkKeeps(s, t, s.tasks[t].mgr.value);
        }
      case SweepDone(t) =>
        if s.tasks[t].Setup? {
          SetupSweptKeeps(s, t, s.tasks[t].link);
        } else if s.tasks[t].retire {
          RetireSweptKeeps(s, t);
        } else {
          RevokeSweptKeeps(s, t);
        }
    }
  }

  lemma RevokeStepKeeps(s: State, l: Label)
    requires Inv(s) && Enabled(s, l) && (l.RevokeBegin? || l.Forbid? || l.Load? || l.Drop?)
    ensures Inv(Do(s, l))
  {
    match l {
      case RevokeBegin(t, retire) => RevokeBeginKeeps(s, t, retire);
      case Forbid(t) => ForbidKeeps(s, t);
      case Load(t) => LoadingKeeps(s, t);
      case Drop(t) => DropKeeps(s, t);
    }
  }

  lemma AddStepKeeps(s: State, l: Label)
    requires Inv(s) && Enabled(s, l) && (l.AddBegin? || l.AddDrop? || l.Admit?)
    ensures Inv(Do(s, l))
  {
    match l {
      case AddBegin(t) => AddBeginKeeps(s, t);
      case AddDrop(t) => AddDropKeeps(s, t);
      case Admit(t) => AdmitKeeps(s, t);
    }
  }

  lemma StepKeepsInv(s: State, l: Label)
    requires Inv(s) && Enabled(s, l)
    ensures Inv(Do(s, l))
  {
    if l.RevokeBegin? || l.Forbid? || l.Load? || l.Drop? {
      RevokeStepKeeps(s, l);
    } else if l.AddBegin? || l.AddDrop? || l.Admit? {
      AddStepKeeps(s, l);
    } else if l.Mark? || l.SweepDone? {
      CloseAllStepKeeps(s, l);
    } else {
      SetupStepKeeps(s, l);
    }
  }

  lemma InitInv()
    ensures Inv(INIT)
  {
  }

  lemma {:induction false} RunKeepsInv(s: State, ls: seq<Label>)
    requires Inv(s) && CanRun(s, ls)
    ensures Inv(Run(s, ls))
    decreases |ls|
  {
    if ls != [] {
      StepKeepsInv(s, ls[0]);
      RunKeepsInv(Do(s, ls[0]), ls[1..]);
    }
  }

  // ---------- main results ----------

  /** A link has been closed, removed by its own Close, or is being closed by a goroutine that took it. */
  predicate Accounted(s: State, w: nat)
    requires w in s.links
  {
    var place := s.links[w].place;
    place.Gone? || place.Removed? || (place.Taken? && place.t in s.tasks && Sweeps(s.tasks[place.t]))
  }

  /** In every interleaving a closed manager's table is empty, and every link ever added to it, however
      late, is accounted for. An open manager loses a link only to the link's own Close. */
  lemma ClosedManagersKeepNoLink(ls: seq<Label>, m: nat)
    requires CanRun(INIT, ls) && m < |Run(INIT, ls).managers|
    ensures var s := Run(INIT, ls);
            && (s.managers[m].closed ==> Table(s, m) == {})
            && forall w :: w in s.links && s.links[w].mgr == m && !s.links[w].place.Pending? ==>
                 if s.managers[m].closed then Accounted(s, w) else w in Table(s, m) || s.links[w].place.Removed?
  {
    var s := Run(INIT, ls);
    InitInv();
    RunKeepsInv(INIT, ls);
    assert forall w :: w in s.links ==> LinkOk(s, w);
  }

  /** A manager once closed stays closed. */
  lemma StaysClosed(s: State, l: Label, m: nat)
    requires Enabled(s, l) && m < |s.managers| && s.managers[m].closed
    ensures m < |Do(s, l).managers| && Do(s, l).managers[m].closed
  {
  }

  lemma {:induction false} ClosedForGood(s: State, ls: seq<Label>, m: nat)
    requires Inv(s) && CanRun(s, ls) && m < |s.managers| && s.managers[m].closed
    ensures m < |Run(s, ls).managers| && Run(s, ls).managers[m].closed && Table(Run(s, ls), m) == {}
    decreases |ls|
  {
    if ls == [] {
      assert forall w :: w in s.links ==> LinkOk(s, w);
    } else {
      StaysClosed(s, ls[0], m);
      StepKeepsInv(s, ls[0]);
      ClosedForGood(Do(s, ls[0]), ls[1..], m);
    }
  }

  /** Goroutine `t` closed manager `m` and has yet to take it out of the dispatcher's map. */
  predicate WillUnlink(s: State, t: nat, m: nat) {
    t in s.tasks &&
    match s.tasks[t]
    case Setup(w, step) => (step.Sweeping? || step.Unlinking?) && w in s.links && s.links[w].mgr == m
    case Revoke(retire, phase, _, mgr) => !retire && (phase.Closing? || phase.Dropping?) && mgr == Some(m)
    case _ => false
  }

  ghost predicate SomebodyUnlinks(s: State, m: nat) { exists t :: WillUnlink(s, t, m) }

  /** A retirement has taken the manager it is about to close out of the map. */
  predicate RetiresOther(s: State, t: nat)
    requires t in s.tasks
  {
    var k := s.tasks[t];
    k.Revoke? && k.retire && k.phase.Loaded? ==> k.mgr.Some? && k.mgr.value < |s.managers| && s.current != k.mgr
  }

  /** The map leads to an open manager, or somebody is about to take it out. */
  ghost predicate MapOk(s: State) {
    && (s.current.Some? ==>
          && s.current.value < |s.managers|
          && (s.managers[s.current.value].closed ==> SomebodyUnlinks(s, s.current.value)))
    && forall t | t in s.tasks :: RetiresOther(s, t)
  }

  lemma MarkedUnlinks(s: State, t: nat)
    requires Inv(s) && MapOk(s) && Enabled(s, Mark(t)) && s.current.Some?
    requires MarkedBy(s, t).managers[s.current.value].closed
    ensures SomebodyUnlinks(MarkedBy(s, t), s.current.value)
  {
    var u, m := MarkedBy(s, t), s.current.value;
    assert TaskOk(s, t) && RetiresOther(s, t);
    if s.managers[m].closed {
      var x :| WillUnlink(s, x, m);
      assert WillUnlink(u, x, m);
    } else {
      assert WillUnlink(u, t, m);
    }
  }

  predicate OfSetup(l: Label) { l.Lookup? || l.AddLink? || l.LateDone? || l.Recheck? || l.Unlink? || l.SweepDone? }

  predicate OfRevocation(l: Label) { l.RevokeBegin? || l.Forbid? || l.Load? || l.Drop? || l.Mark? }

  lemma SetupUnlinkers(s: State, l: Label, m: nat, x: nat)
    requires Enabled(s, l) && WillUnlink(s, x, m)
    requires OfSetup(l)
    requires Do(s, l).current == Some(m)
    ensures WillUnlink(Do(s, l), x, m)
  {
  }

  lemma RevokeUnlinkers(s: State, l: Label, m: nat, x: nat)
    requires Enabled(s, l) && WillUnlink(s, x, m)
    requires OfRevocation(l) && !l.Mark?
    requires Do(s, l).current == Some(m)
    ensures WillUnlink(Do(s, l), x, m)
  {
  }

  lemma OtherUnlinkers(s: State, l: Label, m: nat, x: nat)
    requires Enabled(s, l) && WillUnlink(s, x, m)
    requires !OfSetup(l) && !OfRevocation(l)
    requires Do(s, l).current == Some(m)
    ensures WillUnlink(Do(s, l), x, m)
  {
  }

  lemma CurrentIsKept(s: State, l: Label)
    requires Enabled(s, l) && !l.Mark? && (s.current.Some? ==> s.current.value < |s.managers|)
    ensures var u := Do(s, l);
      u.current.Some? ==>
        && u.current.value < |u.managers|
        && (u.managers[u.current.value].closed ==> u.current == s.current && s.managers[s.current.value].closed)
  {
  }

  lemma SetupRetirements(s: State, l: Label, t: nat)
    requires MapOk(s) && Enabled(s, l) && t in Do(s, l).tasks
    requires OfSetup(l)
    ensures RetiresOther(Do(s, l), t)
  {
    assert t in s.tasks ==> RetiresOther(s, t);
  }

  lemma RevokeRetirements(s: State, l: Label, t: nat)
    requires MapOk(s) && Enabled(s, l) && t in Do(s, l).tasks
    requires OfRevocation(l)
    ensures RetiresOther(Do(s, l), t)
  {
    assert t in s.tasks ==> RetiresOther(s, t);
  }

  lemma OtherRetirements(s: State, l: Label, t: nat)
    requires MapOk(s) && Enabled(s, l) && t in Do(s, l).tasks
    requires !OfSetup(l) && !OfRevocation(l)
    ensures RetiresOther(Do(s, l), t)
  {
    assert t in s.tasks ==> RetiresOther(s, t);
  }

  lemma UnlinkerStays(s: State, l: Label, m: nat, x: nat)
    requires Enabled(s, l) && !l.Mark? && WillUnlink(s, x, m) && Do(s, l).current == Some(m)
    ensures WillUnlink(Do(s, l), x, m)
  {
    if OfSetup(l) {
      SetupUnlinkers(s, l, m, x);
    } else if OfRevocation(l) {
      RevokeUnlinkers(s, l, m, x);
    } else {
      OtherUnlinkers(s, l, m, x);
    }
  }

  lemma RetirementsStay(s: State, l: Label, t: nat)
    requires MapOk(s) && Enabled(s, l) && t in Do(s, l).tasks
    ensures RetiresOther(Do(s, l), t)
  {
    if OfSetup(l) {
      SetupRetirements(s, l, t);
    } else if OfRevocation(l) {
      RevokeRetirements(s, l, t);
    } else {
      OtherRetirements(s, l, t);
    }
  }

  lemma StepKeepsMap(s: State, l: Label)
    requires Inv(s) && MapOk(s) && Enabled(s, l)
    ensures MapOk(Do(s, l))
  {
    var u := Do(s, l);
    forall t | t in u.tasks ensures RetiresOther(u, t) {
      RetirementsStay(s, l, t);
    }
    if l.Mark? {
      if u.current.Some? && u.managers[u.current.value].closed {
        MarkedUnlinks(s, l.t);
      }
    } else {
      CurrentIsKept(s, l);
      if u.current.Some? && u.managers[u.current.value].closed {
        var m := u.current.value;
        var x :| WillUnlink(s, x, m);
        UnlinkerStays(s, l, m, x);
      }
    }
  }

  lemma {:induction false} RunKeepsMap(s: State, ls: seq<Label>)
    requires Inv(s) && MapOk(s) && CanRun(s, ls)
    ensures MapOk(Run(s, ls))
    decreases |ls|
  {
    if ls != [] {
      StepKeepsInv(s, ls[0]);
      StepKeepsMap(s, ls[0]);
      RunKeepsMap(Do(s, ls[0]), ls[1..]);
    }
  }

  /** In every interleaving a closed manager is in the dispatcher's map only while the goroutine that closed it
      has yet to take it out. */
  lemma NoClosedManagerStays(ls: seq<Label>, m: nat)
    requires CanRun(INIT, ls) && Run(INIT, ls).current == Some(m)
    ensures m < |Run(INIT, ls).managers|
    ensures Run(INIT, ls).managers[m].closed ==> exists t :: WillUnlink(Run(INIT, ls), t, m)
  {
    InitInv();
    RunKeepsMap(INIT, ls);
  }

  // ---------- own Closes ----------

  /** The link has been out of its manager's table since its own Close took it out. */
  predicate HasLeft(s: State, w: nat) { w in s.links && !s.links[w].place.Pending? && !s.links[w].place.InTable? }

  predicate LeaverOk(s: State, t: nat)
    requires t in s.tasks
  {
    s.tasks[t].OwnClosed? ==> HasLeft(s, s.tasks[t].link)
  }

  ghost predicate OwnCloseIsThrough(s: State, w: nat) { exists t :: t in s.tasks && s.tasks[t] == OwnClosed(w) }

  /** Whose own Close is through is out of its table, and no link is taken out unclosed by anybody else. */
  ghost predicate OwnOk(s: State) {
    && (forall t | t in s.tasks :: LeaverOk(s, t))
    && forall w | w in s.links && s.links[w].place.Removed? :: OwnCloseIsThrough(s, w)
  }

  lemma LeftForGood(s: State, l: Label, w: nat)
    requires Enabled(s, l) && HasLeft(s, w) && (l.AddLink? ==> TaskOk(s, l.t))
    ensures HasLeft(Do(s, l), w)
  {
  }

  lemma OneCloserMore(s: State, l: Label, t: nat)
    requires Enabled(s, l) && t in Do(s, l).tasks && Do(s, l).tasks[t].OwnClosed?
    ensures if t in s.tasks && s.tasks[t].OwnClosed? then Do(s, l).tasks[t] == s.tasks[t] else l == OwnRemove(t)
  {
  }

  lemma LeaverStays(s: State, l: Label, t: nat)
    requires Inv(s) && Enabled(s, l) && t in Do(s, l).tasks && (t in s.tasks ==> LeaverOk(s, t))
    ensures LeaverOk(Do(s, l), t)
  {
    if Do(s, l).tasks[t].OwnClosed? {
      OneCloserMore(s, l, t);
      assert TaskOk(s, t);
      if l != OwnRemove(t) {
        assert l.AddLink? ==> TaskOk(s, l.t);
        LeftForGood(s, l, s.tasks[t].link);
      }
    }
  }

  lemma CloserStays(s: State, l: Label, t: nat)
    requires Enabled(s, l) && t in s.tasks && s.tasks[t].OwnClosed?
    ensures t in Do(s, l).tasks && Do(s, l).tasks[t] == s.tasks[t]
  {
  }

  lemma RemovedByItself(s: State, l: Label, w: nat)
    requires Enabled(s, l) && w in Do(s, l).links && Do(s, l).links[w].place.Removed?
    ensures (w in s.links && s.links[w].place.Removed?)
            || (l.OwnRemove? && Do(s, l).tasks[l.t] == OwnClosed(w))
  {
  }

  lemma StepKeepsOwn(s: State, l: Label)
    requires Inv(s) && OwnOk(s) && Enabled(s, l)
    ensures OwnOk(Do(s, l))
  {
    var u := Do(s, l);
    forall t | t in u.tasks ensures LeaverOk(u, t) {
      LeaverStays(s, l, t);
    }
    forall w | w in u.links && u.links[w].place.Removed? ensures OwnCloseIsThrough(u, w) {
      RemovedByItself(s, l, w);
      if w in s.links && s.links[w].place.Removed? {
        var t :| t in s.tasks && s.tasks[t] == OwnClosed(w);
        CloserStays(s, l, t);
      } else {
        assert u.tasks[l.t] == OwnClosed(w);
      }
    }
  }

  lemma {:induction false} RunKeepsOwn(s: State, ls: seq<Label>)
    requires Inv(s) && OwnOk(s) && CanRun(s, ls)
    ensures OwnOk(Run(s, ls))
    decreases |ls|
  {
    if ls != [] {
      StepKeepsInv(s, ls[0]);
      StepKeepsOwn(s, ls[0]);
      RunKeepsOwn(Do(s, ls[0]), ls[1..]);
    }
  }

  /** In every interleaving a link whose own Close is through is in no table, and only such a link is ever taken
      out of a table without being closed. */
  lemma OnlyItsOwnCloseTakesALinkOut(ls: seq<Label>, w: nat)
    requires CanRun(INIT, ls) && w in Run(INIT, ls).links
    ensures var s := Run(INIT, ls);
            && (OwnCloseIsThrough(s, w) ==> HasLeft(s, w))
            && (s.links[w].place.Removed? ==> OwnCloseIsThrough(s, w))
  {
    InitInv();
    RunKeepsOwn(INIT, ls);
    var s := Run(INIT, ls);
    if OwnCloseIsThrough(s, w) {
      var t :| t in s.tasks && s.tasks[t] == OwnClosed(w);
      assert LeaverOk(s, t);
    }
  }

  /** The revocation is through and its user has not been admitted again since. */
  predicate RevokedSince(s: State, r: nat) { RevokeIs(s, r, Through) && s.tasks[r].adds == s.adds }

  predicate SetupThrough(s: State, w: nat)
    requires w in s.links
  {
    s.links[w].setup in s.tasks &&
    var k := s.tasks[s.links[w].setup];
    k.Setup? && (k.step.Refused? || k.step.Established?)
  }

  /** In every interleaving, once a revocation and a connection's setup have both finished and the user was
      not admitted again, the connection's link is accounted for, unless it was lost to an admission. */
  lemma OnlyStraysSurviveRevocation(ls: seq<Label>, r: nat, w: nat)
    requires CanRun(INIT, ls) && RevokedSince(Run(INIT, ls), r) && Known(Run(INIT, ls), w)
    requires SetupThrough(Run(INIT, ls), w) && !Run(INIT, ls).links[w].stray
    ensures !Run(INIT, ls).allowed && Accounted(Run(INIT, ls), w)
  {
    var s := Run(INIT, ls);
    InitInv();
    RunKeepsInv(INIT, ls);
    assert TaskOk(s, r) && LinkOk(s, w) && OwedOk(s, r, w) && TaskOk(s, s.links[w].setup);
  }

  predicate LinkUndisturbed(s: State, w: nat) {
    w in s.links ==>
      && s.links[w].mgr < |s.managers| && !s.managers[s.links[w].mgr].closed
      && (s.links[w].place.Pending? || s.links[w].place.InTable?)
  }

  /** The user may connect, nobody is revoking it or closing its manager, and the link, if it is there, is in the
      table of an open manager or about to get there. */
  predicate Undisturbed(s: State, w: nat) {
    && s.allowed && (s.current.Some? ==> s.current.value < |s.managers| && !s.managers[s.current.value].closed)
    && (forall t | t in s.tasks :: Harmless(s.tasks[t], w))
    && LinkUndisturbed(s, w)
  }

  predicate Harmless(k: Task, w: nat) {
    match k
    case Setup(_, step) => step != Marking
    case Revoke(_, phase, _, _) => phase == Through
    case OwnClose(x) => x != w
    case _ => true
  }

  /** Neither a revocation begins nor the link's own Close. */
  predicate LeavesAlone(l: Label, w: nat) { !l.RevokeBegin? && !(l.OwnBegin? && l.w == w) }

  lemma TasksStayHarmless(s: State, l: Label, w: nat)
    requires Enabled(s, l) && Undisturbed(s, w) && LeavesAlone(l, w)
    ensures forall t | t in Do(s, l).tasks :: Harmless(Do(s, l).tasks[t], w)
  {
    var u := Do(s, l);
    forall t | t in u.tasks ensures Harmless(u.tasks[t], w) {
      assert t in s.tasks ==> Harmless(s.tasks[t], w);
    }
  }

  lemma LinkStaysUndisturbed(s: State, l: Label, w: nat)
    requires Enabled(s, l) && Undisturbed(s, w) && LeavesAlone(l, w)
    ensures LinkUndisturbed(Do(s, l), w)
  {
    if l.Mark? || l.OwnRemove? {
      assert Harmless(s.tasks[l.t], w);
    }
  }

  lemma StepLeavesUndisturbed(s: State, l: Label, w: nat)
    requires Enabled(s, l) && Undisturbed(s, w) && LeavesAlone(l, w)
    ensures Undisturbed(Do(s, l), w)
  {
    TasksStayHarmless(s, l, w);
    LinkStaysUndisturbed(s, l, w);
    if l.Mark? || l.Forbid? || l.Drop? || l.Load? {
      assert Harmless(s.tasks[l.t], w);
    }
  }

  /** Links of a user that is not revoked are left alone: through every interleaving of setups, admissions and
      other links' closes they stay in the table of an open manager. */
  lemma {:induction false} OthersStayOpen(s: State, ls: seq<Label>, w: nat)
    requires CanRun(s, ls) && Undisturbed(s, w) && forall l | l in ls :: LeavesAlone(l, w)
    ensures Undisturbed(Run(s, ls), w)
    decreases |ls|
  {
    if ls != [] {
      assert ls[0] in ls;
      StepLeavesUndisturbed(s, ls[0], w);
      OthersStayOpen(Do(s, ls[0]), ls[1..], w);
    }
  }

  /** No admission of the run is completed while a link is lost. */
  ghost predicate Careful(s: State, ls: seq<Label>)
    requires CanRun(s, ls)
    decreases |ls|
  {
    ls == [] ||
    ((ls[0].Admit? ==> forall w | w in s.links :: !Lost(s, w)) && Careful(Do(s, ls[0]), ls[1..]))
  }

  predicate NoStray(s: State) { forall w :: w in s.links ==> !s.links[w].stray }

  lemma {:induction false} CarefulLeavesNoStray(s: State, ls: seq<Label>)
    requires CanRun(s, ls) && Careful(s, ls) && NoStray(s)
    ensures NoStray(Run(s, ls))
    decreases |ls|
  {
    if ls != [] {
      StepLeavesNoStray(s, ls[0]);
      CarefulLeavesNoStray(Do(s, ls[0]), ls[1..]);
    }
  }

  lemma StepLeavesNoStray(s: State, l: Label)
    requires Enabled(s, l) && NoStray(s) && (l.Admit? ==> forall w | w in s.links :: !Lost(s, w))
    ensures NoStray(Do(s, l))
  {
  }

  /** So over every run whose admissions leave no link lost, every revocation is complete. */
  lemma NoLinkSurvivesRevocation(ls: seq<Label>, r: nat, w: nat)
    requires CanRun(INIT, ls) && Careful(INIT, ls)
    requires RevokedSince(Run(INIT, ls), r) && Known(Run(INIT, ls), w) && SetupThrough(Run(INIT, ls), w)
    ensures !Run(INIT, ls).allowed && Accounted(Run(INIT, ls), w)
  {
    CarefulLeavesNoStray(INIT, ls);
    OnlyStraysSurviveRevocation(ls, r, w);
  }

  // ---------- the converse ----------

  ghost predicate Reaches(s: State, u: State) { exists ls :: CanRun(s, ls) && Run(s, ls) == u }

  lemma {:induction false} RunConcat(s: State, a: seq<Label>, b: seq<Label>)
    requires CanRun(s, a) && CanRun(Run(s, a), b)
    ensures CanRun(s, a + b) && Run(s, a + b) == Run(Run(s, a), b)
    decreases |a|
  {
    if a == [] {
      Seqs.LeftUnit(b);
    } else {
      Seqs.TailOfConcat(a, b);
      RunConcat(Do(s, a[0]), a[1..], b);
    }
  }

  lemma ReachesOn(s: State, u: State, v: State)
    requires Reaches(s, u) && Reaches(u, v)
    ensures Reaches(s, v)
  {
    var a :| CanRun(s, a) && Run(s, a) == u;
    var b :| CanRun(u, b) && Run(u, b) == v;
    RunConcat(s, a, b);
  }

  lemma RunOne(s: State, l: Label)
    requires Enabled(s, l)
    ensures CanRun(s, [l]) && Run(s, [l]) == Do(s, l)
  {
    var one := [l];
    assert one[0] == l && one[1..] == [];
    assert CanRun(Do(s, l), one[1..]) && Run(Do(s, l), one[1..]) == Do(s, l);
  }

  lemma ReachesStep(s: State, u: State, l: Label)
    requires Reaches(s, u) && Enabled(u, l)
    ensures Reaches(s, Do(u, l))
  {
    RunOne(u, l);
    ReachesOn(s, u, Do(u, l));
  }

  lemma ReachesItself(s: State)
    ensures Reaches(s, s)
  {
    assert CanRun(s, []) && Run(s, []) == s;
  }

  /** A link in the open table of a manager that nothing leads to, its setup through. */
  predicate Adrift(s: State, w: nat) {
    && Known(s, w) && s.links[w].place.InTable? && !s.managers[s.links[w].mgr].closed
    && s.current != Some(s.links[w].mgr) && s.links[w].setup in s.tasks
    && s.tasks[s.links[w].setup] == Setup(w, Established)
  }

  /** Once the user is admitted, the setup of a lost link may finish. */
  lemma LostGoesAdrift(s: State, w: nat) returns (u: State)
    requires Inv(s) && s.allowed && s.lock.None? && w in s.links && Lost(s, w)
    ensures Reaches(s, u) && Adrift(u, w) && Inv(u) && u.lock.None? && u.allowed
  {
    var t := s.links[w].setup;
    u := s;
    ReachesItself(s);
    assert LinkOk(s, w) && TaskOk(s, t);
    if s.tasks[t].step.Adding? {
      StepKeepsInv(s, AddLink(t));
      ReachesStep(s, s, AddLink(t));
      u := Do(s, AddLink(t));
    }
    if u.tasks[t].step.Rechecking? {
      StepKeepsInv(u, Recheck(t));
      ReachesStep(s, u, Recheck(t));
      u := Do(u, Recheck(t));
    }
  }

  function TakenBy(s: State, t: nat): set<nat> {
    set x | x in s.links && s.links[x].place.Taken? && s.links[x].place.t == t
  }

  lemma CloseOne(s: State, t: nat, x: nat)
    requires Known(s, x) && s.links[x].place.Taken? && s.links[x].place.t == t
    ensures Reaches(s, PutLink(s, x, Gone))
  {
    ReachesItself(s);
    var u := s;
    if u.links[x].place.at.Waiting? {
      ReachesStep(s, u, CloseLink(t, x));
      u := PutLink(s, x, Taken(t, Cut));
    }
    if u.links[x].place.at.Cut? {
      ReachesStep(s, u, CloseLink(t, x));
      u := PutLink(u, x, Taken(t, Detached));
    }
    ReachesStep(s, u, CloseLink(t, x));
    assert PutLink(u, x, Gone).links == PutLink(s, x, Gone).links;
  }

  /** A goroutine can finish closing the links it took. */
  lemma {:induction false} SweepFinishes(s: State, t: nat) returns (u: State)
    requires forall x :: x in s.links ==> Known(s, x)
    ensures Reaches(s, u) && NoneTaken(u, t) && u.(links := s.links) == s && u.links.Keys == s.links.Keys
    ensures forall x :: x in s.links && x !in TakenBy(s, t) ==> u.links[x] == s.links[x]
    ensures forall x :: x in s.links ==> u.links[x].mgr == s.links[x].mgr
    decreases |TakenBy(s, t)|
  {
    if TakenBy(s, t) == {} {
      ReachesItself(s);
      assert forall x :: x in s.links ==> x !in TakenBy(s, t);
      u := s;
    } else {
      var x :| x in TakenBy(s, t);
      var v := PutLink(s, x, Gone);
      CloseOne(s, t, x);
      assert TakenBy(v, t) == TakenBy(s, t) - {x};
      u := SweepFinishes(v, t);
      ReachesOn(s, v, u);
    }
  }

  lemma {:induction false} Fresh(ids: set<nat>) returns (n: nat)
    ensures forall x :: x in ids ==> x < n
    decreases |ids|
  {
    if ids == {} {
      n := 0;
    } else {
      var x :| x in ids;
      var m := Fresh(ids - {x});
      n := if m > x then m else x + 1;
      assert forall y :: y in ids ==> y == x || y in ids - {x};
    }
  }

  /** A revocation goes through without ever meeting a link that is adrift. */
  lemma RevocationMissesIt(s: State, w: nat) returns (u: State, r: nat)
    requires Inv(s) && Adrift(s, w) && s.lock.None? && s.allowed
    ensures Reaches(s, u) && RevokedSince(u, r) && Adrift(u, w)
  {
    r := Fresh(s.tasks.Keys);
    ReachesItself(s);
    StepKeepsInv(s, RevokeBegin(r, true));
    ReachesStep(s, s, RevokeBegin(r, true));
    var a := Do(s, RevokeBegin(r, true));
    StepKeepsInv(a, Forbid(r));
    ReachesStep(s, a, Forbid(r));
    var b := Do(a, Forbid(r));
    StepKeepsInv(b, Load(r));
    ReachesStep(s, b, Load(r));
    u := Do(b, Load(r));
    if s.current.Some? {
      var c := SweepPasses(u, w, r);
      ReachesOn(s, u, c);
      u := c;
    }
  }

  /** The revocation's sweep reaches its end without touching the link. */
  lemma SweepPasses(s: State, w: nat, r: nat) returns (u: State)
    requires Inv(s) && Adrift(s, w) && s.lock == Some(r) && RevokeIs(s, r, Loaded) && s.tasks[r].retire
    requires s.tasks[r].adds == s.adds && s.tasks[r].mgr.Some? && s.tasks[r].mgr != Some(s.links[w].mgr)
    ensures Reaches(s, u) && RevokedSince(u, r) && Adrift(u, w)
  {
    assert TaskOk(s, r);
    ReachesItself(s);
    StepKeepsInv(s, Mark(r));
    ReachesStep(s, s, Mark(r));
    var c := Do(s, Mark(r));
    u := SweepEnds(c, w, r);
    ReachesOn(s, c, u);
  }

  lemma NotTaken(s: State, w: nat, r: nat)
    requires w in s.links && s.links[w].place.InTable?
    ensures w !in TakenBy(s, r)
  {
  }

  lemma SweepEnds(s: State, w: nat, r: nat) returns (u: State)
    requires Inv(s) && Adrift(s, w) && RevokeIs(s, r, Closing) && s.tasks[r].retire && s.tasks[r].adds == s.adds
    ensures Reaches(s, u) && RevokedSince(u, r) && Adrift(u, w)
  {
    forall x | x in s.links ensures Known(s, x) { assert LinkOk(s, x); }
    NotTaken(s, w, r);
    var d := SweepFinishes(s, r);
    ReachesStep(s, d, SweepDone(r));
    u := Do(d, SweepDone(r));
    SweepDoneRevokes(d, w, r);
  }

  lemma SweepDoneRevokes(s: State, w: nat, r: nat)
    requires Adrift(s, w) && RevokeIs(s, r, Closing) && s.tasks[r].retire
    requires NoneTaken(s, r) && s.tasks[r].adds == s.adds
    ensures RevokedSince(Do(s, SweepDone(r)), r) && Adrift(Do(s, SweepDone(r)), w)
  {
  }

  /** The revocation `r` and the link's setup are through, and the link is still open. */
  predicate Outlives(s: State, r: nat, w: nat) {
    RevokedSince(s, r) && Known(s, w) && SetupThrough(s, w) && !Accounted(s, w)
  }

  /** The condition is exact: whenever an admission is about to be completed while a link is lost, the run
      can go on so that the next revocation and the link's setup both finish and the link is still open. */
  lemma LostLinkCanSurviveRevocation(ls: seq<Label>, t: nat, w: nat)
    requires CanRun(INIT, ls) && Enabled(Run(INIT, ls), Admit(t))
    requires w in Run(INIT, ls).links && Lost(Run(INIT, ls), w)
    ensures exists more: seq<Label>, r: nat ::
              && CanRun(INIT, ls + more) && |more| > 0 && more[0] == Admit(t)
              && Outlives(Run(INIT, ls + more), r, w)
  {
    InitInv();
    RunKeepsInv(INIT, ls);
    var more, c, r := LostLinkOutlives(Run(INIT, ls), t, w);
    RunConcat(INIT, ls, more);
  }

  lemma LostLinkOutlives(s: State, t: nat, w: nat) returns (more: seq<Label>, c: State, r: nat)
    requires Inv(s) && Enabled(s, Admit(t)) && w in s.links && Lost(s, w)
    ensures CanRun(s, more) && Run(s, more) == c && |more| > 0 && more[0] == Admit(t) && Outlives(c, r, w)
  {
    c, r := AdmissionLosesIt(s, t, w);
    var rest :| CanRun(Do(s, Admit(t)), rest) && Run(Do(s, Admit(t)), rest) == c;
    AfterFirst(s, Admit(t), rest);
    more := [Admit(t)] + rest;
  }

  lemma AfterFirst(s: State, l: Label, rest: seq<Label>)
    requires Enabled(s, l) && CanRun(Do(s, l), rest)
    ensures CanRun(s, [l] + rest) && Run(s, [l] + rest) == Run(Do(s, l), rest)
  {
    assert ([l] + rest)[1..] == rest;
  }

  lemma AdriftOutlives(s: State, r: nat, w: nat)
    requires RevokedSince(s, r) && Adrift(s, w)
    ensures Outlives(s, r, w)
  {
  }

  lemma AdmissionLosesIt(s: State, t: nat, w: nat) returns (c: State, r: nat)
    requires Inv(s) && Enabled(s, Admit(t)) && w in s.links && Lost(s, w)
    ensures Reaches(Do(s, Admit(t)), c) && Outlives(c, r, w)
  {
    StepKeepsInv(s, Admit(t));
    assert TaskOk(s, t);
    var a := Do(s, Admit(t));
    var b := LostGoesAdrift(a, w);
    c, r := RevocationMissesIt(b, w);
    ReachesOn(a, b, c);
    AdriftOutlives(c, r, w);
  }

  // ---------- a run that loses a link ----------

  lemma RunSnoc(s: State, ls: seq<Label>, l: Label)
    requires CanRun(s, ls) && Enabled(Run(s, ls), l)
    ensures CanRun(s, ls + [l]) && Run(s, ls + [l]) == Do(Run(s, ls), l)
  {
    RunOne(Run(s, ls), l);
    RunConcat(s, ls, [l]);
  }

  lemma Extend(ls: seq<Label>, s: State, l: Label) returns (longer: seq<Label>, next: State)
    requires CanRun(INIT, ls) && Run(INIT, ls) == s && Enabled(s, l)
    ensures next == Do(s, l) && CanRun(INIT, longer) && Run(INIT, longer) == next
  {
    RunSnoc(INIT, ls, l);
    longer, next := ls + [l], Do(s, l);
  }

  function Started(place: Place, step: SetupAt): State {
    State(false, 0, Some(0), [Manager(false)], map[0 := Link(0, 0, place, false)], map[0 := Setup(0, step)], None)
  }

  lemma Starting() returns (ls: seq<Label>)
    ensures CanRun(INIT, ls) && Run(INIT, ls) == Started(InTable, Rechecking)
  {
    var s: State;
    ls, s := Extend([], INIT, Lookup(0, 0));
    assert s == Started(Pending, Adding);
    ls, s := Extend(ls, s, AddLink(0));
    assert s == Started(InTable, Rechecking);
  }

  /** A connection still being set up when its user is admitted: the admission drops its manager. */
  lemma AdmissionCanLoseALink()
    ensures exists ls: seq<Label>, t: nat, w: nat ::
              && CanRun(INIT, ls) && Enabled(Run(INIT, ls), Admit(t))
              && w in Run(INIT, ls).links && Lost(Run(INIT, ls), w)
  {
    var ls := Starting();
    var s := Started(InTable, Rechecking);
    ls, s := Extend(ls, s, AddBegin(1));
    assert s == Started(InTable, Rechecking).(lock := Some(1), tasks := map[0 := Setup(0, Rechecking), 1 := Add(Entered)]);
    ls, s := Extend(ls, s, AddDrop(1));
    assert Lost(s, 0) && Enabled(s, Admit(1));
  }
}
