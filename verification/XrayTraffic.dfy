/** The Xray core's user table and traffic counters: additions by connections, AddUsers, DelUsers,
    node retirement and the reading of traffic. Counters are unbounded. */
module XrayTraffic {
  import opened Basics
  import opened Format
  import opened Panel
  import opened Traffic
  import MapSums
  import Seqs

  predicate BelongsTo(email: string, tag: string) { tag + [SEPARATOR] <= email }

  predicate PlainTag(tag: string) { SEPARATOR !in tag }

  /** A counter's place: the node's tag and the user's name. */
  datatype Slot = Slot(tag: string, email: string)

  datatype Storage = Storage(up: nat, down: nat)

  function Moved(v: Storage, d: Direction): nat { if d.Upload? then v.up else v.down }

  datatype State = State(uidMap: map<string, int>, retired: map<string, seq<UserTraffic>>,
                         counters: map<Slot, Storage>, minBytes: map<string, int>)

  function UidOf(s: State, email: string): int { if email in s.uidMap then s.uidMap[email] else 0 }

  function RetiredOf(s: State, tag: string): seq<UserTraffic> { if tag in s.retired then s.retired[tag] else [] }

  function MinOf(s: State, tag: string): int { if tag in s.minBytes then s.minBytes[tag] else 0 }

  // ---------- what the operations do ----------

  /** A connection of `uuid` at `tag` moves some bytes. */
  function Count(s: State, tag: string, uuid: string, up: nat, down: nat): State {
    var k := Slot(tag, UserTag(tag, uuid));
    var v := if k in s.counters then s.counters[k] else Storage(0, 0);
    s.(counters := s.counters[k := Storage(v.up + up, v.down + down)])
  }

  /** Moves a user's counted bytes to the retired records. */
  function Retain(s: State, k: Slot, uid: int): State {
    if k !in s.counters then s
    else
      var v, u := s.counters[k], s.(counters := s.counters[k := Storage(0, 0)]);
      if v.up + v.down > 0 then
        u.(retired := s.retired[k.tag := RetiredOf(s, k.tag) + [UserTraffic(uid, v.up, v.down)]])
      else u
  }

  function DelUser(s: State, tag: string, uuid: string): State {
    var k := Slot(tag, UserTag(tag, uuid));
    var u := Retain(s, k, UidOf(s, k.email));
    u.(uidMap := u.uidMap - {k.email}, counters := u.counters - {k})
  }

  function UsersRemoved(s: State, tag: string, users: seq<UserInfo>): State
    decreases |users|
  {
    if users == [] then s else UsersRemoved(DelUser(s, tag, users[0].uuid), tag, users[1..])
  }

  function UsersAdded(s: State, tag: string, users: seq<UserInfo>): State
    decreases |users|
  {
    if users == [] then s
    else
      var n := |users| - 1;
      var u := UsersAdded(s, tag, users[..n]);
      u.(uidMap := u.uidMap[UserTag(tag, users[n].uuid) := users[n].id])
  }

  function RetireUser(s: State, tag: string, email: string): State {
    var u := Retain(s, Slot(tag, email), UidOf(s, email));
    u.(uidMap := u.uidMap - {email})
  }

  function RetireUsers(s: State, tag: string, emails: seq<string>): State
    decreases |emails|
  {
    if emails == [] then s else RetireUsers(RetireUser(s, tag, emails[0]), tag, emails[1..])
  }

  function DropNode(s: State, tag: string): State {
    s.(counters := map k | k in s.counters && k.tag != tag :: s.counters[k], minBytes := s.minBytes - {tag})
  }

  datatype Reading = Reading(state: State, report: seq<UserTraffic>)

  /** Reads one user's counter; small amounts stay where they are. */
  function ReadUser(s: State, tag: string, email: string, reset: bool): Reading {
    var k := Slot(tag, email);
    if k !in s.counters || s.counters[k].up + s.counters[k].down <= MinOf(s, tag) then Reading(s, [])
    else
      var v := s.counters[k];
      if UidOf(s, email) == 0 then Reading(s.(counters := s.counters - {k}), [])
      else Reading(if reset then s.(counters := s.counters[k := Storage(0, 0)]) else s,
                   [UserTraffic(UidOf(s, email), v.up, v.down)])
  }

  function ReadUsers(s: State, tag: string, emails: seq<string>, reset: bool): Reading
    decreases |emails|
  {
    if emails == [] then Reading(s, [])
    else
      var r := ReadUser(s, tag, emails[0], reset);
      var q := ReadUsers(r.state, tag, emails[1..], reset);
      Reading(q.state, r.report + q.report)
  }

  /** Retired records first, then the live counters in the order `emails`. */
  function ReadTraffic(s: State, tag: string, emails: seq<string>, reset: bool): Reading {
    var q := ReadUsers(if reset then s.(retired := s.retired - {tag}) else s, tag, emails, reset);
    Reading(q.state, RetiredOf(s, tag) + q.report)
  }

  /** `order` lists a set once. */
  ghost predicate Lists<T(!new)>(order: seq<T>, all: set<T>) {
    (forall x :: x in order <==> x in all) && forall i, j | 0 <= i < j < |order| :: order[i] != order[j]
  }

  lemma ListsSnoc<T(!new)>(order: seq<T>, all: set<T>, rest: set<T>, x: T)
    requires Lists(order, all - rest) && x in rest && rest <= all
    ensures Lists(order + [x], all - (rest - {x}))
  {
    assert all - (rest - {x}) == (all - rest) + {x};
  }

  // ---------- what the operations on users promise ----------

  function Emails(tag: string, users: seq<UserInfo>): (es: seq<string>)
    ensures |es| == |users| && forall i :: 0 <= i < |users| ==> es[i] == UserTag(tag, users[i].uuid)
    decreases |users|
  {
    if users == [] then [] else Emails(tag, users[..|users| - 1]) + [UserTag(tag, users[|users| - 1].uuid)]
  }

  /** The bytes counted under a name, as a record of its UID. */
  function RecordOf(s: State, tag: string, email: string): seq<UserTraffic> {
    var k := Slot(tag, email);
    if k in s.counters && s.counters[k] != Storage(0, 0)
    then [UserTraffic(UidOf(s, email), s.counters[k].up, s.counters[k].down)] else []
  }

  /** One record for each name with bytes, where it first occurs. */
  function RecordsOf(s: State, tag: string, emails: seq<string>): seq<UserTraffic>
    decreases |emails|
  {
    if emails == [] then []
    else
      var n := |emails| - 1;
      RecordsOf(s, tag, emails[..n]) + if emails[n] in emails[..n] then [] else RecordOf(s, tag, emails[n])
  }

  /** The names are out of the table and the others are not. */
  ghost predicate NamesGone(s: State, t: State, emails: seq<string>) {
    && (forall e :: e in t.uidMap <==> e in s.uidMap && e !in emails)
    && forall e :: e in t.uidMap ==> t.uidMap[e] == s.uidMap[e]
  }

  /** The names' bytes are records of their node now, in order, and nothing else was retired. */
  ghost predicate BytesRetired(s: State, t: State, tag: string, emails: seq<string>) {
    && RetiredOf(t, tag) == RetiredOf(s, tag) + RecordsOf(s, tag, emails)
    && forall x :: x != tag ==> RetiredOf(t, x) == RetiredOf(s, x)
  }

  /** What deleting users leaves: their names, counters and permissions are gone, their bytes are retired. */
  ghost predicate UsersGone(s: State, t: State, tag: string, emails: seq<string>) {
    && NamesGone(s, t, emails) && BytesRetired(s, t, tag, emails) && t.minBytes == s.minBytes
    && (forall k :: k in t.counters <==> k in s.counters && !(k.tag == tag && k.email in emails))
    && forall k :: k in t.counters ==> t.counters[k] == s.counters[k]
  }

  /** What retiring a node leaves, when `emails` are the names with its prefix. */
  ghost predicate NodeGone(s: State, t: State, tag: string, emails: seq<string>) {
    && NamesGone(s, t, emails) && BytesRetired(s, t, tag, emails)
    && (forall k :: k in t.counters <==> k in s.counters && k.tag != tag)
    && (forall k :: k in t.counters ==> t.counters[k] == s.counters[k])
    && t.minBytes == s.minBytes - {tag}
  }

  /** The last record of its name in the list. */
  predicate IsLast(users: seq<UserInfo>, i: nat)
    requires i < |users|
  {
    forall j :: i < j < |users| ==> users[j].uuid != users[i].uuid
  }

  /** What adding users leaves: every listed name has the UID last listed for it, and nothing else changed. */
  ghost predicate UsersThere(s: State, t: State, tag: string, users: seq<UserInfo>) {
    && (forall i :: 0 <= i < |users| && IsLast(users, i) ==> UidIs(t, UserTag(tag, users[i].uuid), users[i].id))
    && (forall e :: e !in Emails(tag, users) ==> (e in t.uidMap <==> e in s.uidMap) && UidOf(t, e) == UidOf(s, e))
    && t.counters == s.counters && t.retired == s.retired && t.minBytes == s.minBytes
  }

  predicate UidIs(t: State, email: string, uid: int) { email in t.uidMap && t.uidMap[email] == uid }

  lemma EmailsDiffer(tag: string, a: string, b: string)
    requires UserTag(tag, a) == UserTag(tag, b)
    ensures a == b
  {
    assert UserTag(tag, a)[|tag| + 1..] == a && UserTag(tag, b)[|tag| + 1..] == b;
  }

  lemma RetainRecords(s: State, tag: string, email: string)
    ensures var t := Retain(s, Slot(tag, email), UidOf(s, email));
            && RetiredOf(t, tag) == RetiredOf(s, tag) + RecordOf(s, tag, email)
            && (forall x :: x != tag ==> RetiredOf(t, x) == RetiredOf(s, x))
            && t.counters.Keys == s.counters.Keys && t.minBytes == s.minBytes && t.uidMap == s.uidMap
            && forall k :: k in s.counters ==> t.counters[k] == if k == Slot(tag, email) then Storage(0, 0) else s.counters[k]
  {
    Seqs.RightUnit(RetiredOf(s, tag));
  }

  lemma RetiresOnTop(s: State, u: State, t: State, tag: string, emails: seq<string>, email: string)
    requires BytesRetired(s, u, tag, emails)
    requires RetiredOf(t, tag) == RetiredOf(u, tag) + if email in emails then [] else RecordOf(s, tag, email)
    requires forall x :: x != tag ==> RetiredOf(t, x) == RetiredOf(u, x)
    ensures BytesRetired(s, t, tag, emails + [email])
  {
    Seqs.InitOfSnoc(emails, email);
    Seqs.Assoc(RetiredOf(s, tag), RecordsOf(s, tag, emails), if email in emails then [] else RecordOf(s, tag, email));
  }

  lemma DelUserGoes(s: State, u: State, tag: string, emails: seq<string>, uuid: string)
    requires UsersGone(s, u, tag, emails)
    ensures UsersGone(s, DelUser(u, tag, uuid), tag, emails + [UserTag(tag, uuid)])
  {
    var e, t := UserTag(tag, uuid), DelUser(u, tag, uuid);
    RetainRecords(u, tag, e);
    Seqs.RightUnit(RetiredOf(u, tag));
    RetiresOnTop(s, u, t, tag, emails, e);
  }

  lemma {:induction false} RemovedUsersGo(s: State, tag: string, users: seq<UserInfo>)
    ensures UsersGone(s, UsersRemoved(s, tag, users), tag, Emails(tag, users))
    decreases |users|
  {
    if users == [] {
      Seqs.RightUnit(RetiredOf(s, tag));
    } else {
      var n := |users| - 1;
      RemovedUsersGo(s, tag, users[..n]);
      DelUsersSnoc(s, tag, users, n);
      Seqs.Whole(users);
      DelUserGoes(s, UsersRemoved(s, tag, users[..n]), tag, Emails(tag, users[..n]), users[n].uuid);
    }
  }

  ghost predicate CountersAtZero(s: State, t: State, tag: string, emails: seq<string>) {
    && t.counters.Keys == s.counters.Keys
    && forall k :: k in s.counters ==>
         t.counters[k] == if k.tag == tag && k.email in emails then Storage(0, 0) else s.counters[k]
  }

  /** As UsersGone, but the counters stay, at zero. */
  ghost predicate UsersAtZero(s: State, t: State, tag: string, emails: seq<string>) {
    && NamesGone(s, t, emails) && BytesRetired(s, t, tag, emails) && t.minBytes == s.minBytes
    && CountersAtZero(s, t, tag, emails)
  }

  lemma OneMoreAtZero(s: State, u: State, t: State, tag: string, emails: seq<string>, email: string)
    requires CountersAtZero(s, u, tag, emails) && t.counters.Keys == u.counters.Keys
    requires forall k :: k in u.counters ==>
               t.counters[k] == if k == Slot(tag, email) then Storage(0, 0) else u.counters[k]
    ensures CountersAtZero(s, t, tag, emails + [email])
  {
  }

  lemma RetireUserGoes(s: State, u: State, tag: string, emails: seq<string>, email: string)
    requires UsersAtZero(s, u, tag, emails)
    ensures UsersAtZero(s, RetireUser(u, tag, email), tag, emails + [email])
  {
    var t := RetireUser(u, tag, email);
    RetainRecords(u, tag, email);
    OneMoreAtZero(s, u, t, tag, emails, email);
    RecordIfFirst(s, u, tag, emails, email);
    RetiresOnTop(s, u, t, tag, emails, email);
  }

  lemma RecordIfFirst(s: State, u: State, tag: string, emails: seq<string>, email: string)
    requires NamesGone(s, u, emails) && CountersAtZero(s, u, tag, emails)
    ensures RecordOf(u, tag, email) == if email in emails then [] else RecordOf(s, tag, email)
  {
  }

  lemma {:induction false} RetiredUsersGo(s: State, tag: string, emails: seq<string>)
    ensures UsersAtZero(s, RetireUsers(s, tag, emails), tag, emails)
    decreases |emails|
  {
    if emails == [] {
      Seqs.RightUnit(RetiredOf(s, tag));
    } else {
      var n := |emails| - 1;
      RetiredUsersGo(s, tag, emails[..n]);
      RetireUsersSnoc(s, tag, emails[..n], emails[n]);
      Seqs.Snoc(emails);
      RetireUserGoes(s, RetireUsers(s, tag, emails[..n]), tag, emails[..n], emails[n]);
    }
  }

  lemma RetiredNodeGoes(s: State, tag: string, emails: seq<string>)
    ensures NodeGone(s, DropNode(RetireUsers(s, tag, emails), tag), tag, emails)
  {
    RetiredUsersGo(s, tag, emails);
  }

  lemma {:induction false} AddedLast(s: State, tag: string, users: seq<UserInfo>, i: nat)
    requires i < |users| && IsLast(users, i)
    ensures UidIs(UsersAdded(s, tag, users), UserTag(tag, users[i].uuid), users[i].id)
    decreases |users|
  {
    var n := |users| - 1;
    if i < n {
      var front := users[..n];
      assert front[i] == users[i] && users[n].uuid != users[i].uuid;
      assert forall j :: i < j < n ==> front[j] == users[j];
      AddedLast(s, tag, front, i);
      if UserTag(tag, users[i].uuid) == UserTag(tag, users[n].uuid) {
        EmailsDiffer(tag, users[i].uuid, users[n].uuid);
      }
    }
  }

  lemma {:induction false} AddedOthers(s: State, tag: string, users: seq<UserInfo>, e: string)
    requires e !in Emails(tag, users)
    ensures var t := UsersAdded(s, tag, users); (e in t.uidMap <==> e in s.uidMap) && UidOf(t, e) == UidOf(s, e)
    decreases |users|
  {
    if users != [] {
      AddedOthers(s, tag, users[..|users| - 1], e);
    }
  }

  lemma {:induction false} AddsKeepBytes(s: State, tag: string, users: seq<UserInfo>)
    ensures var t := UsersAdded(s, tag, users); t.(uidMap := s.uidMap) == s
    decreases |users|
  {
    if users != [] {
      AddsKeepBytes(s, tag, users[..|users| - 1]);
    }
  }

  lemma AddedUsersAreThere(s: State, tag: string, users: seq<UserInfo>)
    ensures UsersThere(s, UsersAdded(s, tag, users), tag, users)
  {
    var t := UsersAdded(s, tag, users);
    AddsKeepBytes(s, tag, users);
    forall i | 0 <= i < |users| && IsLast(users, i) ensures UidIs(t, UserTag(tag, users[i].uuid), users[i].id) {
      AddedLast(s, tag, users, i);
    }
    forall e | e !in Emails(tag, users) ensures (e in t.uidMap <==> e in s.uidMap) && UidOf(t, e) == UidOf(s, e) {
      AddedOthers(s, tag, users, e);
    }
  }

  // ---------- the core's methods ----------

  class Xray {
    var uidMap: map<string, int>
    var retired: map<string, seq<UserTraffic>>
    var counters: map<Slot, Storage>
    var minBytes: map<string, int>
    var allowed: set<string>

    constructor ()
      ensures Now() == State(map[], map[], map[], map[]) && allowed == {}
    {
      uidMap, retired, counters, minBytes, allowed := map[], map[], map[], map[], {};
    }

    function Now(): State
      reads this
    {
      State(uidMap, retired, counters, minBytes)
    }

    /** Names of the counters under a tag. */
    function Counted(tag: string): set<string>
      reads this
    {
      set k | k in counters && k.tag == tag :: k.email
    }

    function Registered(tag: string): set<string>
      reads this
    {
      set email | email in uidMap && BelongsTo(email, tag)
    }

    /** A connection of a node's user adds to its counter, which is made on first use. */
    method AddTraffic(tag: string, uuid: string, up: nat, down: nat)
      modifies this`counters
      ensures Now() == Count(old(Now()), tag, uuid, up, down)
      ensures var k, was := Slot(tag, UserTag(tag, uuid)), old(counters);
              counters == was[k := Storage(up + (if k in was then was[k].up else 0), down + if k in was then was[k].down else 0)]
    {
      var k := Slot(tag, UserTag(tag, uuid));
      if k !in counters {
        counters := counters[k := Storage(0, 0)];
      }
      counters := counters[k := Storage(counters[k].up + up, counters[k].down + down)];
      assert counters == old(counters)[k := counters[k]];
    }

    method RetainUserTraffic(tag: string, email: string, uid: int)
      modifies this`retired, this`counters
      ensures Now() == Retain(old(Now()), Slot(tag, email), uid)
    {
      var k := Slot(tag, email);
      if k in counters {
        var v := counters[k];
        counters := counters[k := Storage(0, 0)];
        if v.up + v.down > 0 {
          retired := retired[tag := (if tag in retired then retired[tag] else []) + [UserTraffic(uid, v.up, v.down)]];
        }
      }
    }

    /** The users are removed one by one; the inbound may refuse one, which ends the call there. */
    method DelUsers(users: seq<UserInfo>, tag: string) returns (done: nat, ok: bool)
      modifies this
      ensures done <= |users| && (ok ==> done == |users|)
      ensures Now() == UsersRemoved(old(Now()), tag, users[..done])
      ensures UsersGone(old(Now()), Now(), tag, Emails(tag, users[..done]))
      ensures allowed == old(allowed) - set u | u in users[..done] :: UserTag(tag, u.uuid)
    {
      done := 0;
      while done < |users|
        invariant done <= |users|
        invariant Now() == UsersRemoved(old(Now()), tag, users[..done])
        invariant allowed == old(allowed) - set u | u in users[..done] :: UserTag(tag, u.uuid)
      {
        var user := UserTag(tag, users[done].uuid);
        var removed: bool := *;
        if !removed {
          RemovedUsersGo(old(Now()), tag, users[..done]);
          return done, false;
        }
        DelUsersSnoc(old(Now()), tag, users, done);
        assert users[..done + 1] == users[..done] + [users[done]];
        allowed := allowed - {user};
        RetainUserTraffic(tag, user, if user in uidMap then uidMap[user] else 0);
        uidMap := uidMap - {user};
        counters := counters - {Slot(tag, user)};
        done := done + 1;
      }
      RemovedUsersGo(old(Now()), tag, users[..done]);
      return done, true;
    }

    /** The table changes only after the inbound has taken every user. */
    method AddUsers(tag: string, users: seq<UserInfo>) returns (ok: bool)
      modifies this
      ensures Now() == if ok then UsersAdded(old(Now()), tag, users) else old(Now())
      ensures ok ==> UsersThere(old(Now()), Now(), tag, users)
      ensures allowed == old(allowed) + if ok then (set u | u in users :: UserTag(tag, u.uuid)) else {}
    {
      ok := *;
      if !ok {
        return;
      }
      var i := 0;
      while i < |users|
        invariant i <= |users|
        invariant Now() == UsersAdded(old(Now()), tag, users[..i])
        invariant allowed == old(allowed) + set u | u in users[..i] :: UserTag(tag, u.uuid)
      {
        assert users[..i + 1][..i] == users[..i] && users[..i + 1] == users[..i] + [users[i]];
        var email := UserTag(tag, users[i].uuid);
        uidMap := uidMap[email := users[i].id];
        allowed := allowed + {email};
        i := i + 1;
      }
      Seqs.Whole(users);
      AddedUsersAreThere(old(Now()), tag, users);
    }

    /** `order` is the order in which the table was walked. */
    method RetireNodeUsers(tag: string) returns (ghost order: seq<string>)
      modifies this
      ensures Lists(order, old(Registered(tag)))
      ensures Now() == DropNode(RetireUsers(old(Now()), tag, order), tag)
      ensures NodeGone(old(Now()), Now(), tag, order)
      ensures allowed == old(allowed) - old(Registered(tag))
    {
      var rest := Registered(tag);
      ghost var all := rest;
      order := [];
      while rest != {}
        invariant rest <= all && Lists(order, all - rest)
        invariant Now() == RetireUsers(old(Now()), tag, order)
        invariant allowed == old(allowed) - (all - rest)
        decreases |rest|
      {
        var email := Seqs.Pick(rest);
        RetireUsersSnoc(old(Now()), tag, order, email);
        allowed := allowed - {email};
        RetainUserTraffic(tag, email, if email in uidMap then uidMap[email] else 0);
        uidMap := uidMap - {email};
        ListsSnoc(order, all, rest, email);
        order, rest := order + [email], rest - {email};
      }
      counters := map k | k in counters && k.tag != tag :: counters[k];
      minBytes := minBytes - {tag};
      RetiredNodeGoes(old(Now()), tag, order);
    }

    method GetUserTrafficSlice(tag: string, reset: bool) returns (report: seq<UserTraffic>, ghost order: seq<string>)
      modifies this`retired, this`counters
      ensures Lists(order, old(Counted(tag)))
      ensures Reading(Now(), report) == ReadTraffic(old(Now()), tag, order, reset)
      ensures ReadsOut(old(Now()), Now(), report, tag, reset)
    {
      report := if tag in retired then retired[tag] else [];
      ghost var first := report;
      if reset {
        retired := retired - {tag};
      }
      ghost var start := Now();
      assert counters == old(counters);
      var rest := Counted(tag);
      ghost var all := rest;
      order := [];
      Seqs.RightUnit(first);
      while rest != {}
        invariant rest <= all && Lists(order, all - rest)
        invariant Now() == ReadUsers(start, tag, order, reset).state
        invariant report == first + ReadUsers(start, tag, order, reset).report
        decreases |rest|
      {
        var email := Seqs.Pick(rest);
        ReadUsersSnoc(start, tag, order, email, reset);
        ghost var before := ReadUsers(start, tag, order, reset).report;
        var entry := ReadCounter(tag, email, reset);
        Seqs.Assoc(first, before, entry);
        report := report + entry;
        ListsSnoc(order, all, rest, email);
        order, rest := order + [email], rest - {email};
      }
      assert all - rest == all;
      ReadTrafficReadsOut(old(Now()), tag, order, reset);
    }

    /** The body of the walk over the counters. */
    method ReadCounter(tag: string, email: string, reset: bool) returns (entry: seq<UserTraffic>)
      modifies this`counters
      ensures Reading(Now(), entry) == ReadUser(old(Now()), tag, email, reset)
    {
      entry := [];
      var k := Slot(tag, email);
      if k in counters {
        var v := counters[k];
        if v.up + v.down > (if tag in minBytes then minBytes[tag] else 0) {
          var uid := if email in uidMap then uidMap[email] else 0;
          if reset {
            counters := counters[k := Storage(0, 0)];
          }
          if uid == 0 {
            counters := counters - {k};
            assert counters == old(counters) - {k};
          } else {
            entry := [UserTraffic(uid, v.up, v.down)];
          }
        }
      }
    }
  }

  lemma {:induction false} DelUsersSnoc(s: State, tag: string, users: seq<UserInfo>, n: nat)
    requires n < |users|
    ensures UsersRemoved(s, tag, users[..n + 1]) == DelUser(UsersRemoved(s, tag, users[..n]), tag, users[n].uuid)
    decreases n
  {
    if n > 0 {
      assert users[..n + 1][1..] == users[1..][..n] && users[..n][1..] == users[1..][..n - 1];
      DelUsersSnoc(DelUser(s, tag, users[0].uuid), tag, users[1..], n - 1);
    }
  }

  lemma {:induction false} RetireUsersSnoc(s: State, tag: string, emails: seq<string>, email: string)
    ensures RetireUsers(s, tag, emails + [email]) == RetireUser(RetireUsers(s, tag, emails), tag, email)
    decreases |emails|
  {
    if emails != [] {
      Seqs.TailOfConcat(emails, [email]);
      RetireUsersSnoc(RetireUser(s, tag, emails[0]), tag, emails[1..], email);
    }
  }

  lemma {:induction false} ReadUsersSnoc(s: State, tag: string, emails: seq<string>, email: string, reset: bool)
    ensures var q := ReadUsers(s, tag, emails, reset);
            var r := ReadUser(q.state, tag, email, reset);
            ReadUsers(s, tag, emails + [email], reset) == Reading(r.state, q.report + r.report)
    decreases |emails|
  {
    if emails == [] {
      Seqs.LeftUnit([email]);
      var r := ReadUser(s, tag, email, reset);
      assert [email][1..] == [];
      Seqs.RightUnit(r.report);
      Seqs.LeftUnit(r.report);
    } else {
      Seqs.TailOfConcat(emails, [email]);
      var first := ReadUser(s, tag, emails[0], reset);
      ReadUsersSnoc(first.state, tag, emails[1..], email, reset);
      var q := ReadUsers(first.state, tag, emails[1..], reset);
      Seqs.Assoc(first.report, q.report, ReadUser(q.state, tag, email, reset).report);
    }
  }

  // ---------- the bytes a core holds ----------

  ghost function LiveShare(uidMap: map<string, int>, uid: int, d: Direction): (Slot, Storage) -> int {
    (k: Slot, v: Storage) => if k.email in uidMap && uidMap[k.email] == uid then Moved(v, d) else 0
  }

  ghost function RetiredShare(uid: int, d: Direction): (string, seq<UserTraffic>) -> int {
    (tag: string, ts: seq<UserTraffic>) => Sum(ts, uid, d)
  }

  /** The bytes of `uid` in live counters. */
  ghost function Live(s: State, uid: int, d: Direction): int {
    MapSums.Sum(s.counters, LiveShare(s.uidMap, uid, d))
  }

  /** The bytes of `uid` in retired records. */
  ghost function Kept(s: State, uid: int, d: Direction): int {
    MapSums.Sum(s.retired, RetiredShare(uid, d))
  }

  ghost function Held(s: State, uid: int, d: Direction): int { Live(s, uid, d) + Kept(s, uid, d) }

  /** Every counter lies under its user's node. */
  ghost predicate Placed(s: State) { forall k | k in s.counters :: BelongsTo(k.email, k.tag) }

  lemma SeparatorAfterTag(email: string, tag: string)
    requires PlainTag(tag) && BelongsTo(email, tag)
    ensures email[|tag|] == SEPARATOR && email[..|tag|] == tag
    ensures forall i | 0 <= i < |tag| :: email[i] != SEPARATOR
  {
    assert forall i | 0 <= i < |tag| :: email[i] == (tag + [SEPARATOR])[i] == tag[i] && tag[i] in tag;
  }

  /** A name determines its node's tag when tags do not contain the separator. */
  lemma TagOfEmail(email: string, a: string, b: string)
    requires PlainTag(a) && PlainTag(b) && BelongsTo(email, a) && BelongsTo(email, b)
    ensures a == b
  {
    SeparatorAfterTag(email, a);
    SeparatorAfterTag(email, b);
  }

  lemma UserTagBelongs(tag: string, uuid: string)
    ensures BelongsTo(UserTag(tag, uuid), tag)
  {
    assert UserTag(tag, uuid)[..|tag| + 1] == tag + [SEPARATOR];
  }

  /** The sums after one counter is set. */
  lemma SetCounter(s: State, k: Slot, v: Storage, uid: int, d: Direction)
    ensures var f, was := LiveShare(s.uidMap, uid, d), if k in s.counters then s.counters[k] else Storage(0, 0);
            Live(s.(counters := s.counters[k := v]), uid, d) == Live(s, uid, d) - f(k, was) + f(k, v)
  {
    MapSums.Set(s.counters, k, v, LiveShare(s.uidMap, uid, d));
  }

  lemma DropCounter(s: State, k: Slot, uid: int, d: Direction)
    ensures var f, was := LiveShare(s.uidMap, uid, d), if k in s.counters then s.counters[k] else Storage(0, 0);
            Live(s.(counters := s.counters - {k}), uid, d) == Live(s, uid, d) - f(k, was)
  {
    var f := LiveShare(s.uidMap, uid, d);
    if k in s.counters {
      MapSums.Remove(s.counters, k, f);
    } else {
      MapSums.Absent(s.counters, k, f);
    }
  }

  lemma AddRetired(s: State, tag: string, t: UserTraffic, uid: int, d: Direction)
    ensures Kept(s.(retired := s.retired[tag := RetiredOf(s, tag) + [t]]), uid, d) ==
            Kept(s, uid, d) + if t.uid == uid then Amount(t, d) else 0
  {
    var f := RetiredShare(uid, d);
    MapSums.Put(s.retired, tag, RetiredOf(s, tag) + [t], f);
    SumSnoc(RetiredOf(s, tag), t, uid, d);
    if tag in s.retired {
      MapSums.Remove(s.retired, tag, f);
    } else {
      MapSums.Absent(s.retired, tag, f);
    }
  }

  lemma CountHolds(s: State, tag: string, uuid: string, up: nat, down: nat, uid: int, d: Direction)
    requires UserTag(tag, uuid) in s.uidMap
    ensures Held(Count(s, tag, uuid, up, down), uid, d) ==
            Held(s, uid, d) + Sum([UserTraffic(s.uidMap[UserTag(tag, uuid)], up, down)], uid, d)
  {
    var k := Slot(tag, UserTag(tag, uuid));
    var v := if k in s.counters then s.counters[k] else Storage(0, 0);
    SetCounter(s, k, Storage(v.up + up, v.down + down), uid, d);
    SumSnoc([], UserTraffic(s.uidMap[k.email], up, down), uid, d);
    Seqs.LeftUnit([UserTraffic(s.uidMap[k.email], up, down)]);
  }

  // ---------- what a removal or a retirement can lose ----------

  /** The bytes of `uid` that do not lie in the counters `lost`, and those that do. */
  ghost function SafeShare(uidMap: map<string, int>, lost: Slot -> bool, uid: int, d: Direction): (Slot, Storage) -> int {
    (k: Slot, v: Storage) => if !lost(k) && k.email in uidMap && uidMap[k.email] == uid then Moved(v, d) else 0
  }

  ghost function LostShare(uidMap: map<string, int>, lost: Slot -> bool, uid: int, d: Direction): (Slot, Storage) -> int {
    (k: Slot, v: Storage) => if lost(k) && k.email in uidMap && uidMap[k.email] == uid then Moved(v, d) else 0
  }

  ghost function Safe(s: State, lost: Slot -> bool, uid: int, d: Direction): int {
    MapSums.Sum(s.counters, SafeShare(s.uidMap, lost, uid, d)) + Kept(s, uid, d)
  }

  ghost function Lost(s: State, lost: Slot -> bool, uid: int, d: Direction): int {
    MapSums.Sum(s.counters, LostShare(s.uidMap, lost, uid, d))
  }

  lemma SafeOrLost(s: State, lost: Slot -> bool, uid: int, d: Direction)
    ensures Held(s, uid, d) == Safe(s, lost, uid, d) + Lost(s, lost, uid, d)
  {
    MapSums.Split(s.counters, LiveShare(s.uidMap, uid, d), SafeShare(s.uidMap, lost, uid, d),
                  LostShare(s.uidMap, lost, uid, d));
  }

  /** No bytes of anybody lie in the counters `lost`. */
  ghost predicate NothingIn(s: State, lost: Slot -> bool) {
    forall k | k in s.counters && lost(k) && UidOf(s, k.email) != 0 :: s.counters[k] == Storage(0, 0)
  }

  lemma LostExactlyWhen(s: State, lost: Slot -> bool)
    ensures (forall uid, d | uid != 0 :: Lost(s, lost, uid, d) == 0) <==> NothingIn(s, lost)
  {
    forall uid, d ensures Lost(s, lost, uid, d) == 0 <==>
        forall k | k in s.counters :: LostShare(s.uidMap, lost, uid, d)(k, s.counters[k]) == 0 {
      MapSums.ZeroExactlyWhen(s.counters, LostShare(s.uidMap, lost, uid, d));
    }
    if !NothingIn(s, lost) {
      var k :| k in s.counters && lost(k) && UidOf(s, k.email) != 0 && s.counters[k] != Storage(0, 0);
      var d := if s.counters[k].up != 0 then Upload else Download;
      assert LostShare(s.uidMap, lost, UidOf(s, k.email), d)(k, s.counters[k]) != 0;
      assert Lost(s, lost, UidOf(s, k.email), d) != 0;
    }
  }

  /** Retiring moves a user's bytes without changing what the core holds. */
  lemma RetainSafe(s: State, k: Slot, lost: Slot -> bool, uid: int, d: Direction)
    requires uid != 0 && !lost(k)
    ensures Safe(Retain(s, k, UidOf(s, k.email)), lost, uid, d) == Safe(s, lost, uid, d)
  {
    if k in s.counters {
      var v, u := s.counters[k], s.(counters := s.counters[k := Storage(0, 0)]);
      MapSums.Set(s.counters, k, Storage(0, 0), SafeShare(s.uidMap, lost, uid, d));
      AddRetired(u, k.tag, UserTraffic(UidOf(s, k.email), v.up, v.down), uid, d);
    }
  }

  /** Only the counters of the same name under other nodes lose bytes when a user is retired. */
  lemma RetireUserSafe(s: State, tag: string, email: string, lost: Slot -> bool, uid: int, d: Direction)
    requires uid != 0 && !lost(Slot(tag, email))
    requires forall k: Slot | k.email == email && k.tag != tag :: lost(k)
    ensures Safe(RetireUser(s, tag, email), lost, uid, d) == Safe(s, lost, uid, d)
  {
    var k := Slot(tag, email);
    var u := Retain(s, k, UidOf(s, email));
    RetainSafe(s, k, lost, uid, d);
    assert k in u.counters ==> u.counters[k] == Storage(0, 0);
    forall j | j in u.counters ensures SafeShare(u.uidMap, lost, uid, d)(j, u.counters[j])
        == SafeShare(u.uidMap - {email}, lost, uid, d)(j, u.counters[j]) {
      assert j.email == email && j.tag == tag ==> j == k;
    }
    MapSums.Same(u.counters, SafeShare(u.uidMap, lost, uid, d), SafeShare(u.uidMap - {email}, lost, uid, d));
  }

  lemma NothingLostUnder(s: State, lost: Slot -> bool, uid: int, d: Direction)
    requires forall k | k in s.counters && lost(k) :: k.email !in s.uidMap
    ensures Held(s, uid, d) == Safe(s, lost, uid, d)
  {
    MapSums.Same(s.counters, LiveShare(s.uidMap, uid, d), SafeShare(s.uidMap, lost, uid, d));
  }

  /** The counters that lie under other nodes than the one a user is deleted from, or a node is retired. */
  ghost function SameName(tag: string, email: string): Slot -> bool { (k: Slot) => k.email == email && k.tag != tag }

  ghost function SamePrefix(tag: string): Slot -> bool { (k: Slot) => BelongsTo(k.email, tag) && k.tag != tag }

  lemma DelUserIs(s: State, tag: string, uuid: string)
    ensures var e := UserTag(tag, uuid);
            DelUser(s, tag, uuid) == RetireUser(s, tag, e).(counters := RetireUser(s, tag, e).counters - {Slot(tag, e)})
  {
  }

  lemma DelUserLeaves(s: State, tag: string, uuid: string, uid: int, d: Direction)
    requires uid != 0
    ensures Held(DelUser(s, tag, uuid), uid, d) == Safe(s, SameName(tag, UserTag(tag, uuid)), uid, d)
  {
    var e, lost := UserTag(tag, uuid), SameName(tag, UserTag(tag, uuid));
    RetireUserSafe(s, tag, e, lost, uid, d);
    var u := RetireUser(s, tag, e);
    NothingLostUnder(u, lost, uid, d);
    DropCounter(u, Slot(tag, e), uid, d);
    DelUserIs(s, tag, uuid);
  }

  /** Deleting a user loses nothing if and only if no bytes lie under its name at another node. */
  lemma RemovalConservesExactlyWhen(s: State, tag: string, uuid: string)
    ensures (forall uid, d | uid != 0 :: Held(DelUser(s, tag, uuid), uid, d) == Held(s, uid, d)) <==>
            NothingIn(s, SameName(tag, UserTag(tag, uuid)))
  {
    var lost := SameName(tag, UserTag(tag, uuid));
    forall uid, d | uid != 0 ensures Held(DelUser(s, tag, uuid), uid, d) == Held(s, uid, d) - Lost(s, lost, uid, d) {
      DelUserLeaves(s, tag, uuid, uid, d);
      SafeOrLost(s, lost, uid, d);
    }
    LostExactlyWhen(s, lost);
  }

  lemma DelUserOnlyLoses(s: State, tag: string, uuid: string, uid: int, d: Direction)
    requires uid != 0
    ensures Held(DelUser(s, tag, uuid), uid, d) <= Held(s, uid, d)
  {
    var lost := SameName(tag, UserTag(tag, uuid));
    DelUserLeaves(s, tag, uuid, uid, d);
    SafeOrLost(s, lost, uid, d);
    MapSums.ZeroExactlyWhen(s.counters, LostShare(s.uidMap, lost, uid, d));
  }

  /** Deletions never give back what an earlier one lost. */
  lemma {:induction false} RemovalsOnlyLose(s: State, tag: string, users: seq<UserInfo>, uid: int, d: Direction)
    requires uid != 0
    ensures Held(UsersRemoved(s, tag, users), uid, d) <= Held(s, uid, d)
    decreases |users|
  {
    if users != [] {
      DelUserOnlyLoses(s, tag, users[0].uuid, uid, d);
      RemovalsOnlyLose(DelUser(s, tag, users[0].uuid), tag, users[1..], uid, d);
    }
  }

  /** Every user of a list is deleted when no bytes lie under its name at another node. */
  ghost predicate RemovesCleanly(s: State, tag: string, users: seq<UserInfo>)
    decreases |users|
  {
    users == [] ||
    (NothingIn(s, SameName(tag, UserTag(tag, users[0].uuid)))
     && RemovesCleanly(DelUser(s, tag, users[0].uuid), tag, users[1..]))
  }

  ghost predicate SameHeld(s: State, t: State) { forall uid, d | uid != 0 :: Held(t, uid, d) == Held(s, uid, d) }

  /** A list of deletions loses nothing if and only if each of them finds no bytes at another node. */
  lemma {:induction false} RemovalsConserveExactlyWhen(s: State, tag: string, users: seq<UserInfo>)
    ensures SameHeld(s, UsersRemoved(s, tag, users)) <==> RemovesCleanly(s, tag, users)
    decreases |users|
  {
    if users != [] {
      var u, t := DelUser(s, tag, users[0].uuid), UsersRemoved(s, tag, users);
      RemovalConservesExactlyWhen(s, tag, users[0].uuid);
      RemovalsConserveExactlyWhen(u, tag, users[1..]);
      forall uid, d | uid != 0 ensures Held(t, uid, d) <= Held(u, uid, d) <= Held(s, uid, d) {
        DelUserOnlyLoses(s, tag, users[0].uuid, uid, d);
        RemovalsOnlyLose(u, tag, users[1..], uid, d);
      }
    }
  }

  lemma {:induction false} RetireUsersSafe(s: State, tag: string, emails: seq<string>, uid: int, d: Direction)
    requires uid != 0 && forall e | e in emails :: BelongsTo(e, tag)
    ensures Safe(RetireUsers(s, tag, emails), SamePrefix(tag), uid, d) == Safe(s, SamePrefix(tag), uid, d)
    decreases |emails|
  {
    if emails != [] {
      RetireUserSafe(s, tag, emails[0], SamePrefix(tag), uid, d);
      RetireUsersSafe(RetireUser(s, tag, emails[0]), tag, emails[1..], uid, d);
    }
  }

  lemma {:induction false} RetireUsersTable(s: State, tag: string, emails: seq<string>)
    ensures forall e :: e in RetireUsers(s, tag, emails).uidMap <==> e in s.uidMap && e !in emails
    ensures RetireUsers(s, tag, emails).counters.Keys == s.counters.Keys
    decreases |emails|
  {
    if emails != [] {
      assert RetireUser(s, tag, emails[0]).counters.Keys == s.counters.Keys;
      RetireUsersTable(RetireUser(s, tag, emails[0]), tag, emails[1..]);
    }
  }

  /** The names that a node's retirement takes out of the table. */
  ghost predicate ListsNames(s: State, tag: string, order: seq<string>) {
    Lists(order, set email | email in s.uidMap && BelongsTo(email, tag))
  }

  function Retired(s: State, tag: string, order: seq<string>): State { DropNode(RetireUsers(s, tag, order), tag) }

  /** Dropping a node whose users are all retired drops no bytes. */
  lemma DropNodeHolds(s: State, tag: string, uid: int, d: Direction)
    requires Placed(s) && forall e | e in s.uidMap :: !BelongsTo(e, tag)
    ensures Held(DropNode(s, tag), uid, d) == Held(s, uid, d)
  {
    var slots := set k | k in s.counters && k.tag == tag;
    assert DropNode(s, tag).counters == s.counters - slots;
    MapSums.Drop(s.counters, slots, LiveShare(s.uidMap, uid, d));
  }

  lemma RetirementLeaves(s: State, tag: string, order: seq<string>, uid: int, d: Direction)
    requires Placed(s) && ListsNames(s, tag, order) && uid != 0
    ensures Held(Retired(s, tag, order), uid, d) == Safe(s, SamePrefix(tag), uid, d)
  {
    RetireUsersSafe(s, tag, order, uid, d);
    RetireUsersTable(s, tag, order);
    var u := RetireUsers(s, tag, order);
    NothingLostUnder(u, SamePrefix(tag), uid, d);
    DropNodeHolds(u, tag, uid, d);
  }

  /** Retiring a node loses nothing if and only if no bytes lie at other nodes under names with its prefix. */
  lemma RetirementConservesExactlyWhen(s: State, tag: string, order: seq<string>)
    requires Placed(s) && ListsNames(s, tag, order)
    ensures (forall uid, d | uid != 0 :: Held(Retired(s, tag, order), uid, d) == Held(s, uid, d)) <==>
            NothingIn(s, SamePrefix(tag))
  {
    var lost := SamePrefix(tag);
    forall uid, d | uid != 0 ensures Held(Retired(s, tag, order), uid, d) == Held(s, uid, d) - Lost(s, lost, uid, d) {
      RetirementLeaves(s, tag, order, uid, d);
      SafeOrLost(s, lost, uid, d);
    }
    LostExactlyWhen(s, lost);
  }

  // ---------- what an addition can shift ----------

  function UserAdded(s: State, tag: string, u: UserInfo): State { s.(uidMap := s.uidMap[UserTag(tag, u.uuid) := u.id]) }

  ghost predicate CountsNothing(s: State, email: string) {
    forall k | k in s.counters && k.email == email :: s.counters[k] == Storage(0, 0)
  }

  ghost function NamedShare(email: string, d: Direction): (Slot, Storage) -> int {
    (k: Slot, v: Storage) => if k.email == email then Moved(v, d) else 0
  }

  /** The live bytes under names that get `uid` between `s` and `t`, and under names that give it up. */
  ghost function GainedShare(s: State, t: State, uid: int, d: Direction): (Slot, Storage) -> int {
    (k: Slot, v: Storage) => if UidOf(t, k.email) == uid && UidOf(s, k.email) != uid then Moved(v, d) else 0
  }

  ghost function StayingShare(s: State, t: State, uid: int, d: Direction): (Slot, Storage) -> int {
    (k: Slot, v: Storage) => if UidOf(t, k.email) == uid && UidOf(s, k.email) == uid then Moved(v, d) else 0
  }

  /** For every UID the names that get it have as many bytes counted as those that give it up. */
  ghost predicate EvensOut(s: State, t: State) {
    forall uid, d | uid != 0 ::
      MapSums.Sum(s.counters, GainedShare(s, t, uid, d)) == MapSums.Sum(s.counters, GainedShare(t, s, uid, d))
  }

  lemma UidShare(s: State, uid: int, d: Direction, k: Slot, v: Storage)
    requires uid != 0
    ensures LiveShare(s.uidMap, uid, d)(k, v) == if UidOf(s, k.email) == uid then Moved(v, d) else 0
  {
  }

  lemma StaysOrLeaves(s: State, t: State, uid: int, d: Direction)
    requires uid != 0
    ensures Live(s, uid, d) ==
            MapSums.Sum(s.counters, StayingShare(s, t, uid, d)) + MapSums.Sum(s.counters, GainedShare(t, s, uid, d))
  {
    var live, staying, leaving := LiveShare(s.uidMap, uid, d), StayingShare(s, t, uid, d), GainedShare(t, s, uid, d);
    forall k | k in s.counters ensures live(k, s.counters[k]) == staying(k, s.counters[k]) + leaving(k, s.counters[k]) {
      var v := s.counters[k];
      UidShare(s, uid, d, k, v);
      assert staying(k, v) == if UidOf(t, k.email) == uid && UidOf(s, k.email) == uid then Moved(v, d) else 0;
      assert leaving(k, v) == if UidOf(s, k.email) == uid && UidOf(t, k.email) != uid then Moved(v, d) else 0;
    }
    MapSums.Split(s.counters, live, staying, leaving);
  }

  /** What a change of the user table does to a UID's bytes. */
  lemma TableShifts(s: State, t: State, uid: int, d: Direction)
    requires t.counters == s.counters && t.retired == s.retired && uid != 0
    ensures Held(t, uid, d) - Held(s, uid, d) ==
            MapSums.Sum(s.counters, GainedShare(s, t, uid, d)) - MapSums.Sum(s.counters, GainedShare(t, s, uid, d))
  {
    StaysOrLeaves(s, t, uid, d);
    StaysOrLeaves(t, s, uid, d);
    forall k | k in s.counters ensures
        StayingShare(s, t, uid, d)(k, s.counters[k]) == StayingShare(t, s, uid, d)(k, s.counters[k]) {
      var v := s.counters[k];
      assert StayingShare(s, t, uid, d)(k, v) ==
             if UidOf(t, k.email) == uid && UidOf(s, k.email) == uid then Moved(v, d) else 0;
    }
    MapSums.Same(s.counters, StayingShare(s, t, uid, d), StayingShare(t, s, uid, d));
  }

  /** A list of additions shifts no bytes if and only if what UIDs gain and give up by it evens out. */
  lemma AdditionsConserveExactlyWhen(s: State, tag: string, users: seq<UserInfo>)
    ensures SameHeld(s, UsersAdded(s, tag, users)) <==> EvensOut(s, UsersAdded(s, tag, users))
  {
    var t := UsersAdded(s, tag, users);
    AddsKeepBytes(s, tag, users);
    forall uid, d | uid != 0 ensures Held(t, uid, d) - Held(s, uid, d) ==
        MapSums.Sum(s.counters, GainedShare(s, t, uid, d)) - MapSums.Sum(s.counters, GainedShare(t, s, uid, d)) {
      TableShifts(s, t, uid, d);
    }
  }

  /** A name's live bytes go from one UID to the other. */
  lemma AdditionShifts(s: State, tag: string, u: UserInfo, uid: int, d: Direction)
    requires uid != 0
    ensures var e := UserTag(tag, u.uuid);
            var named := MapSums.Sum(s.counters, NamedShare(e, d));
            Held(UserAdded(s, tag, u), uid, d) ==
            Held(s, uid, d) - (if UidOf(s, e) == uid then named else 0) + (if u.id == uid then named else 0)
  {
    var e, t := UserTag(tag, u.uuid), UserAdded(s, tag, u);
    var others := SafeShare(s.uidMap, (k: Slot) => k.email == e, uid, d);
    var none: (Slot, Storage) -> int := (_, _) => 0;
    MapSums.Split(s.counters, LiveShare(s.uidMap, uid, d), others, if UidOf(s, e) == uid then NamedShare(e, d) else none);
    MapSums.Split(s.counters, LiveShare(t.uidMap, uid, d), others, if u.id == uid then NamedShare(e, d) else none);
    MapSums.ZeroExactlyWhen(s.counters, none);
  }

  /** Adding a user shifts no bytes if and only if its name keeps its UID or no bytes are counted under it.
      A name that is not in the table has UID 0. */
  lemma AdditionConservesExactlyWhen(s: State, tag: string, u: UserInfo)
    ensures (forall uid, d | uid != 0 :: Held(UserAdded(s, tag, u), uid, d) == Held(s, uid, d)) <==>
            UidOf(s, UserTag(tag, u.uuid)) == u.id || CountsNothing(s, UserTag(tag, u.uuid))
  {
    var e := UserTag(tag, u.uuid);
    forall d ensures MapSums.Sum(s.counters, NamedShare(e, d)) == 0 <==>
        forall k | k in s.counters :: NamedShare(e, d)(k, s.counters[k]) == 0 {
      forall k | k in s.counters ensures NamedShare(e, d)(k, s.counters[k]) >= 0 {
        var v := s.counters[k];
        assert NamedShare(e, d)(k, v) == if k.email == e then Moved(v, d) else 0;
      }
      MapSums.ZeroExactlyWhen(s.counters, NamedShare(e, d));
    }
    forall uid, d | uid != 0 ensures Held(UserAdded(s, tag, u), uid, d) == Held(s, uid, d)
        - (if UidOf(s, e) == uid then MapSums.Sum(s.counters, NamedShare(e, d)) else 0)
        + (if u.id == uid then MapSums.Sum(s.counters, NamedShare(e, d)) else 0) {
      AdditionShifts(s, tag, u, uid, d);
    }
    if UidOf(s, e) != u.id && !CountsNothing(s, e) {
      var k :| k in s.counters && k.email == e && s.counters[k] != Storage(0, 0);
      var d := if s.counters[k].up != 0 then Upload else Download;
      assert NamedShare(e, d)(k, s.counters[k]) != 0;
      var uid := if u.id != 0 then u.id else UidOf(s, e);
      assert Held(UserAdded(s, tag, u), uid, d) != Held(s, uid, d);
    } else if UidOf(s, e) != u.id {
      assert forall d :: MapSums.Sum(s.counters, NamedShare(e, d)) == 0;
    }
  }

  lemma ReadUserHolds(s: State, tag: string, email: string, reset: bool, uid: int, d: Direction)
    requires uid != 0
    ensures var r := ReadUser(s, tag, email, reset);
            Held(s, uid, d) == Held(r.state, uid, d) + (if reset then Sum(r.report, uid, d) else 0)
  {
    var k, r := Slot(tag, email), ReadUser(s, tag, email, reset);
    if k in s.counters {
      var v := s.counters[k];
      DropCounter(s, k, uid, d);
      SetCounter(s, k, Storage(0, 0), uid, d);
      var t := UserTraffic(UidOf(s, email), v.up, v.down);
      SumSnoc([], t, uid, d);
      Seqs.LeftUnit([t]);
      assert Sum([t], uid, d) == if t.uid == uid then Moved(v, d) else 0;
      assert r.report == [] || (r.report == [t] && UidOf(s, email) != 0);
      if r.report == [t] && reset {
        var z := s.(counters := s.counters[k := Storage(0, 0)]);
        assert r.state == z && Kept(z, uid, d) == Kept(s, uid, d);
        assert LiveShare(s.uidMap, uid, d)(k, v) == if t.uid == uid then Moved(v, d) else 0;
        var zero := Storage(0, 0);
        assert Moved(zero, d) == 0 && LiveShare(s.uidMap, uid, d)(k, zero) == 0;
      }
    }
  }

  lemma {:induction false} ReadUsersHolds(s: State, tag: string, emails: seq<string>, reset: bool, uid: int, d: Direction)
    requires uid != 0
    ensures var r := ReadUsers(s, tag, emails, reset);
            Held(s, uid, d) == Held(r.state, uid, d) + (if reset then Sum(r.report, uid, d) else 0)
    decreases |emails|
  {
    if emails != [] {
      var r := ReadUser(s, tag, emails[0], reset);
      ReadUserHolds(s, tag, emails[0], reset, uid, d);
      ReadUsersHolds(r.state, tag, emails[1..], reset, uid, d);
      SumConcat(r.report, ReadUsers(r.state, tag, emails[1..], reset).report, uid, d);
    }
  }

  /** A resetting read takes out exactly what it reports; a plain one takes out nothing. */
  lemma ReadTrafficHolds(s: State, tag: string, emails: seq<string>, reset: bool, uid: int, d: Direction)
    requires uid != 0
    ensures var r := ReadTraffic(s, tag, emails, reset);
            Held(s, uid, d) == Held(r.state, uid, d) + (if reset then Sum(r.report, uid, d) else 0)
  {
    var u := if reset then s.(retired := s.retired - {tag}) else s;
    ReadUsersHolds(u, tag, emails, reset, uid, d);
    SumConcat(RetiredOf(s, tag), ReadUsers(u, tag, emails, reset).report, uid, d);
    if tag in s.retired {
      MapSums.Remove(s.retired, tag, RetiredShare(uid, d));
    } else {
      MapSums.Absent(s.retired, tag, RetiredShare(uid, d));
    }
  }

  // ---------- what a read reports and leaves ----------

  /** What the counters of node `tag` above the node's minimum hold for `uid`. */
  ghost function DueShare(s: State, tag: string, uid: int, d: Direction): (Slot, Storage) -> int {
    (k: Slot, v: Storage) =>
      if k.tag == tag && v.up + v.down > MinOf(s, tag) && UidOf(s, k.email) == uid then Moved(v, d) else 0
  }

  /** A counter after a read: above the minimum of the node read it is dropped when nobody has its name, and
      otherwise at zero when the read resets; any other counter is as before. */
  predicate CounterAfterRead(s: State, t: State, tag: string, reset: bool, k: Slot) {
    if k in s.counters && k.tag == tag && s.counters[k].up + s.counters[k].down > MinOf(s, tag) then
      if UidOf(s, k.email) == 0 then k !in t.counters
      else k in t.counters && t.counters[k] == if reset then Storage(0, 0) else s.counters[k]
    else (k in t.counters <==> k in s.counters) && (k in s.counters ==> t.counters[k] == s.counters[k])
  }

  /** A read of node `tag`: the report has for every UID its retired records and its counters above the
      minimum, and a resetting one leaves none of them. */
  ghost predicate ReadsOut(s: State, t: State, report: seq<UserTraffic>, tag: string, reset: bool) {
    && (forall uid: int, d: Direction | uid != 0 ::
          Sum(report, uid, d) == Sum(RetiredOf(s, tag), uid, d) + MapSums.Sum(s.counters, DueShare(s, tag, uid, d)))
    && (forall k :: CounterAfterRead(s, t, tag, reset, k))
    && t.uidMap == s.uidMap && t.minBytes == s.minBytes
    && RetiredOf(t, tag) == (if reset then [] else RetiredOf(s, tag))
    && forall x :: x != tag ==> RetiredOf(t, x) == RetiredOf(s, x)
  }

  /** The same sum, name by name. */
  ghost function DueOf(s: State, tag: string, emails: seq<string>, uid: int, d: Direction): int
    decreases |emails|
  {
    if emails == [] then 0
    else
      var k := Slot(tag, emails[0]);
      (if k in s.counters then DueShare(s, tag, uid, d)(k, s.counters[k]) else 0) + DueOf(s, tag, emails[1..], uid, d)
  }

  predicate Distinct(emails: seq<string>) { forall i, j :: 0 <= i < j < |emails| ==> emails[i] != emails[j] }

  lemma ReadUserOut(s: State, tag: string, email: string, reset: bool, uid: int, d: Direction)
    requires uid != 0
    ensures var q, k := ReadUser(s, tag, email, reset), Slot(tag, email);
            && Sum(q.report, uid, d) == (if k in s.counters then DueShare(s, tag, uid, d)(k, s.counters[k]) else 0)
            && q.state.uidMap == s.uidMap && q.state.minBytes == s.minBytes && q.state.retired == s.retired
            && q.state.counters - {k} == s.counters - {k}
  {
    var q, k := ReadUser(s, tag, email, reset), Slot(tag, email);
    if k in s.counters {
      var v := s.counters[k];
      assert DueShare(s, tag, uid, d)(k, v) ==
             if v.up + v.down > MinOf(s, tag) && UidOf(s, email) == uid then Moved(v, d) else 0;
      if q.report != [] {
        var t := UserTraffic(UidOf(s, email), v.up, v.down);
        SumSnoc([], t, uid, d);
        assert [] + [t] == q.report;
      }
    }
  }

  lemma ReadUserLeaves(s: State, tag: string, email: string, reset: bool)
    ensures CounterAfterRead(s, ReadUser(s, tag, email, reset).state, tag, reset, Slot(tag, email))
  {
  }

  /** Reading one name does not change what others are due. */
  lemma {:induction false} OthersStayDue(s: State, t: State, k: Slot, emails: seq<string>, uid: int, d: Direction)
    requires t.uidMap == s.uidMap && t.minBytes == s.minBytes && t.counters - {k} == s.counters - {k} && k.email !in emails
    ensures DueOf(t, k.tag, emails, uid, d) == DueOf(s, k.tag, emails, uid, d)
    decreases |emails|
  {
    if emails != [] {
      var j := Slot(k.tag, emails[0]);
      OthersStayDue(s, t, k, emails[1..], uid, d);
      SlotStays(s, t, k, j);
    }
  }

  lemma SlotStays(s: State, t: State, k: Slot, j: Slot)
    requires t.counters - {k} == s.counters - {k} && j != k
    ensures (j in t.counters <==> j in s.counters) && (j in s.counters ==> t.counters[j] == s.counters[j])
  {
    assert j in t.counters <==> j in t.counters - {k};
    assert j in s.counters <==> j in s.counters - {k};
    if j in s.counters {
      assert t.counters[j] == (t.counters - {k})[j] == (s.counters - {k})[j] == s.counters[j];
    }
  }

  lemma {:induction false} ReadUsersReport(s: State, tag: string, emails: seq<string>, reset: bool, uid: int, d: Direction)
    requires uid != 0 && Distinct(emails)
    ensures Sum(ReadUsers(s, tag, emails, reset).report, uid, d) == DueOf(s, tag, emails, uid, d)
    decreases |emails|
  {
    if emails != [] {
      var q := ReadUser(s, tag, emails[0], reset);
      ReadUserOut(s, tag, emails[0], reset, uid, d);
      ReadUsersReport(q.state, tag, emails[1..], reset, uid, d);
      OthersStayDue(s, q.state, Slot(tag, emails[0]), emails[1..], uid, d);
      SumConcat(q.report, ReadUsers(q.state, tag, emails[1..], reset).report, uid, d);
    }
  }

  /** Each name is read once; the counters of other names and nodes stay. */
  lemma {:induction false} ReadUsersLeave(s: State, tag: string, emails: seq<string>, reset: bool, k: Slot)
    requires Distinct(emails)
    ensures var t := ReadUsers(s, tag, emails, reset).state;
            && t.uidMap == s.uidMap && t.minBytes == s.minBytes && t.retired == s.retired
            && if k.tag == tag && k.email in emails then CounterAfterRead(s, t, tag, reset, k)
               else (k in t.counters <==> k in s.counters) && (k in s.counters ==> t.counters[k] == s.counters[k])
    decreases |emails|
  {
    if emails != [] {
      var u := ReadUser(s, tag, emails[0], reset).state;
      ReadUserOut(s, tag, emails[0], reset, 1, Upload);
      ReadUsersLeave(u, tag, emails[1..], reset, k);
      if k == Slot(tag, emails[0]) {
        ReadUserLeaves(s, tag, emails[0], reset);
        assert k.email !in emails[1..];
      } else {
        SlotStays(s, u, Slot(tag, emails[0]), k);
      }
    }
  }

  /** The counters of a list of names, and those of nobody else, make up the node's sum. */
  lemma {:induction false} DueIsListed(s: State, m: map<Slot, Storage>, tag: string, emails: seq<string>, uid: int, d: Direction)
    requires Distinct(emails) && forall e | e in emails :: Slot(tag, e) in m && Slot(tag, e) in s.counters
    requires forall k | k in m :: k in s.counters && m[k] == s.counters[k] && (k.tag == tag ==> k.email in emails)
    ensures MapSums.Sum(m, DueShare(s, tag, uid, d)) == DueOf(s, tag, emails, uid, d)
    decreases |emails|
  {
    var f := DueShare(s, tag, uid, d);
    if emails == [] {
      forall k | k in m ensures f(k, m[k]) == 0 {
        assert k.tag != tag;
      }
      MapSums.Drop(m, m.Keys, f);
      assert m - m.Keys == map[];
    } else {
      var k := Slot(tag, emails[0]);
      MapSums.Remove(m, k, f);
      forall e | e in emails[1..] ensures Slot(tag, e) in m - {k} && Slot(tag, e) in s.counters {
        assert e in emails && e != emails[0];
      }
      forall j | j in m - {k} && j.tag == tag ensures j.email in emails[1..] {
        assert j in m && j.email in emails && j.email != emails[0];
      }
      DueIsListed(s, m - {k}, tag, emails[1..], uid, d);
    }
  }

  lemma ReadTrafficReport(s: State, tag: string, order: seq<string>, reset: bool, uid: int, d: Direction)
    requires Lists(order, set k | k in s.counters && k.tag == tag :: k.email) && uid != 0
    ensures Sum(ReadTraffic(s, tag, order, reset).report, uid, d) ==
            Sum(RetiredOf(s, tag), uid, d) + MapSums.Sum(s.counters, DueShare(s, tag, uid, d))
  {
    var u := if reset then s.(retired := s.retired - {tag}) else s;
    ReadUsersReport(u, tag, order, reset, uid, d);
    SumConcat(RetiredOf(s, tag), ReadUsers(u, tag, order, reset).report, uid, d);
    forall e | e in order ensures Slot(tag, e) in s.counters {
      var k :| k in s.counters && k.tag == tag && k.email == e;
      assert k == Slot(tag, e);
    }
    DueIsListed(u, s.counters, tag, order, uid, d);
    MapSums.Same(s.counters, DueShare(s, tag, uid, d), DueShare(u, tag, uid, d));
  }

  lemma ReadTrafficLeaves(s: State, tag: string, order: seq<string>, reset: bool, k: Slot)
    requires Lists(order, set k | k in s.counters && k.tag == tag :: k.email)
    ensures CounterAfterRead(s, ReadTraffic(s, tag, order, reset).state, tag, reset, k)
  {
    var u := if reset then s.(retired := s.retired - {tag}) else s;
    ReadUsersLeave(u, tag, order, reset, k);
    var t := ReadTraffic(s, tag, order, reset).state;
    assert CounterAfterRead(u, t, tag, reset, k);
  }

  lemma ReadTrafficReadsOut(s: State, tag: string, order: seq<string>, reset: bool)
    requires Lists(order, set k | k in s.counters && k.tag == tag :: k.email)
    ensures var q := ReadTraffic(s, tag, order, reset); ReadsOut(s, q.state, q.report, tag, reset)
  {
    var q, u := ReadTraffic(s, tag, order, reset), if reset then s.(retired := s.retired - {tag}) else s;
    forall uid: int, d: Direction | uid != 0 ensures Sum(q.report, uid, d) ==
        Sum(RetiredOf(s, tag), uid, d) + MapSums.Sum(s.counters, DueShare(s, tag, uid, d)) {
      ReadTrafficReport(s, tag, order, reset, uid, d);
    }
    forall k ensures CounterAfterRead(s, q.state, tag, reset, k) {
      ReadTrafficLeaves(s, tag, order, reset, k);
    }
    ReadUsersLeave(u, tag, order, reset, Slot(tag, ""));
  }

  /** Nothing of the node's users is left: neither in a counter nor in a retired record. */
  ghost predicate NothingLeft(t: State, tag: string) {
    RetiredOf(t, tag) == [] && forall k | k in t.counters && k.tag == tag :: t.counters[k] == Storage(0, 0)
  }

  /** Reading makes progress: with no minimum a resetting read leaves nothing behind. */
  lemma ReadingEmptiesTheNode(s: State, t: State, report: seq<UserTraffic>, tag: string)
    requires ReadsOut(s, t, report, tag, true) && MinOf(s, tag) == 0
    ensures NothingLeft(t, tag)
  {
    forall k | k in t.counters && k.tag == tag ensures t.counters[k] == Storage(0, 0) {
      assert CounterAfterRead(s, t, tag, true, k);
    }
  }

  // ---------- conservation over runs ----------

  datatype Event =
    | Moves(tag: string, uuid: string, up: nat, down: nat)
    | Adds(tag: string, users: seq<UserInfo>)
    | Removes(tag: string, users: seq<UserInfo>)
    | Retires(tag: string, order: seq<string>)
    | Reads(tag: string, order: seq<string>, reset: bool)
    | SetsMinimum(tag: string, bytes: int)

  /** The core, the bytes its users have moved, and the records that resetting reads have returned. */
  datatype Books = Books(core: State, moved: seq<UserTraffic>, reported: seq<UserTraffic>)

  const OPENED := Books(State(map[], map[], map[], map[]), [], [])

  /** Connections belong to registered users; a read or a retirement walks the table once. */
  ghost predicate Possible(b: Books, e: Event) {
    match e
    case Moves(tag, uuid, _, _) => UserTag(tag, uuid) in b.core.uidMap
    case Retires(tag, order) => ListsNames(b.core, tag, order)
    case Reads(tag, order, _) => Lists(order, set k | k in b.core.counters && k.tag == tag :: k.email)
    case _ => true
  }

  function Next(b: Books, e: Event): Books
    requires e.Moves? ==> UserTag(e.tag, e.uuid) in b.core.uidMap
  {
    match e
    case Moves(tag, uuid, up, down) =>
      b.(core := Count(b.core, tag, uuid, up, down),
         moved := b.moved + [UserTraffic(b.core.uidMap[UserTag(tag, uuid)], up, down)])
    case Adds(tag, users) => b.(core := UsersAdded(b.core, tag, users))
    case Removes(tag, users) => b.(core := UsersRemoved(b.core, tag, users))
    case Retires(tag, order) => b.(core := Retired(b.core, tag, order))
    case Reads(tag, order, reset) =>
      var r := ReadTraffic(b.core, tag, order, reset);
      b.(core := r.state, reported := b.reported + if reset then r.report else [])
    case SetsMinimum(tag, n) => b.(core := b.core.(minBytes := b.core.minBytes[tag := n]))
  }

  /** Every user of a list keeps its UID or has no bytes counted when it is added. */
  ghost predicate AddsCleanly(s: State, tag: string, users: seq<UserInfo>)
    decreases |users|
  {
    users == [] ||
    var n := |users| - 1;
    var t, e := UsersAdded(s, tag, users[..n]), UserTag(tag, users[n].uuid);
    AddsCleanly(s, tag, users[..n]) && (UidOf(t, e) == users[n].id || CountsNothing(t, e))
  }

  /** What conservation asks of the caller; see ConservesExactlyWhen. */
  ghost predicate Clean(b: Books, e: Event) {
    match e
    case Adds(tag, users) => EvensOut(b.core, UsersAdded(b.core, tag, users))
    case Removes(tag, users) => RemovesCleanly(b.core, tag, users)
    case Retires(tag, _) => NothingIn(b.core, SamePrefix(tag))
    case _ => true
  }

  /** Per nonzero UID and direction: bytes moved are reported, retired or still live. */
  ghost predicate Balanced(b: Books) {
    forall uid, d | uid != 0 :: Sum(b.moved, uid, d) == Sum(b.reported, uid, d) + Held(b.core, uid, d)
  }

  lemma {:induction false} UsersAddedHolds(s: State, tag: string, users: seq<UserInfo>, uid: int, d: Direction)
    requires AddsCleanly(s, tag, users) && uid != 0
    ensures Held(UsersAdded(s, tag, users), uid, d) == Held(s, uid, d)
    decreases |users|
  {
    if users != [] {
      var n := |users| - 1;
      UsersAddedHolds(s, tag, users[..n], uid, d);
      AdditionConservesExactlyWhen(UsersAdded(s, tag, users[..n]), tag, users[n]);
    }
  }

  lemma {:induction false} CountersShrink(s: State, tag: string, users: seq<UserInfo>)
    ensures UsersRemoved(s, tag, users).counters.Keys <= s.counters.Keys
    decreases |users|
  {
    if users != [] {
      CountersShrink(DelUser(s, tag, users[0].uuid), tag, users[1..]);
    }
  }

  lemma {:induction false} ReadsAddNothing(s: State, tag: string, emails: seq<string>, reset: bool)
    ensures ReadUsers(s, tag, emails, reset).state.counters.Keys <= s.counters.Keys
    ensures ReadUsers(s, tag, emails, reset).state.uidMap == s.uidMap
    decreases |emails|
  {
    if emails != [] {
      ReadsAddNothing(ReadUser(s, tag, emails[0], reset).state, tag, emails[1..], reset);
    }
  }

  lemma StaysPlaced(b: Books, e: Event)
    requires Placed(b.core) && Possible(b, e)
    ensures Placed(Next(b, e).core)
  {
    match e
    case Moves(tag, uuid, _, _) => UserTagBelongs(tag, uuid);
    case Adds(tag, users) => AddsKeepBytes(b.core, tag, users);
    case Removes(tag, users) => CountersShrink(b.core, tag, users);
    case Retires(tag, order) => RetireUsersTable(b.core, tag, order);
    case Reads(tag, order, reset) =>
      ReadsAddNothing(if reset then b.core.(retired := b.core.retired - {tag}) else b.core, tag, order, reset);
    case SetsMinimum(_, _) =>
  }

  /** What an event moves into the core and out of it makes up for what the core then holds. */
  ghost predicate Conserves(b: Books, e: Event, uid: int, d: Direction)
    requires Possible(b, e)
  {
    Sum(Next(b, e).moved, uid, d) - Sum(b.moved, uid, d) ==
    Sum(Next(b, e).reported, uid, d) - Sum(b.reported, uid, d) + Held(Next(b, e).core, uid, d) - Held(b.core, uid, d)
  }

  lemma CleanConserves(b: Books, e: Event, uid: int, d: Direction)
    requires Placed(b.core) && Possible(b, e) && Clean(b, e) && uid != 0
    ensures Conserves(b, e, uid, d)
  {
    match e
    case Moves(tag, uuid, up, down) =>
      CountHolds(b.core, tag, uuid, up, down, uid, d);
      SumConcat(b.moved, [UserTraffic(b.core.uidMap[UserTag(tag, uuid)], up, down)], uid, d);
    case Adds(tag, users) => AdditionsConserveExactlyWhen(b.core, tag, users);
    case Removes(tag, users) => RemovalsConserveExactlyWhen(b.core, tag, users);
    case Retires(tag, order) => RetirementConservesExactlyWhen(b.core, tag, order);
    case Reads(tag, order, reset) =>
      ReadTrafficHolds(b.core, tag, order, reset, uid, d);
      SumConcat(b.reported, if reset then ReadTraffic(b.core, tag, order, reset).report else [], uid, d);
    case SetsMinimum(tag, n) =>
  }

  /** An event conserves the bytes of every nonzero UID if and only if it is clean: an addition shifts no
      more bytes to a UID than away from it, and a deletion or retirement finds none at other nodes under
      the names it takes. */
  lemma ConservesExactlyWhen(b: Books, e: Event)
    requires Placed(b.core) && Possible(b, e)
    ensures (forall uid, d | uid != 0 :: Conserves(b, e, uid, d)) <==> Clean(b, e)
  {
    if Clean(b, e) {
      forall uid, d | uid != 0 ensures Conserves(b, e, uid, d) {
        CleanConserves(b, e, uid, d);
      }
    } else {
      UncleanShows(b, e);
    }
  }

  lemma UncleanShows(b: Books, e: Event)
    requires Placed(b.core) && Possible(b, e) && !Clean(b, e)
    ensures exists uid, d :: uid != 0 && !Conserves(b, e, uid, d)
  {
    var s, t := b.core, Next(b, e).core;
    match e {
      case Adds(tag, users) => AdditionsConserveExactlyWhen(s, tag, users);
      case Removes(tag, users) => RemovalsConserveExactlyWhen(s, tag, users);
      case Retires(tag, order) => RetirementConservesExactlyWhen(s, tag, order);
    }
    assert !SameHeld(s, t);
    var uid: int, d: Direction :| uid != 0 && Held(t, uid, d) != Held(s, uid, d);
    assert !Conserves(b, e, uid, d);
  }

  /** Additions that are clean one by one even out together. */
  lemma CleanAdditionsEvenOut(s: State, tag: string, users: seq<UserInfo>)
    requires AddsCleanly(s, tag, users)
    ensures EvensOut(s, UsersAdded(s, tag, users))
  {
    forall uid, d | uid != 0 ensures Held(UsersAdded(s, tag, users), uid, d) == Held(s, uid, d) {
      UsersAddedHolds(s, tag, users, uid, d);
    }
    AdditionsConserveExactlyWhen(s, tag, users);
  }

  ghost predicate PossibleRun(b: Books, es: seq<Event>)
    decreases |es|
  {
    es == [] || (Possible(b, es[0]) && PossibleRun(Next(b, es[0]), es[1..]))
  }

  ghost predicate CleanRun(b: Books, es: seq<Event>)
    requires PossibleRun(b, es)
    decreases |es|
  {
    es == [] || (Clean(b, es[0]) && CleanRun(Next(b, es[0]), es[1..]))
  }

  ghost function After(b: Books, es: seq<Event>): Books
    requires PossibleRun(b, es)
    decreases |es|
  {
    if es == [] then b else After(Next(b, es[0]), es[1..])
  }

  lemma CleanKeepsBalance(b: Books, e: Event)
    requires Placed(b.core) && Balanced(b) && Possible(b, e) && Clean(b, e)
    ensures Placed(Next(b, e).core) && Balanced(Next(b, e))
  {
    var c := Next(b, e);
    StaysPlaced(b, e);
    forall uid, d | uid != 0 ensures Sum(c.moved, uid, d) == Sum(c.reported, uid, d) + Held(c.core, uid, d) {
      CleanConserves(b, e, uid, d);
    }
  }

  lemma {:induction false} RunHolds(b: Books, es: seq<Event>)
    requires PossibleRun(b, es) && CleanRun(b, es) && Placed(b.core) && Balanced(b)
    ensures Placed(After(b, es).core) && Balanced(After(b, es))
    decreases |es|
  {
    if es != [] {
      CleanKeepsBalance(b, es[0]);
      RunHolds(Next(b, es[0]), es[1..]);
    }
  }

  /** Over every run of additions by registered users, AddUsers, DelUsers (also cut short by a
      refusal), node retirement and reads, no byte of a nonzero UID vanishes or is invented. */
  lemma BytesAreConserved(es: seq<Event>)
    requires PossibleRun(OPENED, es) && CleanRun(OPENED, es)
    ensures Balanced(After(OPENED, es))
  {
    RunHolds(OPENED, es);
  }

  // ---------- tags without the separator ----------

  /** Only registered users have bytes, all under plain tags. */
  ghost predicate Tidy(s: State) {
    Placed(s) && forall k | k in s.counters :: PlainTag(k.tag) && (k.email !in s.uidMap ==> s.counters[k] == Storage(0, 0))
  }

  /** A known user whose bytes are still counted keeps its UID. */
  predicate KeepsId(s: State, tag: string, u: UserInfo) {
    var e := UserTag(tag, u.uuid);
    e !in s.uidMap || s.uidMap[e] == u.id || Slot(tag, e) !in s.counters || s.counters[Slot(tag, e)] == Storage(0, 0)
  }

  predicate KeepIds(s: State, tag: string, users: seq<UserInfo>)
    decreases |users|
  {
    users == [] ||
    var n := |users| - 1;
    KeepIds(s, tag, users[..n]) && KeepsId(UsersAdded(s, tag, users[..n]), tag, users[n])
  }

  /** With plain tags a name's bytes lie at its own node only. */
  lemma OwnSlotOnly(s: State, tag: string, k: Slot)
    requires Tidy(s) && PlainTag(tag) && k in s.counters && BelongsTo(k.email, tag)
    ensures k.tag == tag
  {
    TagOfEmail(k.email, k.tag, tag);
  }

  /** Then an addition is clean if and only if the user is unknown, keeps its UID, or has no bytes counted. */
  lemma PlainAdditionExactlyWhen(s: State, tag: string, u: UserInfo)
    requires Tidy(s) && PlainTag(tag)
    ensures UidOf(s, UserTag(tag, u.uuid)) == u.id || CountsNothing(s, UserTag(tag, u.uuid)) <==> KeepsId(s, tag, u)
  {
    var e := UserTag(tag, u.uuid);
    UserTagBelongs(tag, u.uuid);
    forall k | k in s.counters && k.email == e ensures k == Slot(tag, e) {
      OwnSlotOnly(s, tag, k);
    }
  }

  lemma {:induction false} PlainAdditions(s: State, tag: string, users: seq<UserInfo>)
    requires Tidy(s) && PlainTag(tag) && KeepIds(s, tag, users)
    ensures AddsCleanly(s, tag, users) && Tidy(UsersAdded(s, tag, users))
    decreases |users|
  {
    if users != [] {
      var n := |users| - 1;
      PlainAdditions(s, tag, users[..n]);
      PlainAdditionExactlyWhen(UsersAdded(s, tag, users[..n]), tag, users[n]);
    }
  }

  lemma RetireUserTidy(s: State, tag: string, email: string)
    requires Tidy(s) && PlainTag(tag) && BelongsTo(email, tag)
    ensures Tidy(RetireUser(s, tag, email))
  {
    var t := RetireUser(s, tag, email);
    forall k | k in t.counters && k.email !in t.uidMap ensures t.counters[k] == Storage(0, 0) {
      if k.email == email {
        OwnSlotOnly(s, tag, k);
      }
    }
  }

  lemma PlainRemoval(s: State, tag: string, uuid: string)
    requires Tidy(s) && PlainTag(tag)
    ensures NothingIn(s, SameName(tag, UserTag(tag, uuid))) && Tidy(DelUser(s, tag, uuid))
  {
    var e := UserTag(tag, uuid);
    UserTagBelongs(tag, uuid);
    forall k | k in s.counters && k.email == e ensures k.tag == tag {
      OwnSlotOnly(s, tag, k);
    }
    RetireUserTidy(s, tag, e);
    DelUserIs(s, tag, uuid);
  }

  lemma {:induction false} PlainRemovals(s: State, tag: string, users: seq<UserInfo>)
    requires Tidy(s) && PlainTag(tag)
    ensures RemovesCleanly(s, tag, users) && Tidy(UsersRemoved(s, tag, users))
    decreases |users|
  {
    if users != [] {
      PlainRemoval(s, tag, users[0].uuid);
      PlainRemovals(DelUser(s, tag, users[0].uuid), tag, users[1..]);
    }
  }

  lemma {:induction false} RetireUsersTidy(s: State, tag: string, emails: seq<string>)
    requires Tidy(s) && PlainTag(tag) && forall e | e in emails :: BelongsTo(e, tag)
    ensures Tidy(RetireUsers(s, tag, emails))
    decreases |emails|
  {
    if emails != [] {
      RetireUserTidy(s, tag, emails[0]);
      RetireUsersTidy(RetireUser(s, tag, emails[0]), tag, emails[1..]);
    }
  }

  lemma PlainRetirement(s: State, tag: string, order: seq<string>)
    requires Tidy(s) && PlainTag(tag) && ListsNames(s, tag, order)
    ensures NothingIn(s, SamePrefix(tag)) && Tidy(Retired(s, tag, order))
  {
    forall k | k in s.counters && BelongsTo(k.email, tag) ensures k.tag == tag {
      OwnSlotOnly(s, tag, k);
    }
    RetireUsersTidy(s, tag, order);
  }

  lemma {:induction false} ReadUsersTidy(s: State, tag: string, emails: seq<string>, reset: bool)
    requires Tidy(s)
    ensures Tidy(ReadUsers(s, tag, emails, reset).state)
    decreases |emails|
  {
    if emails != [] {
      ReadUsersTidy(ReadUser(s, tag, emails[0], reset).state, tag, emails[1..], reset);
    }
  }

  /** A run with plain tags in which no known user gets another UID while its bytes are counted. */
  ghost predicate PlainRun(b: Books, es: seq<Event>)
    requires PossibleRun(b, es)
    decreases |es|
  {
    es == [] ||
    (PlainTag(es[0].tag) && (es[0].Adds? ==> KeepIds(b.core, es[0].tag, es[0].users))
     && PlainRun(Next(b, es[0]), es[1..]))
  }

  lemma PlainEvent(b: Books, e: Event)
    requires Tidy(b.core) && Possible(b, e) && PlainTag(e.tag) && (e.Adds? ==> KeepIds(b.core, e.tag, e.users))
    ensures Clean(b, e) && Tidy(Next(b, e).core)
  {
    match e
    case Moves(tag, uuid, _, _) => UserTagBelongs(tag, uuid);
    case Adds(tag, users) =>
      PlainAdditions(b.core, tag, users);
      CleanAdditionsEvenOut(b.core, tag, users);
    case Removes(tag, users) => PlainRemovals(b.core, tag, users);
    case Retires(tag, order) => PlainRetirement(b.core, tag, order);
    case Reads(tag, order, reset) =>
      ReadUsersTidy(if reset then b.core.(retired := b.core.retired - {tag}) else b.core, tag, order, reset);
    case SetsMinimum(_, _) =>
  }

  lemma {:induction false} PlainRunIsClean(b: Books, es: seq<Event>)
    requires PossibleRun(b, es) && PlainRun(b, es) && Tidy(b.core)
    ensures CleanRun(b, es)
    decreases |es|
  {
    if es != [] {
      PlainEvent(b, es[0]);
      PlainRunIsClean(Next(b, es[0]), es[1..]);
    }
  }

  /** So with plain tags it is enough that known users keep their UIDs while their bytes are counted. */
  lemma PlainTagsConserve(es: seq<Event>)
    requires PossibleRun(OPENED, es) && PlainRun(OPENED, es)
    ensures Balanced(After(OPENED, es))
  {
    PlainRunIsClean(OPENED, es);
    BytesAreConserved(es);
  }

  // ---------- runs that fail ----------

  lemma ThreeEvents(a: Event, b: Event, c: Event)
    requires Possible(OPENED, a) && Possible(Next(OPENED, a), b) && Possible(Next(Next(OPENED, a), b), c)
    ensures PossibleRun(OPENED, [a, b, c]) && After(OPENED, [a, b, c]) == Next(Next(Next(OPENED, a), b), c)
  {
    var b1 := Next(OPENED, a);
    var b2 := Next(b1, b);
    assert [a, b, c][1..] == [b, c] && [b, c][1..] == [c] && [c][1..] == [];
    assert PossibleRun(b2, [c]) && After(b2, [c]) == Next(b2, c);
    assert PossibleRun(b1, [b, c]) && After(b1, [b, c]) == Next(b2, c);
  }

  lemma OneUserAdded(tag: string, u: UserInfo)
    ensures Next(OPENED, Adds(tag, [u])) == OPENED.(core := OPENED.core.(uidMap := map[UserTag(tag, u.uuid) := u.id]))
  {
    assert [u][..0] == [];
    assert UsersAdded(OPENED.core, tag, []) == OPENED.core;
  }

  /** What remains of five uploaded bytes of user 7 when no counter and no record is theirs. */
  lemma NotBalanced(b: Books)
    requires b.moved == [UserTraffic(7, 5, 0)] && b.reported == [] && b.core.retired == map[]
    requires forall k | k in b.core.counters :: UidOf(b.core, k.email) != 7
    ensures !Balanced(b)
  {
    MapSums.Drop(b.core.counters, b.core.counters.Keys, LiveShare(b.core.uidMap, 7, Upload));
    assert b.core.counters - b.core.counters.Keys == map[];
    assert [UserTraffic(7, 5, 0)][1..] == [];
    assert Sum(b.moved, 7, Upload) == 5 && Sum(b.reported, 7, Upload) == 0 && Held(b.core, 7, Upload) == 0;
  }

  /** With a separator inside a tag, retiring node "a" takes the users of node "a|b" out of the
      table, and what they have moved is no longer held under their UID. */
  lemma SeparatorInTagLosesBytes()
    ensures exists tag: string, order: seq<string>, u: UserInfo ::
              var es := [Adds("a|b", [u]), Moves("a|b", u.uuid, 5, 0), Retires(tag, order)];
              PossibleRun(OPENED, es) && !Balanced(After(OPENED, es))
  {
    var u, email := UserInfo(7, "u", 0, 0), UserTag("a|b", "u");
    var adds, moves, retires := Adds("a|b", [u]), Moves("a|b", "u", 5, 0), Retires("a", [email]);
    OneUserAdded("a|b", u);
    var b2 := Next(Next(OPENED, adds), moves);
    assert b2.moved == [UserTraffic(7, 5, 0)];
    assert email[..2] == "a" + [SEPARATOR];
    RetireUsersTable(b2.core, "a", [email]);
    assert [email][1..] == [];
    assert RetireUsers(b2.core, "a", [email]) == RetireUser(b2.core, "a", email);
    ThreeEvents(adds, moves, retires);
    NotBalanced(Next(b2, retires));
  }

  /** A known user added again under another UID takes the bytes already counted along. */
  lemma NewUidTakesBytesAlong()
    ensures exists u: UserInfo, v: UserInfo :: u.uuid == v.uuid &&
              var es := [Adds("a", [u]), Moves("a", u.uuid, 5, 0), Adds("a", [v])];
              PossibleRun(OPENED, es) && !Balanced(After(OPENED, es))
  {
    var u, v, email := UserInfo(7, "u", 0, 0), UserInfo(8, "u", 0, 0), UserTag("a", "u");
    var adds, moves, again := Adds("a", [u]), Moves("a", u.uuid, 5, 0), Adds("a", [v]);
    OneUserAdded("a", u);
    var b2 := Next(Next(OPENED, adds), moves);
    assert b2.moved == [UserTraffic(7, 5, 0)];
    assert [v][..0] == [];
    assert UsersAdded(b2.core, "a", []) == b2.core;
    ThreeEvents(adds, moves, again);
    NotBalanced(Next(b2, again));
    assert u.uuid == v.uuid;
  }
}
