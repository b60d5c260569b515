/** Admission of connections by device limit, and the speed limits that go with it. A reporting window
    lasts from one GetOnlineDevice to the next. Every call is one step. */
module DeviceLimiter {
  import opened Basics
  import opened Format
  import opened Panel
  import Seqs

  datatype UserLimit = UserLimit(uid: int, speedLimit: int, deviceLimit: int, dynamicSpeedLimit: int, expireTime: int)

  datatype OnlineUser = OnlineUser(uid: int, ip: string)

  type Ips = map<string, int>

  /** `online` holds for each user the addresses seen in this window, `recent` those of the last report that
      were not seen again; `buckets` are rates in bytes a second; `alive` counts a user's devices elsewhere. */
  datatype State = State(nodeSpeed: int, online: map<string, Ips>, recent: Ips, uids: map<string, int>,
                         limits: map<string, UserLimit>, buckets: map<string, int>, alive: map<int, int>)

  const MAPPED := "::ffff:"

  function TrimPrefix(ip: string): string { if MAPPED <= ip then ip[|MAPPED|..] else ip }

  /** The lower of two limits, where zero means none. */
  function DetermineSpeedLimit(a: int, b: int): (limit: int)
    ensures a >= 0 && b >= 0 ==> limit >= 0 && (limit == 0 <==> a == 0 && b == 0)
    ensures a > 0 && b > 0 ==> limit <= a && limit <= b && (limit == a || limit == b)
    ensures a >= 0 && b >= 0 && (a == 0 || b == 0) ==> limit == a + b
  {
    if a == 0 || b == 0 then if a > b then a else if a < b then b else 0
    else if a > b then b else a
  }

  function OnlineOf(s: State, user: string): Ips { if user in s.online then s.online[user] else map[] }

  function AliveOf(s: State, uid: int): int { if uid in s.alive then s.alive[uid] else 0 }

  predicate Expired(u: UserLimit, now: int) { u.expireTime < now && u.expireTime != 0 }

  // ---------- what the operations do ----------

  /** The user's limits after an expired dynamic limit was dropped. */
  function Refreshed(s: State, user: string, now: int): State
    requires user in s.limits
  {
    var u := s.limits[user];
    if !Expired(u, now) then s
    else if u.speedLimit != 0 then s.(limits := s.limits[user := u.(dynamicSpeedLimit := 0, expireTime := 0)])
    else s.(limits := s.limits - {user})
  }

  function UserSpeed(u: UserLimit, now: int): int {
    if !Expired(u, now) then DetermineSpeedLimit(u.speedLimit, u.dynamicSpeedLimit) else u.speedLimit
  }

  datatype Admission = Admission(online: map<string, Ips>, recent: Ips, reject: bool)

  /** The device check of one address, with `alive` devices of the user elsewhere. */
  function Admit(online: map<string, Ips>, recent: Ips, alive: int, user: string, ip: string, u: UserLimit): Admission {
    var seen := if user in online then online[user] else map[];
    var added := online[user := seen[ip := u.uid]];
    if ip in seen then Admission(online, recent, false)
    else if ip in recent then Admission(added, if recent[ip] == u.uid then recent - {ip} else recent, false)
    else if 0 < u.deviceLimit <= alive then Admission(online, recent, true)
    else Admission(added, recent, false)
  }

  function Device(s: State, user: string, address: string, devices: bool): Admission
    requires user in s.limits
  {
    var u := s.limits[user];
    if devices then Admit(s.online, s.recent, AliveOf(s, u.uid), user, TrimPrefix(address), u)
    else Admission(s.online, s.recent, false)
  }

  /** `bucket` is the rate handed out, if any. */
  datatype Verdict = Verdict(state: State, bucket: Option<int>, reject: bool)

  function Limited(s: State, user: string, speed: int): Verdict {
    var limit := DetermineSpeedLimit(s.nodeSpeed, speed) * 1000000 / 8;
    if limit <= 0 then Verdict(s, None, false)
    else if user in s.buckets then Verdict(s, Some(s.buckets[user]), false)
    else Verdict(s.(buckets := s.buckets[user := limit]), Some(limit), false)
  }

  /** `devices`: the connection counts for the device limit; `now` is the clock. */
  function Check(s: State, user: string, address: string, devices: bool, now: int): Verdict {
    if user !in s.limits then Verdict(s, None, true)
    else
      var a, r := Device(s, user, address, devices), Refreshed(s, user, now);
      if a.reject then Verdict(r, None, true)
      else Limited(r.(online := a.online, recent := a.recent), user, UserSpeed(s.limits[user], now))
  }

  function UserDeleted(s: State, tag: string, u: UserInfo): State {
    var user := UserTag(tag, u.uuid);
    s.(limits := s.limits - {user}, online := s.online - {user}, buckets := s.buckets - {user},
       uids := s.uids - {u.uuid}, alive := s.alive - {u.id})
  }

  function UserAdded(s: State, tag: string, u: UserInfo): State {
    s.(limits := s.limits[UserTag(tag, u.uuid) := UserLimit(u.id, u.speedLimit, u.deviceLimit, 0, 0)],
       uids := s.uids[u.uuid := u.id])
  }

  function UsersDeleted(s: State, tag: string, users: seq<UserInfo>): State
    decreases |users|
  {
    if users == [] then s
    else UserDeleted(UsersDeleted(s, tag, users[..|users| - 1]), tag, users[|users| - 1])
  }

  function UsersAdded(s: State, tag: string, users: seq<UserInfo>): State
    decreases |users|
  {
    if users == [] then s
    else UserAdded(UsersAdded(s, tag, users[..|users| - 1]), tag, users[|users| - 1])
  }

  function SpeedSet(s: State, user: string, limit: int, expire: int): State {
    if user in s.limits
    then s.(limits := s.limits[user := s.limits[user].(dynamicSpeedLimit := limit, expireTime := expire)]) else s
  }

  /** The last UID reported for each address. */
  function LastSeen(report: seq<OnlineUser>): Ips
    decreases |report|
  {
    if report == [] then map[]
    else
      var n := |report| - 1;
      LastSeen(report[..n])[report[n].ip := report[n].uid]
  }

  function Reported(s: State, report: seq<OnlineUser>): State { s.(online := map[], recent := LastSeen(report)) }

  /** A user and an address. */
  datatype Pair = Pair(user: string, ip: string)

  predicate Recorded(s: State, p: Pair) { p.user in s.online && p.ip in s.online[p.user] }

  /** The report names every recorded pair exactly once: its entries are those of `pairs`, in order. */
  ghost predicate Names(s: State, pairs: seq<Pair>, report: seq<OnlineUser>) {
    && |report| == |pairs| && (forall p :: p in pairs <==> Recorded(s, p))
    && (forall i, j :: 0 <= i < j < |pairs| ==> pairs[i] != pairs[j])
    && forall i :: 0 <= i < |pairs| ==>
         Recorded(s, pairs[i]) && report[i] == OnlineUser(s.online[pairs[i].user][pairs[i].ip], pairs[i].ip)
  }

  /** As Names, for the pairs of `users` and those of `user` at `ips`. */
  ghost predicate ListedSoFar(s: State, users: set<string>, user: string, ips: set<string>, pairs: seq<Pair>,
                              report: seq<OnlineUser>)
  {
    && |report| == |pairs|
    && (forall p :: p in pairs <==> Recorded(s, p) && (p.user in users || (p.user == user && p.ip in ips)))
    && (forall i, j :: 0 <= i < j < |pairs| ==> pairs[i] != pairs[j])
    && forall i :: 0 <= i < |pairs| ==>
         Recorded(s, pairs[i]) && report[i] == OnlineUser(s.online[pairs[i].user][pairs[i].ip], pairs[i].ip)
  }

  lemma ListOne(s: State, users: set<string>, user: string, ips: set<string>, ip: string, pairs: seq<Pair>,
                report: seq<OnlineUser>)
    requires ListedSoFar(s, users, user, ips, pairs, report)
    requires user !in users && ip !in ips && Recorded(s, Pair(user, ip))
    ensures ListedSoFar(s, users, user, ips + {ip}, pairs + [Pair(user, ip)], report + [OnlineUser(s.online[user][ip], ip)])
  {
    assert Pair(user, ip) !in pairs;
    forall p ensures p in pairs + [Pair(user, ip)] <==>
        Recorded(s, p) && (p.user in users || (p.user == user && p.ip in ips + {ip})) {
      assert p in pairs + [Pair(user, ip)] <==> p in pairs || p == Pair(user, ip);
    }
  }

  lemma UserListed(s: State, users: set<string>, user: string, pairs: seq<Pair>, report: seq<OnlineUser>)
    requires user in s.online && ListedSoFar(s, users, user, s.online[user].Keys, pairs, report)
    ensures forall u :: ListedSoFar(s, users + {user}, u, {}, pairs, report)
  {
  }

  // ---------- what the operations promise ----------

  /** The bytes a second that the node's and the user's limits call for now; none at all when not positive. */
  function Rate(s: State, user: string, now: int): int
    requires user in s.limits
  {
    DetermineSpeedLimit(s.nodeSpeed, UserSpeed(s.limits[user], now)) * 1000000 / 8
  }

  /** `limit` is the lowest of the limits that are set, or zero when none is. */
  predicate LowestSet(limit: int, limits: set<int>) {
    && (limit > 0 ==> limit in limits) && (forall l :: l in limits && l > 0 ==> 0 < limit <= l)
    && (limit == 0 <==> forall l :: l in limits ==> l == 0)
  }

  /** A user gets an eighth of a million bytes a second for each unit of the lowest limit that applies: the
      node's, its own, and a dynamic one that is not over. */
  lemma RateIsLowestLimit(s: State, user: string, now: int)
    requires user in s.limits && s.nodeSpeed >= 0
    requires s.limits[user].speedLimit >= 0 && s.limits[user].dynamicSpeedLimit >= 0
    ensures var u := s.limits[user];
            var over := u.expireTime != 0 && u.expireTime < now;
            && Rate(s, user, now) % 125000 == 0
            && LowestSet(Rate(s, user, now) / 125000, {s.nodeSpeed, u.speedLimit, if over then 0 else u.dynamicSpeedLimit})
  {
    var u := s.limits[user];
    var own := UserSpeed(u, now);
    var limit := DetermineSpeedLimit(s.nodeSpeed, own);
    var over := u.expireTime != 0 && u.expireTime < now;
    assert Rate(s, user, now) == limit * 125000;
    assert LowestSet(own, {u.speedLimit, if over then 0 else u.dynamicSpeedLimit});
    assert LowestSet(limit, {s.nodeSpeed, u.speedLimit, if over then 0 else u.dynamicSpeedLimit});
  }

  /** The user's record after a check: one whose dynamic limit is over loses that, or goes altogether when it
      has no limit of its own. */
  predicate RecordAfterCheck(s: State, t: State, user: string, now: int)
    requires user in s.limits
  {
    var u := s.limits[user];
    && t.limits - {user} == s.limits - {user}
    && if u.expireTime == 0 || now <= u.expireTime then user in t.limits && t.limits[user] == u
       else if u.speedLimit == 0 then user !in t.limits
       else user in t.limits && t.limits[user] == u.(dynamicSpeedLimit := 0, expireTime := 0)
  }

  /** An admission that counts for the device limit leaves the address online under the user's UID, and the UID's
      own entry among the recent ones is used up by a new address. */
  predicate AddressAfterCheck(s: State, t: State, user: string, ip: string, counted: bool)
    requires user in s.limits
  {
    var seen, uid := OnlineOf(s, user), s.limits[user].uid;
    if !counted then t.online == s.online && t.recent == s.recent
    else if ip in seen then OnlineOf(t, user) == seen && t.online - {user} == s.online - {user} && t.recent == s.recent
    else
      && OnlineOf(t, user) == seen[ip := uid] && t.online - {user} == s.online - {user}
      && t.recent == if ip in s.recent && s.recent[ip] == uid then s.recent - {ip} else s.recent
  }

  /** The first connection of a user with a limit makes a bucket of the rate called for, and later ones share it. */
  predicate BucketAfterCheck(s: State, t: State, user: string, bucket: Option<int>, now: int)
    requires user in s.limits
  {
    var rate := Rate(s, user, now);
    if rate <= 0 then bucket == None && t.buckets == s.buckets
    else if user in s.buckets then bucket == Some(s.buckets[user]) && t.buckets == s.buckets
    else bucket == Some(rate) && t.buckets == s.buckets[user := rate]
  }

  /** Everything a check does. */
  predicate Checks(s: State, t: State, user: string, address: string, devices: bool, now: int, bucket: Option<int>,
                   reject: bool)
  {
    && t.nodeSpeed == s.nodeSpeed && t.uids == s.uids && t.alive == s.alive
    && if user !in s.limits then t == s && reject && bucket == None
       else
         && RecordAfterCheck(s, t, user, now)
         && AddressAfterCheck(s, t, user, TrimPrefix(address), devices && !reject)
         && if reject then bucket == None && t.buckets == s.buckets else BucketAfterCheck(s, t, user, bucket, now)
  }

  lemma RefreshedRecord(s: State, user: string, now: int)
    requires user in s.limits
    ensures var r := Refreshed(s, user, now); RecordAfterCheck(s, r, user, now) && r.(limits := s.limits) == s
  {
  }

  lemma AdmittedAddress(s: State, user: string, ip: string, u: UserLimit)
    requires user in s.limits && u == s.limits[user]
    ensures var a := Admit(s.online, s.recent, AliveOf(s, u.uid), user, ip, u);
            AddressAfterCheck(s, s.(online := a.online, recent := a.recent), user, ip, !a.reject)
  {
    var seen := OnlineOf(s, user);
    assert s.online[user := seen[ip := u.uid]] - {user} == s.online - {user};
  }

  lemma BucketOfLimited(s: State, user: string, now: int, r: State)
    requires user in s.limits && r.nodeSpeed == s.nodeSpeed && r.buckets == s.buckets
    ensures var v := Limited(r, user, UserSpeed(s.limits[user], now));
            BucketAfterCheck(s, v.state, user, v.bucket, now) && v.state.(buckets := r.buckets) == r && !v.reject
  {
  }

  lemma CheckDoes(s: State, user: string, address: string, devices: bool, now: int)
    ensures var v := Check(s, user, address, devices, now);
            Checks(s, v.state, user, address, devices, now, v.bucket, v.reject)
  {
    if user in s.limits {
      var a, r := Device(s, user, address, devices), Refreshed(s, user, now);
      RefreshedRecord(s, user, now);
      AdmittedAddress(s, user, TrimPrefix(address), s.limits[user]);
      if !a.reject {
        BucketOfLimited(s, user, now, r.(online := a.online, recent := a.recent));
      }
    }
  }

  /** An address is the same in its mapped form. */
  lemma MappedAddressesAreTheSame(s: State, user: string, ip: string, devices: bool, now: int)
    requires !(MAPPED <= ip)
    ensures Check(s, user, "::ffff:" + ip, devices, now) == Check(s, user, ip, devices, now)
  {
    assert (MAPPED + ip)[|MAPPED|..] == ip;
  }

  /** The last record of its name in the list. */
  predicate IsLast(users: seq<UserInfo>, i: nat)
    requires i < |users|
  {
    forall j :: i < j < |users| ==> users[j].uuid != users[i].uuid
  }

  function Tags(tag: string, users: seq<UserInfo>): set<string> { set u | u in users :: UserTag(tag, u.uuid) }

  function Uuids(users: seq<UserInfo>): set<string> { set u | u in users :: u.uuid }

  function Ids(users: seq<UserInfo>): set<int> { set u | u in users :: u.id }

  /** The panel's record of a user holds, with no dynamic limit. */
  predicate RecordIs(t: State, tag: string, u: UserInfo) {
    && UserTag(tag, u.uuid) in t.limits
    && t.limits[UserTag(tag, u.uuid)] == UserLimit(u.id, u.speedLimit, u.deviceLimit, 0, 0)
    && u.uuid in t.uids && t.uids[u.uuid] == u.id
  }

  /** Every added user has the record last listed for it, and what is not added stays. */
  ghost predicate Added(s: State, t: State, tag: string, users: seq<UserInfo>) {
    && (forall i :: 0 <= i < |users| && IsLast(users, i) ==> RecordIs(t, tag, users[i]))
    && t.limits - Tags(tag, users) == s.limits - Tags(tag, users)
    && t.uids - Uuids(users) == s.uids - Uuids(users)
    && t.(limits := s.limits, uids := s.uids) == s
  }

  /** A deleted user leaves every table, and nothing else does. */
  predicate Deleted(s: State, t: State, tag: string, users: seq<UserInfo>) {
    var names := Tags(tag, users);
    && t.limits == s.limits - names && t.online == s.online - names && t.buckets == s.buckets - names
    && t.uids == s.uids - Uuids(users) && t.alive == s.alive - Ids(users)
    && t.nodeSpeed == s.nodeSpeed && t.recent == s.recent
  }

  lemma ListSnoc(tag: string, users: seq<UserInfo>)
    requires users != []
    ensures var front, u := users[..|users| - 1], users[|users| - 1];
            && Tags(tag, users) == Tags(tag, front) + {UserTag(tag, u.uuid)}
            && Uuids(users) == Uuids(front) + {u.uuid} && Ids(users) == Ids(front) + {u.id}
  {
    var n := |users| - 1;
    Seqs.Snoc(users);
    assert forall u :: u in users <==> u in users[..n] || u == users[n];
  }

  lemma {:induction false} DeletionDoes(s: State, tag: string, users: seq<UserInfo>)
    ensures Deleted(s, UsersDeleted(s, tag, users), tag, users)
    decreases |users|
  {
    if users != [] {
      DeletionDoes(s, tag, users[..|users| - 1]);
      ListSnoc(tag, users);
    }
  }

  lemma UserTagsDiffer(tag: string, a: string, b: string)
    requires UserTag(tag, a) == UserTag(tag, b)
    ensures a == b
  {
    assert UserTag(tag, a)[|tag| + 1..] == a && UserTag(tag, b)[|tag| + 1..] == b;
  }

  lemma {:induction false} AddedLast(s: State, tag: string, users: seq<UserInfo>, i: nat)
    requires i < |users| && IsLast(users, i)
    ensures RecordIs(UsersAdded(s, tag, users), tag, users[i])
    decreases |users|
  {
    var n := |users| - 1;
    if i < n {
      var front := users[..n];
      assert front[i] == users[i] && users[n].uuid != users[i].uuid;
      assert forall j :: i < j < n ==> front[j] == users[j];
      AddedLast(s, tag, front, i);
      if UserTag(tag, users[i].uuid) == UserTag(tag, users[n].uuid) {
        UserTagsDiffer(tag, users[i].uuid, users[n].uuid);
      }
    }
  }

  lemma SetOutside<V>(m: map<string, V>, b: map<string, V>, ks: set<string>, k: string, v: V)
    requires m - ks == b - ks
    ensures m[k := v] - (ks + {k}) == b - (ks + {k})
  {
    assert m[k := v] - (ks + {k}) == (m - ks) - {k};
    assert b - (ks + {k}) == (b - ks) - {k};
  }

  lemma {:induction false} AddedOthers(s: State, tag: string, users: seq<UserInfo>)
    ensures var t := UsersAdded(s, tag, users);
            && t.limits - Tags(tag, users) == s.limits - Tags(tag, users)
            && t.uids - Uuids(users) == s.uids - Uuids(users) && t.(limits := s.limits, uids := s.uids) == s
    decreases |users|
  {
    if users != [] {
      var n := |users| - 1;
      var u, t := users[n], UsersAdded(s, tag, users[..n]);
      AddedOthers(s, tag, users[..n]);
      ListSnoc(tag, users);
      SetOutside(t.limits, s.limits, Tags(tag, users[..n]), UserTag(tag, u.uuid),
                 UserLimit(u.id, u.speedLimit, u.deviceLimit, 0, 0));
      SetOutside(t.uids, s.uids, Uuids(users[..n]), u.uuid, u.id);
    }
  }

  lemma AdditionDoes(s: State, tag: string, users: seq<UserInfo>)
    ensures Added(s, UsersAdded(s, tag, users), tag, users)
  {
    AddedOthers(s, tag, users);
    forall i | 0 <= i < |users| && IsLast(users, i) ensures RecordIs(UsersAdded(s, tag, users), tag, users[i]) {
      AddedLast(s, tag, users, i);
    }
  }

  /** The last entry of its address in the report. */
  predicate IsLastEntry(report: seq<OnlineUser>, i: nat)
    requires i < |report|
  {
    forall j :: i < j < |report| ==> report[j].ip != report[i].ip
  }

  /** After a report nobody is online, and every address in it is recent under the UID last reported for it. */
  ghost predicate MovesOn(s: State, t: State, report: seq<OnlineUser>) {
    && t.(online := s.online, recent := s.recent) == s && t.online == map[]
    && (forall ip :: ip in t.recent <==> exists i :: 0 <= i < |report| && report[i].ip == ip)
    && forall i :: 0 <= i < |report| && IsLastEntry(report, i) ==> RecentIs(t, report[i])
  }

  predicate RecentIs(t: State, e: OnlineUser) { e.ip in t.recent && t.recent[e.ip] == e.uid }

  lemma {:induction false} LastEntryStays(report: seq<OnlineUser>, i: nat)
    requires i < |report| && IsLastEntry(report, i)
    ensures report[i].ip in LastSeen(report) && LastSeen(report)[report[i].ip] == report[i].uid
    decreases |report|
  {
    var n := |report| - 1;
    if i < n {
      var front := report[..n];
      assert front[i] == report[i] && report[n].ip != report[i].ip;
      assert forall j :: i < j < n ==> front[j] == report[j];
      LastEntryStays(front, i);
    }
  }

  lemma {:induction false} SeenIsReported(report: seq<OnlineUser>, ip: string)
    ensures ip in LastSeen(report) <==> exists i :: 0 <= i < |report| && report[i].ip == ip
    decreases |report|
  {
    if report != [] {
      var n := |report| - 1;
      SeenIsReported(report[..n], ip);
      if ip in LastSeen(report[..n]) {
        var i :| 0 <= i < n && report[..n][i].ip == ip;
        assert report[i].ip == ip;
      }
      if i :| 0 <= i < |report| && report[i].ip == ip && i < n {
        assert report[..n][i].ip == ip;
      }
    }
  }

  lemma ReportMovesOn(s: State, report: seq<OnlineUser>)
    ensures MovesOn(s, Reported(s, report), report)
  {
    forall ip ensures ip in LastSeen(report) <==> exists i :: 0 <= i < |report| && report[i].ip == ip {
      SeenIsReported(report, ip);
    }
    forall i | 0 <= i < |report| && IsLastEntry(report, i) ensures RecentIs(Reported(s, report), report[i]) {
      LastEntryStays(report, i);
    }
  }

  // ---------- the limiter ----------

  class Limiter {
    const speedLimit: int
    var userOnlineIP: map<string, Ips>
    var oldUserOnline: Ips
    var uuidToUid: map<string, int>
    var userLimitInfo: map<string, UserLimit>
    var speedLimiter: map<string, int>
    var aliveList: map<int, int>

    ghost function View(): State
      reads this
    {
      State(speedLimit, userOnlineIP, oldUserOnline, uuidToUid, userLimitInfo, speedLimiter, aliveList)
    }

    constructor (tag: string, speedLimit: int, users: seq<UserInfo>, aliveList: map<int, int>)
      ensures View() == UsersAdded(State(speedLimit, map[], map[], map[], map[], map[], aliveList), tag, users)
      ensures Added(State(speedLimit, map[], map[], map[], map[], map[], aliveList), View(), tag, users)
    {
      this.speedLimit, this.aliveList := speedLimit, aliveList;
      userOnlineIP, oldUserOnline, uuidToUid, userLimitInfo, speedLimiter := map[], map[], map[], map[], map[];
      new;
      AdditionDoes(View(), tag, users);
      AddUsers(tag, users);
    }

    method AddUsers(tag: string, added: seq<UserInfo>)
      modifies this`userLimitInfo, this`uuidToUid
      ensures View() == UsersAdded(old(View()), tag, added)
    {
      for i := 0 to |added|
        invariant View() == UsersAdded(old(View()), tag, added[..i])
      {
        assert added[..i + 1][..i] == added[..i];
        var u := added[i];
        userLimitInfo := userLimitInfo[UserTag(tag, u.uuid) := UserLimit(u.id, u.speedLimit, u.deviceLimit, 0, 0)];
        uuidToUid := uuidToUid[u.uuid := u.id];
      }
      Seqs.Whole(added);
    }

    method UpdateUser(tag: string, added: seq<UserInfo>, deleted: seq<UserInfo>)
      modifies this
      ensures View() == UsersAdded(UsersDeleted(old(View()), tag, deleted), tag, added)
      ensures exists t :: Deleted(old(View()), t, tag, deleted) && Added(t, View(), tag, added)
    {
      for i := 0 to |deleted|
        invariant View() == UsersDeleted(old(View()), tag, deleted[..i])
      {
        assert deleted[..i + 1][..i] == deleted[..i];
        var user := UserTag(tag, deleted[i].uuid);
        userLimitInfo := userLimitInfo - {user};
        userOnlineIP := userOnlineIP - {user};
        speedLimiter := speedLimiter - {user};
        uuidToUid := uuidToUid - {deleted[i].uuid};
        aliveList := aliveList - {deleted[i].id};
      }
      Seqs.Whole(deleted);
      DeletionDoes(old(View()), tag, deleted);
      AdditionDoes(View(), tag, added);
      AddUsers(tag, added);
    }

    method UpdateDynamicSpeedLimit(tag: string, uuid: string, limit: int, expire: int) returns (found: bool)
      modifies this`userLimitInfo
      ensures View() == SpeedSet(old(View()), UserTag(tag, uuid), limit, expire)
      ensures var user, was := UserTag(tag, uuid), old(userLimitInfo);
              userLimitInfo == if user in was then was[user := was[user].(dynamicSpeedLimit := limit, expireTime := expire)] else was
      ensures found <==> UserTag(tag, uuid) in old(userLimitInfo)
    {
      var user := UserTag(tag, uuid);
      found := user in userLimitInfo;
      if found {
        var info := userLimitInfo[user];
        info := info.(dynamicSpeedLimit := limit);
        info := info.(expireTime := expire);
        userLimitInfo := userLimitInfo[user := info];
      }
    }

    /** Stores the address first and takes it back when the limit is reached. */
    method CheckDevice(user: string, ip: string, u: UserLimit) returns (reject: bool)
      modifies this`userOnlineIP, this`oldUserOnline
      ensures var a := Admit(old(userOnlineIP), old(oldUserOnline), AliveOf(old(View()), u.uid), user, ip, u);
              reject == a.reject && userOnlineIP == a.online && oldUserOnline == a.recent
      ensures !reject ==> user in userOnlineIP && ip in userOnlineIP[user]
      ensures !reject && !(user in old(userOnlineIP) && ip in old(userOnlineIP)[user]) ==> userOnlineIP[user][ip] == u.uid
      ensures reject ==> userOnlineIP == old(userOnlineIP) && oldUserOnline == old(oldUserOnline)
    {
      var aliveIp := if u.uid in aliveList then aliveList[u.uid] else 0;
      if user in userOnlineIP {
        if ip !in userOnlineIP[user] {
          userOnlineIP := userOnlineIP[user := userOnlineIP[user][ip := u.uid]];
          if ip in oldUserOnline {
            if oldUserOnline[ip] == u.uid {
              oldUserOnline := oldUserOnline - {ip};
            }
          } else if u.deviceLimit > 0 {
            if u.deviceLimit <= aliveIp {
              userOnlineIP := userOnlineIP[user := userOnlineIP[user] - {ip}];
              assert userOnlineIP[user] == old(userOnlineIP)[user];
              assert userOnlineIP == old(userOnlineIP);
              return true;
            }
          }
        }
      } else {
        userOnlineIP := userOnlineIP[user := map[ip := u.uid]];
        if ip in oldUserOnline {
          if oldUserOnline[ip] == u.uid {
            oldUserOnline := oldUserOnline - {ip};
          }
        } else if u.deviceLimit > 0 {
          if u.deviceLimit <= aliveIp {
            userOnlineIP := userOnlineIP - {user};
            assert userOnlineIP == old(userOnlineIP);
            return true;
          }
        }
      }
      return false;
    }

    method FindBucket(user: string, userLimit: int) returns (bucket: Option<int>)
      modifies this`speedLimiter
      ensures Verdict(View(), bucket, false) == Limited(old(View()), user, userLimit)
    {
      var limit := DetermineSpeedLimit(speedLimit, userLimit) * 1000000 / 8;
      if limit <= 0 {
        return None;
      }
      if user !in speedLimiter {
        speedLimiter := speedLimiter[user := limit];
      }
      return Some(speedLimiter[user]);
    }

    method CheckUser(user: string, address: string, devices: bool, now: int) returns (bucket: Option<int>, reject: bool)
      modifies this
      ensures Verdict(View(), bucket, reject) == Check(old(View()), user, address, devices, now)
    {
      var ip := TrimPrefix(address);
      if user !in userLimitInfo {
        return None, true;
      }
      var u, userLimit := userLimitInfo[user], 0;
      if u.expireTime < now && u.expireTime != 0 {
        if u.speedLimit != 0 {
          userLimit := u.speedLimit;
          userLimitInfo := userLimitInfo[user := u.(dynamicSpeedLimit := 0, expireTime := 0)];
        } else {
          userLimitInfo := userLimitInfo - {user};
        }
      } else {
        userLimit := DetermineSpeedLimit(u.speedLimit, u.dynamicSpeedLimit);
      }
      assert View() == Refreshed(old(View()), user, now);
      if devices {
        var full := CheckDevice(user, ip, u);
        if full {
          return None, true;
        }
      }
      bucket := FindBucket(user, userLimit);
      return bucket, false;
    }

    /** A check of one connection. */
    method CheckLimit(user: string, address: string, devices: bool, now: int) returns (bucket: Option<int>, reject: bool)
      modifies this
      ensures Verdict(View(), bucket, reject) == Check(old(View()), user, address, devices, now)
      ensures Checks(old(View()), View(), user, address, devices, now, bucket, reject)
    {
      CheckDoes(View(), user, address, devices, now);
      bucket, reject := CheckUser(user, address, devices, now);
    }

    /** The walk over the online users, who leave the table one by one. */
    method TakeOnline() returns (report: seq<OnlineUser>, ghost pairs: seq<Pair>)
      modifies this`userOnlineIP, this`oldUserOnline
      ensures View() == Reported(old(View()), report) && Names(old(View()), pairs, report)
    {
      ghost var s, users: set<string> := View(), {};
      var rest, all := userOnlineIP.Keys, userOnlineIP;
      report, pairs, oldUserOnline := [], [], map[];
      while rest != {}
        invariant rest <= all.Keys && users == all.Keys - rest && userOnlineIP == all - users
        invariant oldUserOnline == LastSeen(report)
        invariant forall u :: ListedSoFar(s, users, u, {}, pairs, report)
      {
        var user := Seqs.Pick(rest);
        assert ListedSoFar(s, users, user, {}, pairs, report);
        report, pairs := ReportUser(user, all[user], report, s, users, pairs);
        userOnlineIP := userOnlineIP - {user};
        rest, users := rest - {user}, users + {user};
        UserListed(s, users - {user}, user, pairs, report);
        assert users - {user} + {user} == users;
      }
      assert ListedSoFar(s, users, "", {}, pairs, report);
    }

    /** Moves the window on: what was online becomes the last report. */
    method GetOnlineDevice() returns (report: seq<OnlineUser>, ghost pairs: seq<Pair>)
      modifies this`userOnlineIP, this`oldUserOnline
      ensures View() == Reported(old(View()), report) && Names(old(View()), pairs, report)
      ensures MovesOn(old(View()), View(), report)
    {
      ghost var s := View();
      report, pairs := TakeOnline();
      ReportMovesOn(s, report);
    }

    /** Adds one user's addresses to a report. */
    method ReportUser(user: string, ipMap: Ips, before: seq<OnlineUser>, ghost s: State, ghost users: set<string>,
                      ghost listed: seq<Pair>)
      returns (report: seq<OnlineUser>, ghost pairs: seq<Pair>)
      requires ListedSoFar(s, users, user, {}, listed, before) && oldUserOnline == LastSeen(before)
      requires user !in users && user in s.online && s.online[user] == ipMap
      modifies this`oldUserOnline
      ensures ListedSoFar(s, users, user, ipMap.Keys, pairs, report) && oldUserOnline == LastSeen(report)
    {
      report, pairs := before, listed;
      var rest := ipMap.Keys;
      while rest != {}
        invariant rest <= ipMap.Keys && ListedSoFar(s, users, user, ipMap.Keys - rest, pairs, report)
        invariant oldUserOnline == LastSeen(report)
      {
        var ip := Seqs.Pick(rest);
        var uid := ipMap[ip];
        ListOne(s, users, user, ipMap.Keys - rest, ip, pairs, report);
        Seqs.InitOfSnoc(report, OnlineUser(uid, ip));
        oldUserOnline := oldUserOnline[ip := uid];
        report, pairs := report + [OnlineUser(uid, ip)], pairs + [Pair(user, ip)];
        rest := rest - {ip};
        assert ipMap.Keys - rest == (ipMap.Keys - rest - {ip}) + {ip};
      }
      assert ipMap.Keys - rest == ipMap.Keys;
    }
  }

  // ---------- one check ----------

  predicate AtLimit(s: State, user: string) {
    user in s.limits && 0 < s.limits[user].deviceLimit <= AliveOf(s, s.limits[user].uid)
  }

  lemma LimitedParts(s: State, user: string, speed: int)
    ensures var v := Limited(s, user, speed);
            && !v.reject && v.state.(buckets := s.buckets) == s
            && forall k :: k in s.buckets ==> k in v.state.buckets && v.state.buckets[k] == s.buckets[k]
  {
  }

  /** An expired limit changes nothing but the user's limits. */
  lemma RefreshedParts(s: State, user: string, now: int)
    requires user in s.limits
    ensures var r := Refreshed(s, user, now);
            r.online == s.online && r.recent == s.recent && r.alive == s.alive && r.buckets == s.buckets
  {
  }

  lemma AdmittedParts(s: State, user: string, address: string, devices: bool, now: int)
    requires user in s.limits && !Device(s, user, address, devices).reject
    ensures var v, a := Check(s, user, address, devices, now), Device(s, user, address, devices);
            && !v.reject && v.state.online == a.online && v.state.recent == a.recent
            && v.state.limits == Refreshed(s, user, now).limits && v.state.alive == s.alive
            && forall k :: k in s.buckets ==> k in v.state.buckets && v.state.buckets[k] == s.buckets[k]
  {
    var r, a := Refreshed(s, user, now), Device(s, user, address, devices);
    RefreshedParts(s, user, now);
    LimitedParts(r.(online := a.online, recent := a.recent), user, UserSpeed(s.limits[user], now));
  }

  lemma CheckParts(s: State, user: string, address: string, devices: bool, now: int)
    requires user in s.limits
    ensures var v, a := Check(s, user, address, devices, now), Device(s, user, address, devices);
            && v.reject == a.reject && v.state.online == a.online && v.state.recent == a.recent
            && v.state.limits == Refreshed(s, user, now).limits && v.state.alive == s.alive
            && (v.reject ==> v.state.buckets == s.buckets)
            && (forall k :: k in s.buckets ==> k in v.state.buckets && v.state.buckets[k] == s.buckets[k])
  {
    if Device(s, user, address, devices).reject {
      RefusedParts(s, user, address, devices, now);
    } else {
      AdmittedParts(s, user, address, devices, now);
    }
  }

  lemma RefusedParts(s: State, user: string, address: string, devices: bool, now: int)
    requires user in s.limits && Device(s, user, address, devices).reject
    ensures var v, a := Check(s, user, address, devices, now), Device(s, user, address, devices);
            && v.reject && v.state.online == a.online && v.state.recent == a.recent
            && v.state.limits == Refreshed(s, user, now).limits && v.state.alive == s.alive
            && v.state.buckets == s.buckets
  {
    RefreshedParts(s, user, now);
  }

  /** A connection is refused exactly when its user is unknown, or it counts for a device limit that is
      reached and comes from an address that is neither online for the user nor in the recent table. */
  lemma RefusedExactlyWhen(s: State, user: string, address: string, devices: bool, now: int)
    ensures Check(s, user, address, devices, now).reject <==>
            || user !in s.limits
            || (devices && AtLimit(s, user) && TrimPrefix(address) !in OnlineOf(s, user)
                && TrimPrefix(address) !in s.recent)
  {
    if user in s.limits {
      CheckParts(s, user, address, devices, now);
    }
  }

  lemma AdmitTouchesOneAddress(s: State, user: string, ip: string, u: UserLimit)
    ensures var a := Admit(s.online, s.recent, AliveOf(s, u.uid), user, ip, u);
            && (a.reject ==> a.online == s.online && a.recent == s.recent)
            && (!a.reject ==> user in a.online && ip in a.online[user])
            && a.online - {user} == s.online - {user}
            && (user in a.online ==>
                  && (user !in s.online || a.online[user] - {ip} == s.online[user] - {ip})
                  && (user !in s.online ==> a.online[user].Keys == {ip}))
            && (user in s.online ==> user in a.online && (ip in s.online[user] ==> a.online[user] == s.online[user]))
            && a.recent in {s.recent, s.recent - {ip}}
  {
  }

  /** What a check does to the tables: a refusal leaves them, an admission adds at most the address itself
      and takes at most that address from the recent table. */
  lemma CheckTouchesOneAddress(s: State, user: string, address: string, devices: bool, now: int)
    ensures var v, ip := Check(s, user, address, devices, now), TrimPrefix(address);
            && (v.reject || !devices ==> v.state.online == s.online && v.state.recent == s.recent)
            && (v.reject ==> v.state.buckets == s.buckets)
            && (!v.reject && devices ==> ip in OnlineOf(v.state, user))
            && v.state.online - {user} == s.online - {user}
            && OnlineOf(v.state, user) - {ip} == OnlineOf(s, user) - {ip}
            && (ip in OnlineOf(s, user) ==> OnlineOf(v.state, user) == OnlineOf(s, user))
            && v.state.recent in {s.recent, s.recent - {ip}} && v.state.alive == s.alive
  {
    if user in s.limits {
      CheckParts(s, user, address, devices, now);
      AdmitTouchesOneAddress(s, user, TrimPrefix(address), s.limits[user]);
    }
  }

  /** The user's own limits stay, unless an expired dynamic limit takes the whole record along. */
  lemma CheckKeepsDeviceLimit(s: State, user: string, other: string, address: string, devices: bool, now: int)
    ensures var t := Check(s, user, address, devices, now).state;
            && (other in t.limits ==> other in s.limits && t.limits[other].deviceLimit == s.limits[other].deviceLimit
                                      && t.limits[other].uid == s.limits[other].uid)
            && (other in s.limits && other !in t.limits ==>
                  other == user && s.limits[user].speedLimit == 0 && Expired(s.limits[user], now))
  {
    if user in s.limits {
      CheckParts(s, user, address, devices, now);
    }
  }

  // ---------- runs ----------

  datatype Event =
    | Checked(user: string, address: string, devices: bool, now: int)
    | Updated(tag: string, added: seq<UserInfo>, deleted: seq<UserInfo>)
    | SpeedLimited(user: string, limit: int, expire: int)
    | AliveSet(alive: map<int, int>)
    | Windowed(report: seq<OnlineUser>, pairs: seq<Pair>)

  /** A limiter and its last report. */
  datatype History = History(state: State, last: seq<OnlineUser>)

  ghost predicate Possible(h: History, e: Event) { e.Windowed? ==> Names(h.state, e.pairs, e.report) }

  function After(h: History, e: Event): History {
    match e
    case Checked(user, address, devices, now) => h.(state := Check(h.state, user, address, devices, now).state)
    case Updated(tag, added, deleted) => h.(state := UsersAdded(UsersDeleted(h.state, tag, deleted), tag, added))
    case SpeedLimited(user, limit, expire) => h.(state := SpeedSet(h.state, user, limit, expire))
    case AliveSet(alive) => h.(state := h.state.(alive := alive))
    case Windowed(report, _) => History(Reported(h.state, report), report)
  }

  function Run(h: History, es: seq<Event>): History
    decreases |es|
  {
    if es == [] then h else Run(After(h, es[0]), es[1..])
  }

  ghost predicate PossibleRun(h: History, es: seq<Event>)
    decreases |es|
  {
    es == [] || (Possible(h, es[0]) && PossibleRun(After(h, es[0]), es[1..]))
  }

  predicate RecentFromLast(h: History) {
    forall ip :: ip in h.state.recent ==> OnlineUser(h.state.recent[ip], ip) in h.last
  }

  lemma {:induction false} LastSeenIsReported(report: seq<OnlineUser>)
    ensures forall ip :: ip in LastSeen(report) ==> OnlineUser(LastSeen(report)[ip], ip) in report
    ensures forall e :: e in report ==> e.ip in LastSeen(report)
    decreases |report|
  {
    if report != [] {
      var n := |report| - 1;
      LastSeenIsReported(report[..n]);
      Seqs.Snoc(report);
      assert forall e :: e in report ==> e in report[..n] || e == report[n];
    }
  }

  lemma {:induction false} UpdatesLeaveRecent(s: State, tag: string, users: seq<UserInfo>)
    ensures UsersDeleted(s, tag, users).recent == s.recent && UsersAdded(s, tag, users).recent == s.recent
    decreases |users|
  {
    if users != [] {
      UpdatesLeaveRecent(s, tag, users[..|users| - 1]);
    }
  }

  lemma {:induction false} RunKeepsRecent(h: History, es: seq<Event>)
    requires RecentFromLast(h)
    ensures RecentFromLast(Run(h, es))
    decreases |es|
  {
    if es != [] {
      match es[0] {
        case Checked(user, address, devices, now) => CheckTouchesOneAddress(h.state, user, address, devices, now);
        case Updated(tag, added, deleted) =>
          UpdatesLeaveRecent(h.state, tag, deleted);
          UpdatesLeaveRecent(UsersDeleted(h.state, tag, deleted), tag, added);
        case Windowed(report, _) => LastSeenIsReported(report);
        case _ =>
      }
      assert RecentFromLast(After(h, es[0]));
      RunKeepsRecent(After(h, es[0]), es[1..]);
    }
  }

  /** Over every run of a limiter: at the device limit an address is admitted only if it is online for the
      user already or the last report named it. */
  lemma OnlySeenAddressesEnterAtTheLimit(s: State, es: seq<Event>, user: string, address: string, now: int)
    requires s.recent == map[]
    requires AtLimit(Run(History(s, []), es).state, user)
    ensures var h, ip := Run(History(s, []), es), TrimPrefix(address);
            !Check(h.state, user, address, true, now).reject ==>
              ip in OnlineOf(h.state, user) || exists uid :: OnlineUser(uid, ip) in h.last
  {
    var h := Run(History(s, []), es);
    RunKeepsRecent(History(s, []), es);
    RefusedExactlyWhen(h.state, user, address, true, now);
  }

  predicate NotBelowLimit(s: State, user: string) { user in s.limits ==> AtLimit(s, user) }

  /** No report falls into the run, and the user is at its limit, or unknown, whenever something happens. */
  predicate HeldAtLimit(h: History, es: seq<Event>, user: string)
    decreases |es|
  {
    es == [] || (NotBelowLimit(h.state, user) && !es[0].Windowed? && HeldAtLimit(After(h, es[0]), es[1..], user))
  }

  /** Within a window a user held at the limit gains no address that the window did not begin with, whatever
      else happens: users and limits may change. */
  lemma {:induction false} WindowIsBounded(h: History, es: seq<Event>, user: string)
    requires HeldAtLimit(h, es, user)
    ensures Bounded(Run(h, es).state, h.state, user)
    decreases |es|
  {
    if es != [] {
      EventIsBounded(h, es[0], user);
      WindowIsBounded(After(h, es[0]), es[1..], user);
    }
  }

  /** The user's addresses in `t` were its addresses in `s` or recent ones, and none became recent. */
  predicate Bounded(t: State, s: State, user: string) {
    && (forall ip :: ip in t.recent ==> ip in s.recent)
    && forall ip :: ip in OnlineOf(t, user) ==> ip in OnlineOf(s, user) || ip in s.recent
  }

  lemma EventIsBounded(h: History, e: Event, user: string)
    requires !e.Windowed? && NotBelowLimit(h.state, user)
    ensures Bounded(After(h, e).state, h.state, user)
  {
    match e
    case Checked(_, _, _, _) => CheckIsBounded(h.state, e, user);
    case Updated(tag, added, deleted) =>
      UpdatesAreBounded(h.state, tag, deleted, user);
      UpdatesAreBounded(UsersDeleted(h.state, tag, deleted), tag, added, user);
    case _ =>
  }

  lemma {:induction false} UpdatesAreBounded(s: State, tag: string, users: seq<UserInfo>, user: string)
    ensures Bounded(UsersDeleted(s, tag, users), s, user) && Bounded(UsersAdded(s, tag, users), s, user)
    decreases |users|
  {
    if users != [] {
      UpdatesAreBounded(s, tag, users[..|users| - 1], user);
    }
  }

  lemma OnlyOneKeyNew(a: Ips, b: Ips, ip: string)
    requires a - {ip} == b - {ip}
    ensures forall k :: k in a ==> k in b || k == ip
  {
    forall k | k in a && k != ip ensures k in b {
      assert k in a - {ip};
    }
  }

  lemma OtherUsersStay(s: State, t: State, checked: string, user: string)
    requires t.online - {checked} == s.online - {checked} && user != checked
    ensures OnlineOf(t, user) == OnlineOf(s, user)
  {
    assert user in t.online <==> user in t.online - {checked};
    assert user in s.online <==> user in s.online - {checked};
    if user in s.online {
      assert t.online[user] == (t.online - {checked})[user] == (s.online - {checked})[user] == s.online[user];
    }
  }

  lemma CheckIsBounded(s: State, e: Event, user: string)
    requires e.Checked? && NotBelowLimit(s, user)
    ensures Bounded(Check(s, e.user, e.address, e.devices, e.now).state, s, user)
  {
    var v, ip := Check(s, e.user, e.address, e.devices, e.now), TrimPrefix(e.address);
    CheckTouchesOneAddress(s, e.user, e.address, e.devices, e.now);
    if e.user == user {
      RefusedExactlyWhen(s, user, e.address, e.devices, e.now);
      OnlyOneKeyNew(OnlineOf(v.state, user), OnlineOf(s, user), ip);
    } else {
      OtherUsersStay(s, v.state, e.user, user);
    }
  }

  /** Checks and speed limits alone never bring a user below its limit. */
  lemma {:induction false} ChecksHoldTheLimit(h: History, es: seq<Event>, user: string)
    requires forall e :: e in es ==> e.Checked? || e.SpeedLimited?
    requires NotBelowLimit(h.state, user)
    ensures HeldAtLimit(h, es, user)
    decreases |es|
  {
    if es != [] {
      var e := es[0];
      if e.Checked? {
        CheckTouchesOneAddress(h.state, e.user, e.address, e.devices, e.now);
        CheckKeepsDeviceLimit(h.state, e.user, user, e.address, e.devices, e.now);
      }
      assert e in es;
      ChecksHoldTheLimit(After(h, e), es[1..], user);
    }
  }

  /** After a report every address in it is admitted once more, whatever the limit. */
  lemma ReportedAddressesReturn(s: State, report: seq<OnlineUser>, e: OnlineUser, user: string, address: string, now: int)
    requires e in report && user in s.limits && TrimPrefix(address) == e.ip
    ensures !Check(Reported(s, report), user, address, true, now).reject
  {
    LastSeenIsReported(report);
    RefusedExactlyWhen(Reported(s, report), user, address, true, now);
  }

  // ---------- under which UID an address is online ----------

  /** Some check of the run admitted the user with this address, or found it online, when the user had `uid`. */
  predicate AdmittedAs(h: History, es: seq<Event>, user: string, ip: string, uid: int)
    decreases |es|
  {
    es != [] && (AdmitsAs(h.state, es[0], user, ip, uid) || AdmittedAs(After(h, es[0]), es[1..], user, ip, uid))
  }

  predicate AdmitsAs(s: State, e: Event, user: string, ip: string, uid: int) {
    && e.Checked? && e.devices && e.user == user && TrimPrefix(e.address) == ip
    && user in s.limits && s.limits[user].uid == uid
  }

  /** The address is online for the user under `uid`. */
  predicate OnlineAs(s: State, user: string, ip: string, uid: int) {
    ip in OnlineOf(s, user) && OnlineOf(s, user)[ip] == uid
  }

  lemma CheckEntersAs(s: State, e: Event, user: string, ip: string, uid: int)
    requires e.Checked? && OnlineAs(After(History(s, []), e).state, user, ip, uid)
    ensures OnlineAs(s, user, ip, uid) || AdmitsAs(s, e, user, ip, uid)
  {
    CheckDoes(s, e.user, e.address, e.devices, e.now);
    if e.user in s.limits && e.user != user {
      OtherUsersStay(s, After(History(s, []), e).state, e.user, user);
    }
  }

  lemma EventEntersAs(h: History, e: Event, user: string, ip: string, uid: int)
    requires OnlineAs(After(h, e).state, user, ip, uid)
    ensures OnlineAs(h.state, user, ip, uid) || AdmitsAs(h.state, e, user, ip, uid)
  {
    match e
    case Checked(_, _, _, _) => CheckEntersAs(h.state, e, user, ip, uid);
    case Updated(tag, added, deleted) =>
      DeletionDoes(h.state, tag, deleted);
      AddedOthers(UsersDeleted(h.state, tag, deleted), tag, added);
    case _ =>
  }

  /** Over every run, with any updates, an address that was not online at the start is online for a user under
      a UID that the user had when a check admitted it from there. */
  lemma {:induction false} OnlineUnderTheUsersUid(h: History, es: seq<Event>, user: string, ip: string, uid: int)
    requires OnlineAs(Run(h, es).state, user, ip, uid)
    ensures OnlineAs(h.state, user, ip, uid) || AdmittedAs(h, es, user, ip, uid)
    decreases |es|
  {
    if es != [] {
      OnlineUnderTheUsersUid(After(h, es[0]), es[1..], user, ip, uid);
      if OnlineAs(After(h, es[0]).state, user, ip, uid) {
        EventEntersAs(h, es[0], user, ip, uid);
      }
    }
  }

  lemma EventKeepsUid(h: History, e: Event, user: string)
    requires !e.Updated? && user in After(h, e).state.limits
    ensures user in h.state.limits && After(h, e).state.limits[user].uid == h.state.limits[user].uid
  {
    if e.Checked? {
      CheckKeepsDeviceLimit(h.state, e.user, user, e.address, e.devices, e.now);
    }
  }

  lemma {:induction false} UidStays(h: History, es: seq<Event>, user: string)
    requires (forall e :: e in es ==> !e.Updated?) && user in Run(h, es).state.limits
    ensures user in h.state.limits && Run(h, es).state.limits[user].uid == h.state.limits[user].uid
    decreases |es|
  {
    if es != [] {
      UidStays(After(h, es[0]), es[1..], user);
      assert es[0] in es;
      EventKeepsUid(h, es[0], user);
    }
  }

  lemma {:induction false} AdmittedUnderOneUid(h: History, es: seq<Event>, user: string, ip: string, uid: int)
    requires (forall e :: e in es ==> !e.Updated?) && AdmittedAs(h, es, user, ip, uid)
    ensures user in h.state.limits && h.state.limits[user].uid == uid
    decreases |es|
  {
    if !AdmitsAs(h.state, es[0], user, ip, uid) {
      AdmittedUnderOneUid(After(h, es[0]), es[1..], user, ip, uid);
      assert es[0] in es;
      EventKeepsUid(h, es[0], user);
    }
  }

  /** So in a window without updates every entry of the report carries the UID its user has. */
  lemma ReportCarriesTheUid(h: History, es: seq<Event>, pairs: seq<Pair>, report: seq<OnlineUser>, i: nat)
    requires h.state.online == map[] && forall e :: e in es ==> !e.Updated?
    requires Names(Run(h, es).state, pairs, report) && i < |report|
    ensures pairs[i].user in h.state.limits && report[i] == OnlineUser(h.state.limits[pairs[i].user].uid, pairs[i].ip)
    ensures var t := Run(h, es).state; pairs[i].user in t.limits ==> report[i].uid == t.limits[pairs[i].user].uid
  {
    var t, user, ip := Run(h, es).state, pairs[i].user, pairs[i].ip;
    assert Recorded(t, pairs[i]) && report[i] == OnlineUser(t.online[user][ip], ip);
    OnlineUnderTheUsersUid(h, es, user, ip, report[i].uid);
    AdmittedUnderOneUid(h, es, user, ip, report[i].uid);
    if user in t.limits {
      UidStays(h, es, user);
    }
  }

  // ---------- when another user's report admits ----------

  /** The event takes address `ip` from the recent table: its owner's device is back and not yet online. */
  predicate TakesBack(s: State, e: Event, ip: string) {
    && e.Checked? && e.devices && TrimPrefix(e.address) == ip && e.user in s.limits
    && ip in s.recent && s.recent[ip] == s.limits[e.user].uid && ip !in OnlineOf(s, e.user)
  }

  predicate TakenBack(h: History, es: seq<Event>, ip: string)
    decreases |es|
  {
    es != [] && (TakesBack(h.state, es[0], ip) || TakenBack(After(h, es[0]), es[1..], ip))
  }

  lemma RecentAfterCheck(s: State, e: Event)
    requires e.Checked?
    ensures After(History(s, []), e).state.recent ==
            if TakesBack(s, e, TrimPrefix(e.address)) then s.recent - {TrimPrefix(e.address)} else s.recent
  {
    if e.user in s.limits {
      CheckParts(s, e.user, e.address, e.devices, e.now);
    }
  }

  lemma RecentAfter(h: History, e: Event, ip: string)
    requires !e.Windowed?
    ensures ip in After(h, e).state.recent <==> ip in h.state.recent && !TakesBack(h.state, e, ip)
    ensures ip in After(h, e).state.recent ==> After(h, e).state.recent[ip] == h.state.recent[ip]
  {
    match e
    case Checked(_, _, _, _) => RecentAfterCheck(h.state, e);
    case Updated(tag, added, deleted) =>
      UpdatesLeaveRecent(h.state, tag, deleted);
      UpdatesLeaveRecent(UsersDeleted(h.state, tag, deleted), tag, added);
    case _ =>
  }

  /** Between two reports an address stays recent, under the UID reported last, until its owner is back. */
  lemma {:induction false} RecentExactlyUntilTakenBack(h: History, es: seq<Event>, ip: string)
    requires forall e :: e in es ==> !e.Windowed?
    ensures var t := Run(h, es).state;
            && (ip in t.recent <==> ip in h.state.recent && !TakenBack(h, es, ip))
            && (ip in t.recent ==> t.recent[ip] == h.state.recent[ip])
    decreases |es|
  {
    if es != [] {
      assert es[0] in es;
      RecentAfter(h, es[0], ip);
      RecentExactlyUntilTakenBack(After(h, es[0]), es[1..], ip);
    }
  }

  /** A user at its limit gets in with a new address on another user's report exactly when that user was the
      last one reported for it and has not come back with it since. */
  lemma EntersOnAnothersReportExactlyWhen(h: History, report: seq<OnlineUser>, pairs: seq<Pair>, es: seq<Event>,
                                          user: string, address: string, now: int)
    requires forall e :: e in es ==> !e.Windowed?
    requires AtLimit(Run(After(h, Windowed(report, pairs)), es).state, user)
    requires TrimPrefix(address) !in OnlineOf(Run(After(h, Windowed(report, pairs)), es).state, user)
    ensures var g, ip := After(h, Windowed(report, pairs)), TrimPrefix(address);
            var t := Run(g, es).state;
            && (!Check(t, user, address, true, now).reject <==> ip in LastSeen(report) && !TakenBack(g, es, ip))
            && (!Check(t, user, address, true, now).reject && t.recent[ip] != t.limits[user].uid <==>
                  ip in LastSeen(report) && LastSeen(report)[ip] != t.limits[user].uid && !TakenBack(g, es, ip))
  {
    var g, ip := After(h, Windowed(report, pairs)), TrimPrefix(address);
    RecentExactlyUntilTakenBack(g, es, ip);
    RefusedExactlyWhen(Run(g, es).state, user, address, true, now);
  }

  // ---------- limits that come and go ----------

  predicate Deletes(e: Event, user: string) { e.Updated? && user in Tags(e.tag, e.deleted) }

  predicate Adds(e: Event, user: string) { e.Updated? && user in Tags(e.tag, e.added) }

  lemma UpdateLeavesLimit(s: State, e: Event, user: string)
    requires e.Updated? && !Adds(e, user) && !Deletes(e, user)
    ensures var t := After(History(s, []), e).state;
            && (user in t.limits <==> user in s.limits)
            && (user in s.limits ==> t.limits[user] == s.limits[user])
  {
    var d := UsersDeleted(s, e.tag, e.deleted);
    DeletionDoes(s, e.tag, e.deleted);
    AddedOthers(d, e.tag, e.added);
    var t, names := UsersAdded(d, e.tag, e.added), Tags(e.tag, e.added);
    assert user in t.limits <==> user in t.limits - names;
    assert user in d.limits <==> user in d.limits - names;
    if user in d.limits {
      assert t.limits[user] == (t.limits - names)[user] == (d.limits - names)[user] == d.limits[user];
    }
  }

  lemma UpdateAddsNobodyElse(s: State, e: Event, user: string)
    requires e.Updated? && !Adds(e, user) && user !in s.limits
    ensures user !in After(History(s, []), e).state.limits
  {
    var d := UsersDeleted(s, e.tag, e.deleted);
    DeletionDoes(s, e.tag, e.deleted);
    AddedOthers(d, e.tag, e.added);
    var t, names := UsersAdded(d, e.tag, e.added), Tags(e.tag, e.added);
    assert user in t.limits <==> user in t.limits - names;
  }

  lemma ExpiredRecordIsDropped(s: State, user: string, address: string, devices: bool, now: int)
    requires user in s.limits && Expired(s.limits[user], now)
    ensures user in Check(s, user, address, devices, now).state.limits <==> s.limits[user].speedLimit != 0
  {
    CheckParts(s, user, address, devices, now);
  }

  /** The event is a check of the user that finds its dynamic limit expired and no limit of its own. */
  predicate Forgets(s: State, e: Event, user: string) {
    e.Checked? && e.user == user && user in s.limits && Expired(s.limits[user], e.now) && s.limits[user].speedLimit == 0
  }

  predicate Forgotten(h: History, es: seq<Event>, user: string)
    decreases |es|
  {
    es != [] && (Forgets(h.state, es[0], user) || Forgotten(After(h, es[0]), es[1..], user))
  }

  lemma EventForgetsExactlyWhen(h: History, e: Event, user: string)
    requires user in h.state.limits && !Adds(e, user) && !Deletes(e, user)
    ensures user !in After(h, e).state.limits <==> Forgets(h.state, e, user)
  {
    match e
    case Checked(checked, address, devices, now) =>
      if checked in h.state.limits { CheckParts(h.state, checked, address, devices, now); }
    case Updated(_, _, _) => UpdateLeavesLimit(h.state, e, user);
    case _ =>
  }

  /** A known user who is neither deleted nor added is forgotten exactly when one of the run's checks of it
      finds a dynamic limit that is over and no limit of its own. */
  lemma {:induction false} ForgottenExactlyWhen(h: History, es: seq<Event>, user: string)
    requires user in h.state.limits && forall e :: e in es ==> !Adds(e, user) && !Deletes(e, user)
    ensures user !in Run(h, es).state.limits <==> Forgotten(h, es, user)
    decreases |es|
  {
    if es != [] {
      assert es[0] in es;
      EventForgetsExactlyWhen(h, es[0], user);
      if Forgets(h.state, es[0], user) {
        ExpiryLocksOut(After(h, es[0]), es[1..], user);
      } else {
        ForgottenExactlyWhen(After(h, es[0]), es[1..], user);
      }
    }
  }

  lemma EventBringsNobodyBack(h: History, e: Event, user: string)
    requires user !in h.state.limits && !Adds(e, user)
    ensures user !in After(h, e).state.limits
  {
    match e
    case Checked(checked, address, devices, now) => CheckKeepsDeviceLimit(h.state, checked, user, address, devices, now);
    case Updated(_, _, _) => UpdateAddsNobodyElse(h.state, e, user);
    case _ =>
  }

  /** Once forgotten a user is refused until the user list adds it again. */
  lemma {:induction false} ExpiryLocksOut(h: History, es: seq<Event>, user: string)
    requires user !in h.state.limits && forall e :: e in es ==> !Adds(e, user)
    ensures user !in Run(h, es).state.limits
    ensures forall address, devices, now :: Check(Run(h, es).state, user, address, devices, now).reject
    decreases |es|
  {
    if es != [] {
      assert es[0] in es;
      EventBringsNobodyBack(h, es[0], user);
      ExpiryLocksOut(After(h, es[0]), es[1..], user);
    }
  }

  lemma EventKeepsBucket(h: History, e: Event, user: string)
    requires user in h.state.buckets && !Deletes(e, user)
    ensures user in After(h, e).state.buckets && After(h, e).state.buckets[user] == h.state.buckets[user]
  {
    match e
    case Checked(checked, address, devices, now) =>
      if checked in h.state.limits { CheckParts(h.state, checked, address, devices, now); }
    case Updated(tag, added, deleted) =>
      DeletionDoes(h.state, tag, deleted);
      AddedOthers(UsersDeleted(h.state, tag, deleted), tag, added);
    case _ =>
  }

  /** A bucket, once there, keeps its rate until its user is deleted. */
  lemma {:induction false} BucketsKeepTheirRate(h: History, es: seq<Event>, user: string)
    requires user in h.state.buckets && forall e :: e in es ==> !Deletes(e, user)
    ensures user in Run(h, es).state.buckets && Run(h, es).state.buckets[user] == h.state.buckets[user]
    decreases |es|
  {
    if es != [] {
      assert es[0] in es;
      EventKeepsBucket(h, es[0], user);
      BucketsKeepTheirRate(After(h, es[0]), es[1..], user);
    }
  }

  lemma BucketHandedOut(s: State, user: string, address: string, devices: bool, now: int)
    requires !Check(s, user, address, devices, now).reject && user in s.buckets
    ensures user in s.limits
    ensures Check(s, user, address, devices, now).bucket ==
            if Rate(s, user, now) > 0 then Some(s.buckets[user]) else None
  {
    var a, r := Device(s, user, address, devices), Refreshed(s, user, now);
    assert r.buckets == s.buckets && r.nodeSpeed == s.nodeSpeed;
  }

  /** After every run that does not delete the user, a check hands out a bucket of the rate now called for if
      and only if the first bucket happens to have it. */
  lemma BucketIsCurrentExactlyWhen(h: History, es: seq<Event>, user: string, address: string, devices: bool, now: int)
    requires user in h.state.buckets && forall e :: e in es ==> !Deletes(e, user)
    requires !Check(Run(h, es).state, user, address, devices, now).reject
    ensures user in Run(h, es).state.limits
    ensures var s := Run(h, es).state;
            Rate(s, user, now) > 0 ==>
              (Check(s, user, address, devices, now).bucket == Some(Rate(s, user, now)) <==>
               h.state.buckets[user] == Rate(s, user, now))
  {
    BucketsKeepTheirRate(h, es, user);
    BucketHandedOut(Run(h, es).state, user, address, devices, now);
  }

  const EMPTY := History(State(0, map[], map[], map[], map[], map[], map[]), [])

  lemma ThreeEvents(h: History, a: Event, b: Event, c: Event)
    ensures Run(h, [a, b, c]) == After(After(After(h, a), b), c)
  {
    assert [a, b, c][1..] == [b, c] && [b, c][1..] == [c] && [c][1..] == [];
    assert Run(After(After(h, a), b), [c]) == After(After(After(h, a), b), c);
    assert Run(After(h, a), [b, c]) == Run(After(After(h, a), b), [c]);
  }

  lemma FirstUser(tag: string, u: UserInfo)
    ensures After(EMPTY, Updated(tag, [u], [])).state == UserAdded(EMPTY.state, tag, u)
  {
    assert [u][..0] == [];
    assert UsersAdded(EMPTY.state, tag, []) == EMPTY.state && UsersDeleted(EMPTY.state, tag, []) == EMPTY.state;
  }

  /** A lower limit set after the first connection does not reach the bucket. */
  lemma LowerLimitIsIgnored(tag: string, u: UserInfo, lower: int)
    requires 0 < lower < u.speedLimit
    ensures var user := UserTag(tag, u.uuid);
            var es := [Updated(tag, [u], []), Checked(user, "", false, 0), SpeedLimited(user, lower, 10)];
            var s := Run(EMPTY, es).state;
            && user in s.limits && Rate(s, user, 5) == lower * 125000
            && Check(s, user, "", false, 5).bucket == Some(u.speedLimit * 125000)
  {
    var user := UserTag(tag, u.uuid);
    var a, b, c := Updated(tag, [u], []), Checked(user, "", false, 0), SpeedLimited(user, lower, 10);
    ThreeEvents(EMPTY, a, b, c);
    FirstUser(tag, u);
    var s := After(After(EMPTY, a), b).state;
    assert s.limits == map[user := UserLimit(u.id, u.speedLimit, u.deviceLimit, 0, 0)];
    assert s.buckets == map[user := u.speedLimit * 125000];
  }

  /** A user without a limit of its own gets one for a while and is forgotten when it is over. */
  lemma ExpiryForgetsAUser(tag: string, u: UserInfo, limit: int)
    requires u.speedLimit == 0
    ensures var user := UserTag(tag, u.uuid);
            var es := [Updated(tag, [u], []), SpeedLimited(user, limit, 10), Checked(user, "", false, 11)];
            && !Check(Run(EMPTY, es[..1]).state, user, "", false, 0).reject
            && Check(Run(EMPTY, es).state, user, "", false, 12).reject
  {
    var user := UserTag(tag, u.uuid);
    var a, b, c := Updated(tag, [u], []), SpeedLimited(user, limit, 10), Checked(user, "", false, 11);
    ThreeEvents(EMPTY, a, b, c);
    FirstUser(tag, u);
    assert [a, b, c][..1] == [a] && [a][1..] == [];
    assert Run(EMPTY, [a]) == After(EMPTY, a);
  }
}
