/** The sing core's four views of a node's users: the managed users, the users a connection may
    belong to, the UIDs that traffic is reported under, and the inbound's own table. Every operation
    holds one lock from start to end. */
module SingUsers {
  import opened Panel
  import Seqs

  const NUL: char := '\0'

  function Key(tag: string, uuid: string): (k: string)
    ensures |k| == |tag| + 1 + |uuid| && k[..|tag|] == tag && k[|tag|] == NUL && k[|tag| + 1..] == uuid
  {
    tag + [NUL] + uuid
  }

  /** Neither tag, closed by the separator, starts the other. */
  predicate Apart(t: string, t': string) { !(t + [NUL] <= t') && !(t' + [NUL] <= t) }

  function KeysOf(tag: string, uuids: set<string>): set<string> { set u | u in uuids :: Key(tag, u) }

  predicate HasPrefix(key: string, tag: string) { tag + [NUL] <= key }

  lemma PrefixedByOther(t: string, u: string, tag: string)
    requires t != tag && HasPrefix(Key(t, u), tag)
    ensures !Apart(t, tag)
  {
    var k := Key(t, u);
    assert k[..|tag|] == tag && k[|tag|] == NUL && k[..|t|] == t && k[|t|] == NUL;
    if |tag| < |t| {
      assert tag + [NUL] == k[..|tag| + 1] == t[..|tag| + 1];
    } else if |t| < |tag| {
      assert t + [NUL] == k[..|t| + 1] == tag[..|t| + 1];
    }
  }

  lemma KeysDiffer(t: string, u: string, t': string, u': string)
    requires t == t' || Apart(t, t')
    requires Key(t, u) == Key(t', u')
    ensures t == t' && u == u'
  {
    assert Key(t', u')[..|t'| + 1] == t' + [NUL];
    if t != t' {
      PrefixedByOther(t, u, t');
    }
    assert Key(t, u)[|t| + 1..] == u;
  }

  /** The users of two nodes never share a key if and only if the tags are apart. */
  lemma KeysDifferExactlyWhenApart(t: string, t': string)
    requires t != t'
    ensures (forall u, u' :: Key(t, u) != Key(t', u')) <==> Apart(t, t')
  {
    if Apart(t, t') {
      forall u, u' ensures Key(t, u) != Key(t', u') {
        if Key(t, u) == Key(t', u') {
          KeysDiffer(t, u, t', u');
        }
      }
    } else if t + [NUL] <= t' {
      var rest := t'[|t| + 1..];
      assert Key(t, rest + [NUL]) == Key(t', "");
    } else {
      var rest := t[|t'| + 1..];
      assert Key(t', rest + [NUL]) == Key(t, "");
    }
  }

  type Users = map<string, UserInfo>

  /** `params` keeps a node's type for later user changes; `tables` are the inbounds' user tables. */
  datatype State = State(managed: map<string, Users>, params: map<string, string>, uids: map<string, int>,
                         active: set<string>, tables: map<string, set<string>>, nodes: set<string>)

  const EMPTY := State(map[], map[], map[], {}, map[], {})

  function Managed(s: State, tag: string): Users { if tag in s.managed then s.managed[tag] else map[] }

  /** The node types whose inbounds take a user table. */
  const KNOWN_TYPES: set<string> :=
    {"vless", "vmess", "shadowsocks", "trojan", "tuic", "hysteria", "hysteria2", "anytls"}

  function Overlay(base: Users, list: seq<UserInfo>): Users
    decreases |list|
  {
    if list == [] then base
    else
      var n := |list| - 1;
      Overlay(base, list[..n])[list[n].uuid := list[n]]
  }

  function Names(list: seq<UserInfo>): set<string> { set u | u in list :: u.uuid }

  // ---------- what the operations do ----------

  /** `accepts` is the inbound's verdict on the whole table. */
  predicate SetUsersOk(s: State, tag: string, nodeType: string, accepts: bool) {
    tag in s.tables && (nodeType in KNOWN_TYPES ==> accepts)
  }

  function Tables(s: State, tag: string, nodeType: string, uuids: set<string>): map<string, set<string>> {
    if nodeType in KNOWN_TYPES then s.tables[tag := uuids] else s.tables
  }

  function PutUids(uids: map<string, int>, tag: string, users: Users): map<string, int> {
    map k | k in uids.Keys + KeysOf(tag, users.Keys) ::
      if k in KeysOf(tag, users.Keys) then users[k[|tag| + 1..]].id else uids[k]
  }

  function UsersAdded(s: State, tag: string, list: seq<UserInfo>, nodeType: string, accepts: bool): State {
    var users := Overlay(Managed(s, tag), list);
    var active := s.active + KeysOf(tag, users.Keys);
    if !SetUsersOk(s, tag, nodeType, accepts) then
      s.(active := active - KeysOf(tag, users.Keys - Managed(s, tag).Keys))
    else
      s.(managed := s.managed[tag := users], params := s.params[tag := nodeType], active := active,
         uids := PutUids(s.uids, tag, users), tables := Tables(s, tag, nodeType, users.Keys))
  }

  predicate DelUsersOk(s: State, tag: string, accepts: bool) {
    tag in s.params && SetUsersOk(s, tag, s.params[tag], accepts)
  }

  function UsersDeleted(s: State, tag: string, list: seq<UserInfo>, accepts: bool): State {
    if !DelUsersOk(s, tag, accepts) then s
    else
      var remaining := Managed(s, tag) - Names(list);
      s.(managed := s.managed[tag := remaining], active := s.active - KeysOf(tag, Names(list)),
         uids := s.uids - KeysOf(tag, Names(list)), tables := Tables(s, tag, s.params[tag], remaining.Keys))
  }

  /** `created`: the inbound came up, and with an empty table. */
  function NodeAdded(s: State, tag: string, created: bool): State {
    s.(nodes := s.nodes + {tag}, tables := if created then s.tables[tag := {}] else s.tables)
  }

  /** `removed`: the inbound is gone, whatever else its removal reports. */
  function NodeDeleted(s: State, tag: string, removed: bool): State {
    s.(managed := s.managed - {tag}, params := s.params - {tag},
       active := s.active - KeysOf(tag, Managed(s, tag).Keys),
       uids := map k | k in s.uids && !HasPrefix(k, tag) :: s.uids[k],
       tables := if removed then s.tables - {tag} else s.tables)
  }

  // ---------- what the operations promise ----------

  function TableOf(s: State, tag: string): set<string> { if tag in s.tables then s.tables[tag] else {} }

  /** The last record of its name in the list. */
  predicate IsLast(list: seq<UserInfo>, i: nat)
    requires i < |list|
  {
    forall j :: i < j < |list| ==> list[j].uuid != list[i].uuid
  }

  /** One user of node `tag` with record `r`, as the four views see it. */
  predicate Serves(s: State, tag: string, r: UserInfo, nodeType: string) {
    var key := Key(tag, r.uuid);
    && r.uuid in Managed(s, tag) && Managed(s, tag)[r.uuid] == r
    && key in s.active && key in s.uids && s.uids[key] == r.id
    && (nodeType in KNOWN_TYPES ==> r.uuid in TableOf(s, tag))
  }

  /** No view knows the user. */
  predicate Unknown(s: State, tag: string, u: string, nodeType: string) {
    && u !in Managed(s, tag) && Key(tag, u) !in s.active && Key(tag, u) !in s.uids
    && (nodeType in KNOWN_TYPES ==> u !in TableOf(s, tag))
  }

  /** Beyond the keys of the names `us` under `tag`, and the tables of node `tag`, nothing has changed. */
  ghost predicate ElseUntouched(s: State, t: State, tag: string, us: set<string>) {
    && (forall x :: x != tag ==> Managed(t, x) == Managed(s, x) && TableOf(t, x) == TableOf(s, x))
    && (forall k :: k !in KeysOf(tag, us) ==> (k in t.active <==> k in s.active) && (k in t.uids <==> k in s.uids))
    && (forall k :: k !in KeysOf(tag, us) && k in s.uids ==> t.uids[k] == s.uids[k])
    && t.nodes == s.nodes && t.params - {tag} == s.params - {tag}
  }

  ghost predicate ServesListed(t: State, tag: string, list: seq<UserInfo>, nodeType: string) {
    forall i :: 0 <= i < |list| && IsLast(list, i) ==> Serves(t, tag, list[i], nodeType)
  }

  ghost predicate ServesOthers(s: State, t: State, tag: string, list: seq<UserInfo>, nodeType: string) {
    && (forall u :: u in Managed(s, tag) && u !in Names(list) ==> Serves(t, tag, Managed(s, tag)[u], nodeType))
    && (forall u :: u in Managed(t, tag) ==> u in Managed(s, tag) || u in Names(list))
  }

  /** Every listed user is served under the last record listed for it, and so is every user there was. */
  ghost predicate PutIn(s: State, t: State, tag: string, list: seq<UserInfo>, nodeType: string) {
    && ServesListed(t, tag, list, nodeType) && ServesOthers(s, t, tag, list, nodeType)
    && ElseUntouched(s, t, tag, Managed(s, tag).Keys + Names(list))
    && tag in t.params && t.params[tag] == nodeType
    && (nodeType !in KNOWN_TYPES ==> TableOf(t, tag) == TableOf(s, tag))
  }

  /** A user that is not on the list keeps its record, and with a known type its place in the table. */
  predicate Stays(s: State, t: State, tag: string, u: string, nodeType: string) {
    && (u in Managed(t, tag) <==> u in Managed(s, tag))
    && (u in Managed(s, tag) ==>
          Managed(t, tag)[u] == Managed(s, tag)[u] && (nodeType in KNOWN_TYPES ==> u in TableOf(t, tag)))
  }

  /** No listed user is known any more, and every other user of the node stays as it was. */
  ghost predicate TakenOut(s: State, t: State, tag: string, list: seq<UserInfo>, nodeType: string) {
    && (forall u :: u in Names(list) ==> Unknown(t, tag, u, nodeType))
    && (forall u :: u !in Names(list) ==> Stays(s, t, tag, u, nodeType))
    && ElseUntouched(s, t, tag, Names(list)) && t.params == s.params
    && (nodeType !in KNOWN_TYPES ==> TableOf(t, tag) == TableOf(s, tag))
  }

  /** A user of a node that is gone: neither permitted nor with a UID. */
  predicate Banned(s: State, t: State, tag: string, u: string) {
    Key(tag, u) !in t.uids && (u in Managed(s, tag) ==> Key(tag, u) !in t.active)
  }

  /** What lies under other keys stays. */
  predicate KeyStays(s: State, t: State, tag: string, k: string) {
    && (k !in KeysOf(tag, Managed(s, tag).Keys) ==> (k in t.active <==> k in s.active))
    && (!HasPrefix(k, tag) ==> (k in t.uids <==> k in s.uids) && (k in s.uids ==> t.uids[k] == s.uids[k]))
  }

  /** No user of the node is managed, permitted or has a UID; its inbound is gone when it was removed. */
  ghost predicate NodeTakenOut(s: State, t: State, tag: string, removed: bool) {
    && Managed(t, tag) == map[] && t.params == s.params - {tag} && t.nodes == s.nodes
    && (forall u :: Banned(s, t, tag, u)) && (forall k :: KeyStays(s, t, tag, k))
    && TableOf(t, tag) == (if removed then {} else TableOf(s, tag))
    && forall x :: x != tag ==> Managed(t, x) == Managed(s, x) && TableOf(t, x) == TableOf(s, x)
  }

  lemma OneMoreName(list: seq<UserInfo>)
    requires list != []
    ensures var n := |list| - 1; Names(list) == Names(list[..n]) + {list[n].uuid}
  {
    var n := |list| - 1;
    Seqs.Snoc(list);
    assert forall u :: u in list <==> u in list[..n] || u == list[n];
  }

  lemma {:induction false} OverlayKeys(base: Users, list: seq<UserInfo>)
    ensures Overlay(base, list).Keys == base.Keys + Names(list)
    decreases |list|
  {
    if list != [] {
      OverlayKeys(base, list[..|list| - 1]);
      OneMoreName(list);
    }
  }

  lemma {:induction false} OverlayKeepsLast(base: Users, list: seq<UserInfo>, i: nat)
    requires i < |list| && IsLast(list, i)
    ensures list[i].uuid in Overlay(base, list) && Overlay(base, list)[list[i].uuid] == list[i]
    decreases |list|
  {
    var n := |list| - 1;
    if i < n {
      var front := list[..n];
      assert front[i] == list[i] && list[n].uuid != list[i].uuid;
      assert forall j :: i < j < n ==> front[j] == list[j];
      OverlayKeepsLast(base, front, i);
    }
  }

  lemma {:induction false} OverlayKeepsOthers(base: Users, list: seq<UserInfo>, u: string)
    requires u in base && u !in Names(list)
    ensures u in Overlay(base, list) && Overlay(base, list)[u] == base[u]
    decreases |list|
  {
    if list != [] {
      OneMoreName(list);
      OverlayKeepsOthers(base, list[..|list| - 1], u);
    }
  }

  lemma OwnKey(tag: string, u: string, us: set<string>)
    ensures Key(tag, u) in KeysOf(tag, us) <==> u in us
    ensures Key(tag, u)[|tag| + 1..] == u && HasPrefix(Key(tag, u), tag)
  {
    if Key(tag, u) in KeysOf(tag, us) {
      var v :| v in us && Key(tag, v) == Key(tag, u);
      KeysDiffer(tag, u, tag, v);
    }
  }

  lemma AddedServes(s: State, tag: string, list: seq<UserInfo>, nodeType: string, accepts: bool, r: UserInfo)
    requires SetUsersOk(s, tag, nodeType, accepts)
    requires r.uuid in Overlay(Managed(s, tag), list) && Overlay(Managed(s, tag), list)[r.uuid] == r
    ensures Serves(UsersAdded(s, tag, list, nodeType, accepts), tag, r, nodeType)
  {
    OwnKey(tag, r.uuid, Overlay(Managed(s, tag), list).Keys);
  }

  lemma AddedElse(s: State, tag: string, list: seq<UserInfo>, nodeType: string, accepts: bool)
    requires SetUsersOk(s, tag, nodeType, accepts)
    ensures ElseUntouched(s, UsersAdded(s, tag, list, nodeType, accepts), tag, Managed(s, tag).Keys + Names(list))
  {
    OverlayKeys(Managed(s, tag), list);
  }

  lemma AddedServesListed(s: State, tag: string, list: seq<UserInfo>, nodeType: string, accepts: bool)
    requires SetUsersOk(s, tag, nodeType, accepts)
    ensures ServesListed(UsersAdded(s, tag, list, nodeType, accepts), tag, list, nodeType)
  {
    forall i | 0 <= i < |list| && IsLast(list, i)
      ensures Serves(UsersAdded(s, tag, list, nodeType, accepts), tag, list[i], nodeType)
    {
      OverlayKeepsLast(Managed(s, tag), list, i);
      AddedServes(s, tag, list, nodeType, accepts, list[i]);
    }
  }

  lemma AddedServesOthers(s: State, tag: string, list: seq<UserInfo>, nodeType: string, accepts: bool)
    requires SetUsersOk(s, tag, nodeType, accepts) && forall u :: u in Managed(s, tag) ==> Managed(s, tag)[u].uuid == u
    ensures ServesOthers(s, UsersAdded(s, tag, list, nodeType, accepts), tag, list, nodeType)
  {
    OverlayKeys(Managed(s, tag), list);
    forall u | u in Managed(s, tag) && u !in Names(list)
      ensures Serves(UsersAdded(s, tag, list, nodeType, accepts), tag, Managed(s, tag)[u], nodeType)
    {
      OverlayKeepsOthers(Managed(s, tag), list, u);
      AddedServes(s, tag, list, nodeType, accepts, Managed(s, tag)[u]);
    }
  }

  lemma AdditionPutsIn(s: State, tag: string, list: seq<UserInfo>, nodeType: string, accepts: bool)
    requires SetUsersOk(s, tag, nodeType, accepts) && forall u :: u in Managed(s, tag) ==> Managed(s, tag)[u].uuid == u
    ensures PutIn(s, UsersAdded(s, tag, list, nodeType, accepts), tag, list, nodeType)
  {
    AddedServesListed(s, tag, list, nodeType, accepts);
    AddedServesOthers(s, tag, list, nodeType, accepts);
    AddedElse(s, tag, list, nodeType, accepts);
  }

  lemma DeletionTakesOut(s: State, tag: string, list: seq<UserInfo>, accepts: bool)
    requires DelUsersOk(s, tag, accepts)
    ensures TakenOut(s, UsersDeleted(s, tag, list, accepts), tag, list, s.params[tag])
  {
    var t := UsersDeleted(s, tag, list, accepts);
    forall u | u in Names(list) ensures Unknown(t, tag, u, s.params[tag]) {
      OwnKey(tag, u, Names(list));
    }
  }

  lemma NodeDeletionTakesOut(s: State, tag: string, removed: bool)
    ensures NodeTakenOut(s, NodeDeleted(s, tag, removed), tag, removed)
  {
    var t := NodeDeleted(s, tag, removed);
    forall u ensures Banned(s, t, tag, u) {
      OwnKey(tag, u, Managed(s, tag).Keys);
    }
    forall k ensures KeyStays(s, t, tag, k) {
    }
  }

  // ---------- the core ----------

  /** Strings in the order `sort.Strings` puts them. */
  predicate Before(a: string, b: string) {
    b != [] && (a == [] || a[0] < b[0] || (a[0] == b[0] && Before(a[1..], b[1..])))
  }

  lemma {:induction false} Ordered(a: string, b: string)
    ensures Before(a, b) || Before(b, a) || a == b
  {
    if a != [] && b != [] && a[0] == b[0] {
      Ordered(a[1..], b[1..]);
      if a[1..] == b[1..] {
        assert a == [a[0]] + a[1..] && b == [b[0]] + b[1..];
      }
    }
  }

  lemma {:induction false} BeforeTransitive(a: string, b: string, c: string)
    requires Before(a, b) && Before(b, c)
    ensures Before(a, c)
  {
    if a != [] && a[0] == b[0] == c[0] {
      BeforeTransitive(a[1..], b[1..], c[1..]);
    }
  }

  predicate Sorted(keys: seq<string>) { forall i, j :: 0 <= i < j < |keys| ==> Before(keys[i], keys[j]) }

  lemma SortedCons(key: string, rest: seq<string>)
    requires Sorted(rest) && forall k :: k in rest ==> Before(key, k)
    ensures Sorted([key] + rest)
  {
  }

  /** The library's sort, on distinct strings, one insertion at a time. */
  function Insert(key: string, sorted: seq<string>): (r: seq<string>)
    requires Sorted(sorted) && key !in sorted
    ensures Sorted(r) && forall k :: k in r <==> k == key || k in sorted
  {
    if sorted == [] then [key]
    else if Before(key, sorted[0]) then
      (forall k | k in sorted ensures Before(key, k) { if k != sorted[0] { BeforeTransitive(key, sorted[0], k); } }
       SortedCons(key, sorted);
       [key] + sorted)
    else
      Ordered(key, sorted[0]);
      SortedCons(sorted[0], Insert(key, sorted[1..]));
      [sorted[0]] + Insert(key, sorted[1..])
  }

  predicate WellKeyed(s: State) {
    forall tag, u :: tag in s.managed && u in s.managed[tag] ==> s.managed[tag][u].uuid == u
  }

  lemma NamesSnoc(list: seq<UserInfo>, i: nat)
    requires i < |list|
    ensures Names(list[..i + 1]) == Names(list[..i]) + {list[i].uuid}
  {
    assert list[..i + 1] == list[..i] + [list[i]];
  }

  lemma {:induction false} OverlayWellKeyed(base: Users, list: seq<UserInfo>)
    requires forall u :: u in base ==> base[u].uuid == u
    ensures forall u :: u in Overlay(base, list) ==> Overlay(base, list)[u].uuid == u
    ensures Overlay(base, list).Keys == base.Keys + Names(list)
    decreases |list|
  {
    if list != [] {
      var n := |list| - 1;
      OverlayWellKeyed(base, list[..n]);
      NamesSnoc(list, n);
      Seqs.Whole(list);
    }
  }

  function Stored(uids: map<string, int>, tag: string, list: seq<UserInfo>): map<string, int>
    decreases |list|
  {
    if list == [] then uids
    else
      var n := |list| - 1;
      Stored(uids, tag, list[..n])[Key(tag, list[n].uuid) := list[n].id]
  }

  lemma {:induction false} StoredAt(uids: map<string, int>, tag: string, list: seq<UserInfo>, users: Users)
    requires forall u :: u in list ==> u.uuid in users && users[u.uuid] == u
    ensures var r := Stored(uids, tag, list);
            && r.Keys == uids.Keys + KeysOf(tag, Names(list))
            && forall k :: k in r ==>
                 if k in KeysOf(tag, Names(list)) then k[|tag| + 1..] in users && r[k] == users[k[|tag| + 1..]].id
                 else r[k] == uids[k]
    decreases |list|
  {
    if list != [] {
      var n := |list| - 1;
      StoredAt(uids, tag, list[..n], users);
      NamesSnoc(list, n);
      Seqs.Whole(list);
      var names, key := Names(list[..n]), Key(tag, list[n].uuid);
      assert KeysOf(tag, Names(list)) == KeysOf(tag, names) + {key};
      assert users[list[n].uuid] == list[n];
    }
  }

  lemma StoredIsPut(uids: map<string, int>, tag: string, list: seq<UserInfo>, users: Users)
    requires Names(list) == users.Keys && forall u :: u in list ==> users[u.uuid] == u
    ensures Stored(uids, tag, list) == PutUids(uids, tag, users)
  {
    StoredAt(uids, tag, list, users);
  }

  lemma SortedNames(users: Users, out: seq<UserInfo>)
    requires forall u :: u in users ==> users[u].uuid == u
    requires forall u :: u in out <==> u.uuid in users && users[u.uuid] == u
    ensures Names(out) == users.Keys
  {
    forall k | k in users ensures k in Names(out) {
      assert users[k] in out;
    }
  }

  class Sing {
    var managedUsers: map<string, Users>
    var managedParams: map<string, string>
    var uidMap: map<string, int>
    var activeUsers: set<string>
    var inboundTables: map<string, set<string>>
    var managedNodes: set<string>

    constructor ()
      ensures View() == EMPTY
    {
      managedUsers, managedParams, uidMap := map[], map[], map[];
      activeUsers, inboundTables, managedNodes := {}, map[], {};
    }

    ghost function View(): State
      reads this
    {
      State(managedUsers, managedParams, uidMap, activeUsers, inboundTables, managedNodes)
    }

    /** Every table of managed users is keyed by the users' own names. */
    ghost predicate Valid()
      reads this
    {
      WellKeyed(View())
    }

    /** The users of a node, each once, in the order of their names. */
    static method SortedUsers(users: Users) returns (out: seq<UserInfo>)
      requires forall u :: u in users ==> users[u].uuid == u
      ensures forall u :: u in out <==> u.uuid in users && users[u.uuid] == u
      ensures forall i, j :: 0 <= i < j < |out| ==> Before(out[i].uuid, out[j].uuid)
    {
      var rest, keys := users.Keys, [];
      while rest != {}
        invariant rest <= users.Keys && Sorted(keys)
        invariant forall k :: k in keys <==> k in users.Keys - rest
      {
        var k := Seqs.Pick(rest);
        keys, rest := Insert(k, keys), rest - {k};
      }
      out := [];
      for i := 0 to |keys|
        invariant |out| == i && forall j :: 0 <= j < i ==> keys[j] in users && out[j] == users[keys[j]]
      {
        assert keys[i] in keys;
        out := out + [users[keys[i]]];
      }
      forall u: UserInfo | u.uuid in users && users[u.uuid] == u ensures u in out {
        assert u.uuid in keys;
        var i :| 0 <= i < |keys| && keys[i] == u.uuid;
        assert out[i] == u;
      }
    }

    static method Merge(base: Users, list: seq<UserInfo>) returns (users: Users)
      ensures users == Overlay(base, list)
    {
      users := base;
      for i := 0 to |list|
        invariant users == Overlay(base, list[..i])
      {
        assert list[..i + 1][..i] == list[..i];
        users := users[list[i].uuid := list[i]];
      }
      Seqs.Whole(list);
    }

    static method Without(base: Users, list: seq<UserInfo>) returns (users: Users)
      ensures users == base - Names(list)
    {
      users := base;
      for i := 0 to |list|
        invariant users == base - Names(list[..i])
      {
        NamesSnoc(list, i);
        users := users - {list[i].uuid};
      }
      Seqs.Whole(list);
    }

    method Activate(tag: string, list: seq<UserInfo>)
      modifies this`activeUsers
      ensures activeUsers == old(activeUsers) + KeysOf(tag, Names(list))
    {
      for i := 0 to |list|
        invariant activeUsers == old(activeUsers) + KeysOf(tag, Names(list[..i]))
      {
        NamesSnoc(list, i);
        activeUsers := activeUsers + {Key(tag, list[i].uuid)};
      }
      Seqs.Whole(list);
    }

    /** Takes back the activation of the users that were not managed before. */
    method RevokeNew(tag: string, users: Users)
      modifies this`activeUsers
      ensures activeUsers == old(activeUsers) - KeysOf(tag, users.Keys - Managed(View(), tag).Keys)
    {
      var rest := users.Keys;
      while rest != {}
        invariant rest <= users.Keys
        invariant activeUsers == old(activeUsers) - KeysOf(tag, (users.Keys - rest) - Managed(View(), tag).Keys)
      {
        var uuid := Seqs.Pick(rest);
        if !(tag in managedUsers && uuid in managedUsers[tag]) {
          activeUsers := activeUsers - {Key(tag, uuid)};
        }
        rest := rest - {uuid};
      }
    }

    /** Replaces the inbound's table as a whole, or not at all. */
    method SetUsers(tag: string, nodeType: string, uuids: set<string>, accepts: bool) returns (ok: bool)
      modifies this`inboundTables
      ensures ok == SetUsersOk(old(View()), tag, nodeType, accepts)
      ensures inboundTables == if ok then Tables(old(View()), tag, nodeType, uuids) else old(inboundTables)
    {
      if tag !in inboundTables {
        return false;
      }
      if nodeType !in KNOWN_TYPES {
        return true;
      }
      if accepts {
        inboundTables := inboundTables[tag := uuids];
      }
      return accepts;
    }

    method StoreUids(tag: string, list: seq<UserInfo>, ghost users: Users)
      requires Names(list) == users.Keys && forall u :: u in list ==> users[u.uuid] == u
      modifies this`uidMap
      ensures uidMap == PutUids(old(uidMap), tag, users)
    {
      for i := 0 to |list|
        invariant uidMap == Stored(old(uidMap), tag, list[..i])
      {
        assert list[..i + 1][..i] == list[..i];
        uidMap := uidMap[Key(tag, list[i].uuid) := list[i].id];
      }
      Seqs.Whole(list);
      StoredIsPut(old(uidMap), tag, list, users);
    }

    /** The managed users with a list laid over them, by name and in order. */
    method Snapshot(tag: string, list: seq<UserInfo>) returns (users: Users, sorted: seq<UserInfo>)
      requires Valid()
      ensures users == Overlay(Managed(View(), tag), list)
      ensures Names(sorted) == users.Keys && forall u :: u in sorted ==> users[u.uuid] == u
      ensures forall u :: u in users ==> users[u].uuid == u
    {
      users := Merge(if tag in managedUsers then managedUsers[tag] else map[], list);
      OverlayWellKeyed(Managed(View(), tag), list);
      sorted := SortedUsers(users);
      SortedNames(users, sorted);
    }

    /** The users may connect before the table knows them; they are committed only once it took them all. */
    method TryUsers(tag: string, list: seq<UserInfo>, nodeType: string, accepts: bool) returns (ok: bool)
      requires Valid()
      modifies this
      ensures Valid() && View() == UsersAdded(old(View()), tag, list, nodeType, accepts)
      ensures ok == SetUsersOk(old(View()), tag, nodeType, accepts)
    {
      var users, sorted := Snapshot(tag, list);
      Activate(tag, sorted);
      ok := SetUsers(tag, nodeType, Names(sorted), accepts);
      if !ok {
        RevokeNew(tag, users);
        return false;
      }
      managedUsers := managedUsers[tag := users];
      managedParams := managedParams[tag := nodeType];
      StoreUids(tag, sorted, users);
    }

    /** Every listed user is served afterwards, or nothing is committed. */
    method AddUsers(tag: string, list: seq<UserInfo>, nodeType: string, accepts: bool) returns (added: nat, ok: bool)
      requires Valid()
      modifies this
      ensures Valid() && View() == UsersAdded(old(View()), tag, list, nodeType, accepts)
      ensures ok == SetUsersOk(old(View()), tag, nodeType, accepts) && added == if ok then |list| else 0
      ensures ok ==> PutIn(old(View()), View(), tag, list, nodeType)
    {
      ghost var before := View();
      ok := TryUsers(tag, list, nodeType, accepts);
      if ok {
        AdditionPutsIn(before, tag, list, nodeType, accepts);
      }
      added := if ok then |list| else 0;
    }

    /** Revokes the users of a list: no new connections, no UID. */
    method RevokeListed(tag: string, list: seq<UserInfo>)
      modifies this`activeUsers, this`uidMap
      ensures activeUsers == old(activeUsers) - KeysOf(tag, Names(list))
      ensures uidMap == old(uidMap) - KeysOf(tag, Names(list))
    {
      for i := 0 to |list|
        invariant activeUsers == old(activeUsers) - KeysOf(tag, Names(list[..i]))
        invariant uidMap == old(uidMap) - KeysOf(tag, Names(list[..i]))
      {
        NamesSnoc(list, i);
        activeUsers := activeUsers - {Key(tag, list[i].uuid)};
        uidMap := uidMap - {Key(tag, list[i].uuid)};
      }
      Seqs.Whole(list);
    }

    method DelUsers(tag: string, list: seq<UserInfo>, accepts: bool) returns (ok: bool)
      requires Valid()
      modifies this
      ensures Valid() && View() == UsersDeleted(old(View()), tag, list, accepts)
      ensures ok == DelUsersOk(old(View()), tag, accepts)
      ensures !ok ==> View() == old(View())
      ensures ok ==> TakenOut(old(View()), View(), tag, list, old(View()).params[tag])
    {
      if tag !in managedParams {
        return false;
      }
      var params := managedParams[tag];
      var remaining := Without(if tag in managedUsers then managedUsers[tag] else map[], list);
      var sorted := SortedUsers(remaining);
      SortedNames(remaining, sorted);
      ok := SetUsers(tag, params, Names(sorted), accepts);
      if ok {
        managedUsers := managedUsers[tag := remaining];
        RevokeListed(tag, list);
        DeletionTakesOut(old(View()), tag, list, accepts);
      }
    }

    method AddNode(tag: string, created: bool)
      modifies this
      ensures View() == NodeAdded(old(View()), tag, created)
      ensures managedNodes == old(managedNodes) + {tag}
      ensures inboundTables == if created then old(inboundTables)[tag := {}] else old(inboundTables)
    {
      managedNodes := managedNodes + {tag};
      if created {
        inboundTables := inboundTables[tag := {}];
      }
    }

    method RevokeManaged(tag: string)
      modifies this`activeUsers
      ensures activeUsers == old(activeUsers) - KeysOf(tag, Managed(View(), tag).Keys)
    {
      var users: Users := if tag in managedUsers then managedUsers[tag] else map[];
      var rest := users.Keys;
      while rest != {}
        invariant rest <= users.Keys && activeUsers == old(activeUsers) - KeysOf(tag, users.Keys - rest)
      {
        var uuid := Seqs.Pick(rest);
        activeUsers := activeUsers - {Key(tag, uuid)};
        rest := rest - {uuid};
      }
    }

    method DropUids(tag: string)
      modifies this`uidMap
      ensures uidMap == map k | k in old(uidMap) && !HasPrefix(k, tag) :: old(uidMap)[k]
    {
      var rest := uidMap.Keys;
      while rest != {}
        invariant rest <= old(uidMap).Keys
        invariant uidMap == map k | k in old(uidMap) && (k in rest || !HasPrefix(k, tag)) :: old(uidMap)[k]
      {
        var key := Seqs.Pick(rest);
        if HasPrefix(key, tag) {
          uidMap := uidMap - {key};
        }
        rest := rest - {key};
      }
    }

    method DelNode(tag: string, removed: bool)
      requires Valid()
      modifies this
      ensures Valid() && View() == NodeDeleted(old(View()), tag, removed)
      ensures NodeTakenOut(old(View()), View(), tag, removed)
    {
      NodeDeletionTakesOut(View(), tag, removed);
      RevokeManaged(tag);
      managedUsers := managedUsers - {tag};
      managedParams := managedParams - {tag};
      DropUids(tag);
      if removed {
        inboundTables := inboundTables - {tag};
      }
    }
  }

  // ---------- agreement ----------

  /** One user name under one tag, in all four views. */
  predicate AgreeOn(s: State, tag: string, u: string) {
    var key := Key(tag, u);
    && (key in s.active <==> u in Managed(s, tag)) && (key in s.uids <==> u in Managed(s, tag))
    && (u in Managed(s, tag) ==> Managed(s, tag)[u].uuid == u && s.uids[key] == Managed(s, tag)[u].id)
    && ((tag in s.tables && u in s.tables[tag]) <==> u in Managed(s, tag))
  }

  ghost predicate Agree(s: State, tag: string) { forall u :: AgreeOn(s, tag, u) }

  ghost predicate AllAgree(s: State, tags: set<string>) { forall tag :: tag in tags ==> Agree(s, tag) }

  predicate AllApart(tags: set<string>) { forall t, t' | t in tags && t' in tags && t != t' :: Apart(t, t') }

  datatype Step =
    | AddUsersStep(tag: string, list: seq<UserInfo>, nodeType: string, accepts: bool)
    | DelUsersStep(tag: string, list: seq<UserInfo>, accepts: bool)
    | AddNodeStep(tag: string, created: bool)
    | DelNodeStep(tag: string, removed: bool)

  function Do(s: State, step: Step): State {
    match step
    case AddUsersStep(tag, list, nodeType, accepts) => UsersAdded(s, tag, list, nodeType, accepts)
    case DelUsersStep(tag, list, accepts) => UsersDeleted(s, tag, list, accepts)
    case AddNodeStep(tag, created) => NodeAdded(s, tag, created)
    case DelNodeStep(tag, removed) => NodeDeleted(s, tag, removed)
  }

  /** What a step must meet for the views to agree after it: an inbound of unknown type takes no table, a
      fresh inbound starts empty, and a node's users go only together with its inbound. */
  predicate Fits(s: State, step: Step) {
    match step
    case AddUsersStep(tag, list, nodeType, accepts) =>
      SetUsersOk(s, tag, nodeType, accepts) && nodeType !in KNOWN_TYPES ==>
        TableOf(s, tag) == Managed(s, tag).Keys + Names(list)
    case DelUsersStep(tag, list, accepts) =>
      DelUsersOk(s, tag, accepts) && s.params[tag] !in KNOWN_TYPES ==> TableOf(s, tag) !! Names(list)
    case AddNodeStep(tag, created) => created ==> Managed(s, tag) == map[]
    case DelNodeStep(tag, removed) => removed || TableOf(s, tag) == {}
  }

  lemma KeyInSet(tag: string, u: string, uuids: set<string>)
    ensures Key(tag, u) in KeysOf(tag, uuids) <==> u in uuids
  {
  }

  lemma OtherKey(tag: string, u: string, other: string, uuids: set<string>)
    requires tag != other && Apart(tag, other)
    ensures Key(tag, u) !in KeysOf(other, uuids)
  {
    if Key(tag, u) in KeysOf(other, uuids) {
      var v :| v in uuids && Key(other, v) == Key(tag, u);
      KeysDiffer(tag, u, other, v);
    }
  }

  /** A step leaves every other node's views alone. */
  lemma OthersUntouched(s: State, step: Step, tag: string, u: string)
    requires tag != step.tag && Apart(tag, step.tag)
    ensures AgreeOn(Do(s, step), tag, u) <==> AgreeOn(s, tag, u)
  {
    var key, t := Key(tag, u), Do(s, step);
    assert Managed(t, tag) == Managed(s, tag) && (tag in t.tables <==> tag in s.tables);
    assert TableOf(t, tag) == TableOf(s, tag);
    assert (key in t.active <==> key in s.active) && (key in t.uids <==> key in s.uids)
           && (key in s.uids ==> t.uids[key] == s.uids[key]) by {
      match step
      case AddUsersStep(_, list, _, _) =>
        OtherKey(tag, u, step.tag, Overlay(Managed(s, step.tag), list).Keys);
        OtherKey(tag, u, step.tag, Overlay(Managed(s, step.tag), list).Keys - Managed(s, step.tag).Keys);
      case DelUsersStep(_, list, _) => OtherKey(tag, u, step.tag, Names(list));
      case AddNodeStep(_, _) =>
      case DelNodeStep(_, _) =>
        OtherKey(tag, u, step.tag, Managed(s, step.tag).Keys);
        if HasPrefix(key, step.tag) {
          PrefixedByOther(tag, u, step.tag);
        }
    }
  }

  lemma AddedAgree(s: State, tag: string, list: seq<UserInfo>, nodeType: string, accepts: bool, u: string)
    requires WellKeyed(s) && SetUsersOk(s, tag, nodeType, accepts) && AgreeOn(s, tag, u)
    ensures AgreeOn(UsersAdded(s, tag, list, nodeType, accepts), tag, u) <==>
            (nodeType in KNOWN_TYPES || (u in TableOf(s, tag) <==> u in Managed(s, tag).Keys + Names(list)))
  {
    var users := Overlay(Managed(s, tag), list);
    OverlayWellKeyed(Managed(s, tag), list);
    KeyInSet(tag, u, users.Keys);
  }

  /** A failed addition restores every view. */
  lemma FailedAdditionRestores(s: State, tag: string, list: seq<UserInfo>, nodeType: string, accepts: bool)
    requires WellKeyed(s) && Agree(s, tag) && !SetUsersOk(s, tag, nodeType, accepts)
    ensures UsersAdded(s, tag, list, nodeType, accepts) == s
  {
    var users, managed := Overlay(Managed(s, tag), list), Managed(s, tag).Keys;
    OverlayWellKeyed(Managed(s, tag), list);
    var all, fresh' := KeysOf(tag, users.Keys), KeysOf(tag, users.Keys - managed);
    forall k ensures k in s.active + all - fresh' <==> k in s.active {
      if k in all {
        var u :| u in users && k == Key(tag, u);
        assert AgreeOn(s, tag, u);
        KeyInSet(tag, u, users.Keys - managed);
      }
    }
  }

  lemma FailedDeletionRestores(s: State, tag: string, list: seq<UserInfo>, accepts: bool)
    requires !DelUsersOk(s, tag, accepts)
    ensures UsersDeleted(s, tag, list, accepts) == s
  {
  }

  lemma DeletedAgree(s: State, tag: string, list: seq<UserInfo>, accepts: bool, u: string)
    requires DelUsersOk(s, tag, accepts) && AgreeOn(s, tag, u)
    ensures AgreeOn(UsersDeleted(s, tag, list, accepts), tag, u) <==>
            (s.params[tag] in KNOWN_TYPES || u !in Names(list) || u !in TableOf(s, tag))
  {
    KeyInSet(tag, u, Names(list));
  }

  lemma NodeDeletedAgree(s: State, tag: string, removed: bool, u: string)
    requires AgreeOn(s, tag, u)
    ensures AgreeOn(NodeDeleted(s, tag, removed), tag, u) <==> (removed || u !in TableOf(s, tag))
  {
    KeyInSet(tag, u, Managed(s, tag).Keys);
    assert HasPrefix(Key(tag, u), tag);
  }

  lemma AdditionAgrees(s: State, tag: string, list: seq<UserInfo>, nodeType: string, accepts: bool)
    requires WellKeyed(s) && Agree(s, tag)
    ensures Agree(UsersAdded(s, tag, list, nodeType, accepts), tag) <==>
            Fits(s, AddUsersStep(tag, list, nodeType, accepts))
  {
    var t := UsersAdded(s, tag, list, nodeType, accepts);
    if SetUsersOk(s, tag, nodeType, accepts) {
      forall u ensures AgreeOn(t, tag, u) <==>
          (nodeType in KNOWN_TYPES || (u in TableOf(s, tag) <==> u in Managed(s, tag).Keys + Names(list))) {
        assert AgreeOn(s, tag, u);
        AddedAgree(s, tag, list, nodeType, accepts, u);
      }
    } else {
      FailedAdditionRestores(s, tag, list, nodeType, accepts);
    }
  }

  lemma DeletionAgrees(s: State, tag: string, list: seq<UserInfo>, accepts: bool)
    requires Agree(s, tag)
    ensures Agree(UsersDeleted(s, tag, list, accepts), tag) <==> Fits(s, DelUsersStep(tag, list, accepts))
  {
    var t := UsersDeleted(s, tag, list, accepts);
    if DelUsersOk(s, tag, accepts) {
      forall u ensures AgreeOn(t, tag, u) <==>
          (s.params[tag] in KNOWN_TYPES || u !in Names(list) || u !in TableOf(s, tag)) {
        assert AgreeOn(s, tag, u);
        DeletedAgree(s, tag, list, accepts, u);
      }
    } else {
      FailedDeletionRestores(s, tag, list, accepts);
    }
  }

  /** The node a step works on agrees afterwards exactly when the step fits. */
  lemma OwnNodeAgrees(s: State, step: Step)
    requires WellKeyed(s) && Agree(s, step.tag)
    ensures Agree(Do(s, step), step.tag) <==> Fits(s, step)
  {
    var tag, t := step.tag, Do(s, step);
    match step
    case AddUsersStep(_, list, nodeType, accepts) => AdditionAgrees(s, tag, list, nodeType, accepts);
    case DelUsersStep(_, list, accepts) => DeletionAgrees(s, tag, list, accepts);
    case AddNodeStep(_, created) =>
      forall u ensures AgreeOn(t, tag, u) <==> !created || u !in Managed(s, tag) {
        assert AgreeOn(s, tag, u);
      }
    case DelNodeStep(_, removed) =>
      forall u ensures AgreeOn(t, tag, u) <==> removed || u !in TableOf(s, tag) {
        assert AgreeOn(s, tag, u);
        NodeDeletedAgree(s, tag, removed, u);
      }
  }

  /** A step keeps all nodes' views in agreement if and only if it fits. */
  lemma StepKeepsAgreement(s: State, step: Step, tags: set<string>)
    requires WellKeyed(s) && AllApart(tags) && AllAgree(s, tags) && step.tag in tags
    ensures WellKeyed(Do(s, step))
    ensures AllAgree(Do(s, step), tags) <==> Fits(s, step)
  {
    var t := Do(s, step);
    OwnNodeAgrees(s, step);
    StaysWellKeyed(s, step);
    forall tag | tag in tags && tag != step.tag ensures Agree(t, tag) {
      assert Agree(s, tag);
      forall u ensures AgreeOn(t, tag, u) {
        OthersUntouched(s, step, tag, u);
      }
    }
  }

  lemma StaysWellKeyed(s: State, step: Step)
    requires WellKeyed(s)
    ensures WellKeyed(Do(s, step))
  {
    if step.AddUsersStep? {
      OverlayWellKeyed(Managed(s, step.tag), step.list);
    }
  }

  function Run(s: State, steps: seq<Step>): State
    decreases |steps|
  {
    if steps == [] then s else Run(Do(s, steps[0]), steps[1..])
  }

  predicate Orderly(s: State, steps: seq<Step>, tags: set<string>)
    decreases |steps|
  {
    steps == [] || (steps[0].tag in tags && Fits(s, steps[0]) && Orderly(Do(s, steps[0]), steps[1..], tags))
  }

  /** Over every run of changes, with tables that accept or refuse at will, the four views agree for every
      node and every UID is its user's, for nodes whose tags are apart. */
  lemma {:induction false} RunKeepsAgreement(s: State, steps: seq<Step>, tags: set<string>)
    requires WellKeyed(s) && AllApart(tags) && AllAgree(s, tags) && Orderly(s, steps, tags)
    ensures AllAgree(Run(s, steps), tags) && WellKeyed(Run(s, steps))
    decreases |steps|
  {
    if steps != [] {
      StepKeepsAgreement(s, steps[0], tags);
      RunKeepsAgreement(Do(s, steps[0]), steps[1..], tags);
    }
  }

  /** In a core that started empty a user name may connect to a node exactly when the node's inbound
      knows it. */
  lemma OnlyListedUsersMayConnect(steps: seq<Step>, tags: set<string>, tag: string, u: string)
    requires AllApart(tags) && Orderly(EMPTY, steps, tags) && tag in tags
    ensures var s := Run(EMPTY, steps);
            Key(tag, u) in s.active <==> u in TableOf(s, tag)
  {
    RunKeepsAgreement(EMPTY, steps, tags);
    assert Agree(Run(EMPTY, steps), tag) && AgreeOn(Run(EMPTY, steps), tag, u);
  }

  /** Over every run of a core that started empty, the deletion of node `tag` leaves the UIDs of node `t`. */
  ghost predicate Spared(tag: string, t: string, removed: bool) {
    forall steps: seq<Step>, u: string ::
      Key(t, u) in Run(EMPTY, steps).uids ==> Key(t, u) in Run(EMPTY, steps + [DelNodeStep(tag, removed)]).uids
  }

  lemma {:induction false} RunSnoc(s: State, steps: seq<Step>, step: Step)
    ensures Run(s, steps + [step]) == Do(Run(s, steps), step)
    decreases |steps|
  {
    if steps == [] {
      assert [] + [step] == [step] && [step][1..] == [];
    } else {
      Seqs.TailOfConcat(steps, [step]);
      RunSnoc(Do(s, steps[0]), steps[1..], step);
    }
  }

  /** A node and its first user. */
  function Started(t: string, u: UserInfo): seq<Step> { [AddNodeStep(t, true), AddUsersStep(t, [u], "vless", true)] }

  lemma FirstUserHasUid(t: string, u: UserInfo)
    ensures var s := Run(EMPTY, Started(t, u)); Managed(s, t) == map[u.uuid := u] && Key(t, u.uuid) in s.uids
  {
    var a, b := AddNodeStep(t, true), AddUsersStep(t, [u], "vless", true);
    RunSnoc(EMPTY, [], a);
    RunSnoc(EMPTY, [a], b);
    assert [] + [a] == [a] && [a] + [b] == [a, b];
    assert [u][..0] == [];
    assert Overlay(map[], [u]) == map[u.uuid := u];
    KeyInSet(t, u.uuid, {u.uuid});
  }

  /** A user whose key has the prefix of another tag loses its UID with that node, though it is still managed. */
  lemma PrefixLosesUid(tag: string, t: string, u: UserInfo, removed: bool)
    requires tag != t && HasPrefix(Key(t, u.uuid), tag)
    ensures Key(t, u.uuid) in Run(EMPTY, Started(t, u)).uids
    ensures var s := Run(EMPTY, Started(t, u) + [DelNodeStep(tag, removed)]);
            u.uuid in Managed(s, t) && Key(t, u.uuid) !in s.uids
  {
    FirstUserHasUid(t, u);
    RunSnoc(EMPTY, Started(t, u), DelNodeStep(tag, removed));
  }

  /** Retiring a node leaves another's UIDs alone, whatever happened before, if and only if their tags are
      apart: the UIDs go by the prefix of their keys. */
  lemma UidsAreSparedExactlyWhenApart(tag: string, t: string, removed: bool)
    requires tag != t
    ensures Spared(tag, t, removed) <==> Apart(tag, t)
  {
    if Apart(tag, t) {
      forall steps, u | Key(t, u) in Run(EMPTY, steps).uids
        ensures Key(t, u) in Run(EMPTY, steps + [DelNodeStep(tag, removed)]).uids
      {
        RunSnoc(EMPTY, steps, DelNodeStep(tag, removed));
        if HasPrefix(Key(t, u), tag) {
          PrefixedByOther(t, u, tag);
        }
      }
    } else {
      var name := if tag + [NUL] <= t then "" else tag[|t| + 1..] + [NUL];
      assert HasPrefix(Key(t, name), tag);
      PrefixLosesUid(tag, t, UserInfo(1, name, 0, 0), removed);
    }
  }
}
