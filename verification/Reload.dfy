/** The node controller's transactional VLESS reload and its traffic flush, over a core, a panel and
    a limiter registry of which every operation may fail. */
module Reload {
  import opened Basics
  import opened Panel
  import opened Traffic
  import Seqs

  // ---------- the surroundings ----------

  /** What a core has installed under one tag. */
  datatype Installed = Installed(node: NodeInfo, users: seq<UserInfo>)

  /** A call of the core and its answer. */
  datatype Call =
    | Validated(tag: string, node: NodeInfo, ok: bool)
    | TrafficRead(tag: string, ok: bool)
    | Snapshotted(tag: string, ok: bool)
    | Deleted(tag: string, ok: bool)
    | NodeAdded(tag: string, node: NodeInfo, ok: bool)
    | UsersAdded(tag: string, users: seq<UserInfo>, ok: bool)
    | Restored(snapshot: int, ok: bool)

  /** A proxy core. `nodes` are its listeners by tag, `side` the state outside them that a snapshot
      covers, `handedOut` all traffic records it has given away, `calls` what it was asked so far. A failing
      operation may leave anything under its own tag. */
  class Core {
    const validates: bool
    const snapshots: bool
    var nodes: map<string, Installed>
    var side: int
    var handedOut: seq<UserTraffic>
    var calls: seq<Call>

    constructor (validates: bool, snapshots: bool) {
      this.validates, this.snapshots := validates, snapshots;
      nodes, side, handedOut, calls := map[], 0, [], [];
    }

    method ValidateNode(tag: string, node: NodeInfo) returns (ok: bool)
      modifies this`calls
      ensures calls == old(calls) + [Validated(tag, node, ok)]
    {
      ok := *;
      calls := calls + [Validated(tag, node, ok)];
    }

    method SnapshotNodeState(tag: string) returns (snapshot: Option<int>)
      modifies this`calls
      ensures calls == old(calls) + [Snapshotted(tag, snapshot.Some?)]
      ensures snapshot.Some? ==> snapshot.value == side
    {
      var ok: bool := *;
      calls := calls + [Snapshotted(tag, ok)];
      snapshot := if ok then Some(side) else None;
    }

    method Restore(snapshot: int) returns (ok: bool)
      modifies this`side, this`calls
      ensures calls == old(calls) + [Restored(snapshot, ok)]
      ensures ok ==> side == snapshot
    {
      ok, side := *, *;
      calls := calls + [Restored(snapshot, ok)];
      if ok {
        side := snapshot;
      }
    }

    method Disturb(tag: string)
      modifies this`nodes
      ensures nodes - {tag} == old(nodes) - {tag}
    {
      var left: Option<Installed> := *;
      nodes := if left.Some? then nodes[tag := left.value] else nodes - {tag};
    }

    method AddNode(tag: string, node: NodeInfo) returns (ok: bool)
      modifies this`nodes, this`side, this`calls
      ensures calls == old(calls) + [NodeAdded(tag, node, ok)]
      ensures nodes - {tag} == old(nodes) - {tag}
      ensures ok ==> nodes == old(nodes)[tag := Installed(node, [])]
    {
      ok, side := *, *;
      calls := calls + [NodeAdded(tag, node, ok)];
      if ok {
        nodes := nodes[tag := Installed(node, [])];
      } else {
        Disturb(tag);
      }
    }

    method AddUsers(tag: string, users: seq<UserInfo>) returns (ok: bool)
      modifies this`nodes, this`calls
      ensures calls == old(calls) + [UsersAdded(tag, users, ok)]
      ensures nodes - {tag} == old(nodes) - {tag}
      ensures ok ==> tag in old(nodes)
      ensures ok ==> nodes == old(nodes)[tag := Installed(old(nodes)[tag].node, old(nodes)[tag].users + users)]
    {
      ok := *;
      if ok && tag in nodes {
        nodes := nodes[tag := Installed(nodes[tag].node, nodes[tag].users + users)];
      } else {
        ok := false;
        Disturb(tag);
      }
      calls := calls + [UsersAdded(tag, users, ok)];
    }

    method DelNode(tag: string) returns (ok: bool)
      modifies this`nodes, this`calls
      ensures calls == old(calls) + [Deleted(tag, ok)]
      ensures nodes - {tag} == old(nodes) - {tag}
      ensures ok ==> nodes == old(nodes) - {tag}
    {
      ok := *;
      calls := calls + [Deleted(tag, ok)];
      if ok {
        nodes := nodes - {tag};
      } else {
        Disturb(tag);
      }
    }

    /** A resetting read: the records it returns are the caller's to deliver. */
    method GetUserTrafficSlice(tag: string) returns (traffic: Option<seq<UserTraffic>>)
      modifies this`handedOut, this`calls
      ensures calls == old(calls) + [TrafficRead(tag, traffic.Some?)]
      ensures handedOut == old(handedOut) + if traffic.Some? then traffic.value else []
    {
      traffic := *;
      calls := calls + [TrafficRead(tag, traffic.Some?)];
      if traffic.Some? {
        handedOut := handedOut + traffic.value;
      } else {
        Seqs.RightUnit(handedOut);
      }
    }
  }

  /** The body of a push: a table by UID in which a later entry replaces an earlier one. */
  function Body(ts: seq<UserTraffic>): map<int, (int, int)> {
    if ts == [] then map[]
    else Body(ts[..|ts| - 1])[ts[|ts| - 1].uid := (ts[|ts| - 1].up, ts[|ts| - 1].down)]
  }

  function Credited(body: map<int, (int, int)>, uid: int, d: Direction): int {
    if uid !in body then 0 else if d.Upload? then body[uid].0 else body[uid].1
  }

  /** A push of traffic records and the panel's answer. */
  datatype Offer = Offer(records: seq<UserTraffic>, ok: bool)

  class PanelClient {
    var received: seq<map<int, (int, int)>>
    var offers: seq<Offer>
    var accepted: Option<NodeInfo>

    constructor () {
      received, offers, accepted := [], [], None;
    }

    method ReportUserTraffic(ts: seq<UserTraffic>) returns (ok: bool)
      modifies this`received, this`offers
      ensures received == old(received) + if ok then [Body(ts)] else []
      ensures offers == old(offers) + [Offer(ts, ok)]
    {
      var data: map<int, (int, int)> := map[];
      var i := 0;
      while i < |ts|
        invariant i <= |ts| && data == Body(ts[..i])
      {
        assert ts[..i + 1][..i] == ts[..i];
        data := data[ts[i].uid := (ts[i].up, ts[i].down)];
        i := i + 1;
      }
      Seqs.Whole(ts);
      ok := *;
      offers := offers + [Offer(ts, ok)];
      if ok {
        received := received + [data];
      } else {
        Seqs.RightUnit(received);
      }
    }
  }

  predicate Compile(rules: Rules, compiles: string -> bool) { forall x | x in rules.expressions :: compiles(x) }

  class Limiter {
    const users: seq<UserInfo>
    const alive: map<int, int>
    var domainRules: seq<string>
    var protocolRules: seq<string>

    constructor (users: seq<UserInfo>, alive: map<int, int>)
      ensures this.users == users && this.alive == alive && RulesNow() == Rules([], [])
    {
      this.users, this.alive, domainRules, protocolRules := users, alive, [], [];
    }

    function RulesNow(): Rules
      reads this
    {
      Rules(domainRules, protocolRules)
    }

    /** Compiles every expression before replacing any rule, also those on protocols. */
    method UpdateRule(rules: Rules, compiles: string -> bool) returns (ok: bool)
      modifies this
      ensures ok <==> Compile(rules, compiles)
      ensures RulesNow() == if ok then rules else old(RulesNow())
    {
      var compiled: seq<string> := [];
      for i := 0 to |rules.expressions|
        invariant compiled == rules.expressions[..i] && forall x | x in compiled :: compiles(x)
      {
        if !compiles(rules.expressions[i]) {
          return false;
        }
        compiled := compiled + [rules.expressions[i]];
      }
      Seqs.Whole(rules.expressions);
      domainRules, protocolRules := compiled, rules.protocols;
      return true;
    }
  }

  class Registry {
    var limiters: map<string, Limiter>

    constructor () {
      limiters := map[];
    }

    method AddLimiter(tag: string, users: seq<UserInfo>, alive: map<int, int>) returns (l: Limiter)
      modifies this
      ensures fresh(l) && l.users == users && l.alive == alive
      ensures limiters == old(limiters)[tag := l]
    {
      l := new Limiter(users, alive);
      limiters := limiters[tag := l];
    }

    method RestoreLimiter(tag: string, l: Limiter)
      modifies this
      ensures limiters == old(limiters)[tag := l]
    {
      limiters := limiters[tag := l];
    }
  }

  // ---------- the controller ----------

  /** How a reload ended. `recovered` says that every recovery step succeeded. */
  datatype Outcome = Applied | NoPreflight | Rejected | BadRules | TrafficKept | NoSnapshot
                   | DeleteFailed(recovered: bool) | InstallFailed(recovered: bool)

  /** The failures that come before the old node is touched. */
  predicate BeforeDelete(o: Outcome) {
    o.NoPreflight? || o.Rejected? || o.BadRules? || o.TrafficKept? || o.NoSnapshot?
  }

  predicate Recovered(o: Outcome) { (o.DeleteFailed? || o.InstallFailed?) && o.recovered }

  /** One flush: what the core handed over, what merging made of it, and whether a push got through. */
  datatype Flush = Flush(taken: Option<seq<UserTraffic>>, merged: seq<UserTraffic>, pushed: bool)

  /** Traffic records on their way: taken from the core, pending in the controller, and the push
      bodies the panel has accepted. */
  datatype Ledger = Ledger(taken: seq<UserTraffic>, pending: seq<UserTraffic>, received: seq<map<int, (int, int)>>)

  ghost predicate FlushStep(a: Ledger, f: Flush, b: Ledger) {
    if f.taken.None? then b == a
    else
      && Merges(a.pending, f.taken.value, f.merged)
      && b.taken == a.taken + f.taken.value
      && if f.pushed then b.pending == [] && b.received == a.received + (if f.merged == [] then [] else [Body(f.merged)])
         else b.pending == f.merged && b.received == a.received
  }

  lemma PutReplaces<V>(a: map<string, V>, b: map<string, V>, k: string, v: V)
    requires a - {k} == b - {k}
    ensures a[k := v] == b[k := v]
  {
    assert a[k := v] == (a - {k})[k := v] && b[k := v] == (b - {k})[k := v];
  }

  lemma PutBack<V>(m: map<string, V>, k: string, v: V)
    requires k in m
    ensures m[k := v][k := m[k]] == m
  {
  }

  lemma RemoveTwice<V>(m: map<string, V>, k: string)
    ensures (m - {k}) - {k} == m - {k}
  {
  }

  class Controller {
    const tag: string
    const server: Core
    const panel: PanelClient
    const registry: Registry
    const compiles: string -> bool
    var info: NodeInfo
    var userList: seq<UserInfo>
    var aliveMap: map<int, int>
    var limiter: Limiter
    var pendingTraffic: seq<UserTraffic>
    var pullInterval: int
    var pushInterval: int

    /** A started controller: its limiter is registered under its tag. */
    constructor (tag: string, server: Core, panel: PanelClient, registry: Registry, compiles: string -> bool,
                 info: NodeInfo, userList: seq<UserInfo>, aliveMap: map<int, int>)
      modifies registry
      ensures Valid() && this.tag == tag && this.info == info && this.userList == userList && pendingTraffic == []
    {
      this.tag, this.server, this.panel, this.registry, this.compiles := tag, server, panel, registry, compiles;
      this.info, this.userList, this.aliveMap, pendingTraffic := info, userList, aliveMap, [];
      pullInterval, pushInterval := info.pullInterval, info.pushInterval;
      var l := registry.AddLimiter(tag, userList, aliveMap);
      var _ := l.UpdateRule(info.rules, compiles);
      limiter := l;
    }

    /** The registry serves the controller's own limiter. */
    ghost predicate Valid()
      reads this, registry
    {
      tag in registry.limiters && registry.limiters[tag] == limiter
    }

    /** The core runs what the controller believes it runs. */
    ghost predicate InSync()
      reads this, server
    {
      tag in server.nodes && server.nodes[tag] == Installed(info, userList)
    }

    ghost function Accounts(): Ledger
      reads this, server, panel
    {
      Ledger(server.handedOut, pendingTraffic, panel.received)
    }

    method FlushUserTraffic() returns (result: seq<UserTraffic>, ok: bool, ghost f: Flush)
      modifies this`pendingTraffic, server`handedOut, server`calls, panel`received, panel`offers
      ensures FlushStep(old(Accounts()), f, Accounts())
      ensures ok <==> f.taken.Some? && f.pushed
      ensures result == if ok then f.merged else []
      // the core is asked once, and what there is to push is offered once, `pushed` being the answer
      ensures server.calls == old(server.calls) + [TrafficRead(tag, f.taken.Some?)]
      ensures panel.offers == old(panel.offers) + if f.taken.Some? && f.merged != [] then [Offer(f.merged, f.pushed)] else []
      ensures f.taken.Some? && f.merged == [] ==> f.pushed
    {
      var traffic := server.GetUserTrafficSlice(tag);
      if traffic.None? {
        Seqs.RightUnit(old(server.handedOut));
        Seqs.RightUnit(panel.offers);
        return [], false, Flush(None, [], false);
      }
      pendingTraffic := MergeUserTraffic(pendingTraffic, traffic.value);
      f := Flush(traffic, pendingTraffic, true);
      if pendingTraffic == [] {
        Seqs.RightUnit(panel.received);
        Seqs.RightUnit(panel.offers);
        return [], true, f;
      }
      var pushed := panel.ReportUserTraffic(pendingTraffic);
      if !pushed {
        Seqs.RightUnit(old(panel.received));
        return [], false, f.(pushed := false);
      }
      result := pendingTraffic;
      pendingTraffic := [];
      return result, true, f;
    }

    method Install(node: NodeInfo, list: seq<UserInfo>) returns (ok: bool, ghost log: seq<Call>)
      modifies server`nodes, server`side, server`calls
      ensures server.calls == old(server.calls) + log
      ensures (log == [NodeAdded(tag, node, false)] && !ok)
              || log == [NodeAdded(tag, node, true), UsersAdded(tag, list, ok)]
      ensures server.nodes - {tag} == old(server.nodes) - {tag}
      ensures ok ==> server.nodes == old(server.nodes)[tag := Installed(node, list)]
    {
      var added := server.AddNode(tag, node);
      if !added {
        return false, [NodeAdded(tag, node, false)];
      }
      Seqs.LeftUnit(list);
      ok := server.AddUsers(tag, list);
      log := [NodeAdded(tag, node, true), UsersAdded(tag, list, ok)];
      assert [NodeAdded(tag, node, true)] + [UsersAdded(tag, list, ok)] == log;
      Seqs.Assoc(old(server.calls), [NodeAdded(tag, node, true)], [UsersAdded(tag, list, ok)]);
    }

    /** The checks before anything is touched. */
    method Preflight(candidate: NodeInfo) returns (r: Option<Outcome>)
      requires Valid()
      modifies server`calls
      ensures r.Some? ==> r.value.NoPreflight? || r.value.Rejected? || r.value.BadRules?
      ensures (r.Some? && r.value.NoPreflight?) <==> !server.validates
      ensures !server.validates ==> server.calls == old(server.calls)
      ensures server.validates ==>
                server.calls == old(server.calls) + [Validated(tag, candidate, !(r.Some? && r.value.Rejected?))]
      ensures r.Some? && r.value.BadRules? ==> !Compile(candidate.rules, compiles)
      ensures r.None? ==> Compile(candidate.rules, compiles)
    {
      if !server.validates {
        return Some(NoPreflight);
      }
      var valid := server.ValidateNode(tag, candidate);
      if !valid {
        return Some(Rejected);
      }
      var trial := new Limiter([], map[]);
      var rulesOk := trial.UpdateRule(candidate.rules, compiles);
      return if rulesOk then None else Some(BadRules);
    }

    /** The core's part of the reload after the snapshot: what it was asked, answered and asked next. */
    ghost predicate Switched(r: Outcome, log: seq<Call>, candidate: NodeInfo, users: seq<UserInfo>, oldNode: NodeInfo,
                             oldUsers: seq<UserInfo>, snapshot: Option<int>)
    {
      match r
      case DeleteFailed(recovered) =>
        && |log| >= 2 && log[0] == Deleted(tag, false) && log[1..][0].Deleted? && log[1..][0].tag == tag
        && Recovers(log[1..][1..], oldNode, oldUsers, snapshot, recovered)
      case _ =>
        |log| >= 1 && log[0] == Deleted(tag, true) && TookOver(r, log[1..], candidate, users, oldNode, oldUsers, snapshot)
    }

    /** The part after a successful deletion. */
    ghost predicate TookOver(r: Outcome, log: seq<Call>, candidate: NodeInfo, users: seq<UserInfo>, oldNode: NodeInfo,
                             oldUsers: seq<UserInfo>, snapshot: Option<int>)
    {
      match r
      case Applied => log == [NodeAdded(tag, candidate, true), UsersAdded(tag, users, true)]
      case InstallFailed(recovered) =>
        && |log| >= 2
        && var k := if log[0] == NodeAdded(tag, candidate, true) && log[1] == UsersAdded(tag, users, false) then 2 else 1;
           && (k == 1 ==> log[0] == NodeAdded(tag, candidate, false))
           && |log| > k && log[k..][0].Deleted? && log[k..][0].tag == tag
           && Recovers(log[k..][1..], oldNode, oldUsers, snapshot, recovered)
      case _ => false
    }

    /** A recovery installs the old node and restores the snapshot, whatever the former comes to; it worked
        when both did. */
    ghost predicate Recovers(log: seq<Call>, oldNode: NodeInfo, oldUsers: seq<UserInfo>, snapshot: Option<int>, ok: bool) {
      var n := if snapshot.Some? then |log| - 1 else |log|;
      && (snapshot.Some? ==> n >= 0 && log[n].Restored? && log[n].snapshot == snapshot.value)
      && (log[..n] == [NodeAdded(tag, oldNode, false)]
          || (n == 2 && log[0] == NodeAdded(tag, oldNode, true) && log[1] == UsersAdded(tag, oldUsers, log[1].ok)))
      && (ok <==> n == 2 && log[1].ok && (snapshot.Some? ==> log[n].ok))
    }

    /** How many calls precede the deletion. */
    function Preparations(): nat { if server.snapshots then 3 else 2 }

    /** The reload ended before the deletion, for a reason that is in the answers. */
    ghost predicate Stopped(r: Outcome, log: seq<Call>, f: Flush, candidate: NodeInfo) {
      match r
      case NoPreflight => !server.validates && log == []
      case Rejected => server.validates && log == [Validated(tag, candidate, false)]
      case BadRules => server.validates && log == [Validated(tag, candidate, true)] && !Compile(candidate.rules, compiles)
      case TrafficKept =>
        && server.validates && log == [Validated(tag, candidate, true), TrafficRead(tag, f.taken.Some?)]
        && Compile(candidate.rules, compiles) && !(f.taken.Some? && f.pushed)
      case NoSnapshot =>
        && server.validates && server.snapshots && Compile(candidate.rules, compiles) && f.taken.Some? && f.pushed
        && log == [Validated(tag, candidate, true), TrafficRead(tag, true), Snapshotted(tag, false)]
      case _ => false
    }

    /** The calls begin with the preparations, and each of them went well. */
    ghost predicate Ready(log: seq<Call>, f: Flush, candidate: NodeInfo) {
      && server.validates && Compile(candidate.rules, compiles) && f.taken.Some? && f.pushed
      && |log| >= Preparations() && log[0] == Validated(tag, candidate, true) && log[1] == TrafficRead(tag, true)
      && (server.snapshots ==> log[2] == Snapshotted(tag, true))
    }

    /** The outcome of a reload is what the core was asked, in this order, and answered. */
    ghost predicate Explained(r: Outcome, log: seq<Call>, f: Flush, candidate: NodeInfo, users: seq<UserInfo>,
                              oldNode: NodeInfo, oldUsers: seq<UserInfo>, side: int)
    {
      if BeforeDelete(r) then Stopped(r, log, f, candidate)
      else
        && Ready(log, f, candidate)
        && Switched(r, log[Preparations()..], candidate, users, oldNode, oldUsers,
                    if server.snapshots then Some(side) else None)
    }

    lemma ReadyThen(log: seq<Call>, switch: seq<Call>, r: Outcome, f: Flush, candidate: NodeInfo, users: seq<UserInfo>,
                    oldNode: NodeInfo, oldUsers: seq<UserInfo>, side: int)
      requires Ready(log, f, candidate) && |log| == Preparations()
      requires Switched(r, switch, candidate, users, oldNode, oldUsers, if server.snapshots then Some(side) else None)
      ensures Explained(r, log + switch, f, candidate, users, oldNode, oldUsers, side)
    {
      Seqs.DropConcat(log, switch);
    }

    /** What comes before the deletion of the old node. */
    method Prepare(candidate: NodeInfo)
        returns (refused: Option<Outcome>, snapshot: Option<int>, ghost f: Flush, ghost log: seq<Call>)
      requires Valid()
      modifies this`pendingTraffic, server`handedOut, server`calls, panel`received, panel`offers
      ensures FlushStep(old(Accounts()), f, Accounts()) && server.calls == old(server.calls) + log
      ensures refused.Some? ==> Stopped(refused.value, log, f, candidate)
      ensures refused.None? ==> Ready(log, f, candidate) && |log| == Preparations()
      ensures refused.None? ==> (snapshot.Some? <==> server.snapshots) && (snapshot.Some? ==> snapshot.value == server.side)
    {
      f, log, snapshot := Flush(None, [], false), [], None;
      ghost var before := server.calls;
      Seqs.RightUnit(before);
      refused := Preflight(candidate);
      if refused.Some? {
        log := if server.validates then [Validated(tag, candidate, !refused.value.Rejected?)] else [];
        return;
      }
      log := [Validated(tag, candidate, true)];
      var _, flushed, flush := FlushUserTraffic();
      f := flush;
      Seqs.Assoc(before, log, [TrafficRead(tag, f.taken.Some?)]);
      log := log + [TrafficRead(tag, f.taken.Some?)];
      if !flushed {
        refused := Some(TrafficKept);
        return;
      }
      if server.snapshots {
        snapshot := server.SnapshotNodeState(tag);
        Seqs.Assoc(before, log, [Snapshotted(tag, snapshot.Some?)]);
        log := log + [Snapshotted(tag, snapshot.Some?)];
        if snapshot.None? {
          refused := Some(NoSnapshot);
        }
      }
    }

    /** All or nothing, for a core that ran `before`: on success everything is on the candidate; on failure the
        controller and the registry are as they were, and the core too, when recovery worked. */
    twostate predicate Settled(r: Outcome, candidate: NodeInfo, users: seq<UserInfo>, alive: map<int, int>,
                               before: map<string, Installed>)
      reads this, server, panel, registry, limiter
    {
      && Valid() && server.nodes - {tag} == before - {tag}
      && (r.Applied? ==>
            && info == candidate && userList == users && aliveMap == alive && panel.accepted == Some(candidate)
            && server.nodes == before[tag := Installed(candidate, users)]
            && fresh(limiter) && limiter.users == users && limiter.alive == alive && limiter.RulesNow() == candidate.rules
            && registry.limiters == old(registry.limiters)[tag := limiter]
            && pullInterval == candidate.pullInterval && pushInterval == candidate.pushInterval)
      && (!r.Applied? ==>
            && info == old(info) && userList == old(userList) && aliveMap == old(aliveMap)
            && limiter == old(limiter) && registry.limiters == old(registry.limiters)
            && panel.accepted == old(panel.accepted)
            && pullInterval == old(pullInterval) && pushInterval == old(pushInterval))
      && (Recovered(r) ==> server.nodes == before[tag := Installed(old(info), old(userList))])
    }

    /** Replaces the node all or nothing. */
    method ReplaceVLESSNode(candidate: NodeInfo, users: seq<UserInfo>, alive: map<int, int>)
        returns (r: Outcome, ghost f: Flush, ghost log: seq<Call>)
      requires Valid()
      modifies this, server, panel, registry
      ensures Settled(r, candidate, users, alive, old(server.nodes))
      // an early failure leaves the core alone, a later one puts it back when recovery works
      ensures BeforeDelete(r) ==> server.nodes == old(server.nodes) && server.side == old(server.side)
      ensures Recovered(r) && server.snapshots ==> server.side == old(server.side)
      ensures old(InSync()) && (BeforeDelete(r) || Recovered(r)) ==> server.nodes == old(server.nodes)
      // the flush on the way loses nothing
      ensures FlushStep(old(Accounts()), f, Accounts())
      ensures server.calls == old(server.calls) + log
      ensures Explained(r, log, f, candidate, users, old(info), old(userList), old(server.side))
    {
      var refused, snapshot;
      refused, snapshot, f, log := Prepare(candidate);
      if refused.Some? {
        return refused.value, f, log;
      }
      r, log := SwitchTo(candidate, users, alive, snapshot, f, log, old(server.calls));
    }

    /** What follows once the core runs the candidate. */
    method Adopt(candidate: NodeInfo, users: seq<UserInfo>, alive: map<int, int>)
      modifies this`info, this`userList, this`aliveMap, this`pullInterval, this`pushInterval, panel`accepted
      ensures info == candidate && userList == users && aliveMap == alive && panel.accepted == Some(candidate)
      ensures pullInterval == candidate.pullInterval && pushInterval == candidate.pushInterval
    {
      info, userList, aliveMap := candidate, users, alive;
      pullInterval, pushInterval := candidate.pullInterval, candidate.pushInterval;
      panel.accepted := Some(candidate);
    }

    /** What follows the deletion: the candidate goes in, or everything goes back. */
    method TakeOver(candidate: NodeInfo, users: seq<UserInfo>, alive: map<int, int>, snapshot: Option<int>,
                    ghost before: map<string, Installed>)
        returns (r: Outcome, ghost log: seq<Call>)
      requires Valid() && Compile(candidate.rules, compiles) && (snapshot.Some? <==> server.snapshots)
      requires server.nodes == before - {tag}
      modifies this`info, this`userList, this`aliveMap, this`limiter, this`pullInterval, this`pushInterval
      modifies server`nodes, server`side, server`calls, panel`accepted, registry
      ensures r.Applied? || r.InstallFailed?
      ensures Settled(r, candidate, users, alive, before)
      ensures Recovered(r) && snapshot.Some? ==> server.side == snapshot.value
      ensures server.calls == old(server.calls) + log
      ensures TookOver(r, log, candidate, users, old(info), old(userList), snapshot)
    {
      var oldNode, oldUsers, oldLimiter := info, userList, limiter;
      RemoveTwice(before, tag);
      limiter := registry.AddLimiter(tag, users, alive);
      var _ := limiter.UpdateRule(candidate.rules, compiles);
      var installed, asked := Install(candidate, users);
      if !installed {
        PutBack(old(registry.limiters), tag, limiter);
        var recovered, rest := RollBack(oldNode, oldUsers, oldLimiter, snapshot, before);
        Seqs.Assoc(old(server.calls), asked, rest);
        Seqs.DropConcat(asked, rest);
        return InstallFailed(recovered), asked + rest;
      }
      PutReplaces(before, old(server.nodes), tag, Installed(candidate, users));
      Adopt(candidate, users, alive);
      return Applied, asked;
    }

    /** The part of the reload that changes the core. */
    method SwitchTo(candidate: NodeInfo, users: seq<UserInfo>, alive: map<int, int>, snapshot: Option<int>,
                    ghost f: Flush, ghost ready: seq<Call>, ghost was: seq<Call>)
        returns (r: Outcome, ghost log: seq<Call>)
      requires Valid() && snapshot == (if server.snapshots then Some(server.side) else None)
      requires Ready(ready, f, candidate) && |ready| == Preparations() && server.calls == was + ready
      modifies this`info, this`userList, this`aliveMap, this`limiter, this`pullInterval, this`pushInterval
      modifies server`nodes, server`side, server`calls, panel`accepted, registry
      ensures r.Applied? || r.DeleteFailed? || r.InstallFailed?
      ensures Settled(r, candidate, users, alive, old(server.nodes))
      ensures Recovered(r) && snapshot.Some? ==> server.side == snapshot.value
      ensures server.calls == was + log
      ensures Explained(r, log, f, candidate, users, old(info), old(userList), old(server.side))
    {
      ghost var before := server.nodes;
      RemoveTwice(before, tag);
      var deleted := server.DelNode(tag);
      if !deleted {
        var recovered, rest := Retreat(info, userList, snapshot, before);
        log := ready + ([Deleted(tag, false)] + rest);
        OneMoreThen(was, ready, Deleted(tag, false), rest);
        ReadyThen(ready, [Deleted(tag, false)] + rest, DeleteFailed(recovered), f, candidate, users, info, userList,
                  old(server.side));
        return DeleteFailed(recovered), log;
      }
      ghost var rest;
      r, rest := TakeOver(candidate, users, alive, snapshot, before);
      log := ready + ([Deleted(tag, true)] + rest);
      OneMoreThen(was, ready, Deleted(tag, true), rest);
      ReadyThen(ready, [Deleted(tag, true)] + rest, r, f, candidate, users, old(info), old(userList), old(server.side));
    }

    /** After a failed deletion: one more attempt, then recovery. */
    method Retreat(oldNode: NodeInfo, oldUsers: seq<UserInfo>, snapshot: Option<int>, ghost before: map<string, Installed>)
        returns (ok: bool, ghost log: seq<Call>)
      requires server.nodes - {tag} == before - {tag} && (snapshot.Some? <==> server.snapshots)
      modifies server`nodes, server`side, server`calls
      ensures server.calls == old(server.calls) + log
      ensures |log| > 0 && log[0].Deleted? && log[0].tag == tag
      ensures Recovers(log[1..], oldNode, oldUsers, snapshot, ok)
      ensures server.nodes - {tag} == before - {tag}
      ensures ok ==> server.nodes == before[tag := Installed(oldNode, oldUsers)]
      ensures ok && snapshot.Some? ==> server.side == snapshot.value
    {
      var again := server.DelNode(tag);
      ghost var rest;
      ok, rest := Recover(oldNode, oldUsers, snapshot, before);
      log := [Deleted(tag, again)] + rest;
      Seqs.Assoc(old(server.calls), [Deleted(tag, again)], rest);
      assert log[1..] == rest;
    }

    /** Takes a half-installed candidate down again. */
    method RollBack(oldNode: NodeInfo, oldUsers: seq<UserInfo>, oldLimiter: Limiter, snapshot: Option<int>,
                    ghost before: map<string, Installed>)
        returns (ok: bool, ghost log: seq<Call>)
      requires server.nodes - {tag} == before - {tag} && (snapshot.Some? <==> server.snapshots)
      modifies this`limiter, registry, server`nodes, server`side, server`calls
      ensures server.calls == old(server.calls) + log
      ensures |log| > 0 && log[0].Deleted? && log[0].tag == tag
      ensures Recovers(log[1..], oldNode, oldUsers, snapshot, ok)
      ensures limiter == oldLimiter && registry.limiters == old(registry.limiters)[tag := oldLimiter]
      ensures server.nodes - {tag} == before - {tag}
      ensures ok ==> server.nodes == before[tag := Installed(oldNode, oldUsers)]
      ensures ok && snapshot.Some? ==> server.side == snapshot.value
    {
      var again := server.DelNode(tag);
      registry.RestoreLimiter(tag, oldLimiter);
      limiter := oldLimiter;
      ghost var rest;
      ok, rest := Recover(oldNode, oldUsers, snapshot, before);
      log := [Deleted(tag, again)] + rest;
      Seqs.Assoc(old(server.calls), [Deleted(tag, again)], rest);
      assert log[1..] == rest;
    }

    /** Both recovery steps, the second also when the first fails. */
    method Recover(oldNode: NodeInfo, oldUsers: seq<UserInfo>, snapshot: Option<int>,
                   ghost before: map<string, Installed>)
        returns (ok: bool, ghost log: seq<Call>)
      requires server.nodes - {tag} == before - {tag} && (snapshot.Some? <==> server.snapshots)
      modifies server`nodes, server`side, server`calls
      ensures server.calls == old(server.calls) + log
      ensures Recovers(log, oldNode, oldUsers, snapshot, ok)
      ensures server.nodes - {tag} == before - {tag}
      ensures ok ==> server.nodes == before[tag := Installed(oldNode, oldUsers)]
      ensures ok && snapshot.Some? ==> server.side == snapshot.value
    {
      ghost var was := server.nodes;
      var installed, asked := Install(oldNode, oldUsers);
      log := asked;
      if installed {
        PutReplaces(before, was, tag, Installed(oldNode, oldUsers));
      }
      var restored := true;
      if snapshot.Some? {
        restored := server.Restore(snapshot.value);
        log := asked + [Restored(snapshot.value, restored)];
        Seqs.Assoc(old(server.calls), asked, [Restored(snapshot.value, restored)]);
        assert log[..|asked|] == asked;
      }
      ok := installed && restored;
    }
  }

  lemma OneMoreThen(was: seq<Call>, ready: seq<Call>, c: Call, rest: seq<Call>)
    ensures was + ready + [c] + rest == was + (ready + ([c] + rest)) && ([c] + rest)[1..] == rest
  {
  }

  // ---------- conservation of traffic over runs of flushes ----------

  function CreditedTotal(received: seq<map<int, (int, int)>>, uid: int, d: Direction): int {
    if received == [] then 0 else Credited(received[0], uid, d) + CreditedTotal(received[1..], uid, d)
  }

  lemma {:induction false} CreditedConcat(a: seq<map<int, (int, int)>>, b: seq<map<int, (int, int)>>, uid: int, d: Direction)
    ensures CreditedTotal(a + b, uid, d) == CreditedTotal(a, uid, d) + CreditedTotal(b, uid, d)
  {
    if a == [] {
      Seqs.LeftUnit(b);
    } else {
      Seqs.TailOfConcat(a, b);
      CreditedConcat(a[1..], b, uid, d);
    }
  }

  lemma {:induction false} BodyUids(ts: seq<UserTraffic>)
    ensures forall uid :: uid in Body(ts) <==> Mentions(ts, uid)
  {
    if ts != [] {
      var n := |ts| - 1;
      BodyUids(ts[..n]);
      MentionsSnoc(ts[..n], ts[n]);
      assert ts == ts[..n] + [ts[n]];
    }
  }

  /** A push body overwrites nothing exactly when the list has one entry per UID. */
  lemma {:induction false} BodyOverwritesNothing(ts: seq<UserTraffic>)
    ensures |Body(ts)| <= |ts| && (|Body(ts)| == |ts| <==> OnePerUid(ts))
  {
    if ts != [] {
      var n := |ts| - 1;
      var front := ts[..n];
      BodyOverwritesNothing(front);
      BodyUids(front);
      var v := (ts[n].up, ts[n].down);
      if ts[n].uid in Body(front) {
        assert Body(ts).Keys == Body(front).Keys;
        var i :| 0 <= i < |front| && front[i].uid == ts[n].uid;
        assert ts[i].uid == ts[n].uid;
      } else {
        assert Body(ts).Keys == Body(front).Keys + {ts[n].uid};
        assert !Mentions(front, ts[n].uid);
        assert forall i | 0 <= i < n :: ts[i] == front[i] && front[i].uid != ts[n].uid;
      }
    }
  }

  /** A push body made of a merged list credits every UID with its whole sum. */
  lemma {:induction false} BodyCreditsSums(ts: seq<UserTraffic>, uid: int, d: Direction)
    requires OnePerUid(ts)
    ensures Credited(Body(ts), uid, d) == Sum(ts, uid, d)
  {
    if ts != [] {
      var n := |ts| - 1;
      BodyCreditsSums(ts[..n], uid, d);
      SumSnoc(ts[..n], ts[n], uid, d);
      assert ts == ts[..n] + [ts[n]];
      if uid == ts[n].uid {
        assert forall i | 0 <= i < n :: ts[..n][i] == ts[i];
        assert !Mentions(ts[..n], uid);
        SumOfUnmentioned(ts[..n], uid, d);
      }
    }
  }

  /** Everything taken from the core has been credited to its UID by the panel or is pending. */
  ghost predicate Balanced(l: Ledger) {
    forall uid, d :: CreditedTotal(l.received, uid, d) + Sum(l.pending, uid, d) == Sum(l.taken, uid, d)
  }

  lemma FlushKeepsBalance(a: Ledger, f: Flush, b: Ledger)
    requires Balanced(a) && FlushStep(a, f, b)
    ensures Balanced(b)
  {
    if f.taken.Some? {
      forall uid, d ensures CreditedTotal(b.received, uid, d) + Sum(b.pending, uid, d) == Sum(b.taken, uid, d) {
        SumConcat(a.taken, f.taken.value, uid, d);
        assert Sum(f.merged, uid, d) == Sum(a.pending, uid, d) + Sum(f.taken.value, uid, d);
        if f.pushed {
          var body := if f.merged == [] then [] else [Body(f.merged)];
          CreditedConcat(a.received, body, uid, d);
          BodyCreditsSums(f.merged, uid, d);
          assert CreditedTotal(body, uid, d) == Credited(Body(f.merged), uid, d);
        }
      }
    }
  }

  /** A run of flushes. */
  ghost predicate FlushRun(states: seq<Ledger>, fs: seq<Flush>) {
    |states| == |fs| + 1 && forall i | 0 <= i < |fs| :: FlushStep(states[i], fs[i], states[i + 1])
  }

  /** Over every run of flushes with succeeding and failing reads and pushes, what the panel has
      credited plus what is pending is what the core gave away, per UID and direction. */
  lemma {:induction false} TrafficIsConserved(states: seq<Ledger>, fs: seq<Flush>)
    requires FlushRun(states, fs) && Balanced(states[0])
    ensures Balanced(states[|fs|])
    decreases |fs|
  {
    if fs != [] {
      var n := |fs| - 1;
      assert FlushRun(states[..n + 1], fs[..n]);
      TrafficIsConserved(states[..n + 1], fs[..n]);
      FlushKeepsBalance(states[n], fs[n], states[n + 1]);
    }
  }
}
