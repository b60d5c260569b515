/** The in-memory migration of legacy sing-box configurations: block outbounds become reject
    actions, and legacy DNS addresses become typed servers. Configurations are decoded JSON. */
module ConfigMigration {
  import opened Basics
  import Seqs

  datatype Json = Null | Bool(b: bool) | Number(x: real) | Str(s: string) | Arr(items: seq<Json>) | Obj(fields: Fields)

  type Fields = map<string, Json>

  datatype Error =
    | InvalidOutbound | BlockNeedsManual | FinalNeedsManual | InvalidRule | ConflictingAction | GroupNeedsManual
    | DnsOptionsNeedManual | DnsAddressNeedsManual

  datatype Result<+T> = Ok(value: T) | Err(error: Error)

  function StrAt(m: Fields, key: string): Option<string> {
    if key in m && m[key].Str? then Some(m[key].s) else None
  }

  function ArrAt(m: Fields, key: string): Option<seq<Json>> {
    if key in m && m[key].Arr? then Some(m[key].items) else None
  }

  function ObjAt(m: Fields, key: string): Option<Fields> {
    if key in m && m[key].Obj? then Some(m[key].fields) else None
  }

  // ---------- the migration ----------

  predicate IsBlock(m: Fields) { "type" in m && m["type"] == Str("block") }

  datatype Sorted = Sorted(kept: seq<Json>, blocks: set<string>)

  /** Separates the block outbounds from the others. */
  function SortOutbounds(outbounds: seq<Json>): Result<Sorted>
    decreases |outbounds|
  {
    if outbounds == [] then Ok(Sorted([], {}))
    else
      var n := |outbounds| - 1;
      var front := SortOutbounds(outbounds[..n]);
      var last := outbounds[n];
      if front.Err? then front
      else if !last.Obj? then Err(InvalidOutbound)
      else if !IsBlock(last.fields) then Ok(front.value.(kept := front.value.kept + [last]))
      else
        var tag := StrAt(last.fields, "tag");
        if tag.None? || tag.value == "" || |last.fields| != 2 then Err(BlockNeedsManual)
        else Ok(front.value.(blocks := front.value.blocks + {tag.value}))
  }

  /** Rewrites one rule: nested rules first, then its own target. */
  function RewriteRule(rule: Json, blocks: set<string>): Result<Json> {
    if !rule.Obj? then Err(InvalidRule)
    else
      var m := rule.fields;
      var nested := if "rules" in m && m["rules"].Arr? then RewriteRules(m["rules"].items, blocks) else Ok([]);
      if nested.Err? then Err(nested.error)
      else
        var r := if ArrAt(m, "rules").Some? then m["rules" := Arr(nested.value)] else m;
        if NamesBlock(m, blocks) then
          if StrAt(m, "action").Some? && StrAt(m, "action").value != "route" then Err(ConflictingAction)
          else Ok(Obj((r - {"outbound"})["action" := Str("reject")]))
        else Ok(Obj(r))
  }

  function RewriteRules(rules: seq<Json>, blocks: set<string>): Result<seq<Json>> {
    if rules == [] then Ok([])
    else
      var first := RewriteRule(rules[0], blocks);
      if first.Err? then Err(first.error)
      else
        var rest := RewriteRules(rules[1..], blocks);
        if rest.Err? then rest else Ok([first.value] + rest.value)
  }

  predicate NamesBlock(m: Fields, blocks: set<string>) {
    StrAt(m, "outbound").Some? && StrAt(m, "outbound").value in blocks
  }

  /** An outbound group with a removed member. */
  predicate GroupNames(outbound: Json, blocks: set<string>) {
    outbound.Obj? && ArrAt(outbound.fields, "outbounds").Some? &&
    exists member :: member in ArrAt(outbound.fields, "outbounds").value && member.Str? && member.s in blocks
  }

  predicate IsLegacy(server: Json) { server.Obj? && StrAt(server.fields, "address").Some? }

  function MigrateServer(server: Json, isAddr: string -> bool): Result<Json> {
    if !IsLegacy(server) then Ok(server)
    else
      var m, address := server.fields, StrAt(server.fields, "address").value;
      if !(m.Keys <= {"address", "tag"}) then Err(DnsOptionsNeedManual)
      else if address == "local" then Ok(Obj(m["type" := Str("local")] - {"address"}))
      else if !isAddr(address) then Err(DnsAddressNeedsManual)
      else Ok(Obj(m["type" := Str("udp")]["server" := Str(address)] - {"address"}))
  }

  function MigrateServers(servers: seq<Json>, isAddr: string -> bool): Result<seq<Json>>
    decreases |servers|
  {
    if servers == [] then Ok([])
    else
      var n := |servers| - 1;
      var front := MigrateServers(servers[..n], isAddr);
      if front.Err? then front
      else
        var last := MigrateServer(servers[n], isAddr);
        if last.Err? then Err(last.error) else Ok(front.value + [last.value])
  }

  function Outbounds(c: Fields): seq<Json> {
    if ArrAt(c, "outbounds").Some? then ArrAt(c, "outbounds").value else []
  }

  function Route(c: Fields): Fields { if ObjAt(c, "route").Some? then ObjAt(c, "route").value else map[] }

  function Rules(c: Fields): seq<Json> { if ArrAt(Route(c), "rules").Some? then ArrAt(Route(c), "rules").value else [] }

  function Servers(c: Fields): seq<Json> {
    if ObjAt(c, "dns").Some? && ArrAt(ObjAt(c, "dns").value, "servers").Some?
    then ArrAt(ObjAt(c, "dns").value, "servers").value else []
  }

  function WithRules(c: Fields, rules: seq<Json>): Fields {
    if ArrAt(Route(c), "rules").Some? then c["route" := Obj(Route(c)["rules" := Arr(rules)])] else c
  }

  function WithServers(c: Fields, servers: seq<Json>): Fields {
    if ObjAt(c, "dns").Some? && ArrAt(ObjAt(c, "dns").value, "servers").Some?
    then c["dns" := Obj(ObjAt(c, "dns").value["servers" := Arr(servers)])] else c
  }

  /** The routing part. */
  function MigrateRouting(c: Fields): Result<Fields> {
    var sorted := SortOutbounds(Outbounds(c));
    if sorted.Err? then Err(sorted.error)
    else if sorted.value.blocks == {} then Ok(c)
    else
      var kept, blocks := sorted.value.kept, sorted.value.blocks;
      if StrAt(Route(c), "final").Some? && StrAt(Route(c), "final").value in blocks then Err(FinalNeedsManual)
      else
        var rules := RewriteRules(Rules(c), blocks);
        if rules.Err? then Err(rules.error)
        else if exists o :: o in kept && GroupNames(o, blocks) then Err(GroupNeedsManual)
        else Ok(WithRules(c["outbounds" := Arr(kept)], rules.value))
  }

  function Migrate(c: Fields, isAddr: string -> bool): Result<Fields> {
    var routed := MigrateRouting(c);
    if routed.Err? then routed
    else
      var servers := MigrateServers(Servers(routed.value), isAddr);
      if servers.Err? then Err(servers.error) else Ok(WithServers(routed.value, servers.value))
  }

  // ---------- the loops ----------

  method CollectBlocks(outbounds: seq<Json>) returns (r: Result<Sorted>)
    ensures r == SortOutbounds(outbounds)
  {
    var blocks: set<string>, kept: seq<Json>, i := {}, [], 0;
    while i < |outbounds|
      invariant i <= |outbounds| && SortOutbounds(outbounds[..i]) == Ok(Sorted(kept, blocks))
    {
      assert outbounds[..i + 1][..i] == outbounds[..i];
      var entry := outbounds[i];
      if !entry.Obj? {
        SortStops(outbounds, i);
        return Err(InvalidOutbound);
      }
      if !IsBlock(entry.fields) {
        kept := kept + [entry];
      } else {
        var tag := StrAt(entry.fields, "tag");
        if tag.None? || tag.value == "" || |entry.fields| != 2 {
          SortStops(outbounds, i);
          return Err(BlockNeedsManual);
        }
        blocks := blocks + {tag.value};
      }
      i := i + 1;
    }
    Seqs.Whole(outbounds);
    return Ok(Sorted(kept, blocks));
  }

  lemma {:induction false} SortStops(outbounds: seq<Json>, i: nat)
    requires i < |outbounds| && SortOutbounds(outbounds[..i + 1]).Err?
    ensures SortOutbounds(outbounds) == SortOutbounds(outbounds[..i + 1])
    decreases |outbounds|
  {
    var n := |outbounds| - 1;
    if i == n {
      Seqs.Whole(outbounds);
    } else {
      assert outbounds[..n][..i + 1] == outbounds[..i + 1];
      SortStops(outbounds[..n], i);
    }
  }

  method Rewrite(rules: seq<Json>, blocks: set<string>) returns (r: Result<seq<Json>>)
    ensures r == RewriteRules(rules, blocks)
    decreases rules
  {
    var out: seq<Json>, i := [], 0;
    Seqs.LeftUnit(if RewriteRules(rules, blocks).Ok? then RewriteRules(rules, blocks).value else []);
    while i < |rules|
      invariant i <= |rules|
      invariant RewriteRules(rules, blocks) ==
                match RewriteRules(rules[i..], blocks) case Err(e) => Err(e) case Ok(v) => Ok(out + v)
    {
      var entry := rules[i];
      assert rules[i..][1..] == rules[i + 1..];
      if !entry.Obj? {
        return Err(InvalidRule);
      }
      var rule := entry.fields;
      if "rules" in rule && rule["rules"].Arr? {
        var nested := Rewrite(rule["rules"].items, blocks);
        if nested.Err? {
          return Err(nested.error);
        }
        rule := rule["rules" := Arr(nested.value)];
      }
      var target := StrAt(rule, "outbound");
      if target.Some? && target.value in blocks {
        var action := StrAt(rule, "action");
        if action.Some? && action.value != "route" {
          return Err(ConflictingAction);
        }
        rule := rule - {"outbound"};
        rule := rule["action" := Str("reject")];
      }
      assert RewriteRule(entry, blocks) == Ok(Obj(rule));
      ghost var rest := RewriteRules(rules[i + 1..], blocks);
      if rest.Ok? {
        Seqs.Assoc(out, [Obj(rule)], rest.value);
      }
      out, i := out + [Obj(rule)], i + 1;
    }
    Seqs.RightUnit(out);
    return Ok(out);
  }

  method CheckGroups(kept: seq<Json>, blocks: set<string>) returns (named: bool)
    ensures named <==> exists o :: o in kept && GroupNames(o, blocks)
  {
    for i := 0 to |kept|
      invariant forall k :: 0 <= k < i ==> !GroupNames(kept[k], blocks)
    {
      if kept[i].Obj? && ArrAt(kept[i].fields, "outbounds").Some? {
        var members := ArrAt(kept[i].fields, "outbounds").value;
        for j := 0 to |members|
          invariant forall k :: 0 <= k < j ==> !(members[k].Str? && members[k].s in blocks)
        {
          if members[j].Str? && members[j].s in blocks {
            assert GroupNames(kept[i], blocks);
            return true;
          }
        }
      }
    }
    return false;
  }

  method RewriteServers(servers: seq<Json>, isAddr: string -> bool) returns (r: Result<seq<Json>>)
    ensures r == MigrateServers(servers, isAddr)
  {
    var out: seq<Json>, i := [], 0;
    while i < |servers|
      invariant i <= |servers| && MigrateServers(servers[..i], isAddr) == Ok(out)
    {
      assert servers[..i + 1][..i] == servers[..i];
      var server := servers[i];
      if server.Obj? && StrAt(server.fields, "address").Some? {
        var m, address := server.fields, StrAt(server.fields, "address").value;
        if !(m.Keys <= {"address", "tag"}) {
          ServersStop(servers, i, isAddr);
          return Err(DnsOptionsNeedManual);
        }
        if address == "local" {
          m := m["type" := Str("local")];
        } else {
          if !isAddr(address) {
            ServersStop(servers, i, isAddr);
            return Err(DnsAddressNeedsManual);
          }
          m := m["type" := Str("udp")];
          m := m["server" := Str(address)];
        }
        server := Obj(m - {"address"});
      }
      out, i := out + [server], i + 1;
    }
    Seqs.Whole(servers);
    return Ok(out);
  }

  lemma {:induction false} ServersStop(servers: seq<Json>, i: nat, isAddr: string -> bool)
    requires i < |servers| && MigrateServers(servers[..i + 1], isAddr).Err?
    ensures MigrateServers(servers, isAddr) == MigrateServers(servers[..i + 1], isAddr)
    decreases |servers|
  {
    var n := |servers| - 1;
    if i == n {
      Seqs.Whole(servers);
    } else {
      assert servers[..n][..i + 1] == servers[..i + 1];
      ServersStop(servers[..n], i, isAddr);
    }
  }

  /** The whole migration of a decoded configuration. `isAddr` stands for the address parser. */
  method NormalizeLegacyConfig(c: Fields, isAddr: string -> bool) returns (r: Result<Fields>)
    ensures r == Migrate(c, isAddr)
    ensures r.Ok? ==> RestKept(c, r.value)
  {
    var config := c;
    var sorted := CollectBlocks(Outbounds(config));
    if sorted.Err? {
      return Err(sorted.error);
    }
    var kept, blocks := sorted.value.kept, sorted.value.blocks;
    if blocks != {} {
      config := config["outbounds" := Arr(kept)];
      var final := StrAt(Route(config), "final");
      if final.Some? && final.value in blocks {
        return Err(FinalNeedsManual);
      }
      var rules := Rewrite(Rules(config), blocks);
      if rules.Err? {
        return Err(rules.error);
      }
      config := WithRules(config, rules.value);
      var named := CheckGroups(kept, blocks);
      if named {
        return Err(GroupNeedsManual);
      }
    }
    assert MigrateRouting(c) == Ok(config);
    var servers := RewriteServers(Servers(config), isAddr);
    if servers.Err? {
      return Err(servers.error);
    }
    EverythingElseStays(c, isAddr);
    return Ok(WithServers(config, servers.value));
  }

  // ---------- what a configuration means ----------

  datatype Decision = Drop | Via(tag: string) | Default(outbound: Json) | Special(action: string) | NoOutbound

  /** A rule without its decision, at every depth: all that a packet is matched against. */
  function Shape(rule: Json): Json {
    if !rule.Obj? then rule
    else
      var bare := rule.fields - {"outbound", "action"};
      if "rules" in rule.fields && rule.fields["rules"].Arr?
      then Obj(bare["rules" := Arr(ShapeAll(rule.fields["rules"].items))]) else Obj(bare)
  }

  function ShapeAll(rules: seq<Json>): seq<Json> {
    if rules == [] then [] else [Shape(rules[0])] + ShapeAll(rules[1..])
  }

  /** How packets are judged: `matches` says whether the packet meets a rule's conditions, `ends` which
      actions other than `route` and `reject` end the search. Both are arbitrary. */
  datatype Judge = Judge(matches: Json -> bool, ends: string -> bool)

  /** What a matching rule itself decides. */
  function Own(m: Fields, blocks: set<string>, judge: Judge): Option<Decision> {
    var action, target := StrAt(m, "action"), StrAt(m, "outbound");
    if action.Some? && action.value != "route" then
      if action.value == "reject" then Some(Drop)
      else if judge.ends(action.value) then Some(Special(action.value)) else None
    else if target.None? || target.value == "" then None
    else if target.value in blocks then Some(Drop) else Some(Via(target.value))
  }

  function Judged(rule: Json, blocks: set<string>, judge: Judge): Option<Decision> {
    if !rule.Obj? || !judge.matches(Shape(rule)) then None
    else if Own(rule.fields, blocks, judge).Some? then Own(rule.fields, blocks, judge)
    else if "rules" in rule.fields && rule.fields["rules"].Arr? then FirstMatch(rule.fields["rules"].items, blocks, judge)
    else None
  }

  function FirstMatch(rules: seq<Json>, blocks: set<string>, judge: Judge): Option<Decision> {
    if rules == [] then None
    else if Judged(rules[0], blocks, judge).Some? then Judged(rules[0], blocks, judge)
    else FirstMatch(rules[1..], blocks, judge)
  }

  /** The tags of the block outbounds. */
  function BlockTags(outbounds: seq<Json>): set<string> {
    set o | o in outbounds && o.Obj? && IsBlock(o.fields) && StrAt(o.fields, "tag").Some? :: StrAt(o.fields, "tag").value
  }

  function Final(c: Fields): string { if StrAt(Route(c), "final").Some? then StrAt(Route(c), "final").value else "" }

  /** Where traffic goes that no rule decides: the final outbound, or else the first one. */
  function Fallback(c: Fields): Decision {
    if Final(c) != "" then if Final(c) in BlockTags(Outbounds(c)) then Drop else Via(Final(c))
    else if Outbounds(c) == [] then NoOutbound
    else
      var first := Outbounds(c)[0];
      if first.Obj? && IsBlock(first.fields) then Drop else Default(first)
  }

  /** First-match routing over the rule tree. */
  function Decide(c: Fields, judge: Judge): Decision {
    var hit := FirstMatch(Rules(c), BlockTags(Outbounds(c)), judge);
    if hit.Some? then hit.value else Fallback(c)
  }

  // ---------- the rules keep their meaning ----------

  lemma {:induction false} RuleKeeps(rule: Json, blocks: set<string>, judge: Judge)
    requires RewriteRule(rule, blocks).Ok? && "" !in blocks
    ensures var r := RewriteRule(rule, blocks).value;
            Shape(r) == Shape(rule) && Judged(r, {}, judge) == Judged(rule, blocks, judge)
  {
    var m, r := rule.fields, RewriteRule(rule, blocks).value;
    if "rules" in m && m["rules"].Arr? {
      RulesKeep(m["rules"].items, blocks, judge);
      assert r.fields["rules"] == Arr(RewriteRules(m["rules"].items, blocks).value);
    }
    ShapeIgnoresDecision(rule, r);
    OwnKept(rule, blocks, judge);
  }

  lemma ShapeIgnoresDecision(rule: Json, r: Json)
    requires rule.Obj? && r.Obj?
    requires rule.fields - {"outbound", "action", "rules"} == r.fields - {"outbound", "action", "rules"}
    requires "rules" in rule.fields <==> "rules" in r.fields
    requires "rules" in rule.fields ==>
               if rule.fields["rules"].Arr?
               then r.fields["rules"].Arr? && ShapeAll(r.fields["rules"].items) == ShapeAll(rule.fields["rules"].items)
               else r.fields["rules"] == rule.fields["rules"]
    ensures Shape(r) == Shape(rule)
  {
    var a, b := rule.fields - {"outbound", "action"}, r.fields - {"outbound", "action"};
    forall k ensures (k in a <==> k in b) && (k in a && k != "rules" ==> a[k] == b[k]) {
      assert k in rule.fields - {"outbound", "action", "rules"} <==> k in r.fields - {"outbound", "action", "rules"};
    }
    if "rules" in rule.fields && rule.fields["rules"].Arr? {
      var nested := Arr(ShapeAll(r.fields["rules"].items));
      assert a["rules" := nested] == b["rules" := nested];
    } else {
      assert a == b;
    }
  }

  lemma OwnKept(rule: Json, blocks: set<string>, judge: Judge)
    requires RewriteRule(rule, blocks).Ok? && "" !in blocks
    ensures Own(RewriteRule(rule, blocks).value.fields, {}, judge) == Own(rule.fields, blocks, judge)
  {
  }

  lemma {:induction false} RulesKeep(rules: seq<Json>, blocks: set<string>, judge: Judge)
    requires RewriteRules(rules, blocks).Ok? && "" !in blocks
    ensures var r := RewriteRules(rules, blocks).value;
            ShapeAll(r) == ShapeAll(rules) && FirstMatch(r, {}, judge) == FirstMatch(rules, blocks, judge)
  {
    if rules != [] {
      RuleKeeps(rules[0], blocks, judge);
      RulesKeep(rules[1..], blocks, judge);
      var first, rest := RewriteRule(rules[0], blocks).value, RewriteRules(rules[1..], blocks).value;
      assert ([first] + rest)[1..] == rest;
    }
  }

  // ---------- main results ----------

  predicate Blocking(o: Json) { o.Obj? && IsBlock(o.fields) }

  lemma {:induction false} SortedTags(outbounds: seq<Json>)
    requires SortOutbounds(outbounds).Ok?
    ensures SortOutbounds(outbounds).value.blocks == BlockTags(outbounds) && "" !in BlockTags(outbounds)
    decreases |outbounds|
  {
    if outbounds != [] {
      var n := |outbounds| - 1;
      var front, last := outbounds[..n], outbounds[n];
      SortedTags(front);
      assert forall o :: o in outbounds <==> o in front || o == last;
      if IsBlock(last.fields) {
        assert BlockTags(outbounds) == BlockTags(front) + {StrAt(last.fields, "tag").value};
      } else {
        assert BlockTags(outbounds) == BlockTags(front);
      }
    }
  }

  lemma {:induction false} KeepOneMore(kept: seq<Json>, last: Json)
    requires SortOutbounds(kept) == Ok(Sorted(kept, {})) && last.Obj? && !IsBlock(last.fields)
    ensures SortOutbounds(kept + [last]) == Ok(Sorted(kept + [last], {}))
  {
    Seqs.InitOfSnoc(kept, last);
  }

  lemma {:induction false} SortedKeeps(outbounds: seq<Json>)
    requires SortOutbounds(outbounds).Ok?
    ensures var s := SortOutbounds(outbounds).value;
            && (forall o :: o in s.kept <==> o in outbounds && !Blocking(o))
            && (outbounds != [] && !Blocking(outbounds[0]) ==> s.kept != [] && s.kept[0] == outbounds[0])
            && SortOutbounds(s.kept) == Ok(Sorted(s.kept, {}))
            && (s.blocks == {} ==> s.kept == outbounds)
    decreases |outbounds|
  {
    if outbounds != [] {
      var n := |outbounds| - 1;
      var front, last := outbounds[..n], outbounds[n];
      SortedKeeps(front);
      assert forall o :: o in outbounds <==> o in front || o == last;
      var f := SortOutbounds(front).value;
      if !IsBlock(last.fields) {
        KeepOneMore(f.kept, last);
        Seqs.Snoc(outbounds);
      }
    }
  }

  lemma SortedParts(outbounds: seq<Json>)
    requires SortOutbounds(outbounds).Ok?
    ensures var s := SortOutbounds(outbounds).value;
            && s.blocks == BlockTags(outbounds) && "" !in s.blocks
            && (forall o :: o in s.kept <==> o in outbounds && !Blocking(o))
            && (outbounds != [] && !Blocking(outbounds[0]) ==> s.kept != [] && s.kept[0] == outbounds[0])
            && SortOutbounds(s.kept) == Ok(Sorted(s.kept, {}))
            && (s.blocks == {} ==> s.kept == outbounds)
  {
    SortedTags(outbounds);
    SortedKeeps(outbounds);
  }

  /** A removed block outbound is not the implicit default. */
  predicate DefaultKept(c: Fields) {
    Final(c) != "" || Outbounds(c) == [] || !Blocking(Outbounds(c)[0])
  }

  /** `d` routes as the migrated `c`: only its outbounds and rules differ, in the way the loops leave them. */
  predicate Routed(c: Fields, d: Fields) {
    var blocks := BlockTags(Outbounds(c));
    && SortOutbounds(Outbounds(c)).Ok? && Outbounds(d) == SortOutbounds(Outbounds(c)).value.kept
    && Final(d) == Final(c) && Final(c) !in blocks && "" !in blocks
    && if blocks == {} then Rules(d) == Rules(c) else RewriteRules(Rules(c), blocks) == Ok(Rules(d))
  }

  lemma RoutedForm(c: Fields)
    requires MigrateRouting(c).Ok?
    ensures SortOutbounds(Outbounds(c)).Ok?
    ensures var s, d := SortOutbounds(Outbounds(c)).value, MigrateRouting(c).value;
            if s.blocks == {} then d == c
            else
              && RewriteRules(Rules(c), s.blocks).Ok? && Final(c) !in (s.blocks - {""})
              && (forall o :: o in s.kept ==> !GroupNames(o, s.blocks))
              && d == WithRules(c["outbounds" := Arr(s.kept)], RewriteRules(Rules(c), s.blocks).value)
  {
  }

  lemma RoutedParts(c: Fields)
    requires MigrateRouting(c).Ok?
    ensures Routed(c, MigrateRouting(c).value)
    ensures forall o :: o in Outbounds(MigrateRouting(c).value) ==> !GroupNames(o, BlockTags(Outbounds(c)))
    ensures Servers(MigrateRouting(c).value) == Servers(c)
  {
    RoutedForm(c);
    SortedParts(Outbounds(c));
    var s := SortOutbounds(Outbounds(c)).value;
    if s.blocks != {} {
      RulesPart(c, s.kept, RewriteRules(Rules(c), s.blocks).value);
    }
  }

  lemma RulesPart(c: Fields, kept: seq<Json>, rules: seq<Json>)
    requires Rules(c) == [] ==> rules == []
    ensures var d := WithRules(c["outbounds" := Arr(kept)], rules);
            && Outbounds(d) == kept && Final(d) == Final(c) && Rules(d) == rules && Servers(d) == Servers(c)
  {
    var k := c["outbounds" := Arr(kept)];
    assert Route(k) == Route(c) && Servers(k) == Servers(c);
  }

  lemma {:induction false} ServersPart(c: Fields, servers: seq<Json>)
    requires |servers| == |Servers(c)|
    ensures var d := WithServers(c, servers);
            && Outbounds(d) == Outbounds(c) && Route(d) == Route(c) && Servers(d) == servers
  {
  }

  lemma SameRouting(c: Fields, d: Fields, e: Fields)
    requires Routed(c, d) && Outbounds(e) == Outbounds(d) && Route(e) == Route(d)
    ensures Routed(c, e)
  {
  }

  /** The result of an accepted migration, spelt out. */
  lemma MigratedParts(c: Fields, isAddr: string -> bool)
    requires Migrate(c, isAddr).Ok?
    ensures Routed(c, Migrate(c, isAddr).value)
    ensures forall o :: o in Outbounds(Migrate(c, isAddr).value) ==> !GroupNames(o, BlockTags(Outbounds(c)))
    ensures MigrateServers(Servers(c), isAddr) == Ok(Servers(Migrate(c, isAddr).value))
  {
    RoutedParts(c);
    var d, e, servers := MigrateRouting(c).value, Migrate(c, isAddr).value, MigrateServers(Servers(c), isAddr).value;
    assert e == WithServers(d, servers);
    ServersDone(Servers(c), isAddr);
    ServersPart(d, servers);
    SameRouting(c, d, e);
  }

  lemma DecisionKept(c: Fields, d: Fields, judge: Judge)
    requires Routed(c, d) && DefaultKept(c)
    ensures Decide(d, judge) == Decide(c, judge)
  {
    SortedParts(Outbounds(c));
    assert BlockTags(Outbounds(d)) == {};
    if BlockTags(Outbounds(c)) != {} {
      RulesKeep(Rules(c), BlockTags(Outbounds(c)), judge);
    }
  }

  lemma DecisionLost(c: Fields, d: Fields, judge: Judge)
    requires Routed(c, d) && !DefaultKept(c) && forall shape :: !judge.matches(shape)
    ensures Decide(c, judge) == Drop && Decide(d, judge) != Drop
  {
    SortedParts(Outbounds(c));
    NothingMatches(Rules(c), BlockTags(Outbounds(c)), judge);
    NothingMatches(Rules(d), BlockTags(Outbounds(d)), judge);
    assert Outbounds(d) != [] ==> Outbounds(d)[0] in Outbounds(d);
  }

  /** Nothing matches: every packet takes the fallback. */
  lemma {:induction false} NothingMatches(rules: seq<Json>, blocks: set<string>, judge: Judge)
    requires forall shape :: !judge.matches(shape)
    ensures FirstMatch(rules, blocks, judge) == None
  {
    if rules != [] {
      NothingMatches(rules[1..], blocks, judge);
    }
  }

  /** The routing decision of every accepted configuration is kept, for every way of matching packets, if
      and only if the implicit default is not a removed block outbound. */
  lemma MeaningIsKeptExactlyWhen(c: Fields, isAddr: string -> bool)
    requires Migrate(c, isAddr).Ok?
    ensures (forall judge :: Decide(Migrate(c, isAddr).value, judge) == Decide(c, judge)) <==> DefaultKept(c)
  {
    var d := Migrate(c, isAddr).value;
    MigratedParts(c, isAddr);
    if DefaultKept(c) {
      forall judge ensures Decide(d, judge) == Decide(c, judge) {
        DecisionKept(c, d, judge);
      }
    } else {
      DecisionLost(c, d, Judge(_ => false, _ => false));
    }
  }

  /** No rule at any depth names one of the tags. */
  predicate NoneNamed(rules: seq<Json>, blocks: set<string>) {
    rules == [] || (Unnamed(rules[0], blocks) && NoneNamed(rules[1..], blocks))
  }

  predicate Unnamed(rule: Json, blocks: set<string>) {
    && rule.Obj? && !NamesBlock(rule.fields, blocks)
    && ("rules" in rule.fields && rule.fields["rules"].Arr? ==> NoneNamed(rule.fields["rules"].items, blocks))
  }

  lemma {:induction false} RewrittenNamesNone(rules: seq<Json>, blocks: set<string>)
    requires RewriteRules(rules, blocks).Ok?
    ensures NoneNamed(RewriteRules(rules, blocks).value, blocks)
    decreases rules
  {
    if rules != [] {
      var m, r := rules[0].fields, RewriteRule(rules[0], blocks).value;
      if "rules" in m && m["rules"].Arr? {
        RewrittenNamesNone(m["rules"].items, blocks);
        assert r.fields["rules"] == Arr(RewriteRules(m["rules"].items, blocks).value);
      }
      assert Unnamed(r, blocks);
      RewrittenNamesNone(rules[1..], blocks);
      assert ([r] + RewriteRules(rules[1..], blocks).value)[1..] == RewriteRules(rules[1..], blocks).value;
    }
  }

  lemma ServerDone(server: Json, isAddr: string -> bool)
    requires MigrateServer(server, isAddr).Ok?
    ensures !IsLegacy(MigrateServer(server, isAddr).value)
  {
  }

  lemma {:induction false} ServersDone(servers: seq<Json>, isAddr: string -> bool)
    requires MigrateServers(servers, isAddr).Ok?
    ensures var r := MigrateServers(servers, isAddr).value;
            |r| == |servers| &&
            forall k :: 0 <= k < |r| ==> !IsLegacy(r[k]) && MigrateServer(servers[k], isAddr) == Ok(r[k])
    decreases |servers|
  {
    if servers != [] {
      var n := |servers| - 1;
      ServersDone(servers[..n], isAddr);
      ServerDone(servers[n], isAddr);
    }
  }

  lemma {:induction false} ModernServersStay(servers: seq<Json>, isAddr: string -> bool)
    requires forall k :: 0 <= k < |servers| ==> !IsLegacy(servers[k])
    ensures MigrateServers(servers, isAddr) == Ok(servers)
    decreases |servers|
  {
    if servers != [] {
      var front := servers[..|servers| - 1];
      ModernServersStay(front, isAddr);
      Seqs.Snoc(servers);
      assert MigrateServers(servers, isAddr) == Ok(front + [servers[|servers| - 1]]);
    }
  }

  /** Which resolver a server entry asks, in either form. */
  datatype Resolver = LocalResolver | Udp(address: string) | Other(server: Json)

  function ResolverOf(server: Json): Resolver {
    if IsLegacy(server) then
      var address := StrAt(server.fields, "address").value;
      if address == "local" then LocalResolver else Udp(address)
    else if !server.Obj? then Other(server)
    else
      var m := server.fields - {"tag"};
      if m == map["type" := Str("local")] then LocalResolver
      else if m.Keys == {"type", "server"} && m["type"] == Str("udp") && m["server"].Str? then Udp(m["server"].s)
      else Other(server)
  }

  function TagOf(server: Json): Option<Json> {
    if server.Obj? && "tag" in server.fields then Some(server.fields["tag"]) else None
  }

  /** Every server keeps its place, its tag and the resolver it stands for. */
  lemma ServersKeepTheirResolver(c: Fields, isAddr: string -> bool)
    requires Migrate(c, isAddr).Ok?
    ensures var d := Migrate(c, isAddr).value;
            |Servers(d)| == |Servers(c)| &&
            forall k :: 0 <= k < |Servers(c)| ==>
              ResolverOf(Servers(d)[k]) == ResolverOf(Servers(c)[k]) && TagOf(Servers(d)[k]) == TagOf(Servers(c)[k])
  {
    MigratedParts(c, isAddr);
    ServersDone(Servers(c), isAddr);
    forall k | 0 <= k < |Servers(c)|
      ensures ResolverOf(Servers(Migrate(c, isAddr).value)[k]) == ResolverOf(Servers(c)[k])
      ensures TagOf(Servers(Migrate(c, isAddr).value)[k]) == TagOf(Servers(c)[k])
    {
      SameResolver(Servers(c)[k], isAddr);
    }
  }

  lemma SameResolver(server: Json, isAddr: string -> bool)
    requires MigrateServer(server, isAddr).Ok?
    ensures var r := MigrateServer(server, isAddr).value;
            ResolverOf(r) == ResolverOf(server) && TagOf(r) == TagOf(server)
  {
    if IsLegacy(server) {
      var r, address := MigrateServer(server, isAddr).value, StrAt(server.fields, "address").value;
      if address == "local" {
        assert r.fields - {"tag"} == map["type" := Str("local")];
      } else {
        assert r.fields - {"tag"} == map["type" := Str("udp"), "server" := Str(address)];
      }
    }
  }

  /** What an accepted migration leaves: no block outbound, no rule at any depth and no group naming a
      removed tag, no legacy DNS address. Rules keep their conditions, order and number at every depth,
      and everything outside the outbounds, the route and the DNS part is untouched. */
  lemma NothingLegacyIsLeft(c: Fields, isAddr: string -> bool)
    requires Migrate(c, isAddr).Ok?
    ensures var d, blocks := Migrate(c, isAddr).value, BlockTags(Outbounds(c));
            && (forall o :: o in Outbounds(d) <==> o in Outbounds(c) && !Blocking(o))
            && (blocks != {} ==> NoneNamed(Rules(d), blocks))
            && (forall o :: o in Outbounds(d) ==> !GroupNames(o, blocks))
            && (forall k :: 0 <= k < |Servers(d)| ==> !IsLegacy(Servers(d)[k]))
            && ShapeAll(Rules(d)) == ShapeAll(Rules(c)) && Final(d) == Final(c) && |Servers(d)| == |Servers(c)|
    ensures Migrate(c, isAddr).value - {"outbounds", "route", "dns"} == c - {"outbounds", "route", "dns"}
  {
    MigratedParts(c, isAddr);
    NothingNamed(c, Migrate(c, isAddr).value);
    ServersDone(Servers(c), isAddr);
    OnlyThreeParts(c, isAddr);
  }

  lemma NothingNamed(c: Fields, d: Fields)
    requires Routed(c, d)
    ensures forall o :: o in Outbounds(d) <==> o in Outbounds(c) && !Blocking(o)
    ensures BlockTags(Outbounds(c)) != {} ==> NoneNamed(Rules(d), BlockTags(Outbounds(c)))
    ensures ShapeAll(Rules(d)) == ShapeAll(Rules(c))
  {
    var blocks := BlockTags(Outbounds(c));
    SortedParts(Outbounds(c));
    if blocks != {} {
      RulesKeep(Rules(c), blocks, Judge(_ => false, _ => false));
      RewrittenNamesNone(Rules(c), blocks);
    }
  }

  lemma OnlyThreeParts(c: Fields, isAddr: string -> bool)
    requires Migrate(c, isAddr).Ok?
    ensures Migrate(c, isAddr).value - {"outbounds", "route", "dns"} == c - {"outbounds", "route", "dns"}
  {
    var routed, d := MigrateRouting(c).value, Migrate(c, isAddr).value;
    assert routed - {"outbounds", "route", "dns"} == c - {"outbounds", "route", "dns"};
    assert d - {"outbounds", "route", "dns"} == routed - {"outbounds", "route", "dns"};
  }

  function Dns(c: Fields): Fields { if ObjAt(c, "dns").Some? then ObjAt(c, "dns").value else map[] }

  /** The outbounds that are not block outbounds, in their order and number. */
  function Unblocked(outbounds: seq<Json>): seq<Json>
    decreases |outbounds|
  {
    if outbounds == [] then []
    else
      var n := |outbounds| - 1;
      Unblocked(outbounds[..n]) + if Blocking(outbounds[n]) then [] else [outbounds[n]]
  }

  lemma {:induction false} SortingKeepsOrder(outbounds: seq<Json>)
    requires SortOutbounds(outbounds).Ok?
    ensures SortOutbounds(outbounds).value.kept == Unblocked(outbounds)
    decreases |outbounds|
  {
    if outbounds != [] {
      SortingKeepsOrder(outbounds[..|outbounds| - 1]);
      Seqs.RightUnit(Unblocked(outbounds[..|outbounds| - 1]));
    }
  }

  /** Two objects that differ in the array under one key at most, and have it both or not. */
  predicate DifferAt(a: Fields, b: Fields, key: string) {
    a - {key} == b - {key} && (key in a <==> key in b) && (key in a && !a[key].Arr? ==> b[key] == a[key])
  }

  lemma PutDiffersAt(a: Fields, key: string, v: Json)
    requires key in a && a[key].Arr?
    ensures DifferAt(a, a[key := v], key)
  {
    assert a[key := v] - {key} == a - {key};
  }

  lemma RoutedLeavesRest(c: Fields)
    requires MigrateRouting(c).Ok?
    ensures var d := MigrateRouting(c).value;
            && DifferAt(Route(c), Route(d), "rules")
            && ("route" in d <==> "route" in c) && ("dns" in d <==> "dns" in c)
            && ("outbounds" in d <==> "outbounds" in c) && ("dns" in c ==> d["dns"] == c["dns"])
            && ("route" in c && !c["route"].Obj? ==> d["route"] == c["route"])
            && (BlockTags(Outbounds(c)) == {} ==> d == c)
  {
    SortedTags(Outbounds(c));
    if SortOutbounds(Outbounds(c)).value.blocks != {} {
      var rules := RewriteRules(Rules(c), SortOutbounds(Outbounds(c)).value.blocks).value;
      if ArrAt(Route(c), "rules").Some? {
        PutDiffersAt(Route(c), "rules", Arr(rules));
      }
    }
  }

  lemma ServersLeaveRest(c: Fields, servers: seq<Json>)
    ensures var d := WithServers(c, servers);
            && DifferAt(Dns(c), Dns(d), "servers") && d - {"dns"} == c - {"dns"} && ("dns" in d <==> "dns" in c)
            && ("dns" in c && !c["dns"].Obj? ==> d["dns"] == c["dns"])
  {
    if ObjAt(c, "dns").Some? && ArrAt(ObjAt(c, "dns").value, "servers").Some? {
      PutDiffersAt(Dns(c), "servers", Arr(servers));
      assert WithServers(c, servers) - {"dns"} == c - {"dns"};
    }
  }

  lemma SameOutside(a: Fields, b: Fields, key: string, other: string)
    requires a - {key} == b - {key} && other != key
    ensures (other in a <==> other in b) && (other in a ==> a[other] == b[other])
  {
    assert other in a <==> other in a - {key};
    assert other in b <==> other in b - {key};
    if other in a {
      assert a[other] == (a - {key})[other] == (b - {key})[other] == b[other];
    }
  }

  /** A rewritten rule: a target that is removed gives way to a rejection, and no other field is touched but
      the nested rules. */
  predicate FieldsKept(rule: Json, r: Json, blocks: set<string>) {
    && rule.Obj? && r.Obj?
    && (if NamesBlock(rule.fields, blocks)
        then r.fields - {"rules"} == (rule.fields - {"rules", "outbound"})["action" := Str("reject")]
        else r.fields - {"rules"} == rule.fields - {"rules"})
    && ("rules" in rule.fields <==> "rules" in r.fields)
    && ("rules" in rule.fields && rule.fields["rules"].Arr? ==>
          r.fields["rules"].Arr? && AllFieldsKept(rule.fields["rules"].items, r.fields["rules"].items, blocks))
    && ("rules" in rule.fields && !rule.fields["rules"].Arr? ==> r.fields["rules"] == rule.fields["rules"])
  }

  predicate AllFieldsKept(rules: seq<Json>, rs: seq<Json>, blocks: set<string>) {
    if rules == [] then rs == []
    else rs != [] && FieldsKept(rules[0], rs[0], blocks) && AllFieldsKept(rules[1..], rs[1..], blocks)
  }

  lemma RewriteKeepsFields(rule: Json, blocks: set<string>)
    requires RewriteRule(rule, blocks).Ok?
    requires "rules" in rule.fields && rule.fields["rules"].Arr? ==>
               AllFieldsKept(rule.fields["rules"].items, RewriteRules(rule.fields["rules"].items, blocks).value, blocks)
    ensures FieldsKept(rule, RewriteRule(rule, blocks).value, blocks)
  {
    var m, r := rule.fields, RewriteRule(rule, blocks).value.fields;
    if NamesBlock(m, blocks) {
      assert r - {"rules"} == (m - {"rules", "outbound"})["action" := Str("reject")];
    } else {
      assert r - {"rules"} == m - {"rules"};
    }
  }

  lemma {:induction false} RulesKeepFields(rules: seq<Json>, blocks: set<string>)
    requires RewriteRules(rules, blocks).Ok?
    ensures AllFieldsKept(rules, RewriteRules(rules, blocks).value, blocks)
    decreases rules
  {
    if rules != [] {
      if "rules" in rules[0].fields && rules[0].fields["rules"].Arr? {
        RulesKeepFields(rules[0].fields["rules"].items, blocks);
      }
      RewriteKeepsFields(rules[0], blocks);
      RulesKeepFields(rules[1..], blocks);
      var first, rest := RewriteRule(rules[0], blocks).value, RewriteRules(rules[1..], blocks).value;
      assert ([first] + rest)[1..] == rest;
    }
  }

  /** Inside the three parts, too, the migration edits and does not rebuild: the route keeps every field but its
      rules, the rules every field but a removed target, the DNS part every field but its servers, and the
      outbounds that stay keep order and number. */
  ghost predicate RestKept(c: Fields, d: Fields) {
    var blocks := BlockTags(Outbounds(c));
    && DifferAt(Route(c), Route(d), "rules") && DifferAt(Dns(c), Dns(d), "servers")
    && ("route" in d <==> "route" in c) && ("dns" in d <==> "dns" in c) && ("outbounds" in d <==> "outbounds" in c)
    && ("route" in c && !c["route"].Obj? ==> d["route"] == c["route"])
    && ("dns" in c && !c["dns"].Obj? ==> d["dns"] == c["dns"])
    && ("outbounds" in c && !c["outbounds"].Arr? ==> d["outbounds"] == c["outbounds"])
    && d - {"outbounds", "route", "dns"} == c - {"outbounds", "route", "dns"}
    && Outbounds(d) == Unblocked(Outbounds(c))
    && if blocks == {} then Rules(d) == Rules(c) else AllFieldsKept(Rules(c), Rules(d), blocks)
  }

  lemma EverythingElseStays(c: Fields, isAddr: string -> bool)
    requires Migrate(c, isAddr).Ok?
    ensures RestKept(c, Migrate(c, isAddr).value)
  {
    MigratedParts(c, isAddr);
    SortingKeepsOrder(Outbounds(c));
    OnlyThreeParts(c, isAddr);
    var routed, d := MigrateRouting(c).value, Migrate(c, isAddr).value;
    RoutedLeavesRest(c);
    ServersLeaveRest(routed, MigrateServers(Servers(routed), isAddr).value);
    SameOutside(d, routed, "dns", "route");
    SameOutside(d, routed, "dns", "outbounds");
    assert Dns(routed) == Dns(c);
    if BlockTags(Outbounds(c)) != {} {
      RulesKeepFields(Rules(c), BlockTags(Outbounds(c)));
    }
  }

  /** Migrating the result again changes nothing. */
  lemma MigratingAgainChangesNothing(c: Fields, isAddr: string -> bool)
    requires Migrate(c, isAddr).Ok?
    ensures Migrate(Migrate(c, isAddr).value, isAddr) == Ok(Migrate(c, isAddr).value)
  {
    var d := Migrate(c, isAddr).value;
    MigratedParts(c, isAddr);
    SortedParts(Outbounds(c));
    ServersDone(Servers(c), isAddr);
    ModernServersStay(Servers(d), isAddr);
    SettledStays(d, isAddr);
  }

  lemma SettledStays(d: Fields, isAddr: string -> bool)
    requires SortOutbounds(Outbounds(d)) == Ok(Sorted(Outbounds(d), {}))
    requires MigrateServers(Servers(d), isAddr) == Ok(Servers(d))
    ensures Migrate(d, isAddr) == Ok(d)
  {
    assert MigrateRouting(d) == Ok(d);
    if ObjAt(d, "dns").Some? && ArrAt(ObjAt(d, "dns").value, "servers").Some? {
      assert d["dns"].fields["servers" := Arr(Servers(d))] == d["dns"].fields;
      assert d["dns" := d["dns"]] == d;
    }
  }

  // ---------- which configurations are accepted ----------

  /** Every rule at every depth is an object, and none names a block outbound beside another action. */
  predicate RulesFit(rules: seq<Json>, blocks: set<string>) {
    rules == [] || (RuleFits(rules[0], blocks) && RulesFit(rules[1..], blocks))
  }

  predicate RuleFits(rule: Json, blocks: set<string>) {
    && rule.Obj?
    && ("rules" in rule.fields && rule.fields["rules"].Arr? ==> RulesFit(rule.fields["rules"].items, blocks))
    && (NamesBlock(rule.fields, blocks) ==> StrAt(rule.fields, "action") in [None, Some("route")])
  }

  /** A block outbound has a tag and nothing else beside its type. */
  predicate OutboundFits(o: Json) {
    o.Obj? && (IsBlock(o.fields) ==> o.fields.Keys == {"type", "tag"} && o.fields["tag"].Str? && o.fields["tag"].s != "")
  }

  predicate ServerFits(s: Json, isAddr: string -> bool) {
    IsLegacy(s) ==>
      s.fields.Keys <= {"address", "tag"} && (s.fields["address"].s == "local" || isAddr(s.fields["address"].s))
  }

  predicate RoutingFits(c: Fields) {
    var blocks := BlockTags(Outbounds(c));
    && (forall k :: 0 <= k < |Outbounds(c)| ==> OutboundFits(Outbounds(c)[k]))
    && (blocks != {} ==>
          && Final(c) !in blocks && RulesFit(Rules(c), blocks)
          && forall o :: o in Outbounds(c) && !Blocking(o) ==> !GroupNames(o, blocks))
  }

  predicate Acceptable(c: Fields, isAddr: string -> bool) {
    RoutingFits(c) && forall k :: 0 <= k < |Servers(c)| ==> ServerFits(Servers(c)[k], isAddr)
  }

  lemma {:induction false} SortsExactlyWhen(outbounds: seq<Json>)
    ensures SortOutbounds(outbounds).Ok? <==> forall k :: 0 <= k < |outbounds| ==> OutboundFits(outbounds[k])
    decreases |outbounds|
  {
    if outbounds != [] {
      var n := |outbounds| - 1;
      SortsExactlyWhen(outbounds[..n]);
      assert forall k :: 0 <= k < n ==> outbounds[..n][k] == outbounds[k];
      if outbounds[n].Obj? {
        var m := outbounds[n].fields;
        if IsBlock(m) && StrAt(m, "tag").Some? {
          TwoKeys(m.Keys, "type", "tag");
        }
      }
    }
  }

  lemma TwoKeys<T>(s: set<T>, a: T, b: T)
    requires a in s && b in s && a != b
    ensures |s| == 2 <==> s == {a, b}
  {
    var rest := s - {a, b};
    assert s == rest + {a, b};
    assert |s| == |rest| + 2;
  }

  lemma {:induction false} RewritesExactlyWhen(rules: seq<Json>, blocks: set<string>)
    ensures RewriteRules(rules, blocks).Ok? <==> RulesFit(rules, blocks)
    decreases rules
  {
    if rules != [] {
      if rules[0].Obj? {
        var m := rules[0].fields;
        if "rules" in m && m["rules"].Arr? {
          RewritesExactlyWhen(m["rules"].items, blocks);
        }
      }
      RewritesExactlyWhen(rules[1..], blocks);
    }
  }

  lemma {:induction false} ServersExactlyWhen(servers: seq<Json>, isAddr: string -> bool)
    ensures MigrateServers(servers, isAddr).Ok? <==>
            forall k :: 0 <= k < |servers| ==> ServerFits(servers[k], isAddr)
    decreases |servers|
  {
    if servers != [] {
      var n := |servers| - 1;
      ServersExactlyWhen(servers[..n], isAddr);
      assert forall k :: 0 <= k < n ==> servers[..n][k] == servers[k];
    }
  }

  lemma RoutesExactlyWhen(c: Fields)
    ensures MigrateRouting(c).Ok? <==> RoutingFits(c)
  {
    SortsExactlyWhen(Outbounds(c));
    if SortOutbounds(Outbounds(c)).Ok? {
      SortedParts(Outbounds(c));
      RewritesExactlyWhen(Rules(c), BlockTags(Outbounds(c)));
    }
  }

  /** The migration accepts exactly the configurations it can express. */
  lemma AcceptedExactlyWhen(c: Fields, isAddr: string -> bool)
    ensures Migrate(c, isAddr).Ok? <==> Acceptable(c, isAddr)
  {
    RoutesExactlyWhen(c);
    ServersExactlyWhen(Servers(c), isAddr);
    if MigrateRouting(c).Ok? {
      assert Servers(MigrateRouting(c).value) == Servers(c);
    }
  }

  // ---------- what an error means ----------

  /** Somewhere in the rule tree there is a rule that is no object. */
  predicate HasInvalidRule(rules: seq<Json>) {
    rules != [] &&
    (|| !rules[0].Obj?
     || ("rules" in rules[0].fields && rules[0].fields["rules"].Arr? && HasInvalidRule(rules[0].fields["rules"].items))
     || HasInvalidRule(rules[1..]))
  }

  /** Somewhere in the rule tree a rule names a block outbound beside another action. */
  predicate HasConflict(rules: seq<Json>, blocks: set<string>) {
    rules != [] &&
    (|| (rules[0].Obj? && NamesBlock(rules[0].fields, blocks)
         && StrAt(rules[0].fields, "action") !in [None, Some("route")])
     || (rules[0].Obj? && "rules" in rules[0].fields && rules[0].fields["rules"].Arr?
         && HasConflict(rules[0].fields["rules"].items, blocks))
     || HasConflict(rules[1..], blocks))
  }

  /** What each error says about the configuration. */
  predicate Cause(e: Error, c: Fields, isAddr: string -> bool) {
    var blocks := BlockTags(Outbounds(c));
    match e
    case InvalidOutbound => exists o :: o in Outbounds(c) && !o.Obj?
    case BlockNeedsManual => exists o :: o in Outbounds(c) && Blocking(o) && !OutboundFits(o)
    case FinalNeedsManual => Final(c) in blocks
    case InvalidRule => HasInvalidRule(Rules(c))
    case ConflictingAction => HasConflict(Rules(c), blocks)
    case GroupNeedsManual => exists o :: o in Outbounds(c) && GroupNames(o, blocks)
    case DnsOptionsNeedManual => exists x :: x in Servers(c) && IsLegacy(x) && !(x.fields.Keys <= {"address", "tag"})
    case DnsAddressNeedsManual =>
      exists x :: x in Servers(c) && IsLegacy(x) && x.fields["address"].s != "local" && !isAddr(x.fields["address"].s)
  }

  lemma {:induction false} SortingError(outbounds: seq<Json>)
    requires SortOutbounds(outbounds).Err?
    ensures match SortOutbounds(outbounds).error
            case InvalidOutbound => exists o :: o in outbounds && !o.Obj?
            case BlockNeedsManual => exists o :: o in outbounds && Blocking(o) && !OutboundFits(o)
            case _ => false
    decreases |outbounds|
  {
    var n := |outbounds| - 1;
    if SortOutbounds(outbounds[..n]).Err? {
      SortingError(outbounds[..n]);
      assert forall o :: o in outbounds[..n] ==> o in outbounds;
    } else {
      assert outbounds[n] in outbounds;
      var m := if outbounds[n].Obj? then outbounds[n].fields else map[];
      if "type" in m && "tag" in m {
        TwoKeys(m.Keys, "type", "tag");
      }
    }
  }

  lemma {:induction false} RewritingError(rules: seq<Json>, blocks: set<string>)
    requires RewriteRules(rules, blocks).Err?
    ensures match RewriteRules(rules, blocks).error
            case InvalidRule => HasInvalidRule(rules)
            case ConflictingAction => HasConflict(rules, blocks)
            case _ => false
    decreases rules
  {
    if RewriteRule(rules[0], blocks).Err? {
      if rules[0].Obj? && "rules" in rules[0].fields && rules[0].fields["rules"].Arr? {
        var nested := rules[0].fields["rules"].items;
        if RewriteRules(nested, blocks).Err? {
          RewritingError(nested, blocks);
        }
      }
    } else {
      RewritingError(rules[1..], blocks);
    }
  }

  lemma {:induction false} ServersError(servers: seq<Json>, isAddr: string -> bool)
    requires MigrateServers(servers, isAddr).Err?
    ensures match MigrateServers(servers, isAddr).error
            case DnsOptionsNeedManual => exists x :: x in servers && IsLegacy(x) && !(x.fields.Keys <= {"address", "tag"})
            case DnsAddressNeedsManual =>
              exists x :: x in servers && IsLegacy(x) && x.fields["address"].s != "local" && !isAddr(x.fields["address"].s)
            case _ => false
    decreases |servers|
  {
    var n := |servers| - 1;
    if MigrateServers(servers[..n], isAddr).Err? {
      ServersError(servers[..n], isAddr);
      assert forall x :: x in servers[..n] ==> x in servers;
    } else {
      assert servers[n] in servers;
    }
  }

  lemma RoutingErrorNamesItsCause(c: Fields, isAddr: string -> bool)
    requires SortOutbounds(Outbounds(c)).Ok? && MigrateRouting(c).Err?
    ensures Cause(MigrateRouting(c).error, c, isAddr)
  {
    SortedParts(Outbounds(c));
    if RewriteRules(Rules(c), BlockTags(Outbounds(c))).Err? {
      RewritingError(Rules(c), BlockTags(Outbounds(c)));
    }
  }

  lemma SortingErrorNamesItsCause(c: Fields, isAddr: string -> bool)
    requires SortOutbounds(Outbounds(c)).Err?
    ensures Cause(SortOutbounds(Outbounds(c)).error, c, isAddr)
  {
    SortingError(Outbounds(c));
  }

  lemma DnsErrorNamesItsCause(c: Fields, isAddr: string -> bool)
    requires MigrateServers(Servers(c), isAddr).Err?
    ensures Cause(MigrateServers(Servers(c), isAddr).error, c, isAddr)
  {
    ServersError(Servers(c), isAddr);
  }

  /** An error is about something that is in the configuration. */
  lemma ErrorNamesItsCause(c: Fields, isAddr: string -> bool)
    requires Migrate(c, isAddr).Err?
    ensures Cause(Migrate(c, isAddr).error, c, isAddr)
  {
    if SortOutbounds(Outbounds(c)).Err? {
      SortingErrorNamesItsCause(c, isAddr);
    } else if MigrateRouting(c).Err? {
      RoutingErrorNamesItsCause(c, isAddr);
    } else {
      assert Servers(MigrateRouting(c).value) == Servers(c);
      DnsErrorNamesItsCause(c, isAddr);
    }
  }

  // ---------- a default that is lost ----------

  function BlockOutbound(tag: string): Fields { map["type" := Str("block"), "tag" := Str(tag)] }

  /** A block outbound as the default, another outbound, and no rules. */
  function BlockedByDefault(tag: string, o: Json): Fields {
    map["outbounds" := Arr([Obj(BlockOutbound(tag)), o])]
  }

  lemma BlockedByDefaultParts(tag: string, o: Json)
    ensures var c := BlockedByDefault(tag, o);
            && Outbounds(c) == [Obj(BlockOutbound(tag)), o] && Rules(c) == [] && Servers(c) == [] && Final(c) == ""
  {
  }

  lemma BlockedByDefaultIsAccepted(tag: string, o: Json, isAddr: string -> bool)
    requires tag != "" && o.Obj? && !IsBlock(o.fields) && !GroupNames(o, {tag})
    ensures Migrate(BlockedByDefault(tag, o), isAddr).Ok? && !DefaultKept(BlockedByDefault(tag, o))
  {
    var c, b := BlockedByDefault(tag, o), Obj(BlockOutbound(tag));
    BlockedByDefaultParts(tag, o);
    assert BlockOutbound(tag).Keys == {"type", "tag"};
    assert BlockTags(Outbounds(c)) == {tag} by {
      assert forall x :: x in Outbounds(c) <==> x == b || x == o;
      assert StrAt(b.fields, "tag") == Some(tag);
    }
    AcceptedExactlyWhen(c, isAddr);
  }

  /** What was dropped for want of a rule goes out through the next outbound after the migration. */
  lemma BlockedDefaultOpens(tag: string, o: Json, isAddr: string -> bool, judge: Judge)
    requires tag != "" && o.Obj? && !IsBlock(o.fields) && !GroupNames(o, {tag})
    ensures var c := BlockedByDefault(tag, o);
            && Migrate(c, isAddr).Ok?
            && Decide(c, judge) == Drop && Decide(Migrate(c, isAddr).value, judge) == Default(o)
  {
    var c, b := BlockedByDefault(tag, o), Obj(BlockOutbound(tag));
    BlockedByDefaultParts(tag, o);
    BlockedByDefaultIsAccepted(tag, o, isAddr);
    MigratedParts(c, isAddr);
    var d := Migrate(c, isAddr).value;
    assert [b, o][..1] == [b] && [b][..0] == [];
    assert SortOutbounds([]) == Ok(Sorted([], {}));
    assert SortOutbounds([b]) == Ok(Sorted([], {tag}));
    assert SortOutbounds([b, o]).value.kept == [o];
    assert Outbounds(d) == [o] && Rules(d) == [];
  }
}
