/** Per-user traffic on its way to the panel: batches are merged per UID, kept while pushes fail,
    and sent as a map keyed by UID. Counters are unbounded integers. */
module Traffic {
  import Seqs

  datatype UserTraffic = UserTraffic(uid: int, up: int, down: int)

  datatype Direction = Upload | Download

  function Amount(t: UserTraffic, d: Direction): int { if d.Upload? then t.up else t.down }

  /** The traffic of `uid` in `ts`. */
  function Sum(ts: seq<UserTraffic>, uid: int, d: Direction): int {
    if ts == [] then 0
    else (if ts[0].uid == uid then Amount(ts[0], d) else 0) + Sum(ts[1..], uid, d)
  }

  predicate Mentions(ts: seq<UserTraffic>, uid: int) { exists i :: 0 <= i < |ts| && ts[i].uid == uid }

  predicate OnePerUid(ts: seq<UserTraffic>) {
    forall i, j | 0 <= i < j < |ts| :: ts[i].uid != ts[j].uid
  }

  lemma {:induction false} SumConcat(a: seq<UserTraffic>, b: seq<UserTraffic>, uid: int, d: Direction)
    ensures Sum(a + b, uid, d) == Sum(a, uid, d) + Sum(b, uid, d)
  {
    if a == [] {
      Seqs.LeftUnit(b);
    } else {
      Seqs.TailOfConcat(a, b);
      SumConcat(a[1..], b, uid, d);
    }
  }

  lemma SumSnoc(a: seq<UserTraffic>, t: UserTraffic, uid: int, d: Direction)
    ensures Sum(a + [t], uid, d) == Sum(a, uid, d) + if t.uid == uid then Amount(t, d) else 0
  {
    SumConcat(a, [t], uid, d);
    assert [t][1..] == [];
  }

  lemma {:induction false} SumOfUnmentioned(ts: seq<UserTraffic>, uid: int, d: Direction)
    requires !Mentions(ts, uid)
    ensures Sum(ts, uid, d) == 0
  {
    if ts != [] {
      assert forall i | 0 <= i < |ts[1..]| :: ts[1..][i] == ts[i + 1];
      assert ts[0].uid != uid;
      SumOfUnmentioned(ts[1..], uid, d);
    }
  }

  /** `merged` carries exactly the traffic of `pending` and `next`, one entry per UID. */
  ghost predicate Merges(pending: seq<UserTraffic>, next: seq<UserTraffic>, merged: seq<UserTraffic>) {
    && OnePerUid(merged)
    && (forall uid :: Mentions(merged, uid) <==> Mentions(pending, uid) || Mentions(next, uid))
    && (forall uid, d :: Sum(merged, uid, d) == Sum(pending, uid, d) + Sum(next, uid, d))
  }

  /** `table` holds, under every UID of `seen`, that UID's totals. */
  ghost predicate Totals(table: map<int, UserTraffic>, seen: seq<UserTraffic>) {
    && (forall uid :: uid in table <==> Mentions(seen, uid))
    && (forall uid | uid in table :: table[uid].uid == uid)
    && (forall uid, d | uid in table :: Amount(table[uid], d) == Sum(seen, uid, d))
  }

  lemma TotalsGrow(table: map<int, UserTraffic>, seen: seq<UserTraffic>, item: UserTraffic, total: UserTraffic)
    requires Totals(table, seen) && total.uid == item.uid
    requires forall d :: Amount(total, d) == Amount(item, d) + if item.uid in table then Amount(table[item.uid], d) else 0
    ensures Totals(table[item.uid := total], seen + [item])
  {
    forall uid ensures Mentions(seen + [item], uid) <==> Mentions(seen, uid) || uid == item.uid {
      if Mentions(seen, uid) {
        var i :| 0 <= i < |seen| && seen[i].uid == uid;
        assert (seen + [item])[i].uid == uid;
      }
      assert (seen + [item])[|seen|] == item;
    }
    forall uid, d ensures Sum(seen + [item], uid, d) == Sum(seen, uid, d) + if item.uid == uid then Amount(item, d) else 0 {
      SumSnoc(seen, item, uid, d);
    }
    if item.uid !in table {
      forall d ensures Sum(seen, item.uid, d) == 0 { SumOfUnmentioned(seen, item.uid, d); }
    }
  }

  /** Adds every item of one batch to the table. */
  method AddBatch(table: map<int, UserTraffic>, ghost seen: seq<UserTraffic>, batch: seq<UserTraffic>)
      returns (merged: map<int, UserTraffic>)
    requires Totals(table, seen)
    ensures Totals(merged, seen + batch)
  {
    merged := table;
    var i := 0;
    Seqs.RightUnit(seen);
    while i < |batch|
      invariant i <= |batch| && Totals(merged, seen + batch[..i])
    {
      var item := batch[i];
      var total := if item.uid in merged then merged[item.uid] else UserTraffic(item.uid, 0, 0);
      total := total.(uid := item.uid, up := total.up + item.up, down := total.down + item.down);
      TotalsGrow(merged, seen + batch[..i], item, total);
      assert seen + batch[..i] + [item] == seen + batch[..i + 1];
      merged := merged[item.uid := total];
      i := i + 1;
    }
    Seqs.Whole(batch);
  }

  /** The table's entries in some order. */
  method Entries(table: map<int, UserTraffic>) returns (result: seq<UserTraffic>)
    requires forall uid | uid in table :: table[uid].uid == uid
    ensures OnePerUid(result) && forall uid :: uid in table <==> Mentions(result, uid)
    ensures forall i | 0 <= i < |result| :: result[i].uid in table && result[i] == table[result[i].uid]
  {
    result := [];
    var rest := table.Keys;
    while rest != {}
      invariant rest <= table.Keys && OnePerUid(result)
      invariant forall i | 0 <= i < |result| ::
                  result[i].uid in table && result[i].uid !in rest && result[i] == table[result[i].uid]
      invariant forall uid | uid in table :: uid in rest || Mentions(result, uid)
      decreases |rest|
    {
      var uid := Seqs.Pick(rest);
      MentionsSnoc(result, table[uid]);
      result, rest := result + [table[uid]], rest - {uid};
    }
  }

  /** One entry per UID with exact sums; the order of the entries is the map's and may be any. */
  method MergeUserTraffic(pending: seq<UserTraffic>, next: seq<UserTraffic>) returns (result: seq<UserTraffic>)
    ensures Merges(pending, next, result)
  {
    var merged := AddBatch(map[], [], pending);
    Seqs.LeftUnit(pending);
    merged := AddBatch(merged, pending, next);
    result := Entries(merged);
    SumsOfTable(merged, pending + next, result);
    MentionsConcat(pending, next);
    forall uid, d ensures Sum(result, uid, d) == Sum(pending, uid, d) + Sum(next, uid, d) {
      SumConcat(pending, next, uid, d);
    }
  }

  lemma MentionsSnoc(a: seq<UserTraffic>, t: UserTraffic)
    ensures forall uid :: Mentions(a + [t], uid) <==> Mentions(a, uid) || uid == t.uid
  {
    MentionsConcat(a, [t]);
    assert forall uid :: Mentions([t], uid) <==> [t][0].uid == uid;
  }

  lemma MentionsConcat(a: seq<UserTraffic>, b: seq<UserTraffic>)
    ensures forall uid :: Mentions(a + b, uid) <==> Mentions(a, uid) || Mentions(b, uid)
  {
    forall uid ensures Mentions(a + b, uid) <==> Mentions(a, uid) || Mentions(b, uid) {
      if Mentions(a, uid) {
        var i :| 0 <= i < |a| && a[i].uid == uid;
        assert (a + b)[i].uid == uid;
      }
      if Mentions(b, uid) {
        var i :| 0 <= i < |b| && b[i].uid == uid;
        assert (a + b)[|a| + i].uid == uid;
      }
    }
  }

  /** In a list with one entry per UID, a UID's sum is its entry. */
  lemma {:induction false} SumOfOnePerUid(ts: seq<UserTraffic>, i: nat, d: Direction)
    requires OnePerUid(ts) && i < |ts|
    ensures Sum(ts, ts[i].uid, d) == Amount(ts[i], d)
  {
    assert forall k | 0 <= k < |ts[1..]| :: ts[1..][k] == ts[k + 1];
    if i == 0 {
      assert !Mentions(ts[1..], ts[0].uid);
      SumOfUnmentioned(ts[1..], ts[0].uid, d);
    } else {
      assert ts[1..][i - 1] == ts[i];
      SumOfOnePerUid(ts[1..], i - 1, d);
    }
  }

  lemma SumsOfTable(table: map<int, UserTraffic>, seen: seq<UserTraffic>, result: seq<UserTraffic>)
    requires Totals(table, seen) && OnePerUid(result)
    requires forall uid :: uid in table <==> Mentions(result, uid)
    requires forall i | 0 <= i < |result| :: result[i].uid in table && result[i] == table[result[i].uid]
    ensures forall uid, d :: Sum(result, uid, d) == Sum(seen, uid, d)
  {
    forall uid, d ensures Sum(result, uid, d) == Sum(seen, uid, d) {
      if Mentions(result, uid) {
        var i :| 0 <= i < |result| && result[i].uid == uid;
        SumOfOnePerUid(result, i, d);
      } else {
        SumOfUnmentioned(result, uid, d);
        SumOfUnmentioned(seen, uid, d);
      }
    }
  }
}
