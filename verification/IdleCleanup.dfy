/** The idle cleanup loop of the AnyTLS client. The idle list is kept in key order, which puts the
    sessions with the largest numbers first. */
module IdleCleanup {
  import P = ClientPool
  import Seqs

  datatype Entry = Entry(seqNo: nat, idleSince: int)

  predicate Expired(e: Entry, expTime: int) { e.idleSince < expTime }

  /** The list's order: by key, so by falling number, and no number twice. */
  predicate Falling(xs: seq<Entry>) { forall i, j :: 0 <= i < j < |xs| ==> xs[i].seqNo > xs[j].seqNo }

  /** A kept session, which begins a new idle time if it has expired. */
  function Renewed(e: Entry, expTime: int, now: int): Entry { if Expired(e, expTime) then e.(idleSince := now) else e }

  /** What cleanup makes of the list `xs` when `active` sessions have been kept so far. */
  datatype Outcome = Outcome(kept: seq<Entry>, closed: seq<Entry>)

  function Clean(xs: seq<Entry>, expTime: int, now: int, minIdle: int, active: nat): Outcome
    decreases |xs|
  {
    if xs == [] then Outcome([], [])
    else if Expired(xs[0], expTime) && active >= minIdle then
      var r := Clean(xs[1..], expTime, now, minIdle, active);
      Outcome(r.kept, [xs[0]] + r.closed)
    else
      var r := Clean(xs[1..], expTime, now, minIdle, active + 1);
      Outcome([Renewed(xs[0], expTime, now)] + r.kept, r.closed)
  }

  class Pool {
    var idle: seq<Entry>
    const minIdle: int

    ghost predicate Valid()
      reads this
    {
      Falling(idle)
    }

    constructor (minIdle: int)
      ensures Valid() && idle == [] && this.minIdle == minIdle
    {
      this.minIdle := minIdle;
      idle := [];
    }

    /** The list's own insertion: an entry of the same number is replaced. */
    method Insert(session: Entry)
      requires Valid()
      modifies this`idle
      ensures Valid()
      ensures forall e :: e in idle <==> e == session || (e in old(idle) && e.seqNo != session.seqNo)
    {
      var i := 0;
      while i < |idle| && idle[i].seqNo > session.seqNo
        invariant i <= |idle| && forall k :: 0 <= k < i ==> idle[k].seqNo > session.seqNo
      {
        i := i + 1;
      }
      var next := if i < |idle| && idle[i].seqNo == session.seqNo then i + 1 else i;
      InsertedBetween(idle, i, next, session);
      idle := idle[..i] + [session] + idle[next..];
    }

    /** Drops expired sessions beyond the minimum and returns them for closing; the others stay, an
        expired one with a new idle time. */
    method IdleCleanupExpTime(expTime: int, now: int) returns (sessionToClose: seq<Entry>)
      modifies this`idle
      ensures Outcome(idle, sessionToClose) == Clean(old(idle), expTime, now, minIdle, 0)
      ensures old(Valid()) ==> Valid()
    {
      sessionToClose := [];
      var activeCount: nat, i := 0, 0;
      assert idle[..0] == [];
      while i < |idle|
        invariant i <= |idle|
        invariant var r := Clean(idle[i..], expTime, now, minIdle, activeCount);
                  Outcome(idle[..i] + r.kept, sessionToClose + r.closed) == Clean(old(idle), expTime, now, minIdle, 0)
        decreases |idle| - i
      {
        var session := idle[i];
        ghost var before, after := idle[..i], idle[i + 1..];
        Seqs.Uncons(idle, i);
        if !Expired(session, expTime) || activeCount < minIdle {
          if Expired(session, expTime) {
            session := session.(idleSince := now);
          }
          activeCount := activeCount + 1;
          idle := idle[i := session];
          Seqs.Assoc(before, [session], Clean(after, expTime, now, minIdle, activeCount).kept);
          assert idle[..i + 1] == before + [session] && idle[i + 1..] == after;
          i := i + 1;
        } else {
          Seqs.Assoc(sessionToClose, [session], Clean(after, expTime, now, minIdle, activeCount).closed);
          sessionToClose := sessionToClose + [session];
          idle := idle[..i] + idle[i + 1..];
          assert idle[..i] == before && idle[i..] == after;
        }
      }
      Seqs.RightUnit(idle);
      assert idle[..i] == idle && idle[i..] == [];
      Seqs.RightUnit(sessionToClose);
      if Falling(old(idle)) {
        StaysFalling(old(idle), expTime, now, minIdle, 0);
      }
    }
  }

  lemma InsertedBetween(xs: seq<Entry>, i: nat, next: nat, e: Entry)
    requires Falling(xs) && i <= next <= |xs| && (forall k :: 0 <= k < i ==> xs[k].seqNo > e.seqNo)
    requires i < |xs| ==> xs[i].seqNo <= e.seqNo
    requires next == if i < |xs| && xs[i].seqNo == e.seqNo then i + 1 else i
    ensures Falling(xs[..i] + [e] + xs[next..])
    ensures forall x :: x in xs[..i] + [e] + xs[next..] <==> x == e || (x in xs && x.seqNo != e.seqNo)
  {
    assert forall k :: next <= k < |xs| ==> xs[k].seqNo < e.seqNo;
    forall x ensures x in xs[..i] + [e] + xs[next..] <==> x == e || (x in xs && x.seqNo != e.seqNo) {
      if x in xs && x.seqNo != e.seqNo {
        var k :| 0 <= k < |xs| && xs[k] == x;
        assert x in xs[..i] || x in xs[next..] by {
          if k < i { assert xs[..i][k] == x; } else { assert xs[next..][k - next] == x; }
        }
      }
    }
  }

  // ---------- what cleanup promises ----------

  function Least(a: int, b: int): int { if a < b then a else b }

  /** At least min(minIdle, length) sessions are kept. */
  lemma {:induction false} KeepsTheMinimum(xs: seq<Entry>, expTime: int, now: int, minIdle: int, active: nat)
    ensures active + |Clean(xs, expTime, now, minIdle, active).kept| >= Least(minIdle, active + |xs|)
    decreases |xs|
  {
    if xs != [] {
      var closes := Expired(xs[0], expTime) && active >= minIdle;
      KeepsTheMinimum(xs[1..], expTime, now, minIdle, if closes then active else active + 1);
    }
  }

  /** Every kept session is unexpired afterwards; the expiry time lies in the past by the idle
      timeout. */
  lemma {:induction false} KeptAreFresh(xs: seq<Entry>, expTime: int, now: int, minIdle: int, active: nat)
    requires expTime <= now
    ensures forall e | e in Clean(xs, expTime, now, minIdle, active).kept :: !Expired(e, expTime)
    decreases |xs|
  {
    if xs != [] {
      var closes := Expired(xs[0], expTime) && active >= minIdle;
      KeptAreFresh(xs[1..], expTime, now, minIdle, if closes then active else active + 1);
    }
  }

  function Numbers(xs: seq<Entry>): multiset<nat>
    decreases |xs|
  {
    if xs == [] then multiset{} else multiset{xs[0].seqNo} + Numbers(xs[1..])
  }

  lemma NumbersCons(e: Entry, xs: seq<Entry>)
    ensures Numbers([e] + xs) == multiset{e.seqNo} + Numbers(xs)
  {
    assert ([e] + xs)[1..] == xs;
  }

  /** No session is lost or duplicated: each is either kept or handed over for closing. */
  lemma {:induction false} NoSessionIsLost(xs: seq<Entry>, expTime: int, now: int, minIdle: int, active: nat)
    ensures var r := Clean(xs, expTime, now, minIdle, active); Numbers(r.kept) + Numbers(r.closed) == Numbers(xs)
    decreases |xs|
  {
    if xs != [] {
      var closes := Expired(xs[0], expTime) && active >= minIdle;
      var next := if closes then active else active + 1;
      var r := Clean(xs[1..], expTime, now, minIdle, next);
      NoSessionIsLost(xs[1..], expTime, now, minIdle, next);
      NumbersCons(xs[0], r.closed);
      NumbersCons(Renewed(xs[0], expTime, now), r.kept);
    }
  }

  // ---------- which sessions are closed ----------

  lemma {:induction false} NumbersOf(xs: seq<Entry>)
    ensures forall n :: n in Numbers(xs) <==> exists e :: e in xs && e.seqNo == n
    decreases |xs|
  {
    if xs != [] {
      NumbersOf(xs[1..]);
      assert forall e :: e in xs <==> e == xs[0] || e in xs[1..];
    }
  }

  /** What is left of a list after its first session lies below it. */
  lemma CleanedLiesBelow(xs: seq<Entry>, expTime: int, now: int, minIdle: int, active: nat)
    requires xs != [] && Falling(xs)
    ensures var r := Clean(xs[1..], expTime, now, minIdle, active);
            && (forall e :: e in r.kept ==> e.seqNo < xs[0].seqNo)
            && (forall e :: e in r.closed ==> e.seqNo < xs[0].seqNo)
  {
    var r := Clean(xs[1..], expTime, now, minIdle, active);
    NoSessionIsLost(xs[1..], expTime, now, minIdle, active);
    NumbersOf(xs[1..]);
    NumbersOf(r.kept);
    NumbersOf(r.closed);
    forall e | e in r.kept || e in r.closed ensures e.seqNo < xs[0].seqNo {
      assert e.seqNo in Numbers(r.kept) || e.seqNo in Numbers(r.closed);
      assert e.seqNo in Numbers(xs[1..]);
    }
  }

  lemma FallingCons(e: Entry, xs: seq<Entry>)
    requires Falling(xs) && forall x :: x in xs ==> x.seqNo < e.seqNo
    ensures Falling([e] + xs)
  {
  }

  lemma {:induction false} StaysFalling(xs: seq<Entry>, expTime: int, now: int, minIdle: int, active: nat)
    requires Falling(xs)
    ensures Falling(Clean(xs, expTime, now, minIdle, active).kept)
    ensures Falling(Clean(xs, expTime, now, minIdle, active).closed)
    decreases |xs|
  {
    if xs != [] {
      var next := if Expired(xs[0], expTime) && active >= minIdle then active else active + 1;
      var r := Clean(xs[1..], expTime, now, minIdle, next);
      StaysFalling(xs[1..], expTime, now, minIdle, next);
      CleanedLiesBelow(xs, expTime, now, minIdle, next);
      FallingCons(xs[0], r.closed);
      FallingCons(Renewed(xs[0], expTime, now), r.kept);
    }
  }

  lemma {:induction false} ClosedByPlace(xs: seq<Entry>, expTime: int, now: int, minIdle: int, active: nat, i: nat)
    requires Falling(xs) && i < |xs|
    ensures var r, closes := Clean(xs, expTime, now, minIdle, active), Expired(xs[i], expTime) && active + i >= minIdle;
            (xs[i] in r.closed <==> closes) && (Renewed(xs[i], expTime, now) in r.kept <==> !closes)
    decreases |xs|
  {
    var next := if Expired(xs[0], expTime) && active >= minIdle then active else active + 1;
    CleanedLiesBelow(xs, expTime, now, minIdle, next);
    if i > 0 {
      ClosedByPlace(xs[1..], expTime, now, minIdle, next, i - 1);
      assert xs[1..][i - 1] == xs[i] && xs[i].seqNo < xs[0].seqNo;
    }
  }

  /** How many sessions of the list have a larger number than `n`. */
  function Newer(xs: seq<Entry>, n: nat): nat
    decreases |xs|
  {
    if xs == [] then 0 else (if xs[0].seqNo > n then 1 else 0) + Newer(xs[1..], n)
  }

  lemma {:induction false} NewerIsPlace(xs: seq<Entry>, i: nat)
    requires Falling(xs) && i < |xs|
    ensures Newer(xs, xs[i].seqNo) == i
    decreases |xs|
  {
    if i > 0 {
      assert xs[1..][i - 1] == xs[i];
      NewerIsPlace(xs[1..], i - 1);
    } else {
      NoneNewer(xs[1..], xs[0].seqNo);
    }
  }

  lemma {:induction false} NoneNewer(xs: seq<Entry>, n: nat)
    requires forall e :: e in xs ==> e.seqNo < n
    ensures Newer(xs, n) == 0
    decreases |xs|
  {
    if xs != [] {
      NoneNewer(xs[1..], n);
    }
  }

  /** A session is closed if and only if it has expired and at least the minimum of idle sessions are newer;
      otherwise it is kept. */
  lemma ClosedExactlyWhen(xs: seq<Entry>, expTime: int, now: int, minIdle: int, e: Entry)
    requires Falling(xs) && e in xs
    ensures var r, closes := Clean(xs, expTime, now, minIdle, 0), e.idleSince < expTime && Newer(xs, e.seqNo) >= minIdle;
            && (e in r.closed <==> closes)
            && ((if e.idleSince < expTime then Entry(e.seqNo, now) else e) in r.kept <==> !closes)
  {
    var i :| 0 <= i < |xs| && xs[i] == e;
    NewerIsPlace(xs, i);
    ClosedByPlace(xs, expTime, now, minIdle, 0, i);
  }

  // ---------- cleanup as a step of the pool ----------

  /** `xs` is the idle list of the pool. */
  ghost predicate ListsIdle(s: P.State, xs: seq<Entry>) {
    Falling(xs) && forall n: nat :: P.Key(n) in s.idle <==> n in Numbers(xs)
  }

  function KeysOf(xs: seq<Entry>): set<int> { set e | e in xs :: P.Key(e.seqNo) }

  lemma {:induction false} NumbersOnce(xs: seq<Entry>, n: nat)
    requires Falling(xs)
    ensures Numbers(xs)[n] <= 1
    decreases |xs|
  {
    if xs != [] {
      NumbersOnce(xs[1..], n);
      NumbersOf(xs[1..]);
    }
  }

  /** Cleaning the list is a cleanup step of the pool: it takes the closed sessions' keys out and leaves the
      kept sessions listed. */
  lemma CleanupIsAStep(s: P.State, xs: seq<Entry>, expTime: int, now: int, minIdle: int)
    requires ListsIdle(s, xs)
    ensures var r := Clean(xs, expTime, now, minIdle, 0);
            && P.Enabled(s, P.Cleanup(KeysOf(r.closed)))
            && ListsIdle(P.Do(s, P.Cleanup(KeysOf(r.closed))), r.kept)
  {
    var r := Clean(xs, expTime, now, minIdle, 0);
    NoSessionIsLost(xs, expTime, now, minIdle, 0);
    StaysFalling(xs, expTime, now, minIdle, 0);
    NumbersOf(r.closed);
    forall k | k in KeysOf(r.closed) ensures k in s.idle {
      var e :| e in r.closed && P.Key(e.seqNo) == k;
      assert e.seqNo in Numbers(xs);
    }
    forall n: nat ensures P.Key(n) in s.idle - KeysOf(r.closed) <==> n in Numbers(r.kept) {
      NumbersOnce(xs, n);
      assert P.Key(n) in KeysOf(r.closed) <==> n in Numbers(r.closed);
    }
  }
}
