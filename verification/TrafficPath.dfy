/** The whole way of a user's bytes: live counters, retired records, pending batches, panel. Several
    nodes share a core, each with a controller that flushes its own traffic. */
module TrafficPath {
  import MapSums
  import Seqs
  import T = Traffic
  import X = XrayTraffic
  import R = Reload

  /** The core and, by tag, what the controllers have taken, hold and have delivered. */
  datatype System = System(books: X.Books, ledgers: map<string, R.Ledger>)

  const STARTED := System(X.OPENED, map[])

  function LedgerOf(s: System, tag: string): R.Ledger {
    if tag in s.ledgers then s.ledgers[tag] else R.Ledger([], [], [])
  }

  /** Something happens in the core, or a node's controller flushes: it takes what a resetting read of the
      core returns, if the read succeeds, merges it with its pending records and pushes them. */
  datatype Step = Happens(e: X.Event) | Flushes(tag: string, order: seq<string>, f: R.Flush, after: R.Ledger)

  /** Only flushes read with a reset. */
  ghost predicate Possible(s: System, step: Step) {
    match step
    case Happens(e) => X.Possible(s.books, e) && !(e.Reads? && e.reset)
    case Flushes(tag, order, f, after) =>
      && R.FlushStep(LedgerOf(s, tag), f, after)
      && (f.taken.Some? ==>
            && X.Possible(s.books, X.Reads(tag, order, true))
            && f.taken.value == X.ReadTraffic(s.books.core, tag, order, true).report)
  }

  ghost predicate Clean(s: System, step: Step) { step.Happens? ==> X.Clean(s.books, step.e) }

  ghost function Next(s: System, step: Step): System
    requires Possible(s, step)
  {
    match step
    case Happens(e) => s.(books := X.Next(s.books, e))
    case Flushes(tag, order, f, after) =>
      System(if f.taken.Some? then X.Next(s.books, X.Reads(tag, order, true)) else s.books, s.ledgers[tag := after])
  }

  ghost predicate PossibleRun(s: System, steps: seq<Step>)
    decreases |steps|
  {
    steps == [] || (Possible(s, steps[0]) && PossibleRun(Next(s, steps[0]), steps[1..]))
  }

  ghost predicate CleanRun(s: System, steps: seq<Step>)
    requires PossibleRun(s, steps)
    decreases |steps|
  {
    steps == [] || (Clean(s, steps[0]) && CleanRun(Next(s, steps[0]), steps[1..]))
  }

  ghost function After(s: System, steps: seq<Step>): System
    requires PossibleRun(s, steps)
    decreases |steps|
  {
    if steps == [] then s else After(Next(s, steps[0]), steps[1..])
  }

  /** A controller's pending records and what the panel has credited from it. */
  ghost function Share(uid: int, d: T.Direction): (string, R.Ledger) -> int {
    (tag: string, l: R.Ledger) => T.Sum(l.pending, uid, d) + R.CreditedTotal(l.received, uid, d)
  }

  ghost function OnTheWay(s: System, uid: int, d: T.Direction): int { MapSums.Sum(s.ledgers, Share(uid, d)) }

  /** What the core gave away is pending at some controller or credited. */
  ghost predicate Delivered(s: System) {
    forall uid, d :: T.Sum(s.books.reported, uid, d) == OnTheWay(s, uid, d)
  }

  ghost predicate Sound(s: System) {
    && X.Placed(s.books.core) && X.Balanced(s.books) && Delivered(s)
    && forall tag | tag in s.ledgers :: R.Balanced(s.ledgers[tag])
  }

  /** A flush moves its node's share by what it took. */
  lemma FlushShifts(s: System, tag: string, f: R.Flush, after: R.Ledger, uid: int, d: T.Direction)
    requires R.Balanced(LedgerOf(s, tag)) && R.FlushStep(LedgerOf(s, tag), f, after)
    ensures MapSums.Sum(s.ledgers[tag := after], Share(uid, d)) ==
            OnTheWay(s, uid, d) + if f.taken.Some? then T.Sum(f.taken.value, uid, d) else 0
  {
    var l := LedgerOf(s, tag);
    R.FlushKeepsBalance(l, f, after);
    MapSums.Set(s.ledgers, tag, after, Share(uid, d));
    assert Share(uid, d)(tag, l) == T.Sum(l.taken, uid, d) && Share(uid, d)(tag, after) == T.Sum(after.taken, uid, d);
    if f.taken.Some? {
      T.SumConcat(l.taken, f.taken.value, uid, d);
    }
  }

  lemma HappeningKeepsSound(s: System, e: X.Event)
    requires Sound(s) && Possible(s, Happens(e)) && X.Clean(s.books, e)
    ensures Sound(Next(s, Happens(e)))
  {
    X.CleanKeepsBalance(s.books, e);
    Seqs.RightUnit(s.books.reported);
  }

  lemma FlushKeepsSound(s: System, tag: string, order: seq<string>, f: R.Flush, after: R.Ledger)
    requires Sound(s) && Possible(s, Flushes(tag, order, f, after))
    ensures Sound(Next(s, Flushes(tag, order, f, after)))
  {
    var t := Next(s, Flushes(tag, order, f, after));
    R.FlushKeepsBalance(LedgerOf(s, tag), f, after);
    if f.taken.Some? {
      X.CleanKeepsBalance(s.books, X.Reads(tag, order, true));
    }
    forall uid, d ensures T.Sum(t.books.reported, uid, d) == OnTheWay(t, uid, d) {
      FlushShifts(s, tag, f, after, uid, d);
      if f.taken.Some? {
        T.SumConcat(s.books.reported, f.taken.value, uid, d);
      }
    }
  }

  lemma {:induction false} RunKeepsSound(s: System, steps: seq<Step>)
    requires PossibleRun(s, steps) && CleanRun(s, steps) && Sound(s)
    ensures Sound(After(s, steps))
    decreases |steps|
  {
    if steps != [] {
      match steps[0] {
        case Happens(e) => HappeningKeepsSound(s, e);
        case Flushes(tag, order, f, after) => FlushKeepsSound(s, tag, order, f, after);
      }
      RunKeepsSound(Next(s, steps[0]), steps[1..]);
    }
  }

  /** Over every clean run of a core with any number of controllers, with reads and pushes that fail at
      will, every byte a user moved is live in the core, retired in the core, pending in a controller or
      credited to that user's UID by the panel. */
  lemma NoByteVanishes(steps: seq<Step>)
    requires PossibleRun(STARTED, steps) && CleanRun(STARTED, steps)
    ensures var s := After(STARTED, steps);
            forall uid: int, d: T.Direction | uid != 0 ::
              T.Sum(s.books.moved, uid, d) == X.Held(s.books.core, uid, d) + OnTheWay(s, uid, d)
  {
    RunKeepsSound(STARTED, steps);
  }
}
