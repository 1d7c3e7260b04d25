/** A whole interleaved run has a serial order: its successful commits, run one after
    the other as one-step handlers in that order, all succeed and leave the same rows. */
module Serial {
  import opened Outcomes
  import opened Records
  import opened Handlers
  import opened Interleaving
  import opened Versions
  import opened Reachability
  import opened DecisionPoints
  import opened Executions
  import opened Places
  import opened SerialSteps

  // ----------------------------------------------------------------------- the serial run

  /** Place `s` comes right after commit `i`. */
  ghost predicate RightAfter(x: Execution, i: nat, s: Slot) {
    forall l: nat :: Commits(x, l) ==> (Precedes(SlotOf(x, l), s) <==> l == i || Precedes(SlotOf(x, l), SlotOf(x, i)))
  }

  lemma WritesCommit(x: Execution, i: nat, k: Key)
    requires Writes(x, i, k)
    ensures Commits(x, i) && i < |x.events|
  {
  }

  lemma CutBefore(x: Execution, i: nat, s: Slot, k: Key, t: nat)
    requires Orderly(x) && Commits(x, i) && RightAfter(x, i, s) && Cut(x, k, s, t)
    ensures !Writes(x, i, k) ==> Cut(x, k, SlotOf(x, i), t)
    ensures Writes(x, i, k) ==> i < t && forall l: nat :: i < l < t ==> !Writes(x, l, k)
  {
    hide Orderly, SlotOf, BlocksOf, WritesKey, Succeeds;
    if !Writes(x, i, k) {
      forall l: nat | Writes(x, l, k) ensures l < t <==> Precedes(SlotOf(x, l), SlotOf(x, i)) {
        WritesCommit(x, l, k);
      }
    } else {
      forall l: nat | i < l < t ensures !Writes(x, l, k) {
        if Writes(x, l, k) {
          WritesCommit(x, l, k);
          WritesInOrder(x, i, l, k);
        }
      }
    }
  }

  lemma MirrorsNext(x: Execution, i: nat, db: Db, next: Db, s: Slot)
    requires Placed(x, i, db) && LeadsTo(x, i, db, next) && RightAfter(x, i, s)
    ensures Mirrors(x, next, s)
  {
    hide Orderly, SlotOf, StateAt, Valid, Writes, Cut, RowsWithin, Commits, RightAfter;
    forall k, t: nat | Cut(x, k, s, t) ensures SameRow(next, StateAt(x, t), k) {
      CutBefore(x, i, s, k, t);
      if Writes(x, i, k) {
        CutInRange(x, k, s, t);
        Unwritten(x, i + 1, t, k);
      }
    }
  }

  lemma CutInRange(x: Execution, k: Key, s: Slot, t: nat)
    requires Cut(x, k, s, t)
    ensures t <= |x.events|
  {
  }

  /** A request that a handler has served. */
  datatype Call = Call(req: Request, caller: Caller, id: nat)

  ghost function CallOf(x: Execution, i: nat): Call {
    Call(Handler(x, i).req, Handler(x, i).caller, NewId(x, i))
  }

  /** One-step handlers, one after the other. */
  ghost function Series(db: Db, calls: seq<Call>): Result<Db>
    decreases |calls|
  {
    if calls == [] then Ok(db)
    else
      var c := calls[|calls| - 1];
      match Series(db, calls[..|calls| - 1])
      case Err(e) => Err(e)
      case Ok(mid) => Atomic(mid, c.req, c.caller, c.id)
  }

  ghost function CallsOf(x: Execution, order: seq<nat>): seq<Call> {
    seq(|order|, j requires 0 <= j < |order| => CallOf(x, order[j]))
  }

  lemma SeriesPush(x: Execution, order: seq<nat>, i: nat, mid: Db)
    requires Series(x.start, CallsOf(x, order)) == Ok(mid)
    ensures Series(x.start, CallsOf(x, order + [i])) ==
            Atomic(mid, Handler(x, i).req, Handler(x, i).caller, NewId(x, i))
  {
    var calls := CallsOf(x, order + [i]);
    assert calls[..|calls| - 1] == CallsOf(x, order);
  }

  /** `order` lists just the commits before place `s`, each once. */
  ghost predicate Lists(x: Execution, order: seq<nat>, s: Slot) {
    && (forall i: nat :: i in order <==> Commits(x, i) && Precedes(SlotOf(x, i), s))
    && (forall a, b :: 0 <= a < b < |order| ==> order[a] != order[b])
  }

  lemma SubInRange(x: Execution, i: nat)
    requires Orderly(x) && Commits(x, i)
    ensures SlotOf(x, i).sub <= |x.events|
  {
    hide Orderly, Commits, SlotOf, Ends, Base, TimesOf;
    SlotIs(x, i);
    TimesInOrder(x, i);
  }

  /** The commits before place `s`, run one after the other. */
  ghost predicate SerialUpTo(x: Execution, order: seq<nat>, db: Db, s: Slot) {
    && Lists(x, order, s) && Series(x.start, CallsOf(x, order)) == Ok(db)
    && Mirrors(x, db, s) && Valid(db) && RowsWithin(db, End(x))
  }

  lemma SerialStart(x: Execution)
    requires Orderly(x)
    ensures SerialUpTo(x, [], x.start, Slot(0, 0))
  {
    hide Orderly, SlotOf, Commits, Valid;
    StartIsValid(x);
    Segment(x, 0, |x.events|);
    EarlierIsWithin(StateAt(x, 0), End(x));
    forall k, t: nat | Cut(x, k, Slot(0, 0), t) ensures SameRow(x.start, StateAt(x, t), k) {
      Unwritten(x, 0, t, k);
    }
  }

  lemma StartIsValid(x: Execution)
    requires Orderly(x)
    ensures Valid(x.start) && StateAt(x, 0) == x.start
  {
  }

  /** Two places with the same commits before them. */
  lemma SamePlace(x: Execution, order: seq<nat>, db: Db, s: Slot, t: Slot)
    requires SerialUpTo(x, order, db, s)
    requires forall l: nat :: Commits(x, l) ==> (Precedes(SlotOf(x, l), s) <==> Precedes(SlotOf(x, l), t))
    ensures SerialUpTo(x, order, db, t)
  {
    hide SlotOf, Valid, RowsWithin, StateAt, Succeeds, WritesKey;
    forall k, m: nat | Cut(x, k, t, m) ensures Cut(x, k, s, m) {
      forall l: nat | Writes(x, l, k) ensures l < m <==> Precedes(SlotOf(x, l), s) { WritesCommit(x, l, k); }
    }
  }

  /** One more commit in the series. */
  lemma SerialNext(x: Execution, order: seq<nat>, db: Db, i: nat, s: Slot) returns (next: Db)
    requires Orderly(x) && Commits(x, i) && SerialUpTo(x, order, db, SlotOf(x, i)) && RightAfter(x, i, s)
    ensures SerialUpTo(x, order + [i], next, s)
  {
    hide Orderly, SlotOf, StateAt, Valid, Mirrors, RowsWithin, Commits, LeadsTo, Series, CallsOf, Lists, RightAfter;
    next := StepAtPlace(x, i, db);
    MirrorsNext(x, i, db, next, s);
    SeriesPush(x, order, i, db);
    ListsNext(x, order, i, s);
  }

  lemma ListsNext(x: Execution, order: seq<nat>, i: nat, s: Slot)
    requires Commits(x, i) && Lists(x, order, SlotOf(x, i)) && RightAfter(x, i, s)
    ensures Lists(x, order + [i], s)
  {
    hide SlotOf, Commits;
  }

  lemma {:induction false} SerialPrefix(x: Execution, main: nat, sub: nat) returns (order: seq<nat>, db: Db)
    requires Orderly(x) && sub <= |x.events| + 1
    ensures SerialUpTo(x, order, db, Slot(main, sub))
    decreases main, sub
  {
    hide Orderly, SerialUpTo, SlotOf, Commits;
    if sub > 0 {
      order, db := SerialPrefix(x, main, sub - 1);
      if i: nat :| Commits(x, i) && SlotOf(x, i) == Slot(main, sub - 1) {
        forall l: nat | Commits(x, l) && SlotOf(x, l) == SlotOf(x, i) ensures l == i { SlotsDiffer(x, i, l); }
        db := SerialNext(x, order, db, i, Slot(main, sub));
        order := order + [i];
      } else {
        SamePlace(x, order, db, Slot(main, sub - 1), Slot(main, sub));
      }
    } else if main > 0 {
      order, db := SerialPrefix(x, main - 1, |x.events| + 1);
      forall l: nat | Commits(x, l) ensures SlotOf(x, l).sub <= |x.events| { SubInRange(x, l); }
      SamePlace(x, order, db, Slot(main - 1, |x.events| + 1), Slot(main, 0));
    } else {
      order, db := [], x.start;
      SerialStart(x);
    }
  }

  lemma AllBeforeEnd(x: Execution, i: nat)
    requires Orderly(x) && Commits(x, i)
    ensures Precedes(SlotOf(x, i), Slot(|x.events|, 0))
  {
    hide Orderly, SlotOf, Succeeds;
    SlotNotLater(x, i);
  }

  lemma SameRowsEverywhere(a: Db, b: Db)
    requires forall k :: SameRow(a, b, k)
    ensures a.rows == b.rows
  {
    forall k ensures k in a.rows <==> k in b.rows { assert SameRow(a, b, k); }
    forall k | k in a.rows ensures a.rows[k] == b.rows[k] { assert SameRow(a, b, k); }
  }

  lemma EndRows(x: Execution, db: Db)
    requires Orderly(x) && Mirrors(x, db, Slot(|x.events|, 0))
    ensures db.rows == End(x).rows
  {
    hide Orderly, SlotOf, BlocksOf, WritesKey, StateAt, Commits;
    forall k ensures SameRow(db, End(x), k) {
      forall i: nat | Writes(x, i, k) ensures i < |x.events| <==> Precedes(SlotOf(x, i), Slot(|x.events|, 0)) {
        WritesCommit(x, i, k);
        AllBeforeEnd(x, i);
      }
      assert Cut(x, k, Slot(|x.events|, 0), |x.events|);
    }
    SameRowsEverywhere(db, End(x));
  }

  /** `order` is an order of all commits of the run in which the same requests, served by
      one-step handlers one after the other, all succeed and leave the same rows. */
  ghost predicate SerialOrder(x: Execution, order: seq<nat>, last: Db) {
    && (forall i: nat :: i in order <==> Commits(x, i))
    && (forall a, b :: 0 <= a < b < |order| ==> order[a] != order[b])
    && Series(x.start, CallsOf(x, order)) == Ok(last)
    && last.rows == End(x).rows
  }

  /** Serialisability of a whole run. */
  lemma RunIsSerial(x: Execution) returns (order: seq<nat>, last: Db)
    requires Orderly(x)
    ensures SerialOrder(x, order, last) && Valid(last)
  {
    hide Orderly, SlotOf, Commits, Valid, Mirrors;
    order, last := SerialPrefix(x, |x.events|, 0);
    forall i: nat | Commits(x, i) ensures Precedes(SlotOf(x, i), Slot(|x.events|, 0)) { AllBeforeEnd(x, i); }
    EndRows(x, last);
  }
}
