/** Whole runs from a state in which nothing is in flight: their commits, and when each
    of them has read what it has read. */
module Executions {
  import opened Outcomes
  import opened Records
  import opened Transactions
  import opened Handlers
  import opened Interleaving
  import opened Versions
  import opened Validity
  import opened Reachability
  import opened Refinement
  import opened Guarantees
  import opened DecisionPoints

  // ------------------------------------------------------------------------ executions

  /** A run from a state in which nothing is in flight. */
  datatype Execution = Execution(start: Db, events: seq<Event>)

  /** The world before event `t`, and after the last event from then on. */
  ghost function Before(x: Execution, t: nat): World {
    Run(World(x.start, map[]), if t <= |x.events| then x.events[..t] else x.events)
  }

  ghost function StateAt(x: Execution, t: nat): Db {
    Before(x, t).db
  }

  ghost predicate Commits(x: Execution, i: nat) {
    i < |x.events| && Succeeds(Before(x, i), x.events[i])
  }

  const IDLE := Op(Delete(Key(GateUnit, 0)), Caller("", Viewer, ""), NOTHING_READ, 0)

  /** The handler that commits at event `i`. */
  ghost function Handler(x: Execution, i: nat): Op {
    if Commits(x, i) then Before(x, i).ops[x.events[i].op] else IDLE
  }

  /** The key that commit `i` gives to a new row. */
  ghost function NewId(x: Execution, i: nat): nat {
    if Commits(x, i) then x.events[i].id else 0
  }

  ghost function BlocksOf(x: Execution, i: nat): seq<Block> {
    if Commits(x, i) then Plan(Handler(x, i).req, Handler(x, i).caller, NewId(x, i), Handler(x, i).read).value else []
  }

  /** Commit `i` writes row `k`. */
  ghost predicate Writes(x: Execution, i: nat, k: Key) {
    Commits(x, i) && WritesKey(BlocksOf(x, i), k)
  }

  /** An honest run from a valid state. */
  ghost predicate HonestExecution(x: Execution) {
    Valid(x.start) && HonestRun(World(x.start, map[]), x.events)
  }

  /** No deletion of a directive or a confirmation finds another status than it has read.
      (For a gate the status is of no account: it can be deleted in any.) */
  ghost predicate DeletesInTime(x: Execution) {
    forall i: nat :: Commits(x, i) && DeletesNonGate(Handler(x, i).req) ==>
        DeletesWhatItRead(StateAt(x, i), Handler(x, i))
  }

  ghost predicate Orderly(x: Execution) {
    HonestExecution(x) && DeletesInTime(x)
  }

  predicate DeletesNonGate(req: Request) {
    req.Delete? && req.key.kind != GateUnit
  }

  lemma HonestSegment(x: Execution, a: nat, b: nat)
    requires HonestExecution(x) && a <= b <= |x.events|
    ensures Valid(StateAt(x, a)) && Valid(StateAt(x, b)) && Evolves(StateAt(x, a), StateAt(x, b))
  {
    RunSegment(World(x.start, map[]), x.events, a, b);
  }

  lemma Segment(x: Execution, a: nat, b: nat)
    requires Orderly(x) && a <= b <= |x.events|
    ensures Valid(StateAt(x, a)) && Valid(StateAt(x, b)) && Evolves(StateAt(x, a), StateAt(x, b))
  {
    hide HonestExecution, StateAt, DeletesInTime;
    HonestSegment(x, a, b);
  }

  /** Only commits change the stored state. */
  lemma Quiet(x: Execution, t: nat)
    requires t < |x.events| && !Commits(x, t)
    ensures StateAt(x, t + 1) == StateAt(x, t)
  {
    RunPrefix(World(x.start, map[]), x.events, t);
    DbAfter(Before(x, t), x.events[t]);
  }

  /** What is known of a commit. */
  ghost predicate CommitKnown(x: Execution, i: nat) {
    && Valid(StateAt(x, i)) && Evolves(StateAt(x, i), StateAt(x, i + 1))
    && OpOk(StateAt(x, i), Handler(x, i)) && Addressed(Handler(x, i)) && Handler(x, i).stage == STAGES
    && Effect(StateAt(x, i), Handler(x, i), NewId(x, i)) == Ok(StateAt(x, i + 1))
    && WellPlanned(BlocksOf(x, i)) && ApplyAll(StateAt(x, i), BlocksOf(x, i)) == Ok(StateAt(x, i + 1))
  }

  lemma HonestCommit(x: Execution, i: nat)
    requires HonestExecution(x) && Commits(x, i)
    ensures CommitKnown(x, i)
  {
    var w := World(x.start, map[]);
    RunSegment(w, x.events, i, i + 1);
    RunAddressed(w, x.events[..i]);
    RunPrefix(w, x.events, i);
    DbAfter(Before(x, i), x.events[i]);
    SoundOp(Before(x, i), x.events[i]);
    PlanDocumented(Handler(x, i).req, Handler(x, i).caller, NewId(x, i), Handler(x, i).read);
  }

  lemma CommitFacts(x: Execution, i: nat)
    requires Orderly(x) && Commits(x, i)
    ensures CommitKnown(x, i)
  {
    hide HonestExecution, Commits, CommitKnown, DeletesInTime;
    HonestCommit(x, i);
  }

  /** Two states with the same row `k`, or both without it. */
  predicate SameRow(a: Db, b: Db, k: Key) {
    (k in a.rows <==> k in b.rows) && (k in a.rows ==> a.rows[k] == b.rows[k])
  }

  lemma UnwrittenStep(x: Execution, t: nat, k: Key)
    requires Orderly(x) && t < |x.events| && !Writes(x, t, k)
    ensures SameRow(StateAt(x, t), StateAt(x, t + 1), k)
  {
    hide Orderly, Plan, ApplyAll, Valid, OpOk;
    if Commits(x, t) {
      CommitFacts(x, t);
      RowUntouched(StateAt(x, t), BlocksOf(x, t), k);
    } else {
      Quiet(x, t);
    }
  }

  lemma {:induction false} Unwritten(x: Execution, a: nat, b: nat, k: Key)
    requires Orderly(x) && a <= b <= |x.events|
    requires forall i :: a <= i < b ==> !Writes(x, i, k)
    ensures SameRow(StateAt(x, a), StateAt(x, b), k)
    decreases b - a
  {
    if a == b {
    } else {
      hide Orderly, Writes, StateAt;
      Unwritten(x, a, b - 1, k);
      UnwrittenStep(x, b - 1, k);
    }
  }

  /** A commit that writes a row creates it or changes it. */
  lemma WritesChange(x: Execution, i: nat, k: Key)
    requires Orderly(x) && Writes(x, i, k)
    ensures k in StateAt(x, i + 1).rows && (k in StateAt(x, i).rows ==>
        StateAt(x, i + 1).rows[k] != StateAt(x, i).rows[k])
  {
    hide Orderly, Plan, ApplyAll, Valid, OpOk;
    CommitFacts(x, i);
    TransactionConserves(StateAt(x, i), BlocksOf(x, i), k);
  }

  // ------------------------------------------------------------------------- reading

  datatype Times = Times(own: nat, linked: nat, gated: nat)

  ghost predicate ReadWhen(x: Execution, i: nat, ts: Times) {
    && Commits(x, i) && ts.own <= ts.linked <= ts.gated < i
    && InFlightSince(World(x.start, map[]), x.events[..i], x.events[i].op, ts.own)
    && ReadFrom(Handler(x, i), StateAt(x, ts.own), StateAt(x, ts.linked), StateAt(x, ts.gated))
    && x.events[ts.own] == x.events[ts.linked] == x.events[ts.gated] == Read(x.events[i].op)
  }

  lemma PrefixAt(x: Execution, i: nat, t: nat)
    requires t <= i <= |x.events|
    ensures DbAt(World(x.start, map[]), x.events[..i], t) == StateAt(x, t)
  {
    hide Run;
    assert x.events[..i][..t] == x.events[..t];
  }

  lemma ReadEventsAre(x: Execution, i: nat, t0: nat, t1: nat, t2: nat)
    requires i < |x.events| && ReadEvents(x.events[..i], x.events[i].op, STAGES, t0, t1, t2)
    ensures t0 < i && t1 < i && t2 < i
    ensures x.events[t0] == x.events[t1] == x.events[t2] == Read(x.events[i].op)
  {
  }

  lemma HonestlyRead(x: Execution, i: nat)
    requires HonestExecution(x) && Commits(x, i)
    ensures exists ts :: ReadWhen(x, i, ts)
  {
    hide HonestExecution, Plan, ApplyAll, Valid, OpOk, ReadFrom, InFlightSince;
    HonestCommit(x, i);
    var w := World(x.start, map[]);
    var t0, t1, t2 := ReadTimes(w, x.events[..i], x.events[i].op);
    hide ReadEvents, Run;
    ReadEventsAre(x, i, t0, t1, t2);
    PrefixAt(x, i, t0);
    PrefixAt(x, i, t1);
    PrefixAt(x, i, t2);
    assert ReadWhen(x, i, Times(t0, t1, t2));
  }

  lemma ReadSometime(x: Execution, i: nat)
    requires Orderly(x) && Commits(x, i)
    ensures exists ts :: ReadWhen(x, i, ts)
  {
    hide HonestExecution, DeletesInTime, Commits, ReadWhen;
    HonestlyRead(x, i);
  }

  ghost function TimesOf(x: Execution, i: nat): Times {
    if exists ts :: ReadWhen(x, i, ts) then
      var ts :| ReadWhen(x, i, ts);
      ts
    else Times(0, 0, 0)
  }

  lemma TimesAre(x: Execution, i: nat)
    requires Orderly(x) && Commits(x, i)
    ensures ReadWhen(x, i, TimesOf(x, i))
  {
    hide Orderly, Commits, ReadWhen;
    ReadSometime(x, i);
  }

  lemma TimesInOrder(x: Execution, i: nat)
    requires Orderly(x) && Commits(x, i)
    ensures var ts := TimesOf(x, i); ts.own <= ts.linked <= ts.gated < i < |x.events|
  {
    hide Orderly, TimesOf, Succeeds;
    TimesAre(x, i);
  }

  /** Only one commit comes of a read. */
  lemma OneCommitPerRead(x: Execution, i: nat, l: nat, t: nat)
    requires Orderly(x) && Commits(x, i) && Commits(x, l)
    requires TimesOf(x, i).own <= t < i && TimesOf(x, l).own <= t < l
    requires x.events[t] == Read(x.events[i].op) == Read(x.events[l].op)
    ensures i == l
  {
    if i < l { LaterIsGone(x, i, l, t); } else if l < i { LaterIsGone(x, l, i, t); }
  }

  lemma LaterIsGone(x: Execution, i: nat, l: nat, t: nat)
    requires Orderly(x) && Commits(x, i) && Commits(x, l) && i < l && TimesOf(x, l).own <= t < i
    ensures x.events[i].op != x.events[l].op
  {
    hide Orderly, ReadFrom, TimesOf, InFlightSince, Succeeds, Run;
    TimesAre(x, l);
    GoneAfterCommit(x, i);
    StillThere(World(x.start, map[]), x.events, l, x.events[l].op, TimesOf(x, l).own, i + 1);
  }

  lemma GoneAfterCommit(x: Execution, i: nat)
    requires Commits(x, i)
    ensures x.events[i].op !in Before(x, i + 1).ops
  {
    RunPrefix(World(x.start, map[]), x.events, i);
  }

  lemma StillThere(w: World, events: seq<Event>, l: nat, op: nat, since: nat, m: nat)
    requires l <= |events| && InFlightSince(w, events[..l], op, since) && since <= m <= l
    ensures op in Run(w, events[..m]).ops
  {
    hide Run;
    assert events[..l][..m] == events[..m];
  }

  // ----------------------------------------------------------------- rows that are saved

  /** Row `k` is live at `r` and still the same at `l`. */
  ghost predicate StillHeld(x: Execution, k: Key, r: nat, l: nat) {
    LiveAt(StateAt(x, r), k) && k in StateAt(x, l).rows && StateAt(x, l).rows[k] == StateAt(x, r).rows[k]
  }

  /** The content that commit `l` saves over was read when it read that row, and is
      still stored. */
  lemma SavedRowWasRead(x: Execution, l: nat, j: nat, b: Block) returns (r: nat)
    requires Orderly(x) && Commits(x, l) && j < |BlocksOf(x, l)| && BlocksOf(x, l)[j] == b && b.write.Save?
    ensures TimesOf(x, l).own <= r <= TimesOf(x, l).gated
    ensures !Handler(x, l).req.Create? && b.key == Handler(x, l).req.key ==> r == TimesOf(x, l).own
    ensures StillHeld(x, b.key, r, l)
  {
    hide Orderly, Plan, ApplyAll, Valid, OpOk, TimesOf, InFlightSince, Succeeds;
    CommitFacts(x, l);
    TimesAre(x, l);
    var o, ts := Handler(x, l), TimesOf(x, l);
    SaveOverwritesItsSource(StateAt(x, l), o, NewId(x, l), j);
    if !o.req.Create? && b.key == o.req.key {
      r := ts.own;
    } else if o.read.directive.Some? && b.key == o.read.directive.value.key {
      r := ts.linked;
    } else {
      r := ts.gated;
    }
  }

  /** From its reading to its saving a row is not written by anybody else. */
  lemma HeldSinceRead(x: Execution, l: nat, k: Key, r: nat, m: nat)
    requires Orderly(x) && r <= m < l <= |x.events|
    requires StillHeld(x, k, r, l)
    ensures !Writes(x, m, k)
  {
    hide Orderly, Writes, StateAt, Valid;
    Segment(x, r, m);
    Segment(x, m, m + 1);
    Segment(x, m + 1, l);
    HeldThrough(StateAt(x, r), StateAt(x, m), StateAt(x, m + 1), StateAt(x, l), k);
    if Writes(x, m, k) { WritesChange(x, m, k); }
  }

  lemma HeldThrough(a: Db, b: Db, c: Db, d: Db, k: Key)
    requires Evolves(a, b) && Evolves(b, c) && Evolves(c, d)
    requires LiveAt(a, k) && k in d.rows && d.rows[k] == a.rows[k]
    ensures k in b.rows && k in c.rows && b.rows[k] == a.rows[k] && c.rows[k] == a.rows[k]
  {
    EvolvesTransitive(a, b, c);
    EvolvesTransitive(b, c, d);
    HeldInBetween(a.rows[k], b.rows[k], d.rows[k]);
    HeldInBetween(a.rows[k], c.rows[k], d.rows[k]);
  }
}
