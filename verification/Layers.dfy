/** The two layers agree: a service method that runs by itself is the one-step handler,
    and the one-step handler is a run in which nothing comes in between. */
module Layers {
  import opened Outcomes
  import opened Records
  import opened Handlers
  import opened Interleaving
  import opened Validity
  import opened Reachability
  import opened Workflow
  import opened Faults
  import opened Security

  /** All events of one handler, in order. */
  function Alone(op: nat, req: Request, caller: Caller, id: nat): seq<Event> {
    [Begin(op, req, caller), Read(op), Read(op), Read(op), Commit(op, id)]
  }

  lemma RunFour(w: World, a: Event, b: Event, c: Event, d: Event)
    ensures Run(w, [a, b, c, d]) == Next(Next(Next(Next(w, a), b), c), d)
  {
    hide Next;
    assert [a, b, c, d][..3] == [a, b, c] && [a, b, c][..2] == [a, b] && [a, b][..1] == [a] && [a][..0] == [];
    assert Run(w, [a]) == Next(w, a);
    assert Run(w, [a, b]) == Next(Run(w, [a]), b);
    assert Run(w, [a, b, c]) == Next(Run(w, [a, b]), c);
  }

  lemma ReadsAlone(w: World, op: nat, req: Request, caller: Caller)
    requires op !in w.ops
    ensures Run(w, [Begin(op, req, caller), Read(op), Read(op), Read(op)]) ==
            World(w.db, w.ops[op := Op(req, caller, ReadAll(w.db, req), STAGES)])
  {
    RunFour(w, Begin(op, req, caller), Read(op), Read(op), Read(op));
    hide ReadNext;
    var read1 := ReadNext(w.db, req, NOTHING_READ, 0);
    var read2 := ReadNext(w.db, req, read1, 1);
    var w0 := World(w.db, w.ops[op := Op(req, caller, NOTHING_READ, 0)]);
    var w1 := World(w.db, w.ops[op := Op(req, caller, read1, 1)]);
    var w2 := World(w.db, w.ops[op := Op(req, caller, read2, 2)]);
    assert Next(w, Begin(op, req, caller)) == w0;
    assert Next(w0, Read(op)) == w1;
    assert Next(w1, Read(op)) == w2;
  }

  /** A handler whose events nothing interrupts is the one-step handler, and leaves
      nothing in flight. */
  lemma AloneIsAtomic(w: World, op: nat, req: Request, caller: Caller, id: nat)
    requires op !in w.ops
    ensures Run(w, Alone(op, req, caller, id)) ==
            World(match Atomic(w.db, req, caller, id) case Ok(db) => db case Err(_) => w.db, w.ops)
  {
    var reading := [Begin(op, req, caller), Read(op), Read(op), Read(op)];
    ReadsAlone(w, op, req, caller);
    hide ReadAll, Plan;
    assert Alone(op, req, caller, id)[..4] == reading;
    var ready := Run(w, reading);
    assert Run(w, Alone(op, req, caller, id)) == Next(ready, Commit(op, id));
    assert Effect(ready.db, ready.ops[op], id) == Atomic(w.db, req, caller, id);
    assert w.ops[op := Op(req, caller, ReadAll(w.db, req), STAGES)] - {op} == w.ops;
  }

  /** A service method that succeeds has done what its uninterrupted run does. */
  lemma ServiceIsARun(before: Db, after: Db, op: nat, req: Request, caller: Caller, id: nat, faults: Oracle, n: nat)
    requires Handled(before, after, req, caller, id, faults, n, None)
    ensures Run(World(before, map[]), Alone(op, req, caller, id)) == World(after, map[])
  {
    HandlerIsAllOrNothing(before, after, req, caller, id, faults, n, None);
    AloneIsAtomic(World(before, map[]), op, req, caller, id);
  }

  /** A service method called with a version that was already stored keeps every
      invariant, whether or not a write fails on the way. */
  lemma ServiceKeepsInvariants(before: Db, after: Db, req: Request, caller: Caller, id: nat, faults: Oracle, n: nat,
                               e: Option<Error>)
    requires Handled(before, after, req, caller, id, faults, n, e)
    requires Valid(before) && Honest(before, req)
    ensures Valid(after) && Evolves(before, after)
  {
    HandlerIsAllOrNothing(before, after, req, caller, id, faults, n, e);
    if e.None? { AtomicKeeps(before, req, caller, id); } else { EvolvesReflexive(before); }
  }
}
