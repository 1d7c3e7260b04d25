/** Many handlers in flight at once. A handler reads its rows one by one outside
    any transaction and commits later, all or nothing; other handlers may commit
    in between. A commit is one step because every conditional update holds its
    row until the transaction ends. */
module Interleaving {
  import opened Outcomes
  import opened Records
  import opened Transactions
  import opened Handlers

  /** A handler in flight: the request, and what it has read so far. */
  datatype Op = Op(req: Request, caller: Caller, read: Reads, stage: nat)

  datatype World = World(db: Db, ops: map<nat, Op>)

  datatype Event =
    | Begin(op: nat, req: Request, caller: Caller)
    | Read(op: nat)
    | Commit(op: nat, id: nat)

  /** What committing handler `o` now would store. */
  ghost function Effect(db: Db, o: Op, id: nat): Result<Db> {
    match Plan(o.req, o.caller, id, o.read)
    case Err(e) => Err(e)
    case Ok(blocks) => ApplyAll(db, blocks)
  }

  /** A plan of one block. */
  lemma OneBlockEffect(db: Db, o: Op, id: nat, b: Block)
    requires Plan(o.req, o.caller, id, o.read) == Ok([b])
    ensures Effect(db, o, id) == ApplyBlock(db, b)
  {
    assert [b][1..] == [];
    assert ApplyAll(db, [b]) == ApplyBlock(db, b);
  }

  predicate Ready(w: World, op: nat) {
    op in w.ops && w.ops[op].stage == STAGES
  }

  /** The commit event `e` succeeds in `w`. */
  ghost predicate Succeeds(w: World, e: Event) {
    e.Commit? && Ready(w, e.op) && Effect(w.db, w.ops[e.op], e.id).Ok?
  }

  ghost function Next(w: World, e: Event): World {
    match e
    case Begin(op, req, caller) =>
      if op in w.ops then w
      else w.(ops := w.ops[op := Op(req, caller, NOTHING_READ, 0)])
    case Read(op) =>
      if op !in w.ops || w.ops[op].stage >= STAGES then w
      else
        var o := w.ops[op];
        w.(ops := w.ops[op := o.(read := ReadNext(w.db, o.req, o.read, o.stage), stage := o.stage + 1)])
    case Commit(op, id) =>
      if !Ready(w, op) then w
      else
        match Effect(w.db, w.ops[op], id)
        case Err(_) => World(w.db, w.ops - {op})
        case Ok(db) => World(db, w.ops - {op})
  }

  /** Only a successful commit changes the stored state. */
  lemma DbAfter(w: World, e: Event)
    ensures Next(w, e).db == if Succeeds(w, e) then Effect(w.db, w.ops[e.op], e.id).value else w.db
  {
  }

  ghost function Run(w: World, events: seq<Event>): World
    decreases |events|
  {
    if events == [] then w else Next(Run(w, events[..|events| - 1]), events[|events| - 1])
  }

  lemma RunPrefix(w: World, events: seq<Event>, i: nat)
    requires i < |events|
    ensures Run(w, events[..i + 1]) == Next(Run(w, events[..i]), events[i])
  {
    assert events[..i + 1][..i] == events[..i];
  }

  lemma {:induction false} RunAppend(w: World, a: seq<Event>, b: seq<Event>)
    ensures Run(w, a + b) == Run(Run(w, a), b)
    decreases |b|
  {
    if b == [] {
      assert a + b == a;
    } else {
      var init := b[..|b| - 1];
      assert (a + b)[..|a + b| - 1] == a + init;
      RunAppend(w, a, init);
    }
  }
}
