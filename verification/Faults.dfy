/** Transactions whose single writes may fail. A handler attempts its writes one at
    a time; an oracle says which attempts fail, the commit being the last. */
module Faults {
  import opened Outcomes
  import opened Records
  import opened Transactions

  /** One statement sent to the database. */
  datatype Write =
    | OfRow(key: Key, write: RowWrite)
    | OfApproval(approval: Approval)
    | OfAudit(audit: Audit)

  /** Whether the n-th attempt since start-up fails. */
  type Oracle = nat -> bool

  function Attempt(db: Db, w: Write): Result<Db> {
    match w
    case OfRow(key, write) =>
      (match WriteRow(db.rows, key, write)
       case Err(e) => Err(e)
       case Ok(rows) => Ok(db.(rows := rows)))
    case OfApproval(a) =>
      (match AddApproval(db.approvals, a)
       case Err(e) => Err(e)
       case Ok(approvals) => Ok(db.(approvals := approvals)))
    case OfAudit(a) => Ok(db.(audits := db.audits + [a]))
  }

  /** Attempting writes in order, the first of them as attempt `n`, up to the first
      that fails or is refused. */
  function Perform(db: Db, writes: seq<Write>, faults: Oracle, n: nat): Result<Db>
    decreases |writes|
  {
    if writes == [] then Ok(db)
    else
      match Perform(db, writes[..|writes| - 1], faults, n)
      case Err(e) => Err(e)
      case Ok(mid) => if faults(n + |writes| - 1) then Err(WriteFailed) else Attempt(mid, writes[|writes| - 1])
  }

  /** The same inside a transaction, whose commit may fail too. */
  function Transact(db: Db, writes: seq<Write>, faults: Oracle, n: nat): Result<Db> {
    match Perform(db, writes, faults, n)
    case Err(e) => Err(e)
    case Ok(next) => if faults(n + |writes|) then Err(WriteFailed) else Ok(next)
  }

  function StepsOf(b: Block): seq<Write> {
    [OfRow(b.key, b.write)] + (if b.approval.Some? then [OfApproval(b.approval.value)] else []) + [OfAudit(b.audit)]
  }

  /** The statements of a plan, in order. */
  function Steps(blocks: seq<Block>): seq<Write>
    decreases |blocks|
  {
    if blocks == [] then [] else StepsOf(blocks[0]) + Steps(blocks[1..])
  }

  /** No attempt from `from` up to but not including `to` fails. */
  predicate Clear(faults: Oracle, from: nat, to: nat) {
    forall i :: from <= i < to ==> !faults(i)
  }

  lemma PerformPush(db: Db, writes: seq<Write>, w: Write, faults: Oracle, n: nat)
    ensures Perform(db, writes + [w], faults, n) ==
            match Perform(db, writes, faults, n)
            case Err(e) => Err(e)
            case Ok(mid) => if faults(n + |writes|) then Err(WriteFailed) else Attempt(mid, w)
  {
    assert (writes + [w])[..|writes + [w]| - 1] == writes;
  }

  lemma {:induction false} PerformAppend(db: Db, a: seq<Write>, b: seq<Write>, faults: Oracle, n: nat)
    ensures Perform(db, a + b, faults, n) ==
            match Perform(db, a, faults, n)
            case Err(e) => Err(e)
            case Ok(mid) => Perform(mid, b, faults, n + |a|)
    decreases |b|
  {
    hide Attempt;
    if b == [] {
      assert a + b == a;
    } else {
      var init, w := b[..|b| - 1], b[|b| - 1];
      assert b == init + [w];
      assert a + b == (a + init) + [w];
      PerformAppend(db, a, init, faults, n);
      PerformPush(db, a + init, w, faults, n);
      match Perform(db, a, faults, n)
      case Err(_) =>
      case Ok(mid) => PerformPush(mid, init, w, faults, n + |a|);
    }
  }

  /** Attempted without a fault, a list of writes does `whole`; with one, it fails. */
  predicate AllUnlessFaulty(attempted: Result<Db>, whole: Result<Db>, clear: bool) {
    if clear then attempted == whole else attempted.Err?
  }

  lemma BlockPerforms(db: Db, b: Block, faults: Oracle, n: nat)
    ensures AllUnlessFaulty(Perform(db, StepsOf(b), faults, n), ApplyBlock(db, b), Clear(faults, n, n + |StepsOf(b)|))
  {
    var row := OfRow(b.key, b.write);
    PerformPush(db, [], row, faults, n);
    assert [] + [row] == [row];
    if b.approval.Some? {
      var entry := OfApproval(b.approval.value);
      PerformPush(db, [row], entry, faults, n);
      PerformPush(db, [row] + [entry], OfAudit(b.audit), faults, n);
    } else {
      assert [row] + [] == [row];
      PerformPush(db, [row], OfAudit(b.audit), faults, n);
    }
  }

  lemma ClearSplit(faults: Oracle, from: nat, mid: nat, to: nat)
    requires from <= mid <= to
    ensures Clear(faults, from, to) <==> Clear(faults, from, mid) && Clear(faults, mid, to)
  {
  }

  /** What attempting some statements does to a state, compared with what their blocks do. */
  ghost predicate Performs(db: Db, blocks: seq<Block>, faults: Oracle, n: nat) {
    AllUnlessFaulty(Perform(db, Steps(blocks), faults, n), ApplyAll(db, blocks), Clear(faults, n, n + |Steps(blocks)|))
  }

  lemma HeadThenRest(db: Db, blocks: seq<Block>, faults: Oracle, n: nat, next: Db)
    requires blocks != [] && ApplyBlock(db, blocks[0]) == Ok(next)
    requires Performs(next, blocks[1..], faults, n + |StepsOf(blocks[0])|)
    ensures Performs(db, blocks, faults, n)
  {
    hide Perform, Clear, AllUnlessFaulty, StepsOf, ApplyBlock;
    var head, rest, m := StepsOf(blocks[0]), Steps(blocks[1..]), n + |StepsOf(blocks[0])|;
    BlockPerforms(db, blocks[0], faults, n);
    PerformAppend(db, head, rest, faults, n);
    ClearSplit(faults, n, m, m + |rest|);
    Combine(Perform(db, head, faults, n), next, Perform(next, rest, faults, m), Perform(db, head + rest, faults, n),
            ApplyAll(next, blocks[1..]), Clear(faults, n, m), Clear(faults, m, m + |rest|));
  }

  lemma HeadFails(db: Db, blocks: seq<Block>, faults: Oracle, n: nat)
    requires blocks != [] && ApplyBlock(db, blocks[0]).Err?
    ensures Performs(db, blocks, faults, n)
  {
    hide Perform, Clear, StepsOf, ApplyBlock;
    var head, rest, m := StepsOf(blocks[0]), Steps(blocks[1..]), n + |StepsOf(blocks[0])|;
    BlockPerforms(db, blocks[0], faults, n);
    PerformAppend(db, head, rest, faults, n);
    ClearSplit(faults, n, m, m + |rest|);
  }

  lemma {:induction false} BlocksPerform(db: Db, blocks: seq<Block>, faults: Oracle, n: nat)
    ensures Performs(db, blocks, faults, n)
    decreases |blocks|
  {
    if blocks == [] {
    } else {
      hide Performs, ApplyBlock, StepsOf;
      if ApplyBlock(db, blocks[0]).Ok? {
        var next := ApplyBlock(db, blocks[0]).value;
        BlocksPerform(next, blocks[1..], faults, n + |StepsOf(blocks[0])|);
        HeadThenRest(db, blocks, faults, n, next);
      } else {
        HeadFails(db, blocks, faults, n);
      }
    }
  }

  lemma Combine(first: Result<Db>, next: Db, second: Result<Db>, both: Result<Db>, whole: Result<Db>, clear1: bool,
      clear2: bool)
    requires AllUnlessFaulty(first, Ok(next), clear1) && AllUnlessFaulty(second, whole, clear2)
    requires first.Err? ==> both.Err?
    requires first == Ok(next) ==> both == second
    ensures AllUnlessFaulty(both, whole, clear1 && clear2)
  {
  }

  /** All or nothing: if no write of the plan and not its commit fails, the
      transaction does exactly what the plan says, refusals included; if any of them
      fails, wherever it is, the transaction fails. */
  lemma AllOrNothing(db: Db, blocks: seq<Block>, faults: Oracle, n: nat)
    ensures AllUnlessFaulty(Transact(db, Steps(blocks), faults, n), ApplyAll(db, blocks),
                            Clear(faults, n, n + |Steps(blocks)| + 1))
  {
    BlocksPerform(db, blocks, faults, n);
    var m := n + |Steps(blocks)|;
    assert Clear(faults, n, m + 1) <==> Clear(faults, n, m) && !faults(m);
  }
}
