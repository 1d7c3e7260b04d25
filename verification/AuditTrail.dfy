/** The audit log can be replayed: for every row, the entries of any honest run form
    a chain whose end is the stored status, with a deletion only at the end. */
module AuditTrail {
  import opened Outcomes
  import opened Records
  import opened Transactions
  import opened Handlers
  import opened Interleaving
  import opened Versions
  import opened Validity
  import opened Reachability
  import opened Refinement
  import opened Workflow

  /** What the log knows of a row. */
  datatype Phase = Phase(mark: Mark, deleted: bool)

  function PhaseOf(db: Db, k: Key): Phase {
    if k in db.rows then Phase(At(db.rows[k].status), db.rows[k].deleted) else Phase(Absent, false)
  }

  /** The next phase after entry `a`, unless the entry does not continue the chain. Only
      a strict reader minds which status a deletion says it found. */
  function Accept(strict: bool, p: Phase, a: Audit): Option<Phase> {
    if p.deleted then None
    else if a.after == Gone then
      if p.mark == Absent || (strict && a.before != p.mark) then None else Some(Phase(p.mark, true))
    else if a.before == p.mark then Some(Phase(a.after, false))
    else None
  }

  /** Replaying the entries for `k`, starting from phase `p`. */
  function Replay(strict: bool, p: Phase, audits: seq<Audit>, k: Key): Option<Phase> {
    if audits == [] then Some(p)
    else
      var last := audits[|audits| - 1];
      match Replay(strict, p, audits[..|audits| - 1], k)
      case None => None
      case Some(q) => if last.key == k then Accept(strict, q, last) else Some(q)
  }

  lemma {:induction false} ReplayAppend(strict: bool, p: Phase, a: seq<Audit>, b: seq<Audit>, k: Key)
    ensures Replay(strict, p, a + b, k) ==
            match Replay(strict, p, a, k) case None => None case Some(q) => Replay(strict, q, b, k)
    decreases |b|
  {
    if b == [] {
      assert a + b == a;
    } else {
      var init := b[..|b| - 1];
      assert (a + b)[..|a + b| - 1] == a + init;
      ReplayAppend(strict, p, a, init, k);
    }
  }

  lemma {:induction false} StrictIsLenient(p: Phase, audits: seq<Audit>, k: Key)
    requires Replay(true, p, audits, k).Some?
    ensures Replay(false, p, audits, k) == Replay(true, p, audits, k)
    decreases |audits|
  {
    if audits == [] {
    } else {
      StrictIsLenient(p, audits[..|audits| - 1], k);
    }
  }

  /** The entries written between two states replay the change of row `k`. */
  predicate Replays(strict: bool, a: Db, b: Db, k: Key) {
    && |a.audits| <= |b.audits|
    && Replay(strict, PhaseOf(a, k), b.audits[|a.audits|..], k) == Some(PhaseOf(b, k))
  }

  /** Replays add up, and a strict replay over a state in between is strict on both
      sides of it. */
  lemma ReplaysTransitive(strict: bool, a: Db, b: Db, c: Db, k: Key)
    requires a.audits <= b.audits <= c.audits && Replays(false, a, b, k)
    ensures Replays(strict, a, b, k) && Replays(strict, b, c, k) ==> Replays(strict, a, c, k)
    ensures Replays(true, a, c, k) ==> Replays(true, a, b, k) && Replays(true, b, c, k)
  {
    var x, y := b.audits[|a.audits|..], c.audits[|b.audits|..];
    assert c.audits[|a.audits|..] == x + y;
    ReplayAppend(strict, PhaseOf(a, k), x, y, k);
    ReplayAppend(true, PhaseOf(a, k), x, y, k);
    if Replays(true, a, c, k) { StrictIsLenient(PhaseOf(a, k), x, k); }
  }

  lemma NothingReplays(strict: bool, db: Db, k: Key)
    ensures Replays(strict, db, db, k)
  {
    assert db.audits[|db.audits|..] == [];
  }

  lemma BlockReplays(strict: bool, db: Db, b: Block, k: Key)
    requires Fits(db, b) && ApplyBlock(db, b).Ok?
    requires strict && b.write.Remove? ==> b.key in db.rows && b.audit.before == At(db.rows[b.key].status)
    ensures Replays(strict, db, ApplyBlock(db, b).value, k)
  {
    var next := ApplyBlock(db, b).value;
    BlockFrame(db, b);
    assert next.audits[|db.audits|..] == [b.audit];
    assert [b.audit][..0] == [];
    assert Replay(strict, PhaseOf(db, k), [], k) == Some(PhaseOf(db, k));
  }

  lemma {:induction false} TransactionReplays(strict: bool, db: Db, blocks: seq<Block>, k: Key)
    requires DistinctKeys(blocks) && AllFit(db, blocks) && ApplyAll(db, blocks).Ok?
    requires strict ==> forall i :: 0 <= i < |blocks| ==> !blocks[i].write.Remove?
    ensures db.audits <= ApplyAll(db, blocks).value.audits
    ensures Replays(strict, db, ApplyAll(db, blocks).value, k)
    decreases |blocks|
  {
    if blocks == [] {
      NothingReplays(strict, db, k);
    } else {
      hide Replays;
      var mid := ApplyBlock(db, blocks[0]).value;
      assert Fits(db, blocks[0]);
      BlockReplays(strict, db, blocks[0], k);
      BlockReplays(false, db, blocks[0], k);
      RestStillFits(db, blocks);
      TransactionReplays(strict, mid, blocks[1..], k);
      ReplaysTransitive(strict, db, mid, ApplyAll(mid, blocks[1..]).value, k);
    }
  }

  lemma CommitReplays(strict: bool, db: Db, o: Op, id: nat, k: Key)
    requires OpOk(db, o) && Effect(db, o, id).Ok? && (strict ==> !o.req.Delete?)
    ensures db.audits <= Effect(db, o, id).value.audits && Replays(strict, db, Effect(db, o, id).value, k)
  {
    hide Replays;
    var blocks := Plan(o.req, o.caller, id, o.read).value;
    PlanDocumented(o.req, o.caller, id, o.read);
    forall i | 0 <= i < |blocks| ensures Fits(db, blocks[i]) { CommitFits(db, o, id, i); }
    if strict {
      forall i | 0 <= i < |blocks| ensures !blocks[i].write.Remove? {
        RemoveMeansDelete(o.req, o.caller, id, o.read, i);
      }
    }
    TransactionReplays(strict, db, blocks, k);
  }

  /** A deletion continues the strict chain of its row exactly if it has found the status
      it had read. */
  lemma DeletionReplaysStrictlyIff(db: Db, o: Op, id: nat)
    requires OpOk(db, o) && Effect(db, o, id).Ok? && o.req.Delete?
    ensures (forall k :: Replays(true, db, Effect(db, o, id).value, k)) <==> DeletesWhatItRead(db, o)
  {
    DeleteCommitsIffLive(db, o, id);
    var b := DeleteBlock(o.req.key, o.read.primary.value, o.caller);
    OneBlockEffect(db, o, id, b);
    if DeletesWhatItRead(db, o) {
      forall k ensures Replays(true, db, ApplyBlock(db, b).value, k) { BlockReplays(true, db, b, k); }
    } else {
      var k, next := o.req.key, ApplyBlock(db, b).value;
      assert next.audits[|db.audits|..] == [b.audit] && [b.audit][..0] == [];
      assert Replay(true, PhaseOf(db, k), [], k) == Some(PhaseOf(db, k));
      assert !Replays(true, db, next, k);
    }
  }

  lemma StepReplays(w: World, e: Event, k: Key)
    requires Sound(w) && HonestEvent(w, e)
    ensures w.db.audits <= Next(w, e).db.audits && Replays(false, w.db, Next(w, e).db, k)
  {
    if Succeeds(w, e) { CommitReplays(false, w.db, w.ops[e.op], e.id, k); } else { NothingReplays(false, w.db, k); }
  }

  /** Replaying the entries of an honest run from the phase a row had at its start
      (absent, for a row created later) ends in the stored status and the stored
      soft-delete mark. */
  lemma {:induction false} RunReplays(w: World, events: seq<Event>, k: Key)
    requires Sound(w) && HonestRun(w, events)
    ensures w.db.audits <= Run(w, events).db.audits && Replays(false, w.db, Run(w, events).db, k)
    decreases |events|
  {
    if events == [] {
      NothingReplays(false, w.db, k);
    } else {
      var n := |events| - 1;
      HonestPrefix(w, events, n);
      RunSound(w, events[..n]);
      RunReplays(w, events[..n], k);
      assert HonestEvent(Run(w, events[..n]), events[n]);
      StepReplays(Run(w, events[..n]), events[n], k);
      ReplaysTransitive(false, w.db, Run(w, events[..n]).db, Run(w, events).db, k);
    }
  }

  /** Event `e` commits no deletion of a row that has moved on since it was read. */
  ghost predicate DeletesInTime(w: World, e: Event) {
    Succeeds(w, e) ==> DeletesWhatItRead(w.db, w.ops[e.op])
  }

  lemma StepReplaysStrictlyIff(w: World, e: Event)
    requires Sound(w) && HonestEvent(w, e)
    ensures (forall k :: Replays(true, w.db, Next(w, e).db, k)) <==> DeletesInTime(w, e)
  {
    hide Replays, Effect, OpOk, Valid;
    DbAfter(w, e);
    if Succeeds(w, e) {
      var o := w.ops[e.op];
      if o.req.Delete? {
        DeletionReplaysStrictlyIff(w.db, o, e.id);
      } else {
        forall k ensures Replays(true, w.db, Next(w, e).db, k) { CommitReplays(true, w.db, o, e.id, k); }
      }
    } else {
      forall k ensures Replays(true, w.db, Next(w, e).db, k) { NothingReplays(true, w.db, k); }
    }
  }

  /** The strict chain, deletions included, holds for every row over an honest run if and
      only if every deletion of the run found the status it had read. */
  lemma {:induction false} RunReplaysStrictlyIff(w: World, events: seq<Event>)
    requires Sound(w) && HonestRun(w, events)
    ensures (forall k :: Replays(true, w.db, Run(w, events).db, k)) <==>
            (forall i :: 0 <= i < |events| ==> DeletesInTime(Run(w, events[..i]), events[i]))
    decreases |events|
  {
    hide Replays, DeletesInTime, Sound, Run, HonestEvent;
    if events == [] {
      assert Run(w, events) == w by { RunNothing(w); }
      forall k ensures Replays(true, w.db, w.db, k) { NothingReplays(true, w.db, k); }
    } else {
      var n := |events| - 1;
      var init := events[..n];
      HonestPrefix(w, events, n);
      RunSound(w, init);
      RunReplaysStrictlyIff(w, init);
      assert forall i :: 0 <= i < n ==> init[..i] == events[..i] && init[i] == events[i];
      assert events[..n + 1] == events;
      RunPrefix(w, events, n);
      assert HonestEvent(Run(w, events[..n]), events[n]);
      StepReplaysStrictlyIff(Run(w, init), events[n]);
      forall k
        ensures Replays(true, w.db, Run(w, events).db, k) <==>
                Replays(true, w.db, Run(w, init).db, k) && Replays(true, Run(w, init).db, Run(w, events).db, k)
      {
        RunReplays(w, init, k);
        StepReplays(Run(w, init), events[n], k);
        ReplaysTransitive(true, w.db, Run(w, init).db, Run(w, events).db, k);
      }
      assert (forall i :: 0 <= i < |events| ==> DeletesInTime(Run(w, events[..i]), events[i])) <==>
             (forall i :: 0 <= i < n ==> DeletesInTime(Run(w, init[..i]), init[i]))
                 && DeletesInTime(Run(w, init), events[n]);
    }
  }

  lemma RunNothing(w: World)
    ensures Run(w, []) == w
  {
  }

  /** A handler running alone always continues the strict chain. */
  lemma AtomicReplaysStrictly(db: Db, req: Request, caller: Caller, id: nat, k: Key)
    requires Valid(db) && Honest(db, req) && Atomic(db, req, caller, id).Ok?
    ensures Replays(true, db, Atomic(db, req, caller, id).value, k)
  {
    hide Replays;
    var o := Op(req, caller, ReadAll(db, req), STAGES);
    ReadAllOk(db, req, caller);
    assert Effect(db, o, id) == Atomic(db, req, caller, id);
    if req.Delete? { DeletionReplaysStrictlyIff(db, o, id); } else { CommitReplays(true, db, o, id, k); }
  }

  /** What acceptance means, entry by entry: in an accepted log every entry for `k`
      starts where the previous one ended (a deletion only for a strict reader), and
      nothing follows a deletion. */
  lemma {:induction false} AcceptedLogIsAChain(strict: bool, p: Phase, audits: seq<Audit>, k: Key, i: nat, j: nat)
    requires Replay(strict, p, audits, k).Some? && i < j < |audits|
    requires audits[i].key == k && audits[j].key == k
    requires forall m :: i < m < j ==> audits[m].key != k
    ensures audits[i].after != Gone
    ensures strict || audits[j].after != Gone ==> audits[j].before == audits[i].after
    decreases |audits|
  {
    var init := audits[..|audits| - 1];
    if j < |audits| - 1 {
      AcceptedLogIsAChain(strict, p, init, k, i, j);
    } else {
      PhaseAfterEntry(strict, p, init, k, i);
    }
  }

  /** After its last entry for `k` the replay stands where that entry left it. */
  lemma {:induction false} PhaseAfterEntry(strict: bool, p: Phase, audits: seq<Audit>, k: Key, i: nat)
    requires Replay(strict, p, audits, k).Some? && i < |audits| && audits[i].key == k
    requires forall m :: i < m < |audits| ==> audits[m].key != k
    ensures var q := Replay(strict, p, audits, k).value;
            if audits[i].after == Gone then q.deleted else q == Phase(audits[i].after, false)
    decreases |audits|
  {
    if i == |audits| - 1 {
    } else {
      PhaseAfterEntry(strict, p, audits[..|audits| - 1], k, i);
    }
  }
}
