/** A confirmation and the directive it names always tell the same story. */
module Agreement {
  import opened Statuses
  import opened Records
  import opened Transactions
  import opened Versions
  import opened Lifecycle
  import opened Validity

  /** Confirmation `c` (live or tombstone) names directive `d` (live or tombstone). */
  predicate Names(db: Db, c: Key, d: Key) {
    && c in db.rows && d in db.rows
    && c.kind == ExecutionConfirmation && d.kind == OperationDirective
    && db.rows[c].business.relatedCode == db.rows[d].code
  }

  /** The directive statuses a confirmation status allows. */
  predicate Agree(confirmation: Status, directive: Status) {
    match confirmation
    case Pending => directive == Executing || directive == Aborted
    case Confirmed => directive == Completed
    case _ => directive == Aborted
  }

  ghost predicate Agreeing(db: Db) {
    && (forall c :: c in db.rows && c.kind == ExecutionConfirmation ==> exists d :: Names(db, c, d))
    && (forall c, d :: Names(db, c, d) ==> Agree(db.rows[c].status, db.rows[d].status))
    && (forall d :: d in db.rows && d.kind == OperationDirective && db.rows[d].status == Completed ==>
          exists c :: Names(db, c, d))
  }

  /** The promise in the terms of the tables: a directive is completed exactly when
      one confirmation of its code is confirmed, tombstones counted, and a failed or
      cancelled confirmation has an aborted directive. */
  lemma AgreeingMeans(db: Db, d: Key)
    requires Unique(db) && Agreeing(db) && d in db.rows && d.kind == OperationDirective
    ensures db.rows[d].status == Completed <==> exists c :: Names(db, c, d) && db.rows[c].status == Confirmed
    ensures forall b, c :: Names(db, b, d) && Names(db, c, d) ==> b == c
    ensures forall c :: Names(db, c, d) && db.rows[c].status in {Failed, Cancelled} ==> db.rows[d].status == Aborted
  {
    if db.rows[d].status == Completed {
      var c :| Names(db, c, d);
      assert Agree(db.rows[c].status, Completed);
    }
  }

  // ------------------------------------------------------------ names are never lost

  lemma NamesKept(db: Db, next: Db, c: Key, d: Key)
    requires Evolves(db, next) && Names(db, c, d)
    ensures Names(next, c, d)
  {
    assert Newer(db.rows[d], next.rows[d]);
    assert Follows(c.kind, db.rows[c], next.rows[c]);
  }

  lemma NamesWere(db: Db, next: Db, c: Key, d: Key)
    requires Evolves(db, next) && Names(next, c, d) && c in db.rows && d in db.rows
    ensures Names(db, c, d)
  {
    assert Newer(db.rows[d], next.rows[d]);
    assert Follows(c.kind, db.rows[c], next.rows[c]);
  }

  // ------------------------------------------------------------------ single blocks

  /** A block that may stand alone: it completes no directive, ends no pending
      confirmation, and adds a confirmation only to a directive that has been executing. */
  ghost predicate Solo(db: Db, b: Block) {
    && (b.write.Save? && b.key.kind == OperationDirective ==> b.write.row.status != Completed)
    && (b.write.Save? && b.key.kind == ExecutionConfirmation && b.key in db.rows && db.rows[b.key].status == Pending ==>
          b.write.row.status == Pending)
    && (b.write.Insert? && b.key.kind == ExecutionConfirmation ==>
          exists d :: d in db.rows && d.kind == OperationDirective
                      && db.rows[d].code == b.write.row.business.relatedCode
                      && Reaches(OperationDirective, Executing, db.rows[d].status))
  }

  lemma SoloKeepsPair(db: Db, b: Block, c: Key, d: Key)
    requires Unique(db) && Agreeing(db) && Fits(db, b) && Solo(db, b) && ApplyBlock(db, b).Ok?
    requires Names(ApplyBlock(db, b).value, c, d)
    ensures var next := ApplyBlock(db, b).value; Agree(next.rows[c].status, next.rows[d].status)
  {
    var next := ApplyBlock(db, b).value;
    BlockFrame(db, b);
    BlockEvolves(db, b);
    if c !in db.rows {
      NewConfirmationAgrees(db, b, d);
    } else if d !in db.rows {
      NewDirectiveUnnamed(db, b, c);
    } else {
      NamesWere(db, next, c, d);
      SoloKeepsOldPair(db, b, c, d);
    }
  }

  /** A directive that has been executing and that no confirmation names is not completed. */
  lemma UnnamedIsNotCompleted(db: Db, d: Key)
    requires Agreeing(db) && d in db.rows && d.kind == OperationDirective
    requires Reaches(OperationDirective, Executing, db.rows[d].status)
    requires !LinkTaken(db.rows, db.rows[d].code)
    ensures Agree(Pending, db.rows[d].status)
  {
    forall c ensures !Names(db, c, d) {}
  }

  lemma NewConfirmationAgrees(db: Db, b: Block, d: Key)
    requires Unique(db) && Agreeing(db) && Fits(db, b) && Solo(db, b) && ApplyBlock(db, b).Ok?
    requires b.key !in db.rows && Names(ApplyBlock(db, b).value, b.key, d)
    ensures var next := ApplyBlock(db, b).value; Agree(next.rows[b.key].status, next.rows[d].status)
  {
    hide ApplyBlock, Agreeing, Agree;
    BlockFrame(db, b);
    InsertIsFresh(db, b);
    var e :| e in db.rows && e.kind == OperationDirective && db.rows[e].code == b.write.row.business.relatedCode
             && Reaches(OperationDirective, Executing, db.rows[e].status);
    assert d == e;
    UnnamedIsNotCompleted(db, e);
  }

  lemma NewDirectiveUnnamed(db: Db, b: Block, c: Key)
    requires Agreeing(db) && ApplyBlock(db, b).Ok?
    requires b.key !in db.rows && c in db.rows
    ensures !Names(ApplyBlock(db, b).value, c, b.key)
  {
    BlockFrame(db, b);
    if c.kind == ExecutionConfirmation && b.key.kind == OperationDirective {
      var d :| Names(db, c, d);
      assert !CodeTaken(db.rows, b.key.kind, b.write.row.code);
    }
  }

  lemma DirectiveEdgeAgrees(confirmation: Status, from: Status, to: Status)
    requires Agree(confirmation, from) && to != Completed
    requires from == to || CanTransition(DIRECTIVE_TRANSITIONS, from, to)
    ensures Agree(confirmation, to)
  {
  }

  lemma ConfirmationEdgeAgrees(from: Status, to: Status, directive: Status)
    requires Agree(from, directive) && (from == Pending ==> to == Pending)
    requires from == to || CanTransition(CONFIRMATION_TRANSITIONS, from, to)
    ensures Agree(to, directive)
  {
  }

  lemma SoloKeepsOldPair(db: Db, b: Block, c: Key, d: Key)
    requires Agreeing(db) && Fits(db, b) && Solo(db, b) && ApplyBlock(db, b).Ok?
    requires Names(db, c, d)
    ensures var next := ApplyBlock(db, b).value; Agree(next.rows[c].status, next.rows[d].status)
  {
    BlockFrame(db, b);
    assert Agree(db.rows[c].status, db.rows[d].status);
    if b.write.Save? {
      if b.key == d {
        assert Edge(d.kind, db.rows[d], b.write.row);
        DirectiveEdgeAgrees(db.rows[c].status, db.rows[d].status, b.write.row.status);
      } else if b.key == c {
        assert Edge(c.kind, db.rows[c], b.write.row);
        ConfirmationEdgeAgrees(db.rows[c].status, b.write.row.status, db.rows[d].status);
      }
    }
  }

  lemma SoloKeepsAgreeing(db: Db, b: Block)
    requires Unique(db) && Agreeing(db) && Fits(db, b) && Solo(db, b) && ApplyBlock(db, b).Ok?
    ensures Agreeing(ApplyBlock(db, b).value)
  {
    var next := ApplyBlock(db, b).value;
    BlockFrame(db, b);
    BlockEvolves(db, b);
    forall c | c in next.rows && c.kind == ExecutionConfirmation ensures exists d :: Names(next, c, d) {
      if c in db.rows {
        var d :| Names(db, c, d);
        NamesKept(db, next, c, d);
      } else {
        var d :| d in db.rows && d.kind == OperationDirective && db.rows[d].code == b.write.row.business.relatedCode;
        assert Names(next, c, d);
      }
    }
    forall c, d | Names(next, c, d) ensures Agree(next.rows[c].status, next.rows[d].status) {
      SoloKeepsPair(db, b, c, d);
    }
    forall d | d in next.rows && d.kind == OperationDirective && next.rows[d].status == Completed
      ensures exists c :: Names(next, c, d)
    {
      assert d in db.rows && db.rows[d].status == Completed;
      var c :| Names(db, c, d);
      NamesKept(db, next, c, d);
    }
  }

  // ------------------------------------------------------------------- joint outcome

  /** A receipt ends its confirmation and its directive together. */
  predicate JointOutcome(db: Db, own: Block, linked: Block) {
    && own.write.Save? && linked.write.Save?
    && Names(db, own.key, linked.key)
    && db.rows[own.key].status == Pending && db.rows[linked.key].status == Executing
    && Agree(own.write.row.status, linked.write.row.status)
  }

  lemma OutcomeRows(db: Db, own: Block, linked: Block)
    requires Fits(db, own) && Fits(db, linked) && JointOutcome(db, own, linked)
    requires ApplyBlock(db, own).Ok? && ApplyBlock(ApplyBlock(db, own).value, linked).Ok?
    ensures var next := ApplyBlock(ApplyBlock(db, own).value, linked).value;
            && Evolves(db, next) && next.rows.Keys == db.rows.Keys
            && next.rows[own.key].status == own.write.row.status
            && next.rows[linked.key].status == linked.write.row.status
            && forall k :: k in db.rows && k != own.key && k != linked.key ==> next.rows[k] == db.rows[k]
  {
    var mid := ApplyBlock(db, own).value;
    var next := ApplyBlock(mid, linked).value;
    BlockFrame(db, own);
    BlockEvolves(db, own);
    BlockFrame(mid, linked);
    assert Fits(mid, linked);
    BlockEvolves(mid, linked);
    EvolvesTransitive(db, mid, next);
  }

  lemma OutcomeKeepsPair(db: Db, next: Db, own: Key, linked: Key, c: Key, d: Key)
    requires Unique(db) && Agreeing(db) && Evolves(db, next) && next.rows.Keys == db.rows.Keys
    requires Names(db, own, linked) && Agree(next.rows[own].status, next.rows[linked].status)
    requires forall k :: k in db.rows && k != own && k != linked ==> next.rows[k] == db.rows[k]
    requires Names(next, c, d)
    ensures Agree(next.rows[c].status, next.rows[d].status)
  {
    NamesWere(db, next, c, d);
    assert Agree(db.rows[c].status, db.rows[d].status);
    assert c == own <==> d == linked;
  }

  lemma OutcomeKeepsAgreeing(db: Db, own: Block, linked: Block)
    requires Unique(db) && Agreeing(db) && Fits(db, own) && Fits(db, linked) && JointOutcome(db, own, linked)
    requires ApplyBlock(db, own).Ok? && ApplyBlock(ApplyBlock(db, own).value, linked).Ok?
    ensures Agreeing(ApplyBlock(ApplyBlock(db, own).value, linked).value)
  {
    OutcomeRows(db, own, linked);
    OutcomeAgrees(db, ApplyBlock(ApplyBlock(db, own).value, linked).value, own.key, linked.key);
  }

  lemma OutcomeAgrees(db: Db, next: Db, own: Key, linked: Key)
    requires Unique(db) && Agreeing(db) && Evolves(db, next) && next.rows.Keys == db.rows.Keys
    requires Names(db, own, linked) && Agree(next.rows[own].status, next.rows[linked].status)
    requires forall k :: k in db.rows && k != own && k != linked ==> next.rows[k] == db.rows[k]
    ensures Agreeing(next)
  {
    hide Evolves, Unique, Agree;
    forall c | c in next.rows && c.kind == ExecutionConfirmation ensures exists d :: Names(next, c, d) {
      var d :| Names(db, c, d);
      NamesKept(db, next, c, d);
    }
    forall c, d | Names(next, c, d) ensures Agree(next.rows[c].status, next.rows[d].status) {
      OutcomeKeepsPair(db, next, own, linked, c, d);
    }
    forall d | d in next.rows && d.kind == OperationDirective && next.rows[d].status == Completed
      ensures exists c :: Names(next, c, d)
    {
      if d == linked {
        NamesKept(db, next, own, d);
      } else {
        var c :| Names(db, c, d);
        NamesKept(db, next, c, d);
      }
    }
  }
}
