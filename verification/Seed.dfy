/** The rows a new installation starts with are one valid initial state. */
module Seed {
  import opened Outcomes
  import opened Text
  import opened Statuses
  import opened Records
  import opened Handlers
  import opened Interleaving
  import opened Lifecycle
  import opened Validity
  import opened Agreement
  import opened Reachability
  import opened Receipts
  import opened Orphans
  import opened Workflow
  import opened Counterexamples

  const GU1 := Key(GateUnit, 1)
  const GU2 := Key(GateUnit, 2)
  const GU3 := Key(GateUnit, 3)
  const OD1 := Key(OperationDirective, 1)
  const OD2 := Key(OperationDirective, 2)
  const OD3 := Key(OperationDirective, 3)
  const EC1 := Key(ExecutionConfirmation, 1)

  function Gate(code: string, status: Status, business: Business): Row {
    Row(code, status, 1, false, business, Closed, "", "", "")
  }

  function Directive(code: string, status: Status, business: Business, gateState: Status, submitter: string,
      approver: string): Row {
    Row(code, status, 1, false, business, gateState, submitter, approver, "")
  }

  function Site(n: nat, name: string, owner: string, category: string, riskLevel: string, details: Details,
      relatedCode: string): Business {
    var facility :=
      if n == 1 then "水电站闸门调度许可区域1" else if n == 2 then "水电站闸门调度许可区域2" else "水电站闸门调度许可区域3";
    Business(name, facility, owner, category, riskLevel, details, relatedCode)
  }

  function SubmissionOf(id: nat): Approval {
    Approval(id, StageSubmitted, "operator", Operator, if id == 2 then "seed-od-002-submit" else "seed-od-003-submit",
             "值班员提交调度许可", Draft, Pending)
  }

  function ApprovalOf(id: nat): Approval {
    Approval(id, StageApproved, "reviewer", Reviewer, "seed-od-003-approve", "复核水位窗口和闸门目标无冲突", Pending, Approved)
  }

  const SEEDED: set<Key> := {GU1, GU2, GU3, OD1, OD2, OD3, EC1}

  /** The seeded rows; descriptions, measurements, evidence and times are left open. */
  function SeedRow(k: Key, details: Key -> Details): Row
    requires k in SEEDED
  {
    if k == GU1 then
      Gate("GU-001", Open, Site(1, "闸门示例一", "运行一组", "常规", "low", details(k), "R-001"))
    else if k == GU2 then
      Gate("GU-002", Closed, Site(2, "闸门示例二", "质量复核组", "重点", "medium", details(k), "R-002"))
    else if k == GU3 then
      Gate("GU-003", Moving, Site(3, "闸门示例三", "安全主管组", "复核", "high", details(k), "R-003"))
    else if k == OD1 then
      Directive("OD-001", Draft, Site(1, "操作指令示例一", "运行一组", "常规", "low", details(k), "GU-001"), Open, "", "")
    else if k == OD2 then
      Directive("OD-002", Pending, Site(2, "操作指令示例二", "质量复核组", "重点", "medium", details(k), "GU-002"), Closed,
          "operator", "")
    else if k == OD3 then
      Directive("OD-003", Executing, Site(3, "右岸泄洪闸开启指令", "安全主管组", "复核", "high", details(k), "GU-003"),
                Open, "operator", "reviewer")
    else
      Row("EC-001", Pending, 1, false, Site(3, "右岸泄洪闸现场执行回执", "运行一组", "泄洪调度", "high", details(k), "OD-003"),
          Closed, "", "", "")
  }

  function SeedRows(details: Key -> Details): map<Key, Row> {
    map k | k in SEEDED :: SeedRow(k, details)
  }

  /** What the invariants look at. */
  predicate GatesSeeded(rows: map<Key, Row>)
    requires rows.Keys == SEEDED
  {
    && rows[GU1].code == "GU-001" && rows[GU2].code == "GU-002" && rows[GU3].code == "GU-003"
    && rows[GU1].status == Open && rows[GU2].status == Closed && rows[GU3].status == Moving
  }

  predicate DirectivesSeeded(rows: map<Key, Row>)
    requires rows.Keys == SEEDED
  {
    && rows[OD1].code == "OD-001" && rows[OD2].code == "OD-002" && rows[OD3].code == "OD-003"
    && rows[OD1].status == Draft && rows[OD2].status == Pending && rows[OD3].status == Executing
    && rows[OD2].submittedBy == rows[OD3].submittedBy == "operator" && rows[OD3].approvedBy == "reviewer"
    && rows[OD1].business.relatedCode == "GU-001"
  }

  predicate ReceiptSeeded(row: Row) {
    row.code == "EC-001" && row.status == Pending && row.business.relatedCode == "OD-003"
  }

  lemma SeedGates(details: Key -> Details)
    ensures GatesSeeded(SeedRows(details))
  {
    hide Site;
  }

  lemma SeedDirectives(details: Key -> Details)
    ensures DirectivesSeeded(SeedRows(details))
  {
    SiteLinks();
    hide Site;
  }

  lemma SeedReceipt(details: Key -> Details)
    ensures ReceiptSeeded(SeedRows(details)[EC1])
  {
    SiteLinks();
    hide Site;
  }

  lemma SeedGateStates(details: Key -> Details)
    ensures forall k :: k in SEEDED ==>
              SeedRows(details)[k].gateState in {Open, Closed} && !SeedRows(details)[k].deleted
  {
    hide Site;
  }

  lemma SeedFacts(details: Key -> Details)
    ensures var rows := SeedRows(details);
            rows.Keys == SEEDED && GatesSeeded(rows) && DirectivesSeeded(rows) && ReceiptSeeded(rows[EC1])
    ensures forall k :: k in SEEDED ==>
              SeedRows(details)[k].gateState in {Open, Closed} && !SeedRows(details)[k].deleted
  {
    SeedGates(details);
    SeedDirectives(details);
    SeedReceipt(details);
    SeedGateStates(details);
  }

  lemma SiteLinks()
    ensures forall n, name, owner, category, riskLevel, details,
        code :: Site(n, name, owner, category, riskLevel, details, code).relatedCode == code
  {
  }

  function SeedDb(details: Key -> Details): Db {
    Db(SeedRows(details), [SubmissionOf(2), SubmissionOf(3), ApprovalOf(3)], [])
  }

  /** A code as the services would store it. */
  predicate Upper(s: string) {
    Trimmed(s) && forall i :: 0 <= i < |s| ==> !('a' <= s[i] <= 'z')
  }

  lemma UpperIsCanonical(s: string)
    requires Upper(s)
    ensures Canon(s) == s
  {
    TrimmedIsFixed(s);
  }

  lemma RowShaped(kind: Kind, r: Row)
    requires Upper(r.code) && StatusOf(kind, r.status) && StatusOf(GateUnit, r.gateState)
    requires kind == ExecutionConfirmation ==> Upper(r.business.relatedCode)
    ensures Shaped(kind, r)
  {
    UpperIsCanonical(r.code);
    if kind == ExecutionConfirmation { UpperIsCanonical(r.business.relatedCode); }
  }

  lemma UpperCodes()
    ensures Upper("GU-001") && Upper("GU-002") && Upper("GU-003")
    ensures Upper("OD-001") && Upper("OD-002") && Upper("OD-003") && Upper("EC-001")
  {
  }

  lemma SeedShaped(details: Key -> Details)
    ensures AllShaped(SeedDb(details))
  {
    hide SeedRows, Shaped, Upper;
    SeedFacts(details);
    UpperCodes();
    var rows := SeedRows(details);
    forall k | k in rows ensures Shaped(k.kind, rows[k]) {
      RowShaped(k.kind, rows[k]);
    }
  }

  lemma LastDiffers(a: string, b: string)
    requires |a| == |b| == 6 && a[5] != b[5]
    ensures a != b
  {
  }

  lemma SeedUnique(details: Key -> Details)
    ensures Unique(SeedDb(details))
  {
    hide SeedRows;
    SeedFacts(details);
    LastDiffers("GU-001", "GU-002");
    LastDiffers("GU-001", "GU-003");
    LastDiffers("GU-002", "GU-003");
    LastDiffers("OD-001", "OD-002");
    LastDiffers("OD-001", "OD-003");
    LastDiffers("OD-002", "OD-003");
  }

  lemma SeedLedger(id: nat)
    ensures LedgerOf([SubmissionOf(2), SubmissionOf(3), ApprovalOf(3)], id) ==
            if id == 2 then [SubmissionOf(2)] else if id == 3 then [SubmissionOf(3), ApprovalOf(3)] else []
  {
    assert [] + [SubmissionOf(2)] == [SubmissionOf(2)];
    LedgerPush([], SubmissionOf(2), id);
    assert [SubmissionOf(2)] + [SubmissionOf(3)] == [SubmissionOf(2), SubmissionOf(3)];
    LedgerPush([SubmissionOf(2)], SubmissionOf(3), id);
    assert [SubmissionOf(2), SubmissionOf(3)] + [ApprovalOf(3)] == [SubmissionOf(2), SubmissionOf(3), ApprovalOf(3)];
    LedgerPush([SubmissionOf(2), SubmissionOf(3)], ApprovalOf(3), id);
  }

  lemma TwoPeople()
    ensures !EqualFold("operator", "reviewer")
  {
    assert "operator"[0] == 'o' && "reviewer"[0] == 'r';
    assert !SameLetter('o', 'r');
  }

  lemma SeedLedgers(details: Key -> Details)
    ensures Ledgers(SeedDb(details))
  {
    hide SeedRows, EqualFold, LedgerOf;
    SeedFacts(details);
    TwoPeople();
    var db := SeedDb(details);
    forall k | k in db.rows
        && k.kind == OperationDirective ensures LedgerFits(db.rows[k], LedgerOf(db.approvals, k.id)) {
      SeedLedger(k.id);
    }
  }

  lemma SeedAgreeing(details: Key -> Details)
    ensures Agreeing(SeedDb(details))
  {
    hide SeedRows;
    SeedFacts(details);
    var db := SeedDb(details);
    assert Names(db, EC1, OD3);
    assert Agree(db.rows[EC1].status, db.rows[OD3].status);
    forall c, d | Names(db, c, d) ensures c == EC1 && d == OD3 {
      LastDiffers("OD-003", "OD-001");
      LastDiffers("OD-003", "OD-002");
    }
  }

  /** The seeded state satisfies every invariant, so every honest run from it does. */
  lemma SeedIsSound(details: Key -> Details)
    ensures Sound(World(SeedDb(details), map[]))
  {
    SeedShaped(details);
    SeedUnique(details);
    SeedLedgers(details);
    SeedAgreeing(details);
  }

  /** Copied columns are coherent for every confirmation but the seeded one, whose
      category is not its directive's. */
  lemma SeedCoherence(details: Key -> Details)
    ensures Coherent(SeedDb(details), {EC1}) && !Coherent(SeedDb(details), {})
    ensures var c, d := SeedRows(details)[EC1].business, SeedRows(details)[OD3].business;
            c.facility == d.facility && c.riskLevel == d.riskLevel && c.category != d.category
  {
    var db := SeedDb(details);
    assert Names(db, EC1, OD3);
    assert |db.rows[EC1].business.category| == 4 && |db.rows[OD3].business.category| == 2;
  }

  /** The workflow can be taken end to end with the first seeded directive. */
  lemma SeedIsStartable(details: Key -> Details)
    ensures Startable(SeedDb(details), OD1, GU1)
  {
    UpperCodes();
    UpperIsCanonical("GU-001");
    hide SeedRows, Upper, Canon;
    SeedFacts(details);
    LastDiffers("OD-001", "OD-003");
  }

  /** Aborting the seeded execution is possible, and orphans the seeded confirmation. */
  lemma SeedCanBeOrphaned(details: Key -> Details, caller: Caller, reason: string) returns (next: Db)
    requires caller.role in {Operator, Reviewer, Admin}
    ensures Atomic(SeedDb(details), Move(OD3, SeedDb(details), Aborted, reason), caller, 0) == Ok(next)
    ensures Orphan(next, EC1, OD3)
  {
    var db := SeedDb(details);
    SeedIsSound(details);
    SeedGateOf(details);
    hide SeedRows, Valid, Canon, Atomic;
    SeedFacts(details);
    next := AbortOrphans(db, EC1, OD3, GU3, caller, reason);
  }

  lemma SeedGateOf(details: Key -> Details)
    ensures HasCode(SeedDb(details), GU3, GateUnit, SeedRows(details)[OD3].business.relatedCode)
  {
    UpperCodes();
    UpperIsCanonical("GU-003");
    SiteLinks();
    hide Site, Upper, Canon;
  }
}
