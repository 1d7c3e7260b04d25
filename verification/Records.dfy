/** The stored records: three tables of versioned rows, the approval ledger and
    the audit log. */
module Records {
  import opened Outcomes
  import opened Statuses
  import opened Text

  /** The tables of the versioned aggregates. */
  datatype Kind = GateUnit | OperationDirective | ExecutionConfirmation

  /** A row is addressed by its table and its primary key. */
  datatype Key = Key(kind: Kind, id: nat)

  /** Columns no rule looks at. */
  datatype Details = Details(
    description: string, metricValue: real, metricUnit: string, effectiveAt: int, evidence: string)

  /** Columns a client may edit. */
  datatype Business = Business(
    name: string, facility: string, owner: string, category: string, riskLevel: string,
    details: Details, relatedCode: string)

  /** A row of any of the three tables; a column its table does not have holds a
      fixed value. `deleted` is the soft-delete mark: a tombstone keeps its place
      in every unique index. */
  datatype Row = Row(
    code: string, status: Status, version: nat, deleted: bool, business: Business,
    gateState: Status, submittedBy: string, approvedBy: string, confirmedBy: string)

  datatype Stage = StageSubmitted | StageApproved

  datatype Role = Viewer | Operator | Reviewer | Admin

  /** One entry of the approval ledger. */
  datatype Approval = Approval(
    directive: nat, stage: Stage, actor: string, role: Role, requestId: string,
    reason: string, from: Status, to: Status)

  /** The state an audit entry names: none before creation, "deleted" after removal. */
  datatype Mark = Absent | At(status: Status) | Gone

  datatype Audit = Audit(
    key: Key, action: string, actor: string, requestId: string, before: Mark, after: Mark, detail: string)

  datatype Db = Db(rows: map<Key, Row>, approvals: seq<Approval>, audits: seq<Audit>)

  function GraphOf(kind: Kind): Graph {
    match kind
    case GateUnit => GATE_TRANSITIONS
    case OperationDirective => DIRECTIVE_TRANSITIONS
    case ExecutionConfirmation => CONFIRMATION_TRANSITIONS
  }

  function InitialStatus(kind: Kind): Status {
    match kind
    case GateUnit => Open
    case OperationDirective => Draft
    case ExecutionConfirmation => Pending
  }

  // ------------------------------------------------------------------- queries

  predicate LiveAt(db: Db, key: Key) {
    key in db.rows && !db.rows[key].deleted
  }

  /** Reading by primary key misses tombstones. */
  function Get(db: Db, key: Key): Option<Row> {
    if LiveAt(db, key) then Some(db.rows[key]) else None
  }

  /** A row together with its key. */
  datatype Found = Found(key: Key, row: Row)

  predicate HasCode(db: Db, key: Key, kind: Kind, code: string) {
    LiveAt(db, key) && key.kind == kind && db.rows[key].code == Canon(code)
  }

  /** Reading by code misses tombstones too. */
  ghost function GetByCode(db: Db, kind: Kind, code: string): (r: Option<Found>)
    ensures r.Some? ==> HasCode(db, r.value.key, kind, code) && r.value.row == db.rows[r.value.key]
    ensures r.None? ==> forall k :: k in db.rows ==> !HasCode(db, k, kind, code)
  {
    if exists k :: k in db.rows && HasCode(db, k, kind, code) then
      var k :| k in db.rows && HasCode(db, k, kind, code);
      Some(Found(k, db.rows[k]))
    else
      None
  }

  /** The live confirmations of a directive code. */
  function LiveConfirmations(db: Db, code: string): set<Key> {
    set k | k in db.rows && k.kind == ExecutionConfirmation && !db.rows[k].deleted
            && db.rows[k].business.relatedCode == Canon(code)
  }
}
