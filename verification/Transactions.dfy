/** What a transaction does to the stored records. Every commit of the services
    is a short list of blocks; a block writes one row, possibly adds a ledger
    entry, and appends the audit entry for that row. */
module Transactions {
  import opened Outcomes
  import opened Records

  datatype RowWrite =
    | Insert(row: Row)
    | Save(expected: nat, row: Row)  // full-row write, conditional on the stored version
    | Remove                         // soft delete

  datatype Block = Block(key: Key, write: RowWrite, approval: Option<Approval>, audit: Audit)

  /** The unique indexes cover tombstones. */
  predicate CodeTaken(rows: map<Key, Row>, kind: Kind, code: string) {
    exists k :: k in rows && k.kind == kind && rows[k].code == code
  }

  predicate LinkTaken(rows: map<Key, Row>, code: string) {
    exists k :: k in rows && k.kind == ExecutionConfirmation && rows[k].business.relatedCode == code
  }

  predicate LinkHeldByOther(rows: map<Key, Row>, key: Key, code: string) {
    exists k :: k in rows && k != key && k.kind == ExecutionConfirmation && rows[k].business.relatedCode == code
  }

  predicate StageTaken(approvals: seq<Approval>, a: Approval) {
    exists i :: 0 <= i < |approvals| && approvals[i].directive == a.directive && approvals[i].stage == a.stage
  }

  function InsertRow(rows: map<Key, Row>, key: Key, row: Row): Result<map<Key, Row>> {
    if key in rows || CodeTaken(rows, key.kind, row.code)
       || (key.kind == ExecutionConfirmation && LinkTaken(rows, row.business.relatedCode)) then
      Err(DuplicateKey)
    else
      Ok(rows[key := row])
  }

  /** The conditional update: it misses tombstones and other versions, and it
      leaves the code and the soft-delete mark alone. A row it does reach is still
      subject to the unique index on related codes. */
  function SaveRow(rows: map<Key, Row>, key: Key, expected: nat, row: Row): Result<map<Key, Row>> {
    if key !in rows || rows[key].deleted || rows[key].version != expected then
      Err(VersionConflict)
    else if key.kind == ExecutionConfirmation && LinkHeldByOther(rows, key, row.business.relatedCode) then
      Err(DuplicateKey)
    else
      Ok(rows[key := row.(code := rows[key].code, deleted := false)])
  }

  function RemoveRow(rows: map<Key, Row>, key: Key): Result<map<Key, Row>> {
    if key !in rows || rows[key].deleted then
      Err(NotFound)
    else
      Ok(rows[key := rows[key].(deleted := true)])
  }

  function WriteRow(rows: map<Key, Row>, key: Key, w: RowWrite): Result<map<Key, Row>> {
    match w
    case Insert(row) => InsertRow(rows, key, row)
    case Save(expected, row) => SaveRow(rows, key, expected, row)
    case Remove => RemoveRow(rows, key)
  }

  function AddApproval(approvals: seq<Approval>, a: Approval): Result<seq<Approval>> {
    if StageTaken(approvals, a) then Err(DuplicateKey) else Ok(approvals + [a])
  }

  function ApplyBlock(db: Db, b: Block): Result<Db> {
    match WriteRow(db.rows, b.key, b.write)
    case Err(e) => Err(e)
    case Ok(rows) =>
      match b.approval
      case None => Ok(Db(rows, db.approvals, db.audits + [b.audit]))
      case Some(a) =>
        match AddApproval(db.approvals, a)
        case Err(e) => Err(e)
        case Ok(approvals) => Ok(Db(rows, approvals, db.audits + [b.audit]))
  }

  /** A transaction applies its blocks in order, or nothing. */
  function ApplyAll(db: Db, blocks: seq<Block>): Result<Db>
    decreases |blocks|
  {
    if blocks == [] then Ok(db)
    else
      match ApplyBlock(db, blocks[0])
      case Err(e) => Err(e)
      case Ok(next) => ApplyAll(next, blocks[1..])
  }
}
