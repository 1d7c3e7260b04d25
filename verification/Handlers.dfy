/** What each service handler decides to write, given what it has read. */
module Handlers {
  import opened Outcomes
  import opened Text
  import opened Statuses
  import opened Records
  import opened Transactions

  /** The authenticated caller of a request. */
  datatype Caller = Caller(actor: string, role: Role, requestId: string)

  /** The reservoir a gate names, as the reservoir lookup returned it. */
  datatype Reservoir = Reservoir(code: string, facility: string)

  datatype Request =
    | Create(kind: Kind, code: string, input: Business, gateState: Option<Status>, reservoir: Option<Reservoir>)
    | Update(key: Key, expected: nat, input: Business, gateState: Option<Status>, reservoir: Option<Reservoir>)
    | Transition(key: Key, expected: nat, target: string, reason: string)
    | Delete(key: Key)

  /** The rows a handler has read, and the number of live confirmations it counted. */
  datatype Reads = Reads(primary: Option<Row>, directive: Option<Found>, gate: Option<Found>, existing: nat)

  const NOTHING_READ := Reads(None, None, None, 0)

  function KindOf(req: Request): Kind {
    if req.Create? then req.kind else req.key.kind
  }

  /** Requests that carry the version the client expects. */
  predicate Versioned(req: Request) {
    req.Update? || req.Transition?
  }

  // --------------------------------------------------------------- shared parts

  /** Trimming of the edited columns; the risk level is stored as sent. */
  function Tidy(input: Business): Business {
    Business(
      TrimSpace(input.name), TrimSpace(input.facility), TrimSpace(input.owner), TrimSpace(input.category),
      input.riskLevel,
      Details(TrimSpace(input.details.description), input.details.metricValue,
              TrimSpace(input.details.metricUnit), input.details.effectiveAt, TrimSpace(input.details.evidence)),
      Canon(input.relatedCode))
  }

  predicate ValidFields(code: string, input: Business) {
    TrimSpace(code) != "" && TrimSpace(input.name) != "" && TrimSpace(input.facility) != ""
        && TrimSpace(input.owner) != ""
  }

  function NewRow(kind: Kind, code: string, business: Business, gateState: Status): Row {
    Row(Canon(code), InitialStatus(kind), 1, false, business, gateState, "", "", "")
  }

  /** The audit writer of the security service fills in missing names. */
  function Logged(key: Key, action: string, caller: Caller, before: Mark, after: Mark, detail: string): Audit {
    Audit(key, action, if caller.actor == "" then "system" else caller.actor,
          if caller.requestId == "" then "untracked" else caller.requestId, before, after, detail)
  }

  /** State transitions of gates and directives write their audit entry themselves. */
  function Recorded(key: Key, caller: Caller, before: Status, after: Status, detail: string): Audit {
    Audit(key, "transition", caller.actor, caller.requestId, At(before), At(after), detail)
  }

  /** What audit texts call a record. */
  function Label(kind: Kind): string {
    match kind
    case GateUnit => "闸门"
    case OperationDirective => "操作指令"
    case ExecutionConfirmation => "执行确认"
  }

  function CreateBlock(key: Key, row: Row, caller: Caller): Block {
    Block(key, Insert(row), None, Logged(key, "create", caller, Absent, At(row.status), "created " + Label(key.kind)))
  }

  function UpdateBlock(key: Key, expected: nat, row: Row, caller: Caller): Block {
    Block(key, Save(expected, row.(version := expected + 1)), None,
          Logged(key, "update", caller, At(row.status), At(row.status), "updated business fields"))
  }

  function DeleteBlock(key: Key, current: Row, caller: Caller): Block {
    Block(key, Remove, None, Logged(key, "delete", caller, At(current.status), Gone, "soft deleted " + Label(key.kind)))
  }

  /** A linked row moves under the version the handler itself read. */
  function LinkedBlock(linked: Found, to: Status, action: string, caller: Caller, reason: string): Block {
    Block(linked.key, Save(linked.row.version, linked.row.(status := to, version := linked.row.version + 1)), None,
          Logged(linked.key, action, caller, At(linked.row.status), At(to), reason))
  }

  // ---------------------------------------------------------------------- gates

  function PlanGateCreate(req: Request, caller: Caller, id: nat): Result<seq<Block>>
    requires req.Create?
  {
    if !ValidFields(req.code, req.input) then Err(InvalidInput)
    else match req.reservoir
      case None => Err(NotFound)
      case Some(reservoir) =>
        if !EqualFold(TrimSpace(req.input.facility), reservoir.facility) then Err(InvalidInput)
        else Ok([CreateBlock(Key(GateUnit, id), NewRow(GateUnit, req.code, Tidy(req.input), Closed), caller)])
  }

  function PlanGateUpdate(req: Request, caller: Caller, current: Row): Result<seq<Block>>
    requires req.Update?
  {
    if !ValidFields(current.code, req.input) then Err(InvalidInput)
    else if !EqualFold(TrimSpace(req.input.relatedCode), current.business.relatedCode) then Err(InvalidInput)
    else match req.reservoir
      case None => Err(NotFound)
      case Some(reservoir) =>
        if !EqualFold(TrimSpace(req.input.facility), reservoir.facility) then Err(InvalidInput)
        else
          var business := Tidy(req.input).(relatedCode := reservoir.code);
          Ok([UpdateBlock(req.key, req.expected, current.(business := business), caller)])
  }

  function PlanGateTransition(req: Request, caller: Caller, current: Row): Result<seq<Block>>
    requires req.Transition?
  {
    match Parse(TrimSpace(req.target))
    case None => Err(InvalidTransition)
    case Some(to) =>
      if !CanTransition(GATE_TRANSITIONS, current.status, to) then Err(InvalidTransition)
      else
        var row := current.(status := to, version := req.expected + 1);
        Ok([Block(req.key, Save(req.expected, row), None, Recorded(req.key, caller, current.status, to, req.reason))])
  }

  // ----------------------------------------------------------------- directives

  predicate GateAccepts(input: Business, gate: Row) {
    EqualFold(TrimSpace(input.facility), gate.business.facility) && gate.status != Locked
  }

  function PlanDirectiveCreate(req: Request, caller: Caller, id: nat, read: Reads): Result<seq<Block>>
    requires req.Create?
  {
    if !ValidFields(req.code, req.input) then Err(InvalidInput)
    else match read.gate
      case None => Err(NotFound)
      case Some(gate) =>
        if !GateAccepts(req.input, gate.row) then Err(InvalidInput)
        else
          var gateState := if req.gateState.Some? then req.gateState.value else Closed;
          Ok([CreateBlock(Key(OperationDirective, id),
                          NewRow(OperationDirective, req.code, Tidy(req.input), gateState), caller)])
  }

  function PlanDirectiveUpdate(req: Request, caller: Caller, current: Row, read: Reads): Result<seq<Block>>
    requires req.Update?
  {
    if current.status != Draft then Err(ImmutableState)
    else if !ValidFields(current.code, req.input) then Err(InvalidInput)
    else match read.gate
      case None => Err(NotFound)
      case Some(gate) =>
        if !GateAccepts(req.input, gate.row) then Err(InvalidInput)
        else
          var gateState := if req.gateState.Some? then req.gateState.value else current.gateState;
          Ok([UpdateBlock(req.key, req.expected, current.(business := Tidy(req.input), gateState := gateState),
              caller)])
  }

  predicate DirectiveRoleAllowed(to: Status, role: Role) {
    match to
    case Pending => role == Operator || role == Admin
    case Approved => role == Reviewer || role == Admin
    case Executing => role == Operator || role == Admin
    case Aborted => role == Operator || role == Reviewer || role == Admin
    case _ => false
  }

  predicate NeedsGate(from: Status, to: Status) {
    to == Executing || (from == Executing && to == Aborted)
  }

  /** The status the linked gate must be moved to, if any. */
  function GateMove(directive: Row, to: Status, gate: Row): Result<Option<Status>> {
    if to == Executing && gate.status == Locked then Err(InvalidInput)
    else
      var target :=
        if to == Aborted then Some(Locked)
        else if gate.status != directive.gateState then Some(Moving)
        else None;
      if target.Some? && gate.status != target.value && !CanTransition(GATE_TRANSITIONS, gate.status, target.value)
      then Err(InvalidTransition)
      else if target.Some? && gate.status == target.value then Ok(None)
      else Ok(target)
  }

  /** The directive's own row write, its ledger entry and its audit entry. */
  function DirectiveBlock(req: Request, caller: Caller, current: Row, to: Status): Block
    requires req.Transition?
  {
    var row := current.(
      status := to,
      submittedBy := if to == Pending then caller.actor else current.submittedBy,
      approvedBy := if to == Approved then caller.actor else current.approvedBy,
      version := req.expected + 1);
    var entry := (stage: Stage) =>
      Approval(req.key.id, stage, caller.actor, caller.role, caller.requestId, TrimSpace(req.reason), current.status,
          to);
    var approval :=
      if to == Pending then Some(entry(StageSubmitted))
      else if to == Approved then Some(entry(StageApproved))
      else None;
    Block(req.key, Save(req.expected, row), approval, Recorded(req.key, caller, current.status, to, req.reason))
  }

  function PlanDirectiveTransition(req: Request, caller: Caller, current: Row, read: Reads): Result<seq<Block>>
    requires req.Transition?
  {
    match Parse(TrimSpace(req.target))
    case None => Err(InvalidTransition)
    case Some(to) =>
      if !CanTransition(DIRECTIVE_TRANSITIONS, current.status, to) then Err(InvalidTransition)
      else if to == Completed then Err(InvalidTransition)
      else if !DirectiveRoleAllowed(to, caller.role) then Err(Forbidden)
      else if NeedsGate(current.status, to) then
        match read.gate
        case None => Err(NotFound)
        case Some(gate) =>
          match GateMove(current, to, gate.row)
          case Err(e) => Err(e)
          case Ok(None) => Ok([DirectiveBlock(req, caller, current, to)])
          case Ok(Some(gateTo)) =>
            Ok([DirectiveBlock(req, caller, current, to),
                LinkedBlock(gate, gateTo, "directive_execution", caller, req.reason)])
      else if to == Approved && (current.submittedBy == "" || EqualFold(current.submittedBy, caller.actor)) then
        Err(TwoPersonRequired)
      else
        Ok([DirectiveBlock(req, caller, current, to)])
  }

  // -------------------------------------------------------------- confirmations

  function RequireExecuting(directive: Option<Found>): Result<Found> {
    match directive
    case None => Err(NotFound)
    case Some(d) => if d.row.status != Executing then Err(InvalidInput) else Ok(d)
  }

  /** Columns copied from the directive into its confirmation. */
  function CopyFrom(directive: Row, input: Business): Business {
    Tidy(input).(
      facility := directive.business.facility, category := directive.business.category,
      riskLevel := directive.business.riskLevel, relatedCode := directive.code)
  }

  function PlanConfirmationCreate(req: Request, caller: Caller, id: nat, read: Reads): Result<seq<Block>>
    requires req.Create?
  {
    if !ValidFields(req.code, req.input) then Err(InvalidInput)
    else match RequireExecuting(read.directive)
      case Err(e) => Err(e)
      case Ok(directive) =>
        if read.existing > 0 then Err(InvalidInput)
        else
          var row := NewRow(ExecutionConfirmation, req.code, CopyFrom(directive.row, req.input), Closed);
          Ok([CreateBlock(Key(ExecutionConfirmation, id), row, caller)])
  }

  function PlanConfirmationUpdate(req: Request, caller: Caller, current: Row, read: Reads): Result<seq<Block>>
    requires req.Update?
  {
    if !ValidFields(current.code, req.input) then Err(InvalidInput)
    else if current.status != Pending then Err(ImmutableState)
    else if !EqualFold(TrimSpace(req.input.relatedCode), current.business.relatedCode) then Err(InvalidInput)
    else match RequireExecuting(read.directive)
      case Err(e) => Err(e)
      case Ok(directive) =>
        Ok([UpdateBlock(req.key, req.expected, current.(business := CopyFrom(directive.row, req.input)), caller)])
  }

  function ConfirmationBlock(req: Request, caller: Caller, current: Row, to: Status): Block
    requires req.Transition?
  {
    var row := current.(
      status := to,
      confirmedBy := if to == Confirmed then caller.actor else current.confirmedBy,
      version := req.expected + 1);
    Block(req.key, Save(req.expected, row), None,
          Logged(req.key, "transition", caller, At(current.status), At(to), req.reason))
  }

  /** Where a receipt sends its directive and its gate. */
  function OutcomeTargets(to: Status, directive: Row): (Status, Status) {
    if to == Confirmed then (Completed, directive.gateState) else (Aborted, Locked)
  }

  function PlanConfirmationTransition(req: Request, caller: Caller, current: Row, read: Reads): Result<seq<Block>>
    requires req.Transition?
  {
    match Parse(TrimSpace(req.target))
    case None => Err(InvalidTransition)
    case Some(to) =>
      if !CanTransition(CONFIRMATION_TRANSITIONS, current.status, to) then Err(InvalidTransition)
      else if current.status != Pending then Ok([ConfirmationBlock(req, caller, current, to)])
      else match RequireExecuting(read.directive)
        case Err(e) => Err(e)
        case Ok(directive) =>
          match read.gate
          case None => Err(NotFound)
          case Some(gate) =>
            var (directiveTo, gateTo) := OutcomeTargets(to, directive.row);
            if gate.row.status != gateTo && !CanTransition(GATE_TRANSITIONS, gate.row.status, gateTo) then
              Err(InvalidTransition)
            else
              var outcome :=
                [ConfirmationBlock(req, caller, current, to),
                 LinkedBlock(directive, directiveTo, "execution_outcome", caller, req.reason)];
              Ok(if gate.row.status == gateTo then outcome
                 else outcome + [LinkedBlock(gate, gateTo, "execution_outcome", caller, req.reason)])
  }

  // ------------------------------------------------------------------- dispatch

  /** Gates can be deleted in any state, the other records only in their first. */
  function PlanDelete(req: Request, caller: Caller, current: Row): Result<seq<Block>>
    requires req.Delete?
  {
    if req.key.kind != GateUnit && current.status != InitialStatus(req.key.kind) then Err(ImmutableState)
    else Ok([DeleteBlock(req.key, current, caller)])
  }

  /** The blocks a request commits after reading `read`; `id` is the primary key
      the store assigns to a new row. */
  function Plan(req: Request, caller: Caller, id: nat, read: Reads): Result<seq<Block>> {
    if req.Create? then
      match req.kind
      case GateUnit => PlanGateCreate(req, caller, id)
      case OperationDirective => PlanDirectiveCreate(req, caller, id, read)
      case ExecutionConfirmation => PlanConfirmationCreate(req, caller, id, read)
    else
      match read.primary
      case None => Err(NotFound)
      case Some(current) =>
        if req.Delete? then PlanDelete(req, caller, current)
        else if req.Update? then
          match req.key.kind
          case GateUnit => PlanGateUpdate(req, caller, current)
          case OperationDirective => PlanDirectiveUpdate(req, caller, current, read)
          case ExecutionConfirmation => PlanConfirmationUpdate(req, caller, current, read)
        else
          match req.key.kind
          case GateUnit => PlanGateTransition(req, caller, current)
          case OperationDirective => PlanDirectiveTransition(req, caller, current, read)
          case ExecutionConfirmation => PlanConfirmationTransition(req, caller, current, read)
  }

  // -------------------------------------------------------------- reading a state

  /** The code under which a handler looks up its directive, if it does. */
  function DirectiveCode(req: Request, read: Reads): Option<string> {
    if KindOf(req) != ExecutionConfirmation then None
    else
      match req
      case Create(_, _, input, _, _) => Some(input.relatedCode)
      case Update(_, _, _, _, _) =>
        if read.primary.Some? then Some(read.primary.value.business.relatedCode) else None
      case Transition(_, _, _, _) =>
        if read.primary.Some? && read.primary.value.status == Pending
        then Some(read.primary.value.business.relatedCode) else None
      case Delete(_) => None
  }

  /** A directive transition that involves the gate. */
  predicate MovesGate(req: Request, current: Row)
    requires req.Transition?
  {
    var to := Parse(TrimSpace(req.target));
    to.Some? && NeedsGate(current.status, to.value)
  }

  /** The code under which a handler looks up its gate, if it does. */
  function GateCode(req: Request, read: Reads): Option<string> {
    match KindOf(req)
    case GateUnit => None
    case OperationDirective =>
      (match req
       case Create(_, _, input, _, _) => Some(input.relatedCode)
       case Update(_, _, input, _, _) => Some(input.relatedCode)
       case Transition(_, _, _, _) =>
         if read.primary.Some? && MovesGate(req, read.primary.value)
         then Some(read.primary.value.business.relatedCode) else None
       case Delete(_) => None)
    case ExecutionConfirmation =>
      if req.Transition? && read.directive.Some? then Some(read.directive.value.row.business.relatedCode)
      else None
  }

  ghost function Lookup(db: Db, kind: Kind, code: Option<string>): Option<Found> {
    match code
    case None => None
    case Some(c) => GetByCode(db, kind, c)
  }

  /** The reads of a handler, one at a time: its own row, then its directive, then
      its gate and (for a new confirmation) the count of live confirmations. */
  ghost function ReadNext(db: Db, req: Request, read: Reads, stage: nat): Reads {
    if stage == 0 then
      read.(primary := if req.Create? then None else Get(db, req.key))
    else if stage == 1 then
      read.(directive := Lookup(db, OperationDirective, DirectiveCode(req, read)))
    else
      read.(gate := Lookup(db, GateUnit, GateCode(req, read)),
             existing := if req.Create?
                 && read.directive.Some? then |LiveConfirmations(db, read.directive.value.row.code)| else 0)
  }

  const STAGES := 3

  ghost function ReadAll(db: Db, req: Request): Reads {
    ReadNext(db, req, ReadNext(db, req, ReadNext(db, req, NOTHING_READ, 0), 1), 2)
  }

  /** A handler that reads and commits in one step. */
  ghost function Atomic(db: Db, req: Request, caller: Caller, id: nat): Result<Db> {
    match Plan(req, caller, id, ReadAll(db, req))
    case Err(e) => Err(e)
    case Ok(blocks) => ApplyAll(db, blocks)
  }
}
