/** How a row may evolve: the single moves the graphs allow, and what they add up to. */
module Lifecycle {
  import opened Outcomes
  import opened Text
  import opened Statuses
  import opened Records
  import opened Transactions
  import opened Handlers

  predicate StatusOf(kind: Kind, s: Status) {
    s in GraphOf(kind)
  }

  /** Strictly decreases on every status change of a directive or a confirmation. */
  function Rank(kind: Kind, s: Status): nat {
    match kind
    case GateUnit => 0
    case OperationDirective =>
      (match s
       case Draft => 4
       case Pending => 3
       case Approved => 2
       case Executing => 1
       case _ => 0)
    case ExecutionConfirmation =>
      match s
      case Pending => 2
      case Failed => 1
      case _ => 0
  }

  /** The statuses reachable along the graph; a gate can reach every gate status. */
  predicate Reaches(kind: Kind, a: Status, b: Status) {
    match kind
    case GateUnit => true
    case OperationDirective => a == b || (Rank(kind, b) < Rank(kind, a) && StatusOf(kind, b))
    case ExecutionConfirmation => a == b || (a == Pending && StatusOf(kind, b)) || (a == Failed && b == Cancelled)
  }

  /** Columns that a later content of the same row must still carry. */
  predicate Keeps(kind: Kind, a: Row, b: Row) {
    match kind
    case GateUnit => true
    case OperationDirective =>
      && (a.status != Draft ==>
            b.business == a.business && b.gateState == a.gateState && b.submittedBy == a.submittedBy)
      && (a.status != Draft && a.status != Pending ==> b.approvedBy == a.approvedBy)
    case ExecutionConfirmation =>
      && b.business.relatedCode == a.business.relatedCode
      && (a.status != Pending ==> b.business == a.business && b.confirmedBy == a.confirmedBy)
  }

  /** One write: the status stays or follows one edge of the graph. */
  predicate Edge(kind: Kind, a: Row, b: Row) {
    (a.status == b.status || CanTransition(GraphOf(kind), a.status, b.status)) && Keeps(kind, a, b)
  }

  /** Any number of writes. */
  predicate Follows(kind: Kind, a: Row, b: Row) {
    Reaches(kind, a.status, b.status) && Keeps(kind, a, b)
  }

  lemma EdgeDescends(kind: Kind, a: Status, b: Status)
    requires CanTransition(GraphOf(kind), a, b)
    ensures StatusOf(kind, a) && StatusOf(kind, b)
    ensures Reaches(kind, a, b)
    ensures kind != GateUnit ==> Rank(kind, b) < Rank(kind, a)
  {
  }

  lemma EdgeFollows(kind: Kind, a: Row, b: Row)
    requires Edge(kind, a, b)
    ensures Follows(kind, a, b)
  {
    if a.status != b.status { EdgeDescends(kind, a.status, b.status); }
  }

  lemma FollowsTransitive(kind: Kind, a: Row, b: Row, c: Row)
    requires Follows(kind, a, b) && Follows(kind, b, c)
    ensures Follows(kind, a, c)
  {
  }

  // ------------------------------------------------------------------- gate moves

  /** A gate opens only out of `moving`, every unlocked gate can be locked, and a locked
      one can only be closed. */
  lemma GateEdges(a: Status, b: Status)
    ensures CanTransition(GATE_TRANSITIONS, a, Open) <==> a == Moving
    ensures CanTransition(GATE_TRANSITIONS, a, Closed) <==> a in {Moving, Locked}
    ensures CanTransition(GATE_TRANSITIONS, a, Moving) <==> a in {Open, Closed}
    ensures CanTransition(GATE_TRANSITIONS, a, Locked) <==> a in {Open, Closed, Moving}
    ensures CanTransition(GATE_TRANSITIONS, a, b) ==> b in {Open, Closed, Moving, Locked}
    ensures StatusOf(GateUnit, a) <==> a in {Open, Closed, Moving, Locked}
  {
  }

  // --------------------------------------------------------------- shape of a row

  predicate Shaped(kind: Kind, r: Row) {
    && StatusOf(kind, r.status)
    && Canon(r.code) == r.code
    && StatusOf(GateUnit, r.gateState)
    && (kind == ExecutionConfirmation ==> Canon(r.business.relatedCode) == r.business.relatedCode)
  }

  /** The evidence a directive write carries: a ledger entry by the caller exactly
      when it submits or approves, under the two-person rule. */
  predicate Signed(b: Block, prior: Row, row: Row) {
    if b.key.kind == OperationDirective && prior.status == Draft && row.status == Pending then
      && b.approval.Some?
      && var a := b.approval.value;
         && a.directive == b.key.id && a.stage == StageSubmitted && a.actor == row.submittedBy
         && a.from == Draft && a.to == Pending && a.role in {Operator, Admin}
         && row.approvedBy == prior.approvedBy
    else if b.key.kind == OperationDirective && prior.status == Pending && row.status == Approved then
      && b.approval.Some?
      && var a := b.approval.value;
         && a.directive == b.key.id && a.stage == StageApproved && a.actor == row.approvedBy
         && a.from == Pending && a.to == Approved && a.role in {Reviewer, Admin}
         && row.submittedBy == prior.submittedBy && row.submittedBy != "" && !EqualFold(row.submittedBy, row.approvedBy)
    else
      b.approval.None? && row.submittedBy == prior.submittedBy && row.approvedBy == prior.approvedBy
  }

  /** Block `b` is a legal write over the content `prior`. */
  predicate Legal(b: Block, prior: Row)
    requires b.write.Save?
  {
    var row := b.write.row;
    && Edge(b.key.kind, prior, row)
    && row.code == prior.code && row.deleted == prior.deleted
    && Shaped(b.key.kind, row)
    && b.audit.before == At(prior.status)
    && Signed(b, prior, row)
  }

  /** Block `b` is a legal first content. */
  predicate LegalFirst(b: Block)
    requires b.write.Insert?
  {
    var row := b.write.row;
    && Shaped(b.key.kind, row)
    && row.status == InitialStatus(b.key.kind)
    && b.approval.None?
    && row.submittedBy == "" && row.approvedBy == ""
  }

  // ------------------------------------------------------------------ plans are legal

  /** The snapshot of row `k` a handler holds. */
  function SourceOf(req: Request, read: Reads, k: Key): Option<Row> {
    if !req.Create? && k == req.key then read.primary
    else if read.directive.Some? && k == read.directive.value.key then Some(read.directive.value.row)
    else if read.gate.Some? && k == read.gate.value.key then Some(read.gate.value.row)
    else None
  }

  /** What the route binding guarantees: a requested gate target is a gate status. */
  predicate Bound(req: Request) {
    (req.Create? || req.Update?) && req.gateState.Some? ==> req.gateState.value in {Open, Closed, Locked}
  }

  /** Snapshots are well shaped, and the directive is the one the confirmation names. */
  predicate Coupled(req: Request, read: Reads) {
    && (read.primary.Some? ==> !req.Create? && Shaped(req.key.kind, read.primary.value))
    && (read.directive.Some? ==>
          && read.directive.value.key.kind == OperationDirective
          && Shaped(OperationDirective, read.directive.value.row)
          && KindOf(req) == ExecutionConfirmation
          && (req.Create? ==> read.directive.value.row.code == Canon(req.input.relatedCode))
          && (!req.Create? ==>
                read.primary.Some? && read.directive.value.row.code == read.primary.value.business.relatedCode))
    && (read.gate.Some? ==>
          read.gate.value.key.kind == GateUnit && Shaped(GateUnit, read.gate.value.row))
  }

  /** A block is legal over the snapshot it was planned from: the client's version
      guards the requested row, the version read guards a linked row. */
  predicate Sourced(req: Request, read: Reads, b: Block) {
    match b.write
    case Insert(_) => LegalFirst(b)
    case Remove => !req.Create? && b.key == req.key && b.approval.None?
    case Save(expected, _) =>
      var source := SourceOf(req, read, b.key);
      && source.Some?
      && Legal(b, source.value)
      && expected == if !req.Create? && b.key == req.key && Versioned(req) then req.expected else source.value.version
  }

  lemma NewRowShaped(kind: Kind, code: string, business: Business, gateState: Status)
    requires StatusOf(GateUnit, gateState)
    requires kind == ExecutionConfirmation ==> Canon(business.relatedCode) == business.relatedCode
    ensures Shaped(kind, NewRow(kind, code, business, gateState))
  {
    CanonIdempotent(code);
  }

  lemma PlanCreateSourced(req: Request, caller: Caller, id: nat, read: Reads, i: nat)
    requires req.Create? && Bound(req) && Coupled(req, read) && Plan(req, caller, id, read).Ok?
    requires i < |Plan(req, caller, id, read).value|
    ensures Sourced(req, read, Plan(req, caller, id, read).value[i])
  {
    var b := Plan(req, caller, id, read).value[i];
    var row := b.write.row;
    NewRowShaped(req.kind, req.code, row.business, row.gateState);
  }

  lemma PlanUpdateSourced(req: Request, caller: Caller, id: nat, read: Reads, i: nat)
    requires req.Update? && Bound(req) && Coupled(req, read) && Plan(req, caller, id, read).Ok?
    requires i < |Plan(req, caller, id, read).value|
    ensures Sourced(req, read, Plan(req, caller, id, read).value[i])
  {
    hide Tidy, ValidFields, TrimSpace, EqualFold;
  }

  lemma OwnDirectiveBlockLegal(req: Request, caller: Caller, current: Row, to: Status)
    requires req.Transition? && req.key.kind == OperationDirective && Shaped(OperationDirective, current)
    requires CanTransition(DIRECTIVE_TRANSITIONS, current.status, to) && to != Completed
    requires DirectiveRoleAllowed(to, caller.role)
    requires to == Approved ==> current.submittedBy != "" && !EqualFold(current.submittedBy, caller.actor)
    ensures Legal(DirectiveBlock(req, caller, current, to), current)
  {
    EdgeDescends(OperationDirective, current.status, to);
  }

  lemma LinkedBlockLegal(linked: Found, to: Status, action: string, caller: Caller, reason: string)
    requires Shaped(linked.key.kind, linked.row)
    requires linked.key.kind == GateUnit || (linked.row.status == Executing && linked.key.kind == OperationDirective)
    requires CanTransition(GraphOf(linked.key.kind), linked.row.status, to)
    ensures Legal(LinkedBlock(linked, to, action, caller, reason), linked.row)
  {
    EdgeDescends(linked.key.kind, linked.row.status, to);
  }

  lemma PlanTransitionSourced(req: Request, caller: Caller, id: nat, read: Reads, i: nat)
    requires req.Transition? && Coupled(req, read) && Plan(req, caller, id, read).Ok?
    requires i < |Plan(req, caller, id, read).value|
    ensures Sourced(req, read, Plan(req, caller, id, read).value[i])
  {
    hide PlanDirectiveTransition, PlanConfirmationTransition;
    var current := read.primary.value;
    match req.key.kind
    case GateUnit =>
    case OperationDirective => PlanDirectiveTransitionSourced(req, caller, current, read, i);
    case ExecutionConfirmation => PlanConfirmationTransitionSourced(req, caller, current, read, i);
  }

  lemma PlanDirectiveTransitionSourced(req: Request, caller: Caller, current: Row, read: Reads, i: nat)
    requires req.Transition? && req.key.kind == OperationDirective && Coupled(req, read)
        && read.primary == Some(current)
    requires PlanDirectiveTransition(req, caller, current, read).Ok?
    requires i < |PlanDirectiveTransition(req, caller, current, read).value|
    ensures Sourced(req, read, PlanDirectiveTransition(req, caller, current, read).value[i])
  {
    var to := Parse(TrimSpace(req.target)).value;
    if i == 0 {
      OwnDirectiveBlockLegal(req, caller, current, to);
    } else {
      var gate := read.gate.value;
      var gateTo := GateMove(current, to, gate.row).value.value;
      LinkedBlockLegal(gate, gateTo, "directive_execution", caller, req.reason);
    }
  }

  lemma OwnConfirmationBlockLegal(req: Request, caller: Caller, current: Row, to: Status)
    requires req.Transition? && req.key.kind == ExecutionConfirmation && Shaped(ExecutionConfirmation, current)
    requires CanTransition(CONFIRMATION_TRANSITIONS, current.status, to)
    ensures Legal(ConfirmationBlock(req, caller, current, to), current)
  {
    EdgeDescends(ExecutionConfirmation, current.status, to);
  }

  lemma PlanConfirmationTransitionSourced(req: Request, caller: Caller, current: Row, read: Reads, i: nat)
    requires req.Transition? && req.key.kind == ExecutionConfirmation && Coupled(req, read)
        && read.primary == Some(current)
    requires PlanConfirmationTransition(req, caller, current, read).Ok?
    requires i < |PlanConfirmationTransition(req, caller, current, read).value|
    ensures Sourced(req, read, PlanConfirmationTransition(req, caller, current, read).value[i])
  {
    hide TrimSpace, Logged, Legal, Shaped, Parse;
    var to := Parse(TrimSpace(req.target)).value;
    if i == 0 {
      OwnConfirmationBlockLegal(req, caller, current, to);
    } else {
      var (directiveTo, gateTo) := OutcomeTargets(to, read.directive.value.row);
      if i == 1 {
        LinkedBlockLegal(read.directive.value, directiveTo, "execution_outcome", caller, req.reason);
      } else {
        LinkedBlockLegal(read.gate.value, gateTo, "execution_outcome", caller, req.reason);
      }
    }
  }

  /** Every block of every plan is legal over the snapshot it was planned from. */
  lemma PlanSourced(req: Request, caller: Caller, id: nat, read: Reads, i: nat)
    requires Bound(req) && Coupled(req, read) && Plan(req, caller, id, read).Ok?
    requires i < |Plan(req, caller, id, read).value|
    ensures Sourced(req, read, Plan(req, caller, id, read).value[i])
  {
    match req
    case Create(_, _, _, _, _) => PlanCreateSourced(req, caller, id, read, i);
    case Update(_, _, _, _, _) => PlanUpdateSourced(req, caller, id, read, i);
    case Transition(_, _, _, _) => PlanTransitionSourced(req, caller, id, read, i);
    case Delete(_) =>
  }
}
