/** The status values shared by the aggregates and the transition graphs that
    say how each may move. */
module Statuses {
  import opened Outcomes

  datatype Status =
    | Open | Closed | Moving | Locked
    | Draft | Pending | Approved | Executing | Completed | Aborted
    | Confirmed | Failed | Cancelled

  type Graph = map<Status, set<Status>>

  const GATE_TRANSITIONS: Graph := map[
    Open := {Moving, Locked},
    Closed := {Moving, Locked},
    Moving := {Open, Closed, Locked},
    Locked := {Closed}]

  const DIRECTIVE_TRANSITIONS: Graph := map[
    Draft := {Pending},
    Pending := {Approved, Aborted},
    Approved := {Executing, Aborted},
    Executing := {Completed, Aborted},
    Completed := {},
    Aborted := {}]

  const CONFIRMATION_TRANSITIONS: Graph := map[
    Pending := {Confirmed, Failed},
    Confirmed := {},
    Failed := {Cancelled},
    Cancelled := {}]

  predicate CanTransition(graph: Graph, from: Status, to: Status) {
    from in graph && to in graph[from]
  }

  function Name(s: Status): string {
    match s
    case Open => "open"
    case Closed => "closed"
    case Moving => "moving"
    case Locked => "locked"
    case Draft => "draft"
    case Pending => "pending"
    case Approved => "approved"
    case Executing => "executing"
    case Completed => "completed"
    case Aborted => "aborted"
    case Confirmed => "confirmed"
    case Failed => "failed"
    case Cancelled => "cancelled"
  }

  /** Reading a requested status; text that names no status has no edge to it. */
  function Parse(s: string): (r: Option<Status>)
    ensures r.Some? ==> Name(r.value) == s
  {
    if s == "open" then Some(Open)
    else if s == "closed" then Some(Closed)
    else if s == "moving" then Some(Moving)
    else if s == "locked" then Some(Locked)
    else if s == "draft" then Some(Draft)
    else if s == "pending" then Some(Pending)
    else if s == "approved" then Some(Approved)
    else if s == "executing" then Some(Executing)
    else if s == "completed" then Some(Completed)
    else if s == "aborted" then Some(Aborted)
    else if s == "confirmed" then Some(Confirmed)
    else if s == "failed" then Some(Failed)
    else if s == "cancelled" then Some(Cancelled)
    else None
  }

  lemma ParseName(s: Status)
    ensures Parse(Name(s)) == Some(s)
  {
  }
}
