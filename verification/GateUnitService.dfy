/** The gate service, step by step. */
module GateUnitService {
  import opened Outcomes
  import opened Text
  import opened Statuses
  import opened Records
  import opened Transactions
  import opened Handlers
  import opened Faults
  import opened Storage
  import opened Security

  /** The live reservoirs, by their stored codes. */
  class ReservoirRepository {
    var byCode: map<string, Reservoir>

    predicate Valid()
      reads this
    {
      forall c :: c in byCode ==> byCode[c].code == c
    }

    constructor ()
      ensures Valid() && byCode == map[]
    {
      byCode := map[];
    }

    function Lookup(code: string): Option<Reservoir>
      reads this
    {
      if Canon(code) in byCode then Some(byCode[Canon(code)]) else None
    }

    method GetByCode(code: string) returns (found: Option<Reservoir>)
      requires Valid()
      ensures found == Lookup(code)
      ensures found.Some? ==> found.value.code == Canon(code)
    {
      found := if Canon(code) in byCode then Some(byCode[Canon(code)]) else None;
    }
  }

  class GateUnitService {
    const store: Database
    const reservoirs: ReservoirRepository
    const security: SecurityService

    predicate Ready()
      reads store, reservoirs
    {
      security.store == store && store.Idle() && reservoirs.Valid()
    }

    constructor (store: Database, reservoirs: ReservoirRepository)
      requires store.Idle() && reservoirs.Valid()
      ensures this.store == store && this.reservoirs == reservoirs && Ready()
    {
      this.store := store;
      this.reservoirs := reservoirs;
      security := new SecurityService(store);
    }

    method Create(code: string, input: Business, caller: Caller) returns (r: Result<Row>)
      requires Ready()
      modifies store
      ensures Ready()
      ensures Handled(old(store.View()), store.View(), Request.Create(GateUnit, code, input, None,
          reservoirs.Lookup(input.relatedCode)), caller,
                      old(store.nextId), store.faults, old(store.writes), ErrorOf(r))
      ensures r.Ok? ==> store.View().rows == old(store.View()).rows[Key(GateUnit, old(store.nextId)) := r.value]
    {
      if !ValidFields(code, input) { return Err(InvalidInput); }
      var reservoir := reservoirs.GetByCode(input.relatedCode);
      if reservoir.None? { return Err(NotFound); }
      if !EqualFold(TrimSpace(input.facility), reservoir.value.facility) { return Err(InvalidInput); }
      var item := NewRow(GateUnit, code, Tidy(input), Closed);
      ghost var start, n := store.View(), store.writes;
      ghost var b := CreateBlock(Key(GateUnit, store.nextId), item, caller);
      var id, e := security.Created(GateUnit, item, caller);
      if e.Some? { return Err(e.value); }
      CreatedRow(start, store.View(), b, store.faults, n);
      r := Ok(item);
    }

    /** The reservoir that the stored gate names. */
    function NamedReservoir(id: nat): Option<Reservoir>
      reads store, reservoirs
    {
      var gate := Records.Get(store.View(), Key(GateUnit, id));
      if gate.Some? then reservoirs.Lookup(gate.value.business.relatedCode) else None
    }

    method Update(id: nat, expected: nat, input: Business, caller: Caller) returns (r: Result<Row>)
      requires Ready()
      modifies store
      ensures Ready()
      ensures Handled(old(store.View()), store.View(), Request.Update(Key(GateUnit, id), expected, input, None,
          old(NamedReservoir(id))), caller,
                      old(store.nextId), store.faults, old(store.writes), ErrorOf(r))
      ensures r.Ok? ==> Records.Get(store.View(), Key(GateUnit, id)) == Some(r.value)
    {
      var key := Key(GateUnit, id);
      var found := store.Get(key);
      if found.None? { return Err(NotFound); }
      var current := found.value;
      if !ValidFields(current.code, input) { return Err(InvalidInput); }
      if !EqualFold(TrimSpace(input.relatedCode), current.business.relatedCode) { return Err(InvalidInput); }
      var reservoir := reservoirs.GetByCode(current.business.relatedCode);
      if reservoir.None? { return Err(NotFound); }
      if !EqualFold(TrimSpace(input.facility), reservoir.value.facility) { return Err(InvalidInput); }
      current := current.(business := Tidy(input).(relatedCode := reservoir.value.code));
      ghost var start, n := store.View(), store.writes;
      var e := security.Updated(key, expected, current, caller);
      if e.Some? { return Err(e.value); }
      SavedRowIsFound(start, store.View(), [UpdateBlock(key, expected, current, caller)], store.faults, n);
      found := store.Get(key);
      r := Ok(found.value);
    }

    method Transition(id: nat, expected: nat, target: string, reason: string, caller: Caller) returns (r: Result<Row>)
      requires Ready()
      modifies store
      ensures Ready()
      ensures Handled(old(store.View()), store.View(), Request.Transition(Key(GateUnit, id), expected, target,
          reason), caller,
                      old(store.nextId), store.faults, old(store.writes), ErrorOf(r))
      ensures r.Ok? ==> Records.Get(store.View(), Key(GateUnit, id)) == Some(r.value)
    {
      hide TrimSpace, Transact, Steps, StepsOf;
      var key := Key(GateUnit, id);
      var found := store.Get(key);
      if found.None? { return Err(NotFound); }
      var current := found.value;
      var to := Parse(TrimSpace(target));
      if to.None? || !CanTransition(GATE_TRANSITIONS, current.status, to.value) { return Err(InvalidTransition); }
      var before := current.status;
      current := current.(status := to.value);
      current := current.(version := expected + 1);
      var audit := Recorded(key, caller, before, to.value, reason);
      ghost var start, n := store.View(), store.writes;
      ghost var b := Block(key, Save(expected, current), None, audit);
      OneBlockSteps(b);
      var e := store.TransitionWithAudit(key, expected, current, audit);
      if e.Some? { return Err(e.value); }
      SavedRowIsFound(start, store.View(), [b], store.faults, n);
      found := store.Get(key);
      r := Ok(found.value);
    }

    method Delete(id: nat, caller: Caller) returns (e: Option<Error>)
      requires Ready()
      modifies store
      ensures Ready()
      ensures Handled(old(store.View()), store.View(), Request.Delete(Key(GateUnit, id)), caller,
                      old(store.nextId), store.faults, old(store.writes), e)
    {
      var found := store.Get(Key(GateUnit, id));
      if found.None? { return Some(NotFound); }
      e := security.Deleted(Key(GateUnit, id), found.value, caller);
    }
  }
}
