/** The life of capsules: drafts are edited and certified, active capsules are
    injected, edited into new drafts, and archived. Signing is ideal: a
    signature of the registry is its payload. */
module CapsuleCore {
  import opened Text
  import opened CapsuleVersions

  datatype Status = Draft | Active | Archived

  datatype Soul = Soul(systemPrompt: string, traits: string, baseline: string)

  datatype ConstitutionRef = ConstitutionRef(id: nat, contentHash: string)

  /** What is signed. Canonical JSON (section 3.2 of RFC 8785) tells different payloads apart. */
  datatype Payload = Payload(
    name: string, version: string, tenant: string, constitution: ConstitutionRef, soul: Soul, limits: string)

  datatype Signature = Signed(payload: Payload) | Foreign(text: string)

  /** A row; `rest` stands for the other definition fields nobody signs, `crossRef` for `constitution_ref`. */
  datatype Capsule = Capsule(
    name: string, version: string, tenant: string, soul: Soul, limits: string, policy: string, rest: string,
    tools: set<string>, status: Status, parent: Option<nat>, constitution: Option<nat>, crossRef: string,
    signature: Option<Signature>)

  /** The two tables. Content hashes of constitutions never change. */
  datatype State = State(rows: map<nat, Capsule>, constitutions: map<nat, string>, active: Option<nat>)

  /** What an edit may carry; name and version are heeded only for drafts. */
  datatype Updates = Updates(
    name: Option<string>, version: Option<string>, systemPrompt: Option<string>, traits: Option<string>,
    baseline: Option<string>, limits: Option<string>, policy: Option<string>, rest: Option<string>)

  datatype Op =
    | Create(
        id: nat, name: string, version: string, tenant: string, soul: Soul, limits: string, policy: string, rest: string)
    | Edit(id: nat, updates: Updates, newId: nat)
    | Certify(id: nat)
    | Archive(id: nat)
    | Activate(constitution: nat, contentHash: string)   // a new constitution takes over

  datatype Outcome = Done(id: nat) | Refused

  /** How numbers in versions are read, the tools every new row is linked to, and the tool policy of a new row
      that brings none. */
  datatype Setup = Setup(int_: string -> Option<int>, kit: set<string>, policy: string)

  function Or<T>(update: Option<T>, current: T): T {
    if update.Some? then update.value else current
  }

  // ---- signing ----

  function PayloadOf(c: Capsule, constitutions: map<nat, string>): Option<Payload> {
    if c.constitution.Some? && c.constitution.value in constitutions then
      Some(Payload(c.name, c.version, c.tenant,
                   ConstitutionRef(c.constitution.value, constitutions[c.constitution.value]), c.soul, c.limits))
    else None
  }

  /** `verify_capsule_integrity` */
  predicate Verifies(c: Capsule, constitutions: map<nat, string>) {
    c.signature.Some? && PayloadOf(c, constitutions).Some?
    && c.signature.value == Signed(PayloadOf(c, constitutions).value)
  }

  // ---- the operations ----

  /** The database keeps name, version and tenant unique together. */
  predicate Taken(rows: map<nat, Capsule>, name: string, version: string, tenant: string, except: Option<nat>) {
    exists id :: id in rows && Some(id) != except && Names(rows[id], name, version, tenant)
  }

  predicate Names(c: Capsule, name: string, version: string, tenant: string) {
    c.name == name && c.version == version && c.tenant == tenant
  }

  function Updated(c: Capsule, u: Updates): Capsule {
    c.(name := Or(u.name, c.name), version := Or(u.version, c.version),
       soul := Soul(Or(u.systemPrompt, c.soul.systemPrompt), Or(u.traits, c.soul.traits), Or(u.baseline, c.soul.baseline)),
       limits := Or(u.limits, c.limits), policy := Or(u.policy, c.policy), rest := Or(u.rest, c.rest))
  }

  /** The first insert of a row seeds the default kit and fills an empty policy. */
  function Inserted(setup: Setup, c: Capsule): Capsule {
    c.(tools := c.tools + setup.kit, policy := if c.policy == "" then setup.policy else c.policy)
  }

  function Created(
      setup: Setup, name: string, version: string, tenant: string, soul: Soul, limits: string, policy: string,
      rest: string): Capsule {
    Inserted(setup, Capsule(name, version, tenant, soul, limits, policy, rest, {}, Draft, None, None, "", None))
  }

  /** The draft an edited active capsule spawns: next version, same constitution and tools, no signature. */
  function Spawned(setup: Setup, id: nat, c: Capsule, u: Updates): Capsule {
    Inserted(setup, Updated(c, u).(name := c.name, version := Increment(setup.int_, c.version), status := Draft,
                                   parent := Some(id), crossRef := "", signature := None))
  }

  function Sealed(c: Capsule, constitution: nat, constitutions: map<nat, string>): Capsule
    requires constitution in constitutions
  {
    var bound := c.(constitution := Some(constitution));
    bound.(signature := Some(Signed(PayloadOf(bound, constitutions).value)), status := Active)
  }

  function Put(s: State, id: nat, c: Capsule): State { s.(rows := s.rows[id := c]) }

  /** One operation; a refused one leaves no trace. */
  function Apply(setup: Setup, s: State, op: Op): (State, Outcome) {
    match op
    case Create(id, name, version, tenant, soul, limits, policy, rest) =>
      if id in s.rows || Taken(s.rows, name, version, tenant, None) then (s, Refused)
      else (Put(s, id, Created(setup, name, version, tenant, soul, limits, policy, rest)), Done(id))
    case Edit(id, updates, newId) =>
      if id !in s.rows then (s, Refused)
      else
        var c := s.rows[id];
        (match c.status
         case Draft =>
           var edited := Updated(c, updates);
           if Taken(s.rows, edited.name, edited.version, edited.tenant, Some(id)) then (s, Refused)
           else (Put(s, id, edited), Done(id))
         case Active =>
           var spawned := Spawned(setup, id, c, updates);
           if newId in s.rows || Taken(s.rows, spawned.name, spawned.version, spawned.tenant, None) then (s, Refused)
           else (Put(s, newId, spawned), Done(newId))
         case Archived => (s, Refused))
    case Certify(id) =>
      if id !in s.rows || s.rows[id].status != Draft || s.active.None? || s.active.value !in s.constitutions
      then (s, Refused)
      else (Put(s, id, Sealed(s.rows[id], s.active.value, s.constitutions)), Done(id))
    case Archive(id) =>
      if id !in s.rows then (s, Refused) else (Put(s, id, s.rows[id].(status := Archived)), Done(id))
    case Activate(constitution, contentHash) =>
      if constitution in s.constitutions || contentHash in s.constitutions.Values then (s, Refused)
      else (s.(constitutions := s.constitutions[constitution := contentHash], active := Some(constitution)),
            Done(constitution))
  }

  /** A whole run. */
  function Run(setup: Setup, s: State, ops: seq<Op>): State {
    if ops == [] then s else Apply(setup, Run(setup, s, ops[..|ops| - 1]), ops[|ops| - 1]).0
  }

  function Empty(): State { State(map[], map[], None) }

  // ---- injecting ----

  /** What the runtime gets. */
  datatype Injected = Injected(capsule: Capsule) | NotFound | FailsIntegrity

  function Inject(s: State, id: nat): Injected {
    if id !in s.rows || s.rows[id].status != Active then NotFound
    else if !Verifies(s.rows[id], s.constitutions) then FailsIntegrity
    else Injected(s.rows[id])
  }

  // ---- the store ----

  /** An object in memory that stands for a row. */
  class CapsuleObject {
    const id: nat
    var capsule: Capsule

    constructor (id: nat, capsule: Capsule)
      ensures this.id == id && this.capsule == capsule
    {
      this.id, this.capsule := id, capsule;
    }
  }

  /** What certifying does to the tables when the caller holds `held` for the row. */
  function CertifyHeld(s: State, id: nat, held: Capsule): (State, Outcome) {
    if held.status != Draft || s.active.None? || s.active.value !in s.constitutions || id !in s.rows then (s, Refused)
    else (Put(s, id, Sealed(s.rows[id], s.active.value, s.constitutions)), Done(id))
  }

  /** The tables as the services change them, one row at a time. */
  class CapsuleStore {
    var rows: map<nat, Capsule>
    var constitutions: map<nat, string>
    var active: Option<nat>
    const setup: Setup

    ghost function Contents(): State reads this { State(rows, constitutions, active) }

    constructor (setup: Setup)
      ensures Contents() == Empty() && this.setup == setup
    {
      this.setup := setup;
      rows, constitutions, active := map[], map[], None;
    }

    method CreateCapsule(
        id: nat, name: string, version: string, tenant: string, soul: Soul, limits: string, policy: string, rest: string)
      returns (r: Outcome)
      modifies this`rows
      ensures (Contents(), r) ==
        Apply(setup, old(Contents()), Create(id, name, version, tenant, soul, limits, policy, rest))
    {
      hide Taken;
      if id in rows || Taken(rows, name, version, tenant, None) { return Refused; }
      rows := rows[id := Created(setup, name, version, tenant, soul, limits, policy, rest)];
      r := Done(id);
    }

    method EditCapsule(id: nat, updates: Updates, newId: nat) returns (r: Outcome)
      modifies this`rows
      ensures (Contents(), r) == Apply(setup, old(Contents()), Edit(id, updates, newId))
    {
      hide Taken, Updated, Increment;
      if id !in rows { return Refused; }
      var capsule := rows[id];
      if capsule.status == Draft {
        var edited := Updated(capsule, updates);
        if Taken(rows, edited.name, edited.version, edited.tenant, Some(id)) { return Refused; }
        rows := rows[id := edited];
        return Done(id);
      } else if capsule.status == Active {
        var spawned := Spawned(setup, id, capsule, updates);
        if newId in rows || Taken(rows, spawned.name, spawned.version, spawned.tenant, None) { return Refused; }
        rows := rows[newId := spawned];
        return Done(newId);
      }
      r := Refused;
    }

    /** The caller's object decides whether there is a draft to certify, and gets the new references; it is another
        object, fetched anew, that is bound, signed and only then activated, and whose row is saved. */
    method CertifyCapsule(held: CapsuleObject, crossRef: string) returns (r: Outcome)
      modifies this`rows, held`capsule
      ensures (Contents(), r) == CertifyHeld(old(Contents()), held.id, old(held.capsule))
      ensures old(held.capsule).status == Draft && active.Some? && active.value in constitutions ==>
        held.capsule == old(held.capsule).(constitution := active, crossRef := crossRef)
      ensures !(old(held.capsule).status == Draft && active.Some? && active.value in constitutions) ==>
        held.capsule == old(held.capsule)
    {
      if held.capsule.status != Draft { return Refused; }
      if active.None? || active.value !in constitutions { return Refused; }
      held.capsule := held.capsule.(constitution := active, crossRef := crossRef);
      if held.id !in rows { return Refused; }
      ghost var before := rows;
      var fetched := rows[held.id];
      fetched := fetched.(constitution := active);
      fetched := fetched.(signature := Some(Signed(PayloadOf(fetched, constitutions).value)));
      fetched := fetched.(status := Active);
      rows := rows[held.id := fetched];
      assert rows == before[held.id := Sealed(before[held.id], active.value, constitutions)];
      r := Done(held.id);
    }

    method ArchiveCapsule(id: nat) returns (r: Outcome)
      modifies this`rows
      ensures (Contents(), r) == Apply(setup, old(Contents()), Archive(id))
    {
      if id !in rows { return Refused; }
      if rows[id].status == Archived {
        assert rows[id := rows[id].(status := Archived)] == rows;
        return Done(id);
      }
      rows := rows[id := rows[id].(status := Archived)];
      r := Done(id);
    }

    method ActivateConstitution(constitution: nat, contentHash: string) returns (r: Outcome)
      modifies this`constitutions, this`active
      ensures (Contents(), r) == Apply(setup, old(Contents()), Activate(constitution, contentHash))
    {
      if constitution in constitutions || contentHash in constitutions.Values { return Refused; }
      constitutions, active := constitutions[constitution := contentHash], Some(constitution);
      r := Done(constitution);
    }

    method InjectCapsule(id: nat) returns (r: Injected)
      ensures r == Inject(Contents(), id)
    {
      if id !in rows || rows[id].status != Active { return NotFound; }
      if !Verifies(rows[id], constitutions) { return FailsIntegrity; }
      r := Injected(rows[id]);
    }
  }
}
