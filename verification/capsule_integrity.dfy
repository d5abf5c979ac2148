/** What holds of capsules in every reachable state. */
module CapsuleIntegrity {
  import opened Text
  import opened CapsuleVersions
  import opened CapsuleCore

  /** Active capsules verify, the active constitution is in its table, and no two rows share a name, version and tenant. */
  ghost predicate Sound(s: State) {
    && (forall id :: id in s.rows && s.rows[id].status == Active ==> Verifies(s.rows[id], s.constitutions))
    && (s.active.Some? ==> s.active.value in s.constitutions)
    && forall a, b :: a in s.rows && b in s.rows && a != b ==>
        !Names(s.rows[a], s.rows[b].name, s.rows[b].version, s.rows[b].tenant)
  }

  lemma {:induction false} PutSound(s: State, id: nat, c: Capsule)
    requires Sound(s) && (c.status == Active ==> Verifies(c, s.constitutions))
    requires !Taken(s.rows, c.name, c.version, c.tenant, Some(id))
    ensures Sound(Put(s, id, c))
  {
    hide Verifies;
  }

  lemma {:induction false} FreshIsNotTaken(s: State, id: nat, c: Capsule)
    requires id !in s.rows && !Taken(s.rows, c.name, c.version, c.tenant, None)
    ensures !Taken(s.rows, c.name, c.version, c.tenant, Some(id))
  {}

  lemma {:induction false} OwnNameIsNotTaken(s: State, id: nat, c: Capsule)
    requires Sound(s) && id in s.rows && Names(c, s.rows[id].name, s.rows[id].version, s.rows[id].tenant)
    ensures !Taken(s.rows, c.name, c.version, c.tenant, Some(id))
  {}

  lemma {:induction false} SealedVerifies(c: Capsule, constitution: nat, constitutions: map<nat, string>)
    requires constitution in constitutions
    ensures Verifies(Sealed(c, constitution, constitutions), constitutions)
  {}

  lemma {:induction false} ActivateSound(s: State, constitution: nat, contentHash: string)
    requires Sound(s) && constitution !in s.constitutions
    ensures Sound(s.(constitutions := s.constitutions[constitution := contentHash], active := Some(constitution)))
  {}

  lemma {:induction false} ApplySound(setup: Setup, s: State, op: Op)
    requires Sound(s)
    ensures Sound(Apply(setup, s, op).0)
  {
    hide Sound, Taken, Verifies, Names, Updated, Increment;
    match op {
      case Create(id, name, version, tenant, soul, limits, policy, rest) =>
        if id !in s.rows && !Taken(s.rows, name, version, tenant, None) {
          var c := Created(setup, name, version, tenant, soul, limits, policy, rest);
          FreshIsNotTaken(s, id, c);
          PutSound(s, id, c);
        }
      case Edit(id, updates, newId) =>
        if id in s.rows && s.rows[id].status == Draft {
          var c := Updated(s.rows[id], updates);
          UpdatedKeepsStatus(s.rows[id], updates);
          if !Taken(s.rows, c.name, c.version, c.tenant, Some(id)) { PutSound(s, id, c); }
        } else if id in s.rows && s.rows[id].status == Active {
          var c := Spawned(setup, id, s.rows[id], updates);
          if newId !in s.rows && !Taken(s.rows, c.name, c.version, c.tenant, None) {
            FreshIsNotTaken(s, newId, c);
            PutSound(s, newId, c);
          }
        }
      case Certify(id) =>
        if id in s.rows && s.rows[id].status == Draft && s.active.Some? && s.active.value in s.constitutions {
          var c := Sealed(s.rows[id], s.active.value, s.constitutions);
          SealedVerifies(s.rows[id], s.active.value, s.constitutions);
          SameNames(c, s.rows[id]);
          OwnNameIsNotTaken(s, id, c);
          PutSound(s, id, c);
        }
      case Archive(id) =>
        if id in s.rows {
          var c := s.rows[id].(status := Archived);
          SameNames(c, s.rows[id]);
          OwnNameIsNotTaken(s, id, c);
          PutSound(s, id, c);
        }
      case Activate(constitution, contentHash) =>
        if constitution !in s.constitutions { ActivateSound(s, constitution, contentHash); }
    }
  }

  lemma {:induction false} SameNames(c: Capsule, d: Capsule)
    requires c.name == d.name && c.version == d.version && c.tenant == d.tenant
    ensures Names(c, d.name, d.version, d.tenant)
  {}

  lemma {:induction false} UpdatedKeepsStatus(c: Capsule, u: Updates)
    ensures Updated(c, u).status == c.status && Updated(c, u).tenant == c.tenant
  {}

  lemma {:induction false} RunSound(setup: Setup, s: State, ops: seq<Op>)
    requires Sound(s)
    ensures Sound(Run(setup, s, ops))
  {
    if ops != [] {
      var n := |ops| - 1;
      hide Sound, Apply;
      RunSound(setup, s, ops[..n]);
      ApplySound(setup, Run(setup, s, ops[..n]), ops[n]);
    }
  }

  /** In every reachable state every active capsule verifies, so injecting finds it and returns it as it is. */
  lemma {:induction false} ActiveAlwaysVerifies(setup: Setup, ops: seq<Op>, id: nat)
    requires id in Run(setup, Empty(), ops).rows && Run(setup, Empty(), ops).rows[id].status == Active
    ensures var s := Run(setup, Empty(), ops);
      Verifies(s.rows[id], s.constitutions) && Inject(s, id) == Injected(s.rows[id])
  {
    RunSound(setup, Empty(), ops);
    hide Run, Verifies;
  }

  // ---- sealed for good ----

  predicate IsSealed(c: Capsule) { c.status != Draft }

  /** Everything but the status. */
  predicate SameContent(c: Capsule, d: Capsule) { d == c.(status := d.status) }

  /** Nothing a sealed capsule consists of ever changes; it can only be archived, and for good. Constitutions
      stay as they are. */
  ghost predicate Kept(s: State, t: State) {
    && (forall id :: id in s.rows ==> id in t.rows)
    && (forall id :: id in s.rows && IsSealed(s.rows[id]) ==>
          SameContent(s.rows[id], t.rows[id]) && IsSealed(t.rows[id])
          && (s.rows[id].status == Archived ==> t.rows[id].status == Archived))
    && forall k :: k in s.constitutions ==> k in t.constitutions && t.constitutions[k] == s.constitutions[k]
  }

  lemma {:induction false} PutKeeps(s: State, id: nat, c: Capsule)
    requires id in s.rows && IsSealed(s.rows[id]) ==>
      SameContent(s.rows[id], c) && IsSealed(c) && (s.rows[id].status == Archived ==> c.status == Archived)
    ensures Kept(s, Put(s, id, c))
  {
    hide SameContent;
    assert forall other :: other in s.rows ==> SameContent(s.rows[other], s.rows[other]) by { SameAsItself(); }
  }

  lemma {:induction false} SameAsItself()
    ensures forall c :: SameContent(c, c)
  {}

  lemma {:induction false} ApplyKeeps(setup: Setup, s: State, op: Op)
    ensures Kept(s, Apply(setup, s, op).0)
  {
    var t := Apply(setup, s, op).0;
    hide Kept, Taken, Verifies, Updated, Spawned, Created, SameContent;
    if t == s {
      NothingKeeps(s);
    } else {
      match op {
        case Create(id, name, version, tenant, soul, limits, policy, rest) =>
          PutKeeps(s, id, Created(setup, name, version, tenant, soul, limits, policy, rest));
        case Edit(id, updates, newId) =>
          if s.rows[id].status == Draft {
            PutKeeps(s, id, Updated(s.rows[id], updates));
          } else {
            PutKeeps(s, newId, Spawned(setup, id, s.rows[id], updates));
          }
        case Certify(id) => PutKeeps(s, id, t.rows[id]);
        case Archive(id) =>
          ArchivedIsSame(s.rows[id]);
          PutKeeps(s, id, s.rows[id].(status := Archived));
        case Activate(constitution, contentHash) => ActivateKeeps(s, t, constitution, contentHash);
      }
    }
  }

  lemma {:induction false} NothingKeeps(s: State)
    ensures Kept(s, s)
  {}

  lemma {:induction false} ArchivedIsSame(c: Capsule)
    ensures SameContent(c, c.(status := Archived))
  {}

  lemma {:induction false} ActivateKeeps(s: State, t: State, constitution: nat, contentHash: string)
    requires constitution !in s.constitutions
    requires t == s.(constitutions := s.constitutions[constitution := contentHash], active := Some(constitution))
    ensures Kept(s, t)
  {}

  lemma {:induction false} KeptChains(s: State, t: State, u: State)
    requires Kept(s, t) && Kept(t, u)
    ensures Kept(s, u)
  {}

  lemma {:induction false} RunKeeps(setup: Setup, s: State, ops: seq<Op>)
    ensures Kept(s, Run(setup, s, ops))
  {
    if ops != [] {
      var n := |ops| - 1;
      RunKeeps(setup, s, ops[..n]);
      ApplyKeeps(setup, Run(setup, s, ops[..n]), ops[n]);
      hide Kept, Apply;
      KeptChains(s, Run(setup, s, ops[..n]), Run(setup, s, ops));
    } else {
      hide Names;
    }
  }

  /** Whatever happens to a sealed capsule, what was signed for it stays signed and stays what it is. */
  lemma {:induction false} SealedContentNeverChanges(setup: Setup, s: State, ops: seq<Op>, id: nat)
    requires id in s.rows && IsSealed(s.rows[id])
    ensures var t := Run(setup, s, ops);
      && id in t.rows && IsSealed(t.rows[id]) && SameContent(s.rows[id], t.rows[id])
      && (PayloadOf(s.rows[id], s.constitutions).Some? ==>
            PayloadOf(t.rows[id], t.constitutions) == PayloadOf(s.rows[id], s.constitutions))
      && (Verifies(s.rows[id], s.constitutions) ==> Verifies(t.rows[id], t.constitutions))
  {
    RunKeeps(setup, s, ops);
    hide Run;
  }

  /** Injection fails exactly for those active capsules whose content is not what the registry signed; a change
      to any signed field is noticed. */
  lemma {:induction false} TamperedNeverInjects(s: State, id: nat, payload: Payload)
    requires id in s.rows && s.rows[id].status == Active && s.rows[id].signature == Some(Signed(payload))
    ensures Inject(s, id) == Injected(s.rows[id]) <==> PayloadOf(s.rows[id], s.constitutions) == Some(payload)
    ensures Inject(s, id) == FailsIntegrity <==> PayloadOf(s.rows[id], s.constitutions) != Some(payload)
  {
    assert Signed(payload).payload == payload;
  }

  /** The signed fields, one by one: a capsule that differs from a verifying one in any of them, under the same
      signature, does not verify. */
  lemma {:induction false} EverySignedFieldCounts(c: Capsule, d: Capsule, constitutions: map<nat, string>)
    requires Verifies(c, constitutions) && d.signature == c.signature
    ensures Verifies(d, constitutions) <==>
      d.name == c.name && d.version == c.version && d.tenant == c.tenant && d.soul == c.soul && d.limits == c.limits
      && d.constitution == c.constitution
  {}

  // ---- certification and editing ----

  /** Certifying a draft seals exactly what its row was under the active constitution; the cross-system reference of
      the row stays what it was, although the caller's object has got a new one. */
  lemma {:induction false} CertifySeals(setup: Setup, s: State, id: nat)
    requires Sound(s)
    ensures var (t, outcome) := Apply(setup, s, Certify(id));
      && (outcome == Done(id) <==> id in s.rows && s.rows[id].status == Draft && s.active.Some?)
      && (outcome == Done(id) ==>
            && id in t.rows && t.rows[id].status == Active && Verifies(t.rows[id], t.constitutions)
            && t.rows[id].constitution == s.active
            && t.rows[id].(status := Draft, constitution := None, signature := None)
                == s.rows[id].(constitution := None, signature := None)
            && t.rows[id].crossRef == s.rows[id].crossRef)
      && (outcome == Refused ==> t == s)
  {
    if id in s.rows && s.rows[id].status == Draft && s.active.Some? {
      SealedVerifies(s.rows[id], s.active.value, s.constitutions);
    }
    hide Verifies;
  }

  /** The object the caller holds matters only through its status: certifying by it is certifying the row exactly
      when both are drafts or neither is, or there is nothing to certify with. */
  lemma {:induction false} CertifiesTheRow(setup: Setup, s: State, id: nat, held: Capsule)
    requires Sound(s) && id in s.rows
    ensures CertifyHeld(s, id, held) == Apply(setup, s, Certify(id)) <==>
      s.active.None? || (held.status == Draft <==> s.rows[id].status == Draft)
  {
    hide Verifies;
  }

  /** So an object that still says draft brings an archived capsule back to life. */
  lemma {:induction false} StaleObjectRevives(s: State, id: nat, held: Capsule)
    requires Sound(s) && id in s.rows && s.rows[id].status == Archived && held.status == Draft && s.active.Some?
    ensures var (t, outcome) := CertifyHeld(s, id, held);
      outcome == Done(id) && id in t.rows && t.rows[id].status == Active && Inject(t, id) == Injected(t.rows[id])
  {
    SealedVerifies(s.rows[id], s.active.value, s.constitutions);
    hide Verifies;
  }

  /** A field an edit carries gets the new value, any other keeps the old one. */
  predicate Carries(u: Updates, c: Capsule, d: Capsule) {
    && d.soul == Soul(Or(u.systemPrompt, c.soul.systemPrompt), Or(u.traits, c.soul.traits), Or(u.baseline, c.soul.baseline))
    && d.limits == Or(u.limits, c.limits) && d.rest == Or(u.rest, c.rest)
  }

  /** Some row has this name, version and tenant. */
  predicate Named(s: State, name: string, version: string, tenant: string) {
    exists other :: other in s.rows && Names(s.rows[other], name, version, tenant)
  }

  /** Editing an active capsule is refused exactly when the new identifier is taken or some row has the name and
      tenant with the next version; it is the capsule's version alone that decides, not what the edit carries. */
  lemma {:induction false} EditRefusedExactly(setup: Setup, s: State, id: nat, u: Updates, newId: nat)
    requires id in s.rows && s.rows[id].status == Active
    ensures var c := s.rows[id];
      Apply(setup, s, Edit(id, u, newId)).1 == Refused
      <==> (newId in s.rows || Named(s, c.name, Increment(setup.int_, c.version), c.tenant))
  {
    var c := s.rows[id];
    hide Increment, Names;
    assert Taken(s.rows, c.name, Increment(setup.int_, c.version), c.tenant, None)
      <==> Named(s, c.name, Increment(setup.int_, c.version), c.tenant);
  }

  /** Editing an active capsule leaves it alone and spawns a draft of it with a newer version. */
  lemma {:induction false} EditSpawns(setup: Setup, s: State, id: nat, u: Updates, newId: nat)
    requires ReadsInts(setup.int_) && id in s.rows && s.rows[id].status == Active
    requires Apply(setup, s, Edit(id, u, newId)).1 != Refused
    ensures var t := Apply(setup, s, Edit(id, u, newId)).0;
      && newId !in s.rows && newId in t.rows && t == Put(s, newId, t.rows[newId])
      && var c, d := s.rows[id], t.rows[newId];
        d.status == Draft && d.parent == Some(id) && d.signature.None?
        && d.name == c.name && d.tenant == c.tenant && d.constitution == c.constitution && Carries(u, c, d)
        && (Or(u.policy, c.policy) != "" ==> d.policy == Or(u.policy, c.policy)) && d.tools == c.tools + setup.kit
        && d.version == Increment(setup.int_, c.version) && Newer(setup.int_, c.version, d.version)
  {
    IncrementIsNewer(setup.int_, s.rows[id].version);
    hide Increment, Newer, ReadsInts, Taken;
  }

  /** After an edit and whatever else happens, a further edit of the same capsule is refused exactly when the capsule
      is no longer active, the new identifier is taken, or some row has the name, tenant and next version of the
      capsule as it was. */
  lemma {:induction false} LaterEditRefusedExactly(
      setup: Setup, s: State, id: nat, ops: seq<Op>, v: Updates, other: nat)
    requires id in s.rows && s.rows[id].status == Active
    ensures var c, t := s.rows[id], Run(setup, s, ops);
      id in t.rows &&
      (Apply(setup, t, Edit(id, v, other)).1 == Refused
       <==> (t.rows[id].status == Archived || other in t.rows
             || Named(t, c.name, Increment(setup.int_, c.version), c.tenant)))
  {
    var t := Run(setup, s, ops);
    RunKeeps(setup, s, ops);
    assert SameContent(s.rows[id], t.rows[id]) && IsSealed(t.rows[id]);
    hide Run, Kept, Increment, Named, Taken;
    if t.rows[id].status == Active { EditRefusedExactly(setup, t, id, v, other); }
  }

  predicate KeepsNames(c: Capsule, d: Capsule) { d.name == c.name && d.version == c.version && d.tenant == c.tenant }

  /** In particular it is refused as long as the draft that the edit spawned keeps its name and version. */
  lemma {:induction false} RefusedWhileDraftKeepsName(
      setup: Setup, s: State, id: nat, u: Updates, newId: nat, ops: seq<Op>, v: Updates, other: nat)
    requires id in s.rows && s.rows[id].status == Active
    requires Apply(setup, s, Edit(id, u, newId)).1 != Refused
    ensures var first := Apply(setup, s, Edit(id, u, newId)).0;
      var t := Run(setup, first, ops);
      newId in first.rows && newId in t.rows &&
      (KeepsNames(first.rows[newId], t.rows[newId]) ==> Apply(setup, t, Edit(id, v, other)).1 == Refused)
  {
    var first := Apply(setup, s, Edit(id, u, newId)).0;
    var c, d := s.rows[id], first.rows[newId];
    assert first.rows[id] == c && d.name == c.name && d.version == Increment(setup.int_, c.version)
      && d.tenant == c.tenant by { hide Increment, Taken; }
    hide Increment, Apply;
    RunKeeps(setup, first, ops);
    LaterEditRefusedExactly(setup, first, id, ops, v, other);
    var t := Run(setup, first, ops);
    hide Run;
    if KeepsNames(d, t.rows[newId]) {
      assert Names(t.rows[newId], c.name, Increment(setup.int_, c.version), c.tenant);
    }
  }

  /** Another row has this name, version and tenant. */
  predicate NamedElsewhere(s: State, id: nat, name: string, version: string, tenant: string) {
    exists other :: other in s.rows && other != id && Names(s.rows[other], name, version, tenant)
  }

  /** Editing a draft changes what the edit carries in place and nothing of its standing; it is refused exactly
      when another row has the name and version it would get. */
  lemma {:induction false} EditsDraftInPlace(setup: Setup, s: State, id: nat, u: Updates, newId: nat)
    requires id in s.rows && s.rows[id].status == Draft
    ensures var (t, outcome) := Apply(setup, s, Edit(id, u, newId));
      && (outcome == Refused <==>
            NamedElsewhere(s, id, Or(u.name, s.rows[id].name), Or(u.version, s.rows[id].version), s.rows[id].tenant))
      && (outcome == Refused ==> t == s)
      && (outcome != Refused ==>
            && id in t.rows && t == Put(s, id, t.rows[id])
            && var c, d := s.rows[id], t.rows[id];
              Carries(u, c, d) && d.name == Or(u.name, c.name) && d.version == Or(u.version, c.version)
              && d.policy == Or(u.policy, c.policy)
              && d.(name := c.name, version := c.version, soul := c.soul, limits := c.limits, policy := c.policy,
                    rest := c.rest) == c)
  {
    hide Names, Increment;
    var c := Updated(s.rows[id], u);
    assert Taken(s.rows, c.name, c.version, c.tenant, Some(id)) <==> NamedElsewhere(s, id, c.name, c.version, c.tenant);
  }

  /** An archived capsule is never edited, certified, injected or anything but archived again; archiving always
      archives, and takes nothing but the status. */
  lemma {:induction false} ArchivedForGood(setup: Setup, s: State, id: nat, u: Updates, newId: nat)
    requires id in s.rows
    ensures var (t, outcome) := Apply(setup, s, Archive(id));
      && outcome == Done(id) && id in t.rows && t == Put(s, id, t.rows[id])
      && t.rows[id].status == Archived && SameContent(s.rows[id], t.rows[id])
    ensures s.rows[id].status == Archived ==>
      && Apply(setup, s, Edit(id, u, newId)) == (s, Refused) && Apply(setup, s, Certify(id)) == (s, Refused)
      && Inject(s, id) == NotFound && Apply(setup, s, Archive(id)).0 == s
  {
    hide Taken, Increment;
    if s.rows[id].status == Archived {
      assert s.rows[id := s.rows[id].(status := Archived)] == s.rows;
    }
  }
}
