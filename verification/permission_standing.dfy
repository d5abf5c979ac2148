/** When remembering is harmless, told from the requests alone: whatever the
    membership store and the engine say. */
module PermissionStanding {
  import opened Text
  import opened PermissionMatrix
  import opened PermissionCache

  /** What a request brings along: nothing that could allow it, something that does, or the membership store's word. */
  datatype Standing = Never | Always | FromStore

  ghost predicate SomeRoleGrants(catalog: Catalog, p: string) {
    exists role :: role in catalog.grants && p in catalog.grants[role]
  }

  ghost function StandingOf(catalog: Catalog, r: Request): Standing {
    if NonEmpty(r.tenant, "") == "" then Never
    else if r.scopes.Some? then (if r.permission in r.scopes.value then Always else Never)
    else if r.roles.Some? then (if r.permission in catalog.Granted(r.roles.value) then Always else Never)
    else if r.user != "" && SomeRoleGrants(catalog, r.permission) then FromStore
    else Never
  }

  lemma {:induction false} NoRoleGrantsNothing(catalog: Catalog, roles: seq<string>, p: string)
    requires !SomeRoleGrants(catalog, p)
    ensures p !in catalog.Granted(roles)
  {}

  /** The cascade's answer, from the standing, the store and the engine. */
  lemma {:induction false} AllowedByStanding(catalog: Catalog, attached: bool, w: World, r: Request)
    requires r.permission in catalog.levels
    ensures Allowed(catalog, attached, w, r) <==>
      (attached ==> EngineAllows(catalog, w, r))
      && match StandingOf(catalog, r)
         case Never => false
         case Always => true
         case FromStore => r.permission in catalog.Granted(w.rolesFor(r.user, r.tenant))
  {
    hide EngineAllows, NonEmpty;
    if !SomeRoleGrants(catalog, r.permission) {
      NoRoleGrantsNothing(catalog, Roles(w, r.user, r.tenant, r.roles), r.permission);
    }
  }

  /** What a caller does: ask, or clear. */
  datatype Call = Asked(request: Request) | Cleared

  /** How many clears come before the n-th call. */
  function Clears(calls: seq<Call>, n: nat): nat
    requires n <= |calls|
  {
    if n == 0 then 0 else Clears(calls, n - 1) + if calls[n - 1].Cleared? then 1 else 0
  }

  /** What the membership store and the engine say between two clears, counted by the clears so far. */
  type Worlds = nat -> World

  function Constant(w: World): Worlds { epoch => w }

  /** The calls as a history, in surroundings that change at clears only. */
  ghost function Under(ws: Worlds, calls: seq<Call>): (history: seq<Event>)
    ensures |history| == |calls|
    ensures forall i :: 0 <= i < |calls| ==>
      history[i] == if calls[i].Asked? then Ask(ws(Clears(calls, i)), calls[i].request) else Clear
  {
    seq(|calls|, i requires 0 <= i < |calls| =>
      if calls[i].Asked? then Ask(ws(Clears(calls, i)), calls[i].request) else Clear)
  }

  lemma {:induction false} SameEpochSameWorld(calls: seq<Call>, a: nat, b: nat)
    requires a <= b < |calls| && forall i :: a <= i <= b ==> calls[i].Asked?
    ensures Clears(calls, a) == Clears(calls, b)
  {
    if a < b { SameEpochSameWorld(calls, a, b - 1); }
  }

  /** Two requests about one known permission, subject and place, with no clear in between. */
  predicate AskedAgain(catalog: Catalog, calls: seq<Call>, a: int, b: int) {
    && 0 <= a <= b < |calls| && (forall i :: a <= i <= b ==> calls[i].Asked?)
    && SameQuestion(calls[a].request, calls[b].request) && calls[a].request.permission in catalog.levels
  }

  /** A question asked again comes with the same standing. */
  ghost predicate SameStanding(catalog: Catalog, calls: seq<Call>) {
    forall a, b :: AskedAgain(catalog, calls, a, b) ==>
      StandingOf(catalog, calls[a].request) == StandingOf(catalog, calls[b].request)
  }

  predicate PlainCalls(catalog: Catalog, calls: seq<Call>) {
    && (forall p :: p in catalog.levels ==> FamilyVerb(p))
    && forall i :: 0 <= i < |calls| && calls[i].Asked? ==> Plain(calls[i].request)
  }

  lemma {:induction false} RepeatsAreAskedAgain(catalog: Catalog, ws: Worlds, calls: seq<Call>, a: int, b: int)
    requires PlainCalls(catalog, calls)
    ensures Repeats(catalog, Under(ws, calls), a, b) <==> AskedAgain(catalog, calls, a, b)
  {
    var history := Under(ws, calls);
    hide Plain, FamilyVerb, Key;
    if Repeats(catalog, history, a, b) {
      assert history[a].Ask? && history[b].Ask? && forall i :: a <= i <= b ==> history[i].Ask?;
      assert FamilyVerb(history[a].request.permission) && FamilyVerb(history[b].request.permission);
      KeyInjective(history[a].request, history[b].request);
    }
    if AskedAgain(catalog, calls, a, b) {
      assert forall i :: a <= i <= b ==> history[i].Ask?;
      SameKey(calls[a].request, calls[b].request);
    }
  }

  lemma {:induction false} SameKey(r: Request, q: Request)
    requires SameQuestion(r, q)
    ensures Key(r) == Key(q)
  {
    hide Join;
  }

  lemma {:induction false} SameEngineWord(catalog: Catalog, w: World, r: Request, q: Request)
    requires SameQuestion(r, q) && r.permission in catalog.levels
    ensures EngineAllows(catalog, w, r) == EngineAllows(catalog, w, q)
  {
    hide Underscored;
  }

  lemma {:induction false} SameStandingIsSteady(catalog: Catalog, attached: bool, ws: Worlds, calls: seq<Call>)
    requires PlainCalls(catalog, calls) && SameStanding(catalog, calls)
    ensures Steady(catalog, attached, Under(ws, calls))
  {
    var history := Under(ws, calls);
    forall a, b | Repeats(catalog, history, a, b)
      ensures AllowedAt(catalog, attached, history, a) == AllowedAt(catalog, attached, history, b)
    {
      RepeatsAreAskedAgain(catalog, ws, calls, a, b);
      SameEpochSameWorld(calls, a, b);
      var r, q, w := calls[a].request, calls[b].request, ws(Clears(calls, a));
      assert StandingOf(catalog, r) == StandingOf(catalog, q);
      hide Plain, FamilyVerb, Key, EngineAllows, StandingOf, Allowed, Repeats;
      AllowedByStanding(catalog, attached, w, r);
      AllowedByStanding(catalog, attached, w, q);
      SameEngineWord(catalog, w, r, q);
    }
  }

  /** Surroundings in which the engine agrees to everything and everyone holds these roles. */
  function Holding(roles: seq<string>): World {
    World((user, tenant) => roles, (subject, permission, resource) => Yes)
  }

  /** Different standings show in some surroundings. */
  lemma {:induction false} StandingShows(catalog: Catalog, attached: bool, r: Request, q: Request) returns (w: World)
    requires r.permission in catalog.levels && q.permission == r.permission
    requires StandingOf(catalog, r) != StandingOf(catalog, q)
    ensures Allowed(catalog, attached, w, r) != Allowed(catalog, attached, w, q)
  {
    var roles: seq<string> := [];
    if SomeRoleGrants(catalog, r.permission) && (StandingOf(catalog, r) == Never || StandingOf(catalog, q) == Never) {
      var role :| role in catalog.grants && r.permission in catalog.grants[role];
      roles := [role];
      assert roles[0] == role && r.permission in catalog.Granted(roles);
    }
    assert catalog.Granted([]) == {};
    w := Holding(roles);
    assert EngineAllows(catalog, w, r) && EngineAllows(catalog, w, q) by { hide Underscored; }
    hide EngineAllows, Allowed, NonEmpty;
    AllowedByStanding(catalog, attached, w, r);
    AllowedByStanding(catalog, attached, w, q);
  }

  /** For given calls with plain identifiers: the remembered answers are the cascade's whatever the membership store
      and the engine say, as long as these two change at clears only, if and only if every question asked again between
      two clears comes with the same standing. It is the same if they never change at all. */
  lemma {:induction false} HarmlessExactly(catalog: Catalog, attached: bool, calls: seq<Call>)
    requires PlainCalls(catalog, calls)
    ensures (forall ws: Worlds :: Faithful(catalog, attached, Under(ws, calls))) <==> SameStanding(catalog, calls)
    ensures (forall w: World :: Faithful(catalog, attached, Under(Constant(w), calls))) <==> SameStanding(catalog, calls)
  {
    hide PlainCalls, Under, StandingOf, Constant;
    if SameStanding(catalog, calls) {
      forall ws: Worlds ensures Faithful(catalog, attached, Under(ws, calls)) {
        hide *;
        SameStandingIsSteady(catalog, attached, ws, calls);
        CacheFaithfulExactly(catalog, attached, Under(ws, calls));
      }
    }
    if !SameStanding(catalog, calls) {
      var a, b :| AskedAgain(catalog, calls, a, b)
        && StandingOf(catalog, calls[a].request) != StandingOf(catalog, calls[b].request);
      var w := StandingShows(catalog, attached, calls[a].request, calls[b].request);
      UnfaithfulUnder(catalog, attached, w, calls, a, b);
    }
  }

  lemma {:induction false} UnfaithfulUnder(
      catalog: Catalog, attached: bool, w: World, calls: seq<Call>, a: int, b: int)
    requires PlainCalls(catalog, calls) && AskedAgain(catalog, calls, a, b)
    requires Allowed(catalog, attached, w, calls[a].request) != Allowed(catalog, attached, w, calls[b].request)
    ensures !Faithful(catalog, attached, Under(Constant(w), calls))
  {
    RepeatsAreAskedAgain(catalog, Constant(w), calls, a, b);
    var history := Under(Constant(w), calls);
    assert history[a].world == w && history[b].world == w;
    assert AllowedAt(catalog, attached, history, a) != AllowedAt(catalog, attached, history, b) by { hide Allowed, Clears; }
    assert !Steady(catalog, attached, history) by { hide AllowedAt, Repeats; }
    hide *;
    CacheFaithfulExactly(catalog, attached, history);
  }

  /** In particular, callers who bring the same roles and scopes along with the same question are safe. */
  lemma {:induction false} SameCredentialsAreHarmless(
      catalog: Catalog, attached: bool, ws: Worlds, calls: seq<Call>)
    requires PlainCalls(catalog, calls)
    requires forall a, b :: AskedAgain(catalog, calls, a, b) ==>
      calls[a].request.roles == calls[b].request.roles && calls[a].request.scopes == calls[b].request.scopes
    ensures Faithful(catalog, attached, Under(ws, calls))
  {
    hide StandingOf, PlainCalls, Under;
    forall a, b | AskedAgain(catalog, calls, a, b)
      ensures StandingOf(catalog, calls[a].request) == StandingOf(catalog, calls[b].request)
    {
      assert calls[a].request == calls[b].request;
    }
    hide *;
    SameStandingIsSteady(catalog, attached, ws, calls);
    CacheFaithfulExactly(catalog, attached, Under(ws, calls));
  }
}
