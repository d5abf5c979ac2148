/** The permission cascade and the checker that remembers its answers. */
module PermissionMatrix {
  import opened Text

  datatype Level = System | Org | Agent | Resource

  /** The permission catalog: the level of every permission, and what every role grants. */
  datatype Catalog = Catalog(levels: map<string, Level>, grants: map<string, set<string>>) {
    /** The union over the roles; an unknown role grants nothing. */
    ghost function Granted(roles: seq<string>): set<string> {
      set role, p | role in roles && role in grants && p in grants[role] :: p
    }

    ghost predicate Valid() {
      forall role :: role in grants ==> grants[role] <= levels.Keys
    }
  }

  datatype Answer = Yes | No | Raises

  /** What a check asks of its surroundings at the moment it is made: the membership store, where a failed
      look-up yields no roles, and the policy engine, given subject, permission and resource. */
  datatype World = World(
    rolesFor: (string, Option<string>) -> seq<string>,
    engine: (string, string, string) -> Answer)

  datatype Request = Request(
    user: string, permission: string, tenant: Option<string>, agent: Option<string>,
    resource: Option<string>, roles: Option<seq<string>>, scopes: Option<seq<string>>)

  function Named(id: Option<string>, other: string): string {
    if id.Some? then id.value else other
  }

  /** `x or other` for an optional text. */
  function NonEmpty(id: Option<string>, other: string): string {
    if id.Some? && id.value != "" then id.value else other
  }

  /** The text a request is remembered under; the roles and scopes are not part of it. */
  function Key(r: Request): string {
    Join([r.user, r.permission, Named(r.tenant, "None"), Named(r.agent, "None"), Named(r.resource, "None")], ':')
  }

  function Roles(w: World, user: string, tenant: Option<string>, roles: Option<seq<string>>): seq<string> {
    if roles.Some? then roles.value else if user == "" then [] else w.rolesFor(user, tenant)
  }

  /** What the principal holds inside one organization: a key exactly its scopes, a person what the roles
      grant, and nobody anything without an organization. */
  ghost function Principal(
      catalog: Catalog, roles: seq<string>, scopes: Option<seq<string>>, org: Option<string>): set<string> {
    if NonEmpty(org, "") == "" then {}
    else if scopes.Some? then set s | s in scopes.value && s in catalog.levels
    else catalog.Granted(roles)
  }

  function Underscored(permission: string): string {
    seq(|permission|, i requires 0 <= i < |permission| => if permission[i] == ':' then '_' else permission[i])
  }

  /** The engine's word on a known permission; a failing engine denies. */
  predicate EngineAllows(catalog: Catalog, w: World, r: Request)
    requires r.permission in catalog.levels
  {
    var resource := match catalog.levels[r.permission]
      case System => "system:global"
      case Org => "org:" + NonEmpty(r.tenant, "unknown")
      case Agent => "agent:" + NonEmpty(r.agent, "unknown")
      case Resource => "resource:" + NonEmpty(r.resource, "unknown");
    w.engine("user:" + r.user, Underscored(r.permission), resource) == Yes
  }

  /** The plain cascade, without any memory: known, granted, and not narrowed away by an attached engine. */
  ghost predicate Allowed(catalog: Catalog, attached: bool, w: World, r: Request) {
    && r.permission in catalog.levels
    && r.permission in Principal(catalog, Roles(w, r.user, r.tenant, r.roles), r.scopes, r.tenant)
    && (attached ==> EngineAllows(catalog, w, r))
  }

  /** Attaching an engine never adds a permission. */
  lemma {:induction false} EngineOnlyNarrows(catalog: Catalog, w: World, r: Request)
    ensures Allowed(catalog, true, w, r) <==>
      Allowed(catalog, false, w, r) && EngineAllows(catalog, w, r)
  {
    hide EngineAllows, Principal, Roles;
  }

  /** Whoever asks without an organization, with scopes that do not list the permission, or as nobody, gets nothing. */
  lemma {:induction false} NoAuthorityFromNowhere(catalog: Catalog, attached: bool, w: World, r: Request)
    requires NonEmpty(r.tenant, "") == ""
          || (r.scopes.Some? && r.permission !in r.scopes.value)
          || (r.scopes.None? && r.user == "" && r.roles.None?)
    ensures !Allowed(catalog, attached, w, r)
  {
    hide EngineAllows, NonEmpty;
  }

  // ---- histories ----

  /** One thing that happens to a checker. */
  datatype Event = Ask(world: World, request: Request) | Clear

  /** What the checker remembers after a history. */
  ghost function Remembered(catalog: Catalog, attached: bool, history: seq<Event>): map<string, bool> {
    if history == [] then map[]
    else
      var last, before := history[|history| - 1], Remembered(catalog, attached, history[..|history| - 1]);
      match last
      case Clear => map[]
      case Ask(w, r) =>
        if r.permission !in catalog.levels || Key(r) in before then before
        else before[Key(r) := Allowed(catalog, attached, w, r)]
  }

  /** The answer to the last request of a history. */
  ghost predicate Answered(catalog: Catalog, attached: bool, history: seq<Event>)
    requires history != [] && history[|history| - 1].Ask?
  {
    var r := history[|history| - 1].request;
    var memory := Remembered(catalog, attached, history);
    r.permission in catalog.levels && Key(r) in memory && memory[Key(r)]
  }

  datatype Reason = UnknownPermission | FromMemory | NotGranted | EngineDenied | RolesAllow

  /** What a check reports. */
  datatype Outcome = Outcome(allowed: bool, level: Level, reason: Reason)

  /** Why a check of an unremembered request ends as it does. */
  ghost function WhyOf(catalog: Catalog, attached: bool, w: World, r: Request): Reason {
    if r.permission !in catalog.levels then UnknownPermission
    else if r.permission !in Principal(catalog, Roles(w, r.user, r.tenant, r.roles), r.scopes, r.tenant) then NotGranted
    else if attached && !EngineAllows(catalog, w, r) then EngineDenied
    else RolesAllow
  }

  /** The checker: what it remembers, and, for the proof, all that happened to it. */
  class PermissionChecker {
    const attached: bool
    const catalog: Catalog
    var cache: map<string, bool>
    ghost var history: seq<Event>

    ghost predicate Valid() reads this {
      catalog.Valid() && cache == Remembered(catalog, attached, history)
    }

    constructor (catalog: Catalog, attached: bool)
      requires catalog.Valid()
      ensures Valid() && history == [] && this.catalog == catalog && this.attached == attached
    {
      this.catalog, this.attached, cache, history := catalog, attached, map[], [];
    }

    /** The union of what the roles grant. */
    method PermissionsForRoles(roles: seq<string>) returns (granted: set<string>)
      ensures granted == catalog.Granted(roles)
    {
      granted := {};
      for i := 0 to |roles|
        invariant granted == catalog.Granted(roles[..i])
      {
        assert roles[..i + 1] == roles[..i] + [roles[i]];
        if roles[i] in catalog.grants { granted := granted + catalog.grants[roles[i]]; }
      }
      assert roles[..|roles|] == roles;
    }

    method PermissionsForPrincipal(roles: seq<string>, scopes: Option<seq<string>>, org: Option<string>)
      returns (granted: set<string>)
      ensures granted == Principal(catalog, roles, scopes, org)
    {
      if NonEmpty(org, "") == "" { return {}; }
      if scopes.Some? { return set s | s in scopes.value && s in catalog.levels; }
      granted := PermissionsForRoles(roles);
    }

    /** Answers from memory if it can, and remembers the cascade's answer if not. */
    method Check(w: World, r: Request) returns (outcome: Outcome)
      requires Valid()
      modifies this`cache, this`history
      ensures Valid() && history == old(history) + [Ask(w, r)]
      ensures outcome.allowed == Answered(catalog, attached, history)
      ensures Key(r) !in old(cache) ==> outcome.allowed == Allowed(catalog, attached, w, r)
      ensures outcome.level == if r.permission in catalog.levels then catalog.levels[r.permission] else Resource
      ensures outcome.reason == if r.permission in catalog.levels && Key(r) in old(cache) then FromMemory
                                else WhyOf(catalog, attached, w, r)
    {
      history := history + [Ask(w, r)];
      assert history[..|history| - 1] == old(history);
      hide Key, EngineAllows, Principal, Roles;
      if r.permission !in catalog.levels { return Outcome(false, Resource, UnknownPermission); }
      var level := catalog.levels[r.permission];
      if Key(r) in cache { return Outcome(cache[Key(r)], level, FromMemory); }
      var granted := PermissionsForPrincipal(Roles(w, r.user, r.tenant, r.roles), r.scopes, r.tenant);
      if r.permission !in granted {
        outcome := Outcome(false, level, NotGranted);
      } else if attached && !EngineAllows(catalog, w, r) {
        outcome := Outcome(false, level, EngineDenied);
      } else {
        outcome := Outcome(true, level, RolesAllow);
      }
      cache := cache[Key(r) := outcome.allowed];
    }

    method ClearCache()
      requires Valid()
      modifies this`cache, this`history
      ensures Valid() && history == old(history) + [Clear] && cache == map[]
    {
      history := history + [Clear];
      cache := map[];
    }

    /** One more check of a listing that began after `before` and has asked about the first i names. */
    method CheckListed(
        ghost before: seq<Event>, w: World, user: string, tenant: Option<string>, agent: Option<string>,
        held: seq<string>, names: seq<string>, i: nat, listed: seq<string>) returns (more: seq<string>)
      requires Valid() && i < |names| && history == before + Asks(w, user, tenant, agent, held, names[..i])
      requires listed == Listed(catalog, attached, before, Asks(w, user, tenant, agent, held, names[..i]))
      modifies this`cache, this`history
      ensures Valid() && history == before + Asks(w, user, tenant, agent, held, names[..i + 1])
      ensures more == Listed(catalog, attached, before, Asks(w, user, tenant, agent, held, names[..i + 1]))
    {
      var request := RequestFor(user, tenant, agent, held, names[i]);
      ghost var asks := Asks(w, user, tenant, agent, held, names[..i]);
      assert request.permission == names[i];
      hide *;
      AsksGrow(w, user, tenant, agent, held, names, i);
      ConcatAgain(before, asks, Ask(w, request));
      ListedGrows(catalog, attached, before, asks, w, request);
      var outcome := Check(w, request);
      more := if outcome.allowed then listed + [names[i]] else listed;
    }

    /** Asks about every permission the roles grant, in ascending order, and lists those allowed. */
    method ListUserPermissions(
        w: World, user: string, tenant: Option<string>, agent: Option<string>, roles: Option<seq<string>>)
      returns (permissions: seq<string>)
      requires Valid()
      modifies this`cache, this`history
      ensures Valid()
      ensures var held := Roles(w, user, tenant, roles);
        var asks := Asks(w, user, tenant, agent, held, Sorted(catalog.Granted(held)));
        history == old(history) + asks
        && permissions == Listed(catalog, attached, old(history), asks)
    {
      var held := Roles(w, user, tenant, roles);
      var granted := PermissionsForRoles(held);
      var names := SortedList(granted);
      permissions := [];
      ghost var before := history;
      assert Asks(w, user, tenant, agent, held, names[..0]) == [];
      hide *;
      ListedNone(catalog, attached, before);
      for i := 0 to |names|
        invariant Valid() && history == before + Asks(w, user, tenant, agent, held, names[..i])
        invariant permissions == Listed(catalog, attached, before, Asks(w, user, tenant, agent, held, names[..i]))
      {
        permissions := CheckListed(before, w, user, tenant, agent, held, names, i, permissions);
      }
      assert names[..|names|] == names;
    }
  }

  function RequestFor(
      user: string, tenant: Option<string>, agent: Option<string>, roles: seq<string>, p: string): Request {
    Request(user, p, tenant, agent, None, Some(roles), None)
  }

  /** One request per permission, without a resource and without scopes. */
  ghost function Asks(
      w: World, user: string, tenant: Option<string>, agent: Option<string>, roles: seq<string>,
      permissions: seq<string>): seq<Event> {
    seq(|permissions|, i requires 0 <= i < |permissions| =>
      Ask(w, RequestFor(user, tenant, agent, roles, permissions[i])))
  }

  /** The permissions among the requests asked after `before` whose answer was yes. */
  ghost function Listed(catalog: Catalog, attached: bool, before: seq<Event>, asks: seq<Event>): seq<string> {
    if asks == [] then []
    else
      var n := |asks| - 1;
      Listed(catalog, attached, before, asks[..n])
      + if asks[n].Ask? && Answered(catalog, attached, before + asks) then [asks[n].request.permission] else []
  }

  lemma {:induction false} ListedNone(catalog: Catalog, attached: bool, before: seq<Event>)
    ensures Listed(catalog, attached, before, []) == []
  {}

  lemma {:induction false} ConcatAgain(a: seq<Event>, b: seq<Event>, e: Event)
    ensures a + b + [e] == a + (b + [e])
  {}

  lemma {:induction false} ListedGrows(
      catalog: Catalog, attached: bool, before: seq<Event>, asks: seq<Event>, w: World, r: Request)
    ensures Listed(catalog, attached, before, asks + [Ask(w, r)]) ==
      Listed(catalog, attached, before, asks)
      + if Answered(catalog, attached, before + asks + [Ask(w, r)]) then [r.permission] else []
  {
    var more := asks + [Ask(w, r)];
    assert more[..|more| - 1] == asks && more[|more| - 1] == Ask(w, r);
    ConcatAgain(before, asks, Ask(w, r));
    hide Answered;
  }

  lemma {:induction false} AsksGrow(
      w: World, user: string, tenant: Option<string>, agent: Option<string>, roles: seq<string>,
      names: seq<string>, i: nat)
    requires i < |names|
    ensures Asks(w, user, tenant, agent, roles, names[..i + 1]) ==
      Asks(w, user, tenant, agent, roles, names[..i]) + [Ask(w, RequestFor(user, tenant, agent, roles, names[i]))]
  {}
}
