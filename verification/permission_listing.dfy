/** What a listing shows, and three ways in which the memory can go wrong. */
module PermissionListing {
  import opened Text
  import opened PermissionMatrix
  import opened PermissionCache

  /** Every catalog permission the cascade allows with these roles. */
  ghost function AllowedSet(
      catalog: Catalog, attached: bool, w: World, user: string, tenant: Option<string>, agent: Option<string>,
      roles: seq<string>): set<string> {
    set p | p in catalog.levels && Allowed(catalog, attached, w, RequestFor(user, tenant, agent, roles, p))
  }

  lemma {:induction false} AllowedIsGranted(
      catalog: Catalog, attached: bool, w: World, user: string, tenant: Option<string>, agent: Option<string>,
      roles: seq<string>, p: string)
    requires Allowed(catalog, attached, w, RequestFor(user, tenant, agent, roles, p))
    ensures p in catalog.Granted(roles) && p in catalog.levels
  {
    hide EngineAllows;
  }

  /** The answer to the i-th request of a listing is the cascade's. */
  lemma {:induction false} ListedAnswer(
      catalog: Catalog, attached: bool, before: seq<Event>, w: World, user: string, tenant: Option<string>,
      agent: Option<string>, roles: seq<string>, names: seq<string>, i: nat)
    requires i < |names|
    requires Faithful(catalog, attached, before + Asks(w, user, tenant, agent, roles, names))
    ensures Answered(catalog, attached,
      before + Asks(w, user, tenant, agent, roles, names[..i]) + [Ask(w, RequestFor(user, tenant, agent, roles, names[i]))])
      == Allowed(catalog, attached, w, RequestFor(user, tenant, agent, roles, names[i]))
  {
    var asks, n := Asks(w, user, tenant, agent, roles, names), |before| + i;
    var history := before + asks;
    assert history[n] == Ask(w, RequestFor(user, tenant, agent, roles, names[i]));
    assert AnsweredAt(catalog, attached, history, n) == AllowedAt(catalog, attached, history, n);
    assert asks[..i] == Asks(w, user, tenant, agent, roles, names[..i]);
    hide Answered, Allowed, Faithful, Asks;
    assert history[..n + 1] == before + asks[..i] + [history[n]];
  }

  ghost predicate ListedSoFar(
      catalog: Catalog, attached: bool, w: World, user: string, tenant: Option<string>, agent: Option<string>,
      roles: seq<string>, names: seq<string>, listed: seq<string>) {
    && Ascending(listed)
    && forall x :: x in listed <==>
        x in names && Allowed(catalog, attached, w, RequestFor(user, tenant, agent, roles, x))
  }

  lemma {:induction false} ListedOneMore(
      catalog: Catalog, attached: bool, w: World, user: string, tenant: Option<string>, agent: Option<string>,
      roles: seq<string>, names: seq<string>, listed: seq<string>, i: nat)
    requires i < |names| && Ascending(names)
    requires ListedSoFar(catalog, attached, w, user, tenant, agent, roles, names[..i], listed)
    ensures ListedSoFar(catalog, attached, w, user, tenant, agent, roles, names[..i + 1],
      listed + if Allowed(catalog, attached, w, RequestFor(user, tenant, agent, roles, names[i])) then [names[i]] else [])
  {
    hide Allowed, Before;
    var more := listed + [names[i]];
    assert names[..i + 1] == names[..i] + [names[i]];
    forall a, b | 0 <= a < b < |more| ensures Before(more[a], more[b]) {
      if b == |listed| {
        assert listed[a] in listed && listed[a] in names[..i];
        var j :| 0 <= j < i && names[j] == listed[a];
      }
    }
  }

  /** One more request adds its permission to the listing, or nothing. */
  lemma {:induction false} ListedStep(
      catalog: Catalog, attached: bool, before: seq<Event>, w: World, user: string, tenant: Option<string>,
      agent: Option<string>, roles: seq<string>, names: seq<string>, i: nat, listed: seq<string>)
    requires i < |names| && Faithful(catalog, attached, before + Asks(w, user, tenant, agent, roles, names))
    requires listed == Listed(catalog, attached, before, Asks(w, user, tenant, agent, roles, names[..i]))
    ensures Listed(catalog, attached, before, Asks(w, user, tenant, agent, roles, names[..i + 1])) ==
      listed + if Allowed(catalog, attached, w, RequestFor(user, tenant, agent, roles, names[i])) then [names[i]] else []
  {
    var request := RequestFor(user, tenant, agent, roles, names[i]);
    assert request.permission == names[i];
    hide *;
    ListedAnswer(catalog, attached, before, w, user, tenant, agent, roles, names, i);
    ListedGrows(catalog, attached, before, Asks(w, user, tenant, agent, roles, names[..i]), w, request);
    AsksGrow(w, user, tenant, agent, roles, names, i);
  }

  lemma {:induction false} ListedPrefix(
      catalog: Catalog, attached: bool, before: seq<Event>, w: World, user: string, tenant: Option<string>,
      agent: Option<string>, roles: seq<string>, names: seq<string>, i: nat)
    requires i <= |names| && Ascending(names)
    requires Faithful(catalog, attached, before + Asks(w, user, tenant, agent, roles, names))
    ensures ListedSoFar(catalog, attached, w, user, tenant, agent, roles, names[..i],
      Listed(catalog, attached, before, Asks(w, user, tenant, agent, roles, names[..i])))
  {
    if i == 0 {
      assert Asks(w, user, tenant, agent, roles, names[..0]) == [];
      hide Allowed;
    } else {
      hide *;
      var n := i - 1;
      var listed := Listed(catalog, attached, before, Asks(w, user, tenant, agent, roles, names[..n]));
      ListedPrefix(catalog, attached, before, w, user, tenant, agent, roles, names, n);
      ListedStep(catalog, attached, before, w, user, tenant, agent, roles, names, n, listed);
      ListedOneMore(catalog, attached, w, user, tenant, agent, roles, names, listed, n);
    }
  }

  /** A listing made while the memory is faithful is exactly the allowed permissions of the whole catalog,
      in ascending order. */
  lemma {:induction false} ListingExact(
      catalog: Catalog, attached: bool, before: seq<Event>, w: World, user: string, tenant: Option<string>,
      agent: Option<string>, roles: seq<string>, asks: seq<Event>)
    requires asks == Asks(w, user, tenant, agent, roles, Sorted(catalog.Granted(roles)))
    requires Faithful(catalog, attached, before + asks)
    ensures Listed(catalog, attached, before, asks)
         == Sorted(AllowedSet(catalog, attached, w, user, tenant, agent, roles))
  {
    var names := Sorted(catalog.Granted(roles));
    var allowed := AllowedSet(catalog, attached, w, user, tenant, agent, roles);
    forall x ensures
      x in names && Allowed(catalog, attached, w, RequestFor(user, tenant, agent, roles, x)) <==> x in allowed
    {
      if Allowed(catalog, attached, w, RequestFor(user, tenant, agent, roles, x)) {
        AllowedIsGranted(catalog, attached, w, user, tenant, agent, roles, x);
      }
      hide Allowed;
    }
    SortedAscending(catalog.Granted(roles));
    hide Allowed, AllowedSet, Asks, Faithful, Listed;
    ListedPrefix(catalog, attached, before, w, user, tenant, agent, roles, names, |names|);
    assert names[..|names|] == names;
    AscendingIsSorted(Listed(catalog, attached, before, asks), allowed);
  }

  // ---- where the memory goes wrong ----

  function Small(): Catalog { Catalog(map["a:b" := Org], map["r" := {"a:b"}]) }

  /** The second of two repeating requests gets the first one's answer. */
  lemma {:induction false} SecondIsFirst(catalog: Catalog, attached: bool, w: World, r: Request, q: Request)
    requires r.permission in catalog.levels && q.permission in catalog.levels && Key(r) == Key(q)
    ensures Answered(catalog, attached, [Ask(w, r), Ask(w, q)]) == Allowed(catalog, attached, w, r)
  {
    var history := [Ask(w, r), Ask(w, q)];
    assert history[..1] == [Ask(w, r)] && history[..0] == [] && history[..2] == history;
    RememberedStep(catalog, attached, history, 0);
    RememberedStep(catalog, attached, history, 1);
    assert Remembered(catalog, attached, []) == map[];
    hide Allowed, Key, Remembered;
  }

  lemma {:induction false} SmallGrants()
    ensures "a:b" in Small().levels && "a:b" in Small().Granted(["r"]) && Small().Granted([]) == {}
  {
    var roles := ["r"];
    assert roles[0] == "r" && "r" in Small().grants && "a:b" in Small().grants["r"];
  }

  /** Roles are not part of the key: a role taken away keeps its grants until the memory is cleared. */
  lemma {:induction false} StaleRoles(w: World, user: string)
    ensures var r := Request(user, "a:b", Some("t"), None, None, Some(["r"]), None);
      var q := r.(roles := Some([]));
      Answered(Small(), false, [Ask(w, r), Ask(w, q)]) && !Allowed(Small(), false, w, q)
  {
    var r := Request(user, "a:b", Some("t"), None, None, Some(["r"]), None);
    var q := r.(roles := Some([]));
    SmallGrants();
    hide Small;
    assert Key(r) == Key(q) by { hide Join; }
    assert Allowed(Small(), false, w, r) && !Allowed(Small(), false, w, q);
    hide *;
    SecondIsFirst(Small(), false, w, r, q);
  }

  /** Scopes are not part of the key either: a key without the permission gets the answer its owner got. */
  lemma {:induction false} ScopesShareTheMemory(w: World, user: string)
    ensures var r := Request(user, "a:b", Some("t"), None, None, Some(["r"]), None);
      var q := r.(scopes := Some([]));
      Answered(Small(), false, [Ask(w, r), Ask(w, q)]) && !Allowed(Small(), false, w, q)
  {
    var r := Request(user, "a:b", Some("t"), None, None, Some(["r"]), None);
    var q := r.(scopes := Some([]));
    SmallGrants();
    hide Small;
    assert Key(r) == Key(q) by { hide Join; }
    assert Allowed(Small(), false, w, r) && !Allowed(Small(), false, w, q);
    hide *;
    SecondIsFirst(Small(), false, w, r, q);
  }

  /** An identifier with a colon shares its key with another user in another organization. */
  lemma {:induction false} KeysCollide(user: string, permission: string, org: string, roles: seq<string>, none: seq<string>)
    ensures Key(Request(user, permission, Some(permission + [':'] + org), None, None, Some(roles), None))
         == Key(Request(user + [':'] + permission, permission, Some(org), None, None, Some(none), None))
  {
    var n, long, other := "None", permission + [':'] + org, user + [':'] + permission;
    hide *;
    JoinTwo(user, [permission, long, n, n]);
    JoinTwo(permission, [long, n, n]);
    JoinTwo(long, [n, n]);
    JoinTwo(other, [permission, org, n, n]);
    JoinTwo(permission, [org, n, n]);
    JoinTwo(org, [n, n]);
    KeyOf(Request(user, permission, Some(long), None, None, Some(roles), None), user, permission, long);
    KeyOf(Request(other, permission, Some(org), None, None, Some(none), None), other, permission, org);
    Regroup(user, permission, org, Join([n, n], ':'));
  }

  lemma {:induction false} KeyOf(r: Request, user: string, permission: string, org: string)
    requires r.user == user && r.permission == permission && r.tenant == Some(org)
    requires r.agent == None && r.resource == None
    ensures Key(r) == Join([user] + [permission, org, "None", "None"], ':')
    ensures [permission] + [org, "None", "None"] == [permission, org, "None", "None"]
    ensures [org] + ["None", "None"] == [org, "None", "None"]
  {
    assert [user] + [permission, org, "None", "None"] == [user, permission, org, "None", "None"];
    hide Join;
  }

  lemma {:induction false} Regroup(u: string, p: string, t: string, rest: string)
    ensures u + [':'] + (p + [':'] + ((p + [':'] + t) + [':'] + rest))
         == (u + [':'] + p) + [':'] + (p + [':'] + (t + [':'] + rest))
  {}

  lemma {:induction false} ColonsCollide(w: World, user: string, org: string)
    requires org != ""
    ensures var r := Request(user, "a:b", Some("a:b" + [':'] + org), None, None, Some(["r"]), None);
      var q := Request(user + [':'] + "a:b", "a:b", Some(org), None, None, Some([]), None);
      Answered(Small(), false, [Ask(w, r), Ask(w, q)]) && !Allowed(Small(), false, w, q)
  {
    var r := Request(user, "a:b", Some("a:b" + [':'] + org), None, None, Some(["r"]), None);
    var q := Request(user + [':'] + "a:b", "a:b", Some(org), None, None, Some([]), None);
    SmallGrants();
    hide Small, Key;
    KeysCollide(user, "a:b", org, ["r"], []);
    assert Allowed(Small(), false, w, r) && !Allowed(Small(), false, w, q);
    hide *;
    SecondIsFirst(Small(), false, w, r, q);
  }
}
