/** When remembering is harmless: exactly when the cascade's answer under a key
    does not change between two clears. */
module PermissionCache {
  import opened Text
  import opened PermissionMatrix

  // ---- what the memory holds ----

  predicate KnownAsk(catalog: Catalog, e: Event) {
    e.Ask? && e.request.permission in catalog.levels
  }

  /** Nothing is cleared from event a to event b. */
  predicate SameEpoch(history: seq<Event>, a: int, b: int) {
    0 <= a <= b < |history| && forall i :: a <= i <= b ==> history[i].Ask?
  }

  /** Two requests about known permissions, under one key, with no clear in between. */
  predicate Repeats(catalog: Catalog, history: seq<Event>, a: int, b: int) {
    && SameEpoch(history, a, b) && KnownAsk(catalog, history[a]) && KnownAsk(catalog, history[b])
    && Key(history[a].request) == Key(history[b].request)
  }

  ghost predicate AllowedAt(catalog: Catalog, attached: bool, history: seq<Event>, i: int)
    requires 0 <= i < |history| && history[i].Ask?
  {
    Allowed(catalog, attached, history[i].world, history[i].request)
  }

  ghost predicate AnsweredAt(catalog: Catalog, attached: bool, history: seq<Event>, i: int)
    requires 0 <= i < |history| && history[i].Ask?
  {
    Answered(catalog, attached, history[..i + 1])
  }

  lemma {:induction false} RememberedStep(catalog: Catalog, attached: bool, history: seq<Event>, n: nat)
    requires n < |history|
    ensures var before := Remembered(catalog, attached, history[..n]);
      var after := Remembered(catalog, attached, history[..n + 1]);
      && (history[n].Clear? ==> after == map[])
      && (history[n].Ask? && !KnownAsk(catalog, history[n]) ==> after == before)
      && (KnownAsk(catalog, history[n]) ==>
            var key := Key(history[n].request);
            && (key in before ==> after == before)
            && (key !in before ==> after == before[key := AllowedAt(catalog, attached, history, n)]))
  {
    assert history[..n + 1][..n] == history[..n];
    hide Key, Allowed;
  }

  /** Whatever is remembered under a key is the cascade's answer to the first request under it in this epoch. */
  lemma {:induction false} RememberedFirst(
      catalog: Catalog, attached: bool, history: seq<Event>, n: nat, key: string) returns (f: nat)
    requires n <= |history| && key in Remembered(catalog, attached, history[..n])
    ensures f < n && SameEpoch(history, f, n - 1) && KnownAsk(catalog, history[f])
    ensures Key(history[f].request) == key
    ensures Remembered(catalog, attached, history[..n])[key] == AllowedAt(catalog, attached, history, f)
  {
    assert history[..0] == [] && Remembered(catalog, attached, []) == map[];
    RememberedStep(catalog, attached, history, n - 1);
    hide Remembered, AllowedAt, Key;
    if key in Remembered(catalog, attached, history[..n - 1]) {
      f := RememberedFirst(catalog, attached, history, n - 1, key);
    } else {
      f := n - 1;
    }
  }

  /** What is remembered stays, unchanged, until the next clear. */
  lemma {:induction false} RememberedStays(
      catalog: Catalog, attached: bool, history: seq<Event>, a: nat, n: nat, key: string)
    requires a <= n <= |history| && (a < n ==> SameEpoch(history, a, n - 1))
    requires key in Remembered(catalog, attached, history[..a])
    ensures key in Remembered(catalog, attached, history[..n])
    ensures Remembered(catalog, attached, history[..n])[key] == Remembered(catalog, attached, history[..a])[key]
    decreases n - a
  {
    if a < n {
      assert history[n - 1].Ask? && (a < n - 1 ==> SameEpoch(history, a, n - 2));
      RememberedStep(catalog, attached, history, n - 1);
      hide *;
      RememberedStays(catalog, attached, history, a, n - 1, key);
    }
  }

  /** A known request is remembered from the moment it is answered, with its answer. */
  lemma {:induction false} AnswerRemembered(catalog: Catalog, attached: bool, history: seq<Event>, n: nat)
    requires n < |history| && KnownAsk(catalog, history[n])
    ensures var key := Key(history[n].request);
      && key in Remembered(catalog, attached, history[..n + 1])
      && Remembered(catalog, attached, history[..n + 1])[key] == AnsweredAt(catalog, attached, history, n)
  {
    RememberedStep(catalog, attached, history, n);
    assert history[..n + 1][n] == history[n];
    hide Key, Allowed, Remembered;
  }

  lemma {:induction false} UnknownDenied(catalog: Catalog, attached: bool, history: seq<Event>, n: nat)
    requires n < |history| && history[n].Ask? && !KnownAsk(catalog, history[n])
    ensures !AnsweredAt(catalog, attached, history, n) && !AllowedAt(catalog, attached, history, n)
  {
    assert history[..n + 1][n] == history[n];
    hide Key, Remembered, Roles, Principal, EngineAllows;
  }

  // ---- the main theorem ----

  /** Every answer is what the plain cascade would have answered at that moment. */
  ghost predicate Faithful(catalog: Catalog, attached: bool, history: seq<Event>) {
    forall n :: 0 <= n < |history| && history[n].Ask? ==>
      AnsweredAt(catalog, attached, history, n) == AllowedAt(catalog, attached, history, n)
  }

  /** The cascade's answer under a key does not change within an epoch. */
  ghost predicate Steady(catalog: Catalog, attached: bool, history: seq<Event>) {
    forall a, b :: Repeats(catalog, history, a, b) ==>
      AllowedAt(catalog, attached, history, a) == AllowedAt(catalog, attached, history, b)
  }

  lemma {:induction false} SteadyAnswer(catalog: Catalog, attached: bool, history: seq<Event>, n: nat)
    requires Steady(catalog, attached, history) && n < |history| && history[n].Ask?
    ensures AnsweredAt(catalog, attached, history, n) == AllowedAt(catalog, attached, history, n)
  {
    if KnownAsk(catalog, history[n]) {
      AnswerRemembered(catalog, attached, history, n);
      var f := RememberedFirst(catalog, attached, history, n + 1, Key(history[n].request));
      assert Repeats(catalog, history, f, n);
    } else {
      UnknownDenied(catalog, attached, history, n);
    }
  }

  lemma {:induction false} FaithfulAt(catalog: Catalog, attached: bool, history: seq<Event>, n: nat)
    requires Faithful(catalog, attached, history) && n < |history| && history[n].Ask?
    ensures AnsweredAt(catalog, attached, history, n) == AllowedAt(catalog, attached, history, n)
  {
    hide AnsweredAt, AllowedAt;
  }

  lemma {:induction false} FaithfulRepeats(catalog: Catalog, attached: bool, history: seq<Event>, a: nat, b: nat)
    requires Faithful(catalog, attached, history) && Repeats(catalog, history, a, b)
    ensures AllowedAt(catalog, attached, history, a) == AllowedAt(catalog, attached, history, b)
  {
    hide Faithful, AnsweredAt, AllowedAt, Key, Remembered;
    assert a < b ==> SameEpoch(history, a + 1, b);
    FaithfulAt(catalog, attached, history, a);
    FaithfulAt(catalog, attached, history, b);
    AnswerRemembered(catalog, attached, history, a);
    AnswerRemembered(catalog, attached, history, b);
    RememberedStays(catalog, attached, history, a + 1, b + 1, Key(history[a].request));
  }

  /** Over any history of checks, listings and clears, the remembered answers are the cascade's answers if
      and only if the cascade does not change its mind about a key between two clears. */
  lemma {:induction false} CacheFaithfulExactly(catalog: Catalog, attached: bool, history: seq<Event>)
    ensures Faithful(catalog, attached, history) <==> Steady(catalog, attached, history)
  {
    if Steady(catalog, attached, history) {
      forall n | 0 <= n < |history| && history[n].Ask?
        ensures AnsweredAt(catalog, attached, history, n) == AllowedAt(catalog, attached, history, n)
      {
        hide *;
        SteadyAnswer(catalog, attached, history, n);
      }
      assert Faithful(catalog, attached, history);
    }
    if Faithful(catalog, attached, history) {
      forall a, b | Repeats(catalog, history, a, b)
        ensures AllowedAt(catalog, attached, history, a) == AllowedAt(catalog, attached, history, b)
      {
        hide Faithful, AllowedAt;
        FaithfulRepeats(catalog, attached, history, a, b);
      }
    }
  }

  // ---- one key, one request ----

  /** An identifier no key can confuse with another: without a colon, and not the text of a missing one. */
  predicate PlainId(id: Option<string>) {
    id.Some? ==> ':' !in id.value && id.value != "None"
  }

  predicate Plain(r: Request) {
    ':' !in r.user && PlainId(r.tenant) && PlainId(r.agent) && PlainId(r.resource)
  }

  /** The shape of every catalog name: a family, a colon and a verb. */
  predicate FamilyVerb(p: string) {
    exists i :: 0 <= i < |p| && p[i] == ':' && ':' !in p[..i] && ':' !in p[i + 1..]
  }

  /** The two requests are about the same subject, permission and place. */
  predicate SameQuestion(r: Request, q: Request) {
    r.user == q.user && r.permission == q.permission && r.tenant == q.tenant && r.agent == q.agent
    && r.resource == q.resource
  }

  /** The six colon-free parts of a key. */
  lemma {:induction false} NonePlain()
    ensures ':' !in "None"
  {}

  lemma {:induction false} KeyParts(r: Request) returns (parts: seq<string>)
    requires Plain(r) && FamilyVerb(r.permission)
    ensures |parts| == 6 && Split(Key(r), ':') == parts
    ensures parts[0] == r.user && r.permission == parts[1] + [':'] + parts[2]
    ensures parts[3] == Named(r.tenant, "None") && parts[4] == Named(r.agent, "None")
    ensures parts[5] == Named(r.resource, "None")
  {
    hide Join, Split;
    var i :| 0 <= i < |r.permission| && r.permission[i] == ':'
      && ':' !in r.permission[..i] && ':' !in r.permission[i + 1..];
    var family, verb := r.permission[..i], r.permission[i + 1..];
    var a, b, c := Named(r.tenant, "None"), Named(r.agent, "None"), Named(r.resource, "None");
    assert r.permission == family + [':'] + verb;
    assert ':' !in a && ':' !in b && ':' !in c by { NonePlain(); }
    assert Key(r) == Join([r.user, r.permission, a, b, c], ':');
    hide *;
    JoinedParts(r.user, family, verb, a, b, c, r.permission);
    parts := [r.user, family, verb, a, b, c];
    SplitJoin(parts, ':');
  }

  lemma {:induction false} JoinedParts(u: string, f: string, v: string, a: string, b: string, c: string, p: string)
    requires p == f + [':'] + v
    ensures Join([u, p, a, b, c], ':') == Join([u, f, v, a, b, c], ':')
  {
    var rest := [a, b, c];
    var abc := Join(rest, ':');
    JoinTwo(u, [p] + rest);
    JoinTwo(p, rest);
    JoinTwo(u, [f, v] + rest);
    JoinTwo(f, [v] + rest);
    JoinTwo(v, rest);
    assert [u] + ([p] + rest) == [u, p, a, b, c] && [u] + ([f, v] + rest) == [u, f, v, a, b, c];
    assert [f] + ([v] + rest) == [f, v] + rest;
    hide *;
    assert p + [':'] + abc == f + [':'] + (v + [':'] + abc);
  }

  lemma {:induction false} JoinTwo(x: string, rest: seq<string>)
    requires rest != []
    ensures Join([x] + rest, ':') == x + [':'] + Join(rest, ':')
  {
    assert ([x] + rest)[1..] == rest;
  }

  lemma {:induction false} NamedInjective(a: Option<string>, b: Option<string>)
    requires PlainId(a) && PlainId(b) && Named(a, "None") == Named(b, "None")
    ensures a == b
  {}

  /** For plain identifiers and catalog names, equal keys mean the same question. */
  lemma {:induction false} KeyInjective(r: Request, q: Request)
    requires Plain(r) && Plain(q) && FamilyVerb(r.permission) && FamilyVerb(q.permission)
    requires Key(r) == Key(q)
    ensures SameQuestion(r, q)
  {
    assert PlainId(r.tenant) && PlainId(q.tenant) && PlainId(r.agent) && PlainId(q.agent);
    assert PlainId(r.resource) && PlainId(q.resource);
    hide Key, Split, Named, FamilyVerb, PlainId, Plain;
    var a := KeyParts(r);
    var b := KeyParts(q);
    NamedInjective(r.tenant, q.tenant);
    NamedInjective(r.agent, q.agent);
    NamedInjective(r.resource, q.resource);
  }

  /** All identifiers of the history are plain, and the catalog's names have their shape. */
  predicate PlainHistory(catalog: Catalog, history: seq<Event>) {
    && (forall p :: p in catalog.levels ==> FamilyVerb(p))
    && forall i :: 0 <= i < |history| && history[i].Ask? ==> Plain(history[i].request)
  }

  /** Within an epoch, the cascade's answer to one question does not change. */
  ghost predicate SettledAuthority(catalog: Catalog, attached: bool, history: seq<Event>) {
    forall a, b :: SameEpoch(history, a, b) && SameQuestion(history[a].request, history[b].request) ==>
      AllowedAt(catalog, attached, history, a) == AllowedAt(catalog, attached, history, b)
  }

  /** With plain identifiers and settled answers the cached answers are the cascade's. */
  lemma {:induction false} PlainCacheIsFaithful(catalog: Catalog, attached: bool, history: seq<Event>)
    requires PlainHistory(catalog, history) && SettledAuthority(catalog, attached, history)
    ensures Faithful(catalog, attached, history)
  {
    forall a, b | Repeats(catalog, history, a, b)
      ensures AllowedAt(catalog, attached, history, a) == AllowedAt(catalog, attached, history, b)
    {
      assert SameEpoch(history, a, b) && Plain(history[a].request) && Plain(history[b].request);
      assert FamilyVerb(history[a].request.permission) && FamilyVerb(history[b].request.permission);
      hide AllowedAt, Key, Plain, FamilyVerb;
      KeyInjective(history[a].request, history[b].request);
    }
    CacheFaithfulExactly(catalog, attached, history);
  }
}
