/** Two kinds of schedules of checks: those in which nothing overlaps, and those in
    which a clear overtakes a check. */
module PermissionSchedules {
  import opened Text
  import opened PermissionMatrix
  import opened PermissionRaces

  // ---- checks that do not overlap ----

  ghost function From(catalog: Catalog, attached: bool, s: State, steps: seq<Step>): State
    decreases |steps|
  {
    if steps == [] then s else From(catalog, attached, Next(catalog, attached, s, steps[0]), steps[1..])
  }

  lemma {:induction false} RunConcat(catalog: Catalog, attached: bool, a: seq<Step>, b: seq<Step>)
    ensures Run(catalog, attached, a + b) == From(catalog, attached, Run(catalog, attached, a), b)
    decreases |b|
  {
    if b == [] {
      assert a + b == a;
    } else {
      assert a + b == (a + [b[0]]) + b[1..];
      assert (a + [b[0]])[..|a|] == a;
      assert Run(catalog, attached, a + [b[0]]) == Next(catalog, attached, Run(catalog, attached, a), b[0]);
      hide Next, Run;
      RunConcat(catalog, attached, a + [b[0]], b[1..]);
    }
  }

  /** One check from beginning to end, while nothing else happens. */
  function Alone(i: nat, w: World, r: Request): seq<Step> {
    [Begin(i, r), Resolve(i, w), Resume(i), Judge(i, w), Resume(i)]
  }

  lemma {:induction false} FiveSteps(catalog: Catalog, attached: bool, s: State, i: nat, w: World, r: Request)
    returns (a: State, b: State, c: State, d: State)
    ensures a == Next(catalog, attached, s, Begin(i, r)) && b == Next(catalog, attached, a, Resolve(i, w))
    ensures c == Next(catalog, attached, b, Resume(i)) && d == Next(catalog, attached, c, Judge(i, w))
    ensures From(catalog, attached, s, Alone(i, w, r)) == Next(catalog, attached, d, Resume(i))
  {
    var steps := Alone(i, w, r);
    hide Next;
    a := Next(catalog, attached, s, Begin(i, r));
    b := Next(catalog, attached, a, Resolve(i, w));
    c := Next(catalog, attached, b, Resume(i));
    d := Next(catalog, attached, c, Judge(i, w));
    var e := Next(catalog, attached, d, Resume(i));
    assert From(catalog, attached, s, steps) == From(catalog, attached, a, steps[1..]);
    assert steps[1..][1..] == steps[2..] && steps[2..][1..] == steps[3..] && steps[3..][1..] == steps[4..];
    assert From(catalog, attached, a, steps[1..]) == From(catalog, attached, b, steps[2..]);
    assert From(catalog, attached, b, steps[2..]) == From(catalog, attached, c, steps[3..]);
    assert From(catalog, attached, c, steps[3..]) == From(catalog, attached, d, steps[4..]);
    assert steps[4..] == [Resume(i)] && [Resume(i)][1..] == [];
    assert From(catalog, attached, d, [Resume(i)]) == From(catalog, attached, e, []);
  }

  lemma {:induction false} NotDue(catalog: Catalog, attached: bool, s: State, i: nat, w: World)
    requires i !in s.open
    ensures Next(catalog, attached, s, Resolve(i, w)) == s && Next(catalog, attached, s, Judge(i, w)) == s
    ensures Next(catalog, attached, s, Resume(i)) == s
  {}

  lemma {:induction false} FinishAnyway(s: State, i: nat, o: Open, r: Request, allowed: bool, since: nat)
    requires i !in s.open
    ensures Finish(s.(open := s.open[i := o]), i, r, allowed, since) == Finish(s, i, r, allowed, since)
    ensures i !in Finish(s, i, r, allowed, since).open
  {
    assert s.open[i := o] - {i} == s.open - {i};
    hide Key;
  }

  lemma {:induction false} OpenTwice(s: State, i: nat, o: Open, p: Open)
    ensures s.(open := s.open[i := o]).(open := s.open[i := o][i := p]) == s.(open := s.open[i := p])
  {
    assert s.open[i := o][i := p] == s.open[i := p];
  }

  lemma {:induction false} DecideAnyway(
      catalog: Catalog, attached: bool, s: State, i: nat, o: Open, r: Request, roles: seq<string>, first: Option<nat>)
    requires i !in s.open
    ensures Decide(catalog, attached, s.(open := s.open[i := o]), i, r, roles, first)
         == Decide(catalog, attached, s, i, r, roles, first)
  {
    hide Finish, Grants, First;
    FinishAnyway(s, i, o, r, Grants(catalog, r, roles), First(first, s.epoch));
    OpenTwice(s, i, o, Judging(r, first));
  }

  /** From the decision on: the check is over, or the engine has its say. */
  lemma {:induction false} DecidedAlone(
      catalog: Catalog, attached: bool, s: State, i: nat, w: World, r: Request, roles: seq<string>, first: Option<nat>,
      c: State)
    requires i !in s.open && r.permission in catalog.levels
    requires roles == Roles(w, r.user, r.tenant, r.roles) && c == Decide(catalog, attached, s, i, r, roles, first)
    ensures var d := Next(catalog, attached, c, Judge(i, w));
      Next(catalog, attached, d, Resume(i))
      == Finish(s, i, r, Allowed(catalog, attached, w, r), First(first, s.epoch))
    ensures Grants(catalog, r, roles) && attached ==> c == s.(open := s.open[i := Judging(r, first)])
    ensures !(Grants(catalog, r, roles) && attached) ==> i !in c.open
  {
    assert Allowed(catalog, attached, w, r) <==> Grants(catalog, r, roles) && (attached ==> Agrees(catalog, w, r))
      by { hide Principal, EngineAllows, Roles; }
    var d, since := Next(catalog, attached, c, Judge(i, w)), First(first, s.epoch);
    hide Allowed, Grants, Agrees, Key, First, Finish, Roles;
    FinishAnyway(s, i, Looking(r), r, Grants(catalog, r, roles), since);
    if Grants(catalog, r, roles) && attached {
      var v := Agrees(catalog, w, r);
      OpenTwice(s, i, Judging(r, first), Judged(r, v, since, s.epoch));
      assert d == s.(open := s.open[i := Judged(r, v, since, s.epoch)]);
      FinishAnyway(s, i, Judged(r, v, since, s.epoch), r, v, since);
    } else {
      NotDue(catalog, attached, c, i, w);
    }
  }

  /** What a check alone amounts to: the remembered answer, or the plain cascade's, which is then remembered. */
  lemma {:induction false} AloneIsAtomic(catalog: Catalog, attached: bool, s: State, i: nat, w: World, r: Request)
    requires i !in s.open
    ensures var t := From(catalog, attached, s, Alone(i, w, r));
      t == if r.permission !in catalog.levels then Reply(s, r, false, s.epoch)
           else if Key(r) in s.cache then Reply(s, r, s.cache[Key(r)].allowed, s.cache[Key(r)].since)
           else Finish(s, i, r, Allowed(catalog, attached, w, r), s.epoch)
  {
    var a, b, c, d := FiveSteps(catalog, attached, s, i, w, r);
    assert Roles(w, r.user, r.tenant, r.roles) == if AsksStore(r) then w.rolesFor(r.user, r.tenant) else Brought(r);
    hide From, Key, Allowed, Roles, Decide, Finish, Brought, Agrees;
    if r.permission !in catalog.levels || Key(r) in s.cache {
      assert i !in a.open;
      NotDue(catalog, attached, a, i, w);
    } else if AsksStore(r) {
      var roles := w.rolesFor(r.user, r.tenant);
      OpenTwice(s, i, Looking(r), Resolved(r, roles, s.epoch));
      assert b == s.(open := s.open[i := Resolved(r, roles, s.epoch)]);
      DecideAnyway(catalog, attached, s, i, Resolved(r, roles, s.epoch), r, roles, Some(s.epoch));
      DecidedAlone(catalog, attached, s, i, w, r, roles, Some(s.epoch), c);
    } else {
      DecidedAlone(catalog, attached, s, i, w, r, Brought(r), None, a);
      if Grants(catalog, r, Brought(r)) && attached {
        assert c == a;
      } else {
        NotDue(catalog, attached, a, i, w);
      }
    }
  }

  // ---- the checker of the other theorems ----

  /** A history of checks and clears as a schedule in which nothing overlaps. */
  function InTurn(history: seq<Event>): seq<Step> {
    if history == [] then []
    else
      var n := |history| - 1;
      InTurn(history[..n]) + match history[n]
        case Ask(w, r) => Alone(0, w, r)
        case Clear => [Wipe]
  }

  /** The memory holds the same answers under the same keys. */
  ghost predicate Mirrors(cache: map<string, Entry>, memory: map<string, bool>) {
    cache.Keys == memory.Keys && forall key :: key in cache ==> cache[key].allowed == memory[key]
  }

  /** What the schedule's state says after a history, and what the checker says. */
  ghost predicate InStep(catalog: Catalog, attached: bool, s: State, history: seq<Event>) {
    && s.open == map[] && Mirrors(s.cache, Remembered(catalog, attached, history)) && AllFresh(s) && CacheFresh(s)
    && (history != [] && history[|history| - 1].Ask? ==>
          s.given != [] && s.given[|s.given| - 1].allowed == Answered(catalog, attached, history))
  }

  lemma {:induction false} KeyFresh(s: State, key: string)
    requires CacheFresh(s) && key in s.cache
    ensures s.cache[key].since == s.epoch
  {}

  lemma {:induction false} RememberedAsk(
      catalog: Catalog, attached: bool, history: seq<Event>, w: World, r: Request, memory: map<string, bool>)
    requires history != [] && history[|history| - 1] == Ask(w, r)
    requires memory == Remembered(catalog, attached, history[..|history| - 1])
    ensures Remembered(catalog, attached, history) ==
      if r.permission !in catalog.levels || Key(r) in memory then memory
      else memory[Key(r) := Allowed(catalog, attached, w, r)]
    ensures Answered(catalog, attached, history) ==
      (r.permission in catalog.levels && if Key(r) in memory then memory[Key(r)] else Allowed(catalog, attached, w, r))
  {
    hide Key, Allowed;
  }

  lemma {:induction false} Mirrored(s: State, r: Request, v: bool, memory: map<string, bool>)
    requires Mirrors(s.cache, memory)
    ensures Mirrors(s.cache[Key(r) := Entry(v, s.epoch)], memory[Key(r) := v])
    ensures Key(r) in s.cache <==> Key(r) in memory
    ensures Key(r) in s.cache ==> s.cache[Key(r)].allowed == memory[Key(r)]
  {
    hide Key;
  }

  lemma {:induction false} GivenLast(s: State, i: nat, r: Request, allowed: bool, since: nat)
    ensures var t := Reply(s, r, allowed, since);
      t.given != [] && t.given[|t.given| - 1].allowed == allowed && t.open == s.open && t.cache == s.cache
    ensures var t := Finish(s, i, r, allowed, since);
      t.given != [] && t.given[|t.given| - 1].allowed == allowed && t.open == s.open - {i}
      && t.cache == s.cache[Key(r) := Entry(allowed, since)]
  {
    hide Key;
  }

  lemma {:induction false} AskedInTurn(
      catalog: Catalog, attached: bool, history: seq<Event>, w: World, r: Request, s: State)
    requires history != [] && history[|history| - 1] == Ask(w, r)
    requires InStep(catalog, attached, s, history[..|history| - 1])
    ensures InStep(catalog, attached, From(catalog, attached, s, Alone(0, w, r)), history)
  {
    var memory, v := Remembered(catalog, attached, history[..|history| - 1]), Allowed(catalog, attached, w, r);
    AloneIsAtomic(catalog, attached, s, 0, w, r);
    RememberedAsk(catalog, attached, history, w, r, memory);
    hide From, Alone, Allowed, Key, AllFresh, CacheFresh, Remembered, Answered, Reply, Finish, Mirrors;
    Mirrored(s, r, v, memory);
    if r.permission !in catalog.levels {
      ReplyFresh(s, r, false, s.epoch);
      GivenLast(s, 0, r, false, s.epoch);
    } else if Key(r) in s.cache {
      KeyFresh(s, Key(r));
      ReplyFresh(s, r, s.cache[Key(r)].allowed, s.epoch);
      GivenLast(s, 0, r, s.cache[Key(r)].allowed, s.epoch);
    } else {
      FinishFresh(s, 0, r, v, s.epoch);
      GivenLast(s, 0, r, v, s.epoch);
    }
  }

  lemma {:induction false} ClearedInTurn(catalog: Catalog, attached: bool, history: seq<Event>, s: State)
    requires history != [] && history[|history| - 1] == Clear
    requires InStep(catalog, attached, s, history[..|history| - 1])
    ensures InStep(catalog, attached, Next(catalog, attached, s, Wipe), history)
  {
    var t := Next(catalog, attached, s, Wipe);
    assert Remembered(catalog, attached, history) == map[];
    assert t == s.(cache := map[], epoch := s.epoch + 1);
    hide Remembered, Answered, Next;
  }

  lemma {:induction false} InTurnStep(catalog: Catalog, attached: bool, history: seq<Event>, n: nat, s: State)
    requires |history| == n + 1 && s == Run(catalog, attached, InTurn(history[..n]))
    ensures Run(catalog, attached, InTurn(history)) ==
      match history[n]
      case Ask(w, r) => From(catalog, attached, s, Alone(0, w, r))
      case Clear => Next(catalog, attached, s, Wipe)
  {
    var before := InTurn(history[..n]);
    hide Run, Next, Alone;
    match history[n] {
      case Ask(w, r) => RunConcat(catalog, attached, before, Alone(0, w, r));
      case Clear =>
        RunConcat(catalog, attached, before, [Wipe]);
        var t := Next(catalog, attached, s, Wipe);
        assert [Wipe][1..] == [] && From(catalog, attached, t, []) == t;
    }
  }

  /** Where nothing overlaps, this is the checker whose histories the other theorems are about: it remembers and answers
      the same, and no step is late. */
  lemma {:induction false} InTurnIsTheChecker(catalog: Catalog, attached: bool, history: seq<Event>)
    ensures InStep(catalog, attached, Run(catalog, attached, InTurn(history)), history)
    ensures Timely(catalog, attached, InTurn(history))
  {
    if history == [] {
      assert Run(catalog, attached, InTurn([])) == Empty() && Remembered(catalog, attached, []) == map[];
      hide Run, Remembered, InTurn, Timely, Answered;
    } else {
      hide *;
      var n := |history| - 1;
      var s := Run(catalog, attached, InTurn(history[..n]));
      InTurnIsTheChecker(catalog, attached, history[..n]);
      InTurnStep(catalog, attached, history, n, s);
      match history[n] {
        case Ask(w, r) => AskedInTurn(catalog, attached, history, w, r, s);
        case Clear => ClearedInTurn(catalog, attached, history, s);
      }
    }
    FreshInStep(catalog, attached, Run(catalog, attached, InTurn(history)), history);
    FreshExactly(catalog, attached, InTurn(history));
  }

  lemma {:induction false} FreshInStep(catalog: Catalog, attached: bool, s: State, history: seq<Event>)
    requires InStep(catalog, attached, s, history)
    ensures AllFresh(s)
  {
    hide AllFresh, CacheFresh, Mirrors, Answered;
  }

  // ---- a check that a clear overtakes ----

  /** The request cannot be answered without waiting for the store or for the engine. */
  ghost predicate Waits(catalog: Catalog, attached: bool, r: Request) {
    AsksStore(r) || (attached && Grants(catalog, r, Brought(r)))
  }

  /** Exactly such a request stays open; any other is answered on the spot. */
  lemma {:induction false} WaitsExactly(catalog: Catalog, attached: bool, s: State, i: nat, r: Request)
    requires i !in s.open && r.permission in catalog.levels && Key(r) !in s.cache
    ensures i in Next(catalog, attached, s, Begin(i, r)).open <==> Waits(catalog, attached, r)
  {
    hide Key, Grants;
  }

  /** A clear comes after the first answer and before the check goes on; another check asks the same afterwards. */
  function Overtaken(i: nat, j: nat, r: Request, w: World): seq<Step> {
    if AsksStore(r) then [Begin(i, r), Resolve(i, w), Wipe, Resume(i), Judge(i, w), Resume(i), Begin(j, r)]
    else [Begin(i, r), Judge(i, w), Wipe, Resume(i), Begin(j, r)]
  }

  lemma {:induction false} FromCons(catalog: Catalog, attached: bool, s: State, step: Step, rest: seq<Step>)
    ensures From(catalog, attached, s, [step] + rest) == From(catalog, attached, Next(catalog, attached, s, step), rest)
  {
    assert ([step] + rest)[1..] == rest;
    hide Next;
  }

  function Wiped(s: State): State { s.(cache := map[], epoch := s.epoch + 1) }

  /** A verdict from before a clear is written after it, and given to the next check. */
  function CarriedOver(s: State, i: nat, r: Request, v: bool): State {
    Reply(Finish(Wiped(s), i, r, v, s.epoch), r, v, s.epoch)
  }

  lemma {:induction false} Repeated(
      catalog: Catalog, attached: bool, s: State, i: nat, j: nat, r: Request, v: bool, d: State)
    requires j != i && j !in s.open && r.permission in catalog.levels && d == Finish(Wiped(s), i, r, v, s.epoch)
    ensures From(catalog, attached, d, [Begin(j, r)]) == CarriedOver(s, i, r, v)
  {
    var e := Next(catalog, attached, d, Begin(j, r));
    assert j !in d.open && Key(r) in d.cache && d.cache[Key(r)] == Entry(v, s.epoch);
    assert [Begin(j, r)][1..] == [] && From(catalog, attached, e, []) == e;
    hide Key;
  }

  lemma {:induction false} OvertakenAtEngine(
      catalog: Catalog, attached: bool, s: State, i: nat, j: nat, r: Request, w: World)
    requires j != i && i !in s.open && j !in s.open && r.permission in catalog.levels && Key(r) !in s.cache
    requires !AsksStore(r) && attached && Grants(catalog, r, Brought(r))
    ensures From(catalog, attached, s, Overtaken(i, j, r, w)) == CarriedOver(s, i, r, Agrees(catalog, w, r))
  {
    var v := Agrees(catalog, w, r);
    var o := Judged(r, v, s.epoch, s.epoch);
    var a, b, c := s.(open := s.open[i := Judging(r, None)]), s.(open := s.open[i := o]), Wiped(s);
    var last := [Begin(j, r)];
    assert Overtaken(i, j, r, w) == [Begin(i, r)] + ([Judge(i, w)] + ([Wipe] + ([Resume(i)] + last)));
    hide From, Key, Grants, Agrees, Finish, Overtaken;
    assert Next(catalog, attached, s, Begin(i, r)) == a;
    OpenTwice(s, i, Judging(r, None), o);
    assert Next(catalog, attached, a, Judge(i, w)) == b;
    c := c.(open := s.open[i := o]);
    assert Next(catalog, attached, b, Wipe) == c;
    FinishAnyway(Wiped(s), i, o, r, v, s.epoch);
    var d := Next(catalog, attached, c, Resume(i));
    hide *;
    Repeated(catalog, attached, s, i, j, r, v, d);
    FromCons(catalog, attached, s, Begin(i, r), [Judge(i, w)] + ([Wipe] + ([Resume(i)] + last)));
    FromCons(catalog, attached, a, Judge(i, w), [Wipe] + ([Resume(i)] + last));
    FromCons(catalog, attached, b, Wipe, [Resume(i)] + last);
    FromCons(catalog, attached, c, Resume(i), last);
  }

  lemma {:induction false} OvertakenAtStore(
      catalog: Catalog, attached: bool, s: State, i: nat, j: nat, r: Request, w: World)
    requires j != i && i !in s.open && j !in s.open && r.permission in catalog.levels && Key(r) !in s.cache
    requires AsksStore(r)
    ensures From(catalog, attached, s, Overtaken(i, j, r, w)) == CarriedOver(s, i, r, Allowed(catalog, attached, w, r))
  {
    var roles, v := w.rolesFor(r.user, r.tenant), Allowed(catalog, attached, w, r);
    var o := Resolved(r, roles, s.epoch);
    var a, b := s.(open := s.open[i := Looking(r)]), s.(open := s.open[i := o]);
    var c := Wiped(s).(open := s.open[i := o]);
    var last := [Begin(j, r)];
    var rest := [Judge(i, w)] + ([Resume(i)] + last);
    assert Overtaken(i, j, r, w) == [Begin(i, r)] + ([Resolve(i, w)] + ([Wipe] + ([Resume(i)] + rest)));
    assert roles == Roles(w, r.user, r.tenant, r.roles);
    hide From, Key, Finish, Decide, Overtaken, Allowed, Roles;
    assert Next(catalog, attached, s, Begin(i, r)) == a;
    OpenTwice(s, i, Looking(r), o);
    assert Next(catalog, attached, a, Resolve(i, w)) == b;
    assert Next(catalog, attached, b, Wipe) == c;
    DecideAnyway(catalog, attached, Wiped(s), i, o, r, roles, Some(s.epoch));
    var d := Next(catalog, attached, c, Resume(i));
    assert d == Decide(catalog, attached, Wiped(s), i, r, roles, Some(s.epoch));
    assert First(Some(s.epoch), s.epoch + 1) == s.epoch;
    assert i !in Wiped(s).open;
    hide *;
    DecidedAlone(catalog, attached, Wiped(s), i, w, r, roles, Some(s.epoch), d);
    var e := Next(catalog, attached, d, Judge(i, w));
    var f := Next(catalog, attached, e, Resume(i));
    Repeated(catalog, attached, s, i, j, r, v, f);
    FromCons(catalog, attached, s, Begin(i, r), [Resolve(i, w)] + ([Wipe] + ([Resume(i)] + rest)));
    FromCons(catalog, attached, a, Resolve(i, w), [Wipe] + ([Resume(i)] + rest));
    FromCons(catalog, attached, b, Wipe, [Resume(i)] + rest);
    FromCons(catalog, attached, c, Resume(i), rest);
    FromCons(catalog, attached, d, Judge(i, w), [Resume(i)] + last);
    FromCons(catalog, attached, e, Resume(i), last);
  }

  /** The clear does not help against it: from any state, for any request that has to wait, the verdict from before the
      clear, whatever it was, is what the new epoch remembers and answers, although nobody has asked store or engine
      about it since. */
  lemma {:induction false} ClearIsOvertaken(
      catalog: Catalog, attached: bool, s: State, i: nat, j: nat, r: Request, w: World)
    requires j != i && i !in s.open && j !in s.open && r.permission in catalog.levels && Key(r) !in s.cache
    requires Waits(catalog, attached, r)
    ensures var t, v := From(catalog, attached, s, Overtaken(i, j, r, w)), Allowed(catalog, attached, w, r);
      && t.epoch == s.epoch + 1 && Key(r) in t.cache && t.cache[Key(r)] == Entry(v, s.epoch)
      && t.given == s.given + [Given(r, v, s.epoch, s.epoch + 1), Given(r, v, s.epoch, s.epoch + 1)]
  {
    if AsksStore(r) {
      hide From, Overtaken, Allowed, Key;
      OvertakenAtStore(catalog, attached, s, i, j, r, w);
    } else {
      assert Allowed(catalog, attached, w, r) == Agrees(catalog, w, r) by { hide Principal, EngineAllows, NonEmpty; }
      hide From, Overtaken, Allowed, Agrees, Grants, Key;
      OvertakenAtEngine(catalog, attached, s, i, j, r, w);
    }
  }
}
