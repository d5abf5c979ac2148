/** Overlapping checks when the membership store and the engine change only
    where the memory is cleared. */
module PermissionRaceWorlds {
  import opened Text
  import opened PermissionMatrix
  import opened PermissionRaces

  // ---- one world an epoch ----

  /** The cascade's answers to a known request, were it asked in each epoch's world. */
  ghost predicate Said(catalog: Catalog, attached: bool, ws: nat -> World, truth: Truth, r: Request) {
    r.permission in catalog.levels && forall epoch :: Allowed(catalog, attached, ws(epoch), r) == truth(epoch, Key(r))
  }

  /** Store and engine answer as in the world of the epoch, and requests under one key are answered alike in it. */
  ghost predicate InWorlds(
      catalog: Catalog, attached: bool, ws: nat -> World, truth: Truth, s: State, step: Step) {
    match step
    case Begin(_, r) => r.permission in catalog.levels ==> Said(catalog, attached, ws, truth, r)
    case Resolve(i, w) => i in s.open && s.open[i].Looking? ==> w == ws(s.epoch)
    case Judge(i, w) => i in s.open && s.open[i].Judging? ==> w == ws(s.epoch)
    case _ => true
  }

  ghost predicate RunsInWorlds(
      catalog: Catalog, attached: bool, ws: nat -> World, truth: Truth, steps: seq<Step>) {
    forall n :: 0 <= n < |steps| ==>
      InWorlds(catalog, attached, ws, truth, Run(catalog, attached, steps[..n]), steps[n])
  }

  ghost predicate GrantedIn(catalog: Catalog, w: World, r: Request) {
    Grants(catalog, r, Roles(w, r.user, r.tenant, r.roles))
  }

  /** The roles a check goes by once the store, if it was asked, has answered. */
  function RolesSeen(ws: nat -> World, r: Request, first: Option<nat>): seq<string> {
    if first.Some? then ws(first.value).rolesFor(r.user, r.tenant) else Brought(r)
  }

  /** What an open check holds is what store and engine said in their epochs. */
  ghost predicate SoundOpen(
      catalog: Catalog, attached: bool, ws: nat -> World, truth: Truth, now: nat, o: Open) {
    Said(catalog, attached, ws, truth, o.request) &&
    match o
    case Looking(r) => AsksStore(r)
    case Resolved(r, roles, since) => AsksStore(r) && since <= now && roles == ws(since).rolesFor(r.user, r.tenant)
    case Judging(r, first) =>
      attached && (first.Some? ==> first.value <= now) && (first.Some? <==> AsksStore(r))
      && Grants(catalog, r, RolesSeen(ws, r, first))
    case Judged(r, verdict, since, at) =>
      attached && since <= at <= now && GrantedIn(catalog, ws(since), r) && verdict == Agrees(catalog, ws(at), r)
  }

  ghost predicate Sound(catalog: Catalog, attached: bool, ws: nat -> World, truth: Truth, s: State) {
    RemembersTruth(truth, s) && forall i :: i in s.open ==> SoundOpen(catalog, attached, ws, truth, s.epoch, s.open[i])
  }

  lemma {:induction false} RolesAre(w: World, r: Request)
    ensures Roles(w, r.user, r.tenant, r.roles) == if AsksStore(r) then w.rolesFor(r.user, r.tenant) else Brought(r)
  {}

  lemma {:induction false} AllowedIs(catalog: Catalog, attached: bool, w: World, r: Request)
    requires r.permission in catalog.levels
    ensures Allowed(catalog, attached, w, r) <==> GrantedIn(catalog, w, r) && (attached ==> Agrees(catalog, w, r))
  {
    hide Principal, Roles, EngineAllows;
  }

  lemma {:induction false} FinishSound(
      catalog: Catalog, attached: bool, ws: nat -> World, truth: Truth, s: State, i: nat, r: Request, allowed: bool,
      since: nat)
    requires Sound(catalog, attached, ws, truth, s) && allowed == truth(since, Key(r))
    ensures Sound(catalog, attached, ws, truth, Finish(s, i, r, allowed, since))
  {
    hide Key, SoundOpen;
  }

  lemma {:induction false} OpenSound(
      catalog: Catalog, attached: bool, ws: nat -> World, truth: Truth, s: State, i: nat, o: Open)
    requires Sound(catalog, attached, ws, truth, s) && SoundOpen(catalog, attached, ws, truth, s.epoch, o)
    ensures Sound(catalog, attached, ws, truth, s.(open := s.open[i := o]))
  {
    hide Key, SoundOpen;
  }

  lemma {:induction false} GrantSeen(catalog: Catalog, ws: nat -> World, r: Request, first: Option<nat>, now: nat)
    requires first.Some? <==> AsksStore(r)
    ensures Grants(catalog, r, RolesSeen(ws, r, first)) <==> GrantedIn(catalog, ws(First(first, now)), r)
  {
    RolesAre(ws(First(first, now)), r);
    hide Principal, Roles;
  }

  lemma {:induction false} DecideSound(
      catalog: Catalog, attached: bool, ws: nat -> World, truth: Truth, s: State, i: nat, r: Request,
      roles: seq<string>, first: Option<nat>)
    requires Sound(catalog, attached, ws, truth, s) && Said(catalog, attached, ws, truth, r)
    requires (first.Some? ==> first.value <= s.epoch) && (first.Some? <==> AsksStore(r))
    requires roles == RolesSeen(ws, r, first)
    ensures Sound(catalog, attached, ws, truth, Decide(catalog, attached, s, i, r, roles, first))
  {
    var since := First(first, s.epoch);
    assert Allowed(catalog, attached, ws(since), r) == truth(since, Key(r)) && r.permission in catalog.levels;
    hide Key, Grants, GrantedIn, Agrees, Said, Sound, Finish, First, Allowed, Roles, RolesSeen;
    GrantSeen(catalog, ws, r, first, s.epoch);
    AllowedIs(catalog, attached, ws(since), r);
    if Grants(catalog, r, roles) && attached {
      OpenSound(catalog, attached, ws, truth, s, i, Judging(r, first));
    } else {
      FinishSound(catalog, attached, ws, truth, s, i, r, Grants(catalog, r, roles), since);
    }
  }

  lemma {:induction false} JudgedSound(
      catalog: Catalog, attached: bool, ws: nat -> World, truth: Truth, s: State, i: nat, o: Open)
    requires Sound(catalog, attached, ws, truth, s) && o.Judged? && o.since == s.epoch
    requires SoundOpen(catalog, attached, ws, truth, s.epoch, o)
    ensures Sound(catalog, attached, ws, truth, Finish(s, i, o.request, o.verdict, o.since))
  {
    assert Said(catalog, attached, ws, truth, o.request) && o.at == s.epoch && attached;
    assert o.verdict == Agrees(catalog, ws(s.epoch), o.request) && GrantedIn(catalog, ws(s.epoch), o.request);
    assert o.request.permission in catalog.levels
      && Allowed(catalog, attached, ws(s.epoch), o.request) == truth(s.epoch, Key(o.request));
    hide *;
    AllowedIs(catalog, attached, ws(s.epoch), o.request);
    FinishSound(catalog, attached, ws, truth, s, i, o.request, o.verdict, o.since);
  }

  lemma {:induction false} WipeSound(catalog: Catalog, attached: bool, ws: nat -> World, truth: Truth, s: State)
    requires Sound(catalog, attached, ws, truth, s)
    ensures Sound(catalog, attached, ws, truth, s.(cache := map[], epoch := s.epoch + 1))
  {
    hide Key, Said, Grants, GrantedIn, Agrees, RolesSeen;
  }

  lemma {:induction false} ResolveSound(
      catalog: Catalog, attached: bool, ws: nat -> World, truth: Truth, s: State, i: nat)
    requires Sound(catalog, attached, ws, truth, s) && i in s.open && s.open[i].Looking?
    ensures var r := s.open[i].request;
      Sound(catalog, attached, ws, truth,
            s.(open := s.open[i := Resolved(r, ws(s.epoch).rolesFor(r.user, r.tenant), s.epoch)]))
  {
    var r := s.open[i].request;
    assert SoundOpen(catalog, attached, ws, truth, s.epoch, s.open[i]);
    hide Said, Sound;
    OpenSound(catalog, attached, ws, truth, s, i, Resolved(r, ws(s.epoch).rolesFor(r.user, r.tenant), s.epoch));
  }

  lemma {:induction false} JudgeSound(
      catalog: Catalog, attached: bool, ws: nat -> World, truth: Truth, s: State, i: nat)
    requires Sound(catalog, attached, ws, truth, s) && i in s.open && s.open[i].Judging?
    ensures var r, since := s.open[i].request, First(s.open[i].first, s.epoch);
      Sound(catalog, attached, ws, truth,
            s.(open := s.open[i := Judged(r, Agrees(catalog, ws(s.epoch), r), since, s.epoch)]))
  {
    var r, first := s.open[i].request, s.open[i].first;
    assert SoundOpen(catalog, attached, ws, truth, s.epoch, s.open[i]);
    hide Said, Sound, Grants, GrantedIn, Agrees, RolesSeen;
    GrantSeen(catalog, ws, r, first, s.epoch);
    OpenSound(catalog, attached, ws, truth, s, i,
              Judged(r, Agrees(catalog, ws(s.epoch), r), First(first, s.epoch), s.epoch));
  }

  lemma {:induction false} LookingSound(
      catalog: Catalog, attached: bool, ws: nat -> World, truth: Truth, s: State, i: nat, r: Request)
    requires Sound(catalog, attached, ws, truth, s) && Said(catalog, attached, ws, truth, r) && AsksStore(r)
    ensures Sound(catalog, attached, ws, truth, s.(open := s.open[i := Looking(r)]))
  {
    hide Said, Sound;
    OpenSound(catalog, attached, ws, truth, s, i, Looking(r));
  }

  lemma {:induction false} BeginSound(
      catalog: Catalog, attached: bool, ws: nat -> World, truth: Truth, s: State, i: nat, r: Request)
    requires Sound(catalog, attached, ws, truth, s)
    requires r.permission in catalog.levels ==> Said(catalog, attached, ws, truth, r)
    ensures Sound(catalog, attached, ws, truth, Next(catalog, attached, s, Begin(i, r)))
  {
    hide Key, SoundOpen, Said, Decide;
    if i !in s.open && r.permission in catalog.levels && Key(r) !in s.cache {
      if AsksStore(r) {
        LookingSound(catalog, attached, ws, truth, s, i, r);
      } else {
        hide Sound;
        DecideSound(catalog, attached, ws, truth, s, i, r, Brought(r), None);
      }
    }
  }

  lemma {:induction false} ResumeSound(
      catalog: Catalog, attached: bool, ws: nat -> World, truth: Truth, s: State, i: nat)
    requires Sound(catalog, attached, ws, truth, s) && !Late(catalog, attached, s, Resume(i))
    ensures Sound(catalog, attached, ws, truth, Next(catalog, attached, s, Resume(i)))
  {
    assert i in s.open ==> SoundOpen(catalog, attached, ws, truth, s.epoch, s.open[i]) by { hide SoundOpen; }
    hide Sound, Said, Decide, Finish, Grants, GrantedIn, Agrees, RemembersTruth;
    if i in s.open && s.open[i].Resolved? {
      DecideSound(catalog, attached, ws, truth, s, i, s.open[i].request, s.open[i].roles, Some(s.open[i].since));
    }
    if i in s.open && s.open[i].Judged? { JudgedSound(catalog, attached, ws, truth, s, i, s.open[i]); }
  }

  lemma {:induction false} NextSound(
      catalog: Catalog, attached: bool, ws: nat -> World, truth: Truth, s: State, step: Step)
    requires Sound(catalog, attached, ws, truth, s) && InWorlds(catalog, attached, ws, truth, s, step)
    requires !Late(catalog, attached, s, step)
    ensures Sound(catalog, attached, ws, truth, Next(catalog, attached, s, step))
  {
    hide Sound, Said, Agrees, First, Decide, Finish, Reply, Late;
    match step {
      case Begin(i, r) => BeginSound(catalog, attached, ws, truth, s, i, r);
      case Resolve(i, w) => if i in s.open && s.open[i].Looking? { ResolveSound(catalog, attached, ws, truth, s, i); }
      case Judge(i, w) => if i in s.open && s.open[i].Judging? { JudgeSound(catalog, attached, ws, truth, s, i); }
      case Resume(i) => ResumeSound(catalog, attached, ws, truth, s, i);
      case Wipe => WipeSound(catalog, attached, ws, truth, s);
    }
  }

  lemma {:induction false} RunSound(
      catalog: Catalog, attached: bool, ws: nat -> World, truth: Truth, steps: seq<Step>, n: nat)
    requires n <= |steps| && RunsInWorlds(catalog, attached, ws, truth, steps) && Timely(catalog, attached, steps)
    ensures Sound(catalog, attached, ws, truth, Run(catalog, attached, steps[..n]))
  {
    if n == 0 {
      assert Run(catalog, attached, steps[..0]) == Empty();
    } else {
      var before := Run(catalog, attached, steps[..n - 1]);
      assert InWorlds(catalog, attached, ws, truth, before, steps[n - 1]) by { hide InWorlds, Run; }
      assert !Late(catalog, attached, before, steps[n - 1]) by { hide Late, Run; }
      hide *;
      RunSound(catalog, attached, ws, truth, steps, n - 1);
      NextSound(catalog, attached, ws, truth, before, steps[n - 1]);
      RunPrefix(catalog, attached, steps, n - 1);
    }
  }

  lemma {:induction false} SoundRemembers(catalog: Catalog, attached: bool, ws: nat -> World, truth: Truth, s: State)
    requires Sound(catalog, attached, ws, truth, s)
    ensures RemembersTruth(truth, s)
  {
    hide RemembersTruth, SoundOpen;
  }

  /** Checks that overlap in any way, with store and engine changing at clears only and requests under one key answered
      alike: if no step is late, every answer is what the plain cascade says in the epoch it is given in. */
  lemma {:induction false} TimelyAnswersAreAllowed(
      catalog: Catalog, attached: bool, ws: nat -> World, truth: Truth, steps: seq<Step>)
    requires RunsInWorlds(catalog, attached, ws, truth, steps) && Timely(catalog, attached, steps)
    ensures forall n :: 0 <= n < |Run(catalog, attached, steps).given| ==>
      RightAnswer(catalog, truth, Run(catalog, attached, steps).given[n])
  {
    assert Truthful(catalog, attached, truth, steps) by {
      hide *;
      forall n | 0 <= n <= |steps| ensures RemembersTruth(truth, Run(catalog, attached, steps[..n])) {
        RunSound(catalog, attached, ws, truth, steps, n);
        SoundRemembers(catalog, attached, ws, truth, Run(catalog, attached, steps[..n]));
      }
      TruthfulIntro(catalog, attached, truth, steps);
    }
    hide *;
    OrderlyAnswersAreRight(catalog, attached, truth, steps);
  }

  lemma {:induction false} TruthfulIntro(catalog: Catalog, attached: bool, truth: Truth, steps: seq<Step>)
    requires forall n :: 0 <= n <= |steps| ==> RemembersTruth(truth, Run(catalog, attached, steps[..n]))
    ensures Truthful(catalog, attached, truth, steps)
  {
    hide RemembersTruth, Run;
  }
}
