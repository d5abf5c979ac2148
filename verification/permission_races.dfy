/** Checks that overlap. A check that misses the cache waits for the membership
    store, unless it brings roles along, and then for the engine, if one is
    attached and the roles grant; whatever it does between two waits is one step. */
module PermissionRaces {
  import opened Text
  import opened PermissionMatrix

  /** An open check: waiting for the store, answered by it, waiting for the engine, answered by it. `since` is the
      epoch of its first answer, `at` that of its last. */
  datatype Open =
    | Looking(request: Request)
    | Resolved(request: Request, roles: seq<string>, since: nat)
    | Judging(request: Request, first: Option<nat>)
    | Judged(request: Request, verdict: bool, since: nat, at: nat)

  datatype Step =
    | Begin(check: nat, request: Request)
    | Resolve(check: nat, world: World)   // the store answers
    | Judge(check: nat, world: World)     // the engine answers
    | Resume(check: nat)                  // the check goes on with the answer
    | Wipe                                // `clear_cache`

  /** What is remembered, and the epoch of the first answer it rests on. */
  datatype Entry = Entry(allowed: bool, since: nat)

  /** An answer, the epoch of the first answer of store or engine it rests on, and how many clears had happened when it
      was given. */
  datatype Given = Given(request: Request, allowed: bool, since: nat, epoch: nat)

  datatype State = State(cache: map<string, Entry>, open: map<nat, Open>, epoch: nat, given: seq<Given>)

  function Empty(): State { State(map[], map[], 0, []) }

  predicate AsksStore(r: Request) { r.roles.None? && r.user != "" }

  /** The roles of a request that does not ask the store. */
  function Brought(r: Request): seq<string> { if r.roles.Some? then r.roles.value else [] }

  ghost predicate Grants(catalog: Catalog, r: Request, roles: seq<string>) {
    r.permission in Principal(catalog, roles, r.scopes, r.tenant)
  }

  function Reply(s: State, r: Request, allowed: bool, since: nat): State {
    s.(given := s.given + [Given(r, allowed, since, s.epoch)])
  }

  /** The answer is written and given. */
  function Finish(s: State, i: nat, r: Request, allowed: bool, since: nat): State {
    Reply(s, r, allowed, since).(cache := s.cache[Key(r) := Entry(allowed, since)], open := s.open - {i})
  }

  /** The roles are known: a denial, or the engine's turn. */
  ghost function Decide(
      catalog: Catalog, attached: bool, s: State, i: nat, r: Request, roles: seq<string>, first: Option<nat>): State {
    if Grants(catalog, r, roles) && attached then s.(open := s.open[i := Judging(r, first)])
    else Finish(s, i, r, Grants(catalog, r, roles), First(first, s.epoch))
  }

  function First(first: Option<nat>, now: nat): nat { if first.Some? then first.value else now }

  ghost predicate Agrees(catalog: Catalog, w: World, r: Request) {
    r.permission in catalog.levels && EngineAllows(catalog, w, r)
  }

  /** A step that is not due changes nothing. */
  ghost function Next(catalog: Catalog, attached: bool, s: State, step: Step): State {
    match step
    case Begin(i, r) =>
      if i in s.open then s
      else if r.permission !in catalog.levels then Reply(s, r, false, s.epoch)
      else if Key(r) in s.cache then Reply(s, r, s.cache[Key(r)].allowed, s.cache[Key(r)].since)
      else if AsksStore(r) then s.(open := s.open[i := Looking(r)])
      else Decide(catalog, attached, s, i, r, Brought(r), None)
    case Resolve(i, w) =>
      if i in s.open && s.open[i].Looking? then
        var r := s.open[i].request;
        s.(open := s.open[i := Resolved(r, w.rolesFor(r.user, r.tenant), s.epoch)])
      else s
    case Judge(i, w) =>
      if i in s.open && s.open[i].Judging? then
        var r := s.open[i].request;
        s.(open := s.open[i := Judged(r, Agrees(catalog, w, r), First(s.open[i].first, s.epoch), s.epoch)])
      else s
    case Resume(i) =>
      if i !in s.open then s
      else
        (match s.open[i]
         case Resolved(r, roles, since) => Decide(catalog, attached, s, i, r, roles, Some(since))
         case Judged(r, verdict, since, at) => Finish(s, i, r, verdict, since)
         case _ => s)
    case Wipe => s.(cache := map[], epoch := s.epoch + 1)
  }

  ghost function Run(catalog: Catalog, attached: bool, steps: seq<Step>): State {
    if steps == [] then Empty()
    else Next(catalog, attached, Run(catalog, attached, steps[..|steps| - 1]), steps[|steps| - 1])
  }

  lemma {:induction false} RunPrefix(catalog: Catalog, attached: bool, steps: seq<Step>, n: nat)
    requires n < |steps|
    ensures Run(catalog, attached, steps[..n + 1])
         == Next(catalog, attached, Run(catalog, attached, steps[..n]), steps[n])
  {
    assert steps[..n + 1][..n] == steps[..n];
    hide Next;
  }

  // ---- which schedules answer from their own epoch ----

  /** The step gives an answer that rests on something store or engine said before the last clear. */
  ghost predicate Late(catalog: Catalog, attached: bool, s: State, step: Step) {
    step.Resume? && step.check in s.open &&
    match s.open[step.check]
    case Resolved(r, roles, since) => since != s.epoch && !(Grants(catalog, r, roles) && attached)
    case Judged(_, _, since, _) => since != s.epoch
    case _ => false
  }

  ghost predicate Timely(catalog: Catalog, attached: bool, steps: seq<Step>) {
    forall n :: 0 <= n < |steps| ==> !Late(catalog, attached, Run(catalog, attached, steps[..n]), steps[n])
  }

  predicate AllFresh(s: State) { forall n :: 0 <= n < |s.given| ==> s.given[n].since == s.given[n].epoch }

  predicate CacheFresh(s: State) { forall key :: key in s.cache ==> s.cache[key].since == s.epoch }

  lemma {:induction false} ReplyFresh(s: State, r: Request, allowed: bool, since: nat)
    ensures AllFresh(Reply(s, r, allowed, since)) <==> AllFresh(s) && since == s.epoch
    ensures CacheFresh(s) ==> CacheFresh(Reply(s, r, allowed, since))
  {
    var t := Reply(s, r, allowed, since);
    assert forall n :: 0 <= n < |s.given| ==> t.given[n] == s.given[n];
    assert t.given[|s.given|] == Given(r, allowed, since, s.epoch);
  }

  lemma {:induction false} FinishFresh(s: State, i: nat, r: Request, allowed: bool, since: nat)
    ensures AllFresh(Finish(s, i, r, allowed, since)) <==> AllFresh(s) && since == s.epoch
    ensures CacheFresh(s) && since == s.epoch ==> CacheFresh(Finish(s, i, r, allowed, since))
  {
    ReplyFresh(s, r, allowed, since);
    hide Key;
  }

  lemma {:induction false} DecideFresh(
      catalog: Catalog, attached: bool, s: State, i: nat, r: Request, roles: seq<string>, first: Option<nat>)
    ensures var t := Decide(catalog, attached, s, i, r, roles, first);
      var stale := !(Grants(catalog, r, roles) && attached) && First(first, s.epoch) != s.epoch;
      (AllFresh(t) <==> AllFresh(s) && !stale) && (CacheFresh(s) && !stale ==> CacheFresh(t))
  {
    FinishFresh(s, i, r, Grants(catalog, r, roles), First(first, s.epoch));
    hide Grants, Finish, First;
  }

  /** As long as all answers are fresh, so is what is remembered, and the next answer is stale only if it is late. */
  lemma {:induction false} NextFresh(catalog: Catalog, attached: bool, s: State, step: Step)
    requires AllFresh(s) ==> CacheFresh(s)
    ensures var t := Next(catalog, attached, s, step);
      && (AllFresh(t) ==> CacheFresh(t))
      && (AllFresh(t) <==> AllFresh(s) && !Late(catalog, attached, s, step))
  {
    hide Key, Grants, Agrees, Reply, Finish, Decide;
    match step {
      case Begin(i, r) =>
        ReplyFresh(s, r, false, s.epoch);
        if Key(r) in s.cache { ReplyFresh(s, r, s.cache[Key(r)].allowed, s.cache[Key(r)].since); }
        DecideFresh(catalog, attached, s, i, r, Brought(r), None);
      case Resume(i) =>
        if i in s.open && s.open[i].Resolved? {
          DecideFresh(catalog, attached, s, i, s.open[i].request, s.open[i].roles, Some(s.open[i].since));
        }
        if i in s.open && s.open[i].Judged? {
          FinishFresh(s, i, s.open[i].request, s.open[i].verdict, s.open[i].since);
        }
      case _ =>
    }
  }

  lemma {:induction false} TimelyStep(catalog: Catalog, attached: bool, steps: seq<Step>, n: nat)
    requires |steps| == n + 1
    ensures Timely(catalog, attached, steps) <==>
      Timely(catalog, attached, steps[..n]) && !Late(catalog, attached, Run(catalog, attached, steps[..n]), steps[n])
  {
    hide Run, Late;
    assert forall k :: 0 <= k < n ==> steps[..n][..k] == steps[..k] && steps[..n][k] == steps[k];
  }

  /** Every answer rests on what store and engine said since the last clear if and only if no step is late. */
  lemma {:induction false} FreshExactly(catalog: Catalog, attached: bool, steps: seq<Step>)
    ensures AllFresh(Run(catalog, attached, steps)) <==> Timely(catalog, attached, steps)
    ensures AllFresh(Run(catalog, attached, steps)) ==> CacheFresh(Run(catalog, attached, steps))
  {
    if steps == [] {
      assert Run(catalog, attached, steps) == Empty();
    } else {
      var n := |steps| - 1;
      assert steps[..n + 1] == steps;
      hide *;
      FreshExactly(catalog, attached, steps[..n]);
      RunPrefix(catalog, attached, steps, n);
      NextFresh(catalog, attached, Run(catalog, attached, steps[..n]), steps[n]);
      TimelyStep(catalog, attached, steps, n);
    }
  }

  /** What the cascade says under each key in each epoch. */
  type Truth = (nat, string) -> bool

  /** What was true when an answer's first ground was laid is true when it is given. */
  ghost predicate StillTrue(truth: Truth, s: State) {
    forall n :: 0 <= n < |s.given| ==>
      truth(s.given[n].since, Key(s.given[n].request)) == truth(s.given[n].epoch, Key(s.given[n].request))
  }

  lemma {:induction false} StaleShows(s: State)
    ensures AllFresh(s) <==> forall truth: Truth :: StillTrue(truth, s)
  {
    hide Key;
    if !AllFresh(s) {
      var n :| 0 <= n < |s.given| && s.given[n].since != s.given[n].epoch;
      var since := s.given[n].since;
      var truth: Truth := (epoch, key) => epoch == since;
      assert !StillTrue(truth, s);
    }
  }

  /** Whatever changes at a clear: over any schedule, all answers are those of the epoch they are given in, for every
      course of the truth, if and only if no step is late. */
  lemma {:induction false} AnswersRightExactly(catalog: Catalog, attached: bool, steps: seq<Step>)
    ensures (forall truth: Truth :: StillTrue(truth, Run(catalog, attached, steps))) <==> Timely(catalog, attached, steps)
  {
    hide *;
    FreshExactly(catalog, attached, steps);
    StaleShows(Run(catalog, attached, steps));
  }

  // ---- truthful judgements ----

  /** What is remembered is what the cascade says in the epoch it rests on. */
  ghost predicate RemembersTruth(truth: Truth, s: State) {
    forall key :: key in s.cache ==> s.cache[key].allowed == truth(s.cache[key].since, key)
  }

  /** So it is at every moment, and with that every judgement, since each is written as it is given. */
  ghost predicate Truthful(catalog: Catalog, attached: bool, truth: Truth, steps: seq<Step>) {
    forall n :: 0 <= n <= |steps| ==> RemembersTruth(truth, Run(catalog, attached, steps[..n]))
  }

  /** The answer is the cascade's in the epoch it rests on; an unknown permission is denied. */
  ghost predicate Grounded(catalog: Catalog, truth: Truth, g: Given) {
    g.allowed == (g.request.permission in catalog.levels && truth(g.since, Key(g.request)))
  }

  ghost predicate AllGrounded(catalog: Catalog, truth: Truth, s: State) {
    && (forall i :: i in s.open ==> s.open[i].request.permission in catalog.levels)
    && forall n :: 0 <= n < |s.given| ==> Grounded(catalog, truth, s.given[n])
  }

  ghost predicate RightAnswer(catalog: Catalog, truth: Truth, g: Given) {
    g.allowed == (g.request.permission in catalog.levels && truth(g.epoch, Key(g.request)))
  }

  lemma {:induction false} ReplyGrounded(
      catalog: Catalog, truth: Truth, s: State, r: Request, allowed: bool, since: nat)
    requires AllGrounded(catalog, truth, s) && Grounded(catalog, truth, Given(r, allowed, since, s.epoch))
    ensures AllGrounded(catalog, truth, Reply(s, r, allowed, since))
  {
    var t := Reply(s, r, allowed, since);
    assert forall n :: 0 <= n < |s.given| ==> t.given[n] == s.given[n];
    hide Grounded;
  }

  lemma {:induction false} FinishGrounded(
      catalog: Catalog, truth: Truth, s: State, i: nat, r: Request, allowed: bool, since: nat)
    requires AllGrounded(catalog, truth, s) && r.permission in catalog.levels
    requires RemembersTruth(truth, Finish(s, i, r, allowed, since))
    ensures AllGrounded(catalog, truth, Finish(s, i, r, allowed, since))
  {
    var t, u := Finish(s, i, r, allowed, since), Reply(s, r, allowed, since);
    assert Key(r) in t.cache && t.cache[Key(r)] == Entry(allowed, since);
    assert t.given == u.given && forall k :: k in t.open ==> k in u.open && t.open[k] == u.open[k];
    hide Key, Reply, Finish;
    ReplyGrounded(catalog, truth, s, r, allowed, since);
    hide Grounded;
  }

  lemma {:induction false} DecideGrounded(
      catalog: Catalog, attached: bool, truth: Truth, s: State, i: nat, r: Request, roles: seq<string>,
      first: Option<nat>)
    requires AllGrounded(catalog, truth, s) && r.permission in catalog.levels
    requires RemembersTruth(truth, Decide(catalog, attached, s, i, r, roles, first))
    ensures AllGrounded(catalog, truth, Decide(catalog, attached, s, i, r, roles, first))
  {
    hide Key, Grants, Finish, First, Grounded, RemembersTruth;
    if !(Grants(catalog, r, roles) && attached) {
      FinishGrounded(catalog, truth, s, i, r, Grants(catalog, r, roles), First(first, s.epoch));
    }
  }

  lemma {:induction false} NextGrounded(catalog: Catalog, attached: bool, truth: Truth, s: State, step: Step)
    requires AllGrounded(catalog, truth, s) && RemembersTruth(truth, s)
    requires RemembersTruth(truth, Next(catalog, attached, s, step))
    ensures AllGrounded(catalog, truth, Next(catalog, attached, s, step))
  {
    match step {
      case Begin(i, r) =>
        if i !in s.open {
          if r.permission !in catalog.levels {
            ReplyGrounded(catalog, truth, s, r, false, s.epoch);
          } else if Key(r) in s.cache {
            ReplyGrounded(catalog, truth, s, r, s.cache[Key(r)].allowed, s.cache[Key(r)].since);
          } else if !AsksStore(r) {
            hide Decide, RemembersTruth, AllGrounded, Key;
            DecideGrounded(catalog, attached, truth, s, i, r, Brought(r), None);
          } else {
            hide Key, Grounded;
          }
        }
      case Resume(i) =>
        hide Decide, Finish, RemembersTruth, Key, Grounded;
        if i in s.open && s.open[i].Resolved? {
          DecideGrounded(catalog, attached, truth, s, i, s.open[i].request, s.open[i].roles, Some(s.open[i].since));
        }
        if i in s.open && s.open[i].Judged? {
          FinishGrounded(catalog, truth, s, i, s.open[i].request, s.open[i].verdict, s.open[i].since);
        }
      case _ =>
        hide Key, Agrees, RemembersTruth, Grounded;
    }
  }

  lemma {:induction false} RunGrounded(catalog: Catalog, attached: bool, truth: Truth, steps: seq<Step>)
    requires Truthful(catalog, attached, truth, steps)
    ensures AllGrounded(catalog, truth, Run(catalog, attached, steps))
  {
    if steps != [] {
      var n := |steps| - 1;
      var before := steps[..n];
      assert forall k :: 0 <= k <= n ==> before[..k] == steps[..k];
      assert steps[..n + 1] == steps && before[..n] == before;
      assert RemembersTruth(truth, Run(catalog, attached, steps[..n]));
      assert RemembersTruth(truth, Run(catalog, attached, steps[..n + 1]));
      assert Truthful(catalog, attached, truth, before) by { hide Run, RemembersTruth; }
      hide *;
      RunGrounded(catalog, attached, truth, before);
      RunPrefix(catalog, attached, steps, n);
      NextGrounded(catalog, attached, truth, Run(catalog, attached, before), steps[n]);
    }
  }

  /** Over any interleaving of overlapping checks: if every judgement is what the cascade says in the epoch it rests on,
      and no step is late, every answer is the cascade's of its epoch. */
  lemma {:induction false} OrderlyAnswersAreRight(catalog: Catalog, attached: bool, truth: Truth, steps: seq<Step>)
    requires Truthful(catalog, attached, truth, steps) && Timely(catalog, attached, steps)
    ensures forall n :: 0 <= n < |Run(catalog, attached, steps).given| ==>
      RightAnswer(catalog, truth, Run(catalog, attached, steps).given[n])
  {
    var s := Run(catalog, attached, steps);
    hide Run, Truthful, Timely, Key;
    RunGrounded(catalog, attached, truth, steps);
    AnswersRightExactly(catalog, attached, steps);
    assert StillTrue(truth, s);
    forall n | 0 <= n < |s.given| ensures RightAnswer(catalog, truth, s.given[n]) {
      assert Grounded(catalog, truth, s.given[n]);
    }
  }
}
