/** The interleaved logins as the Redis commands they are: what holds of runs of
    the machine holds of runs of commands. */
module LockoutRedis {
  import opened Text
  import opened LockoutInterleaving
  import AccountLockout

  /** What is in Redis, the clock, and how many failures still have to lock. */
  datatype World = World(redis: AccountLockout.Redis, now: int, inFlight: nat)

  function Fresh(now: int): World { World(map[], now, 0) }

  /** The command behind each step, on the account's two keys. */
  function Do(w: World, email: string, step: Step, c: Config): World
    requires step.Lock? ==> w.inFlight > 0
  {
    var a, l := AccountLockout.AttemptsKey(email), AccountLockout.LockoutKey(email);
    match step
    case Increment =>
      var counted := AccountLockout.Incremented(w.redis, a, c.window, w.now);
      World(counted, w.now, if counted[a].value.n >= c.maxAttempts then w.inFlight + 1 else w.inFlight)
    case Lock =>
      World(w.redis[l := AccountLockout.Entry(AccountLockout.Stamp(w.now), w.now + c.duration)], w.now, w.inFlight - 1)
    case Succeed => w.(redis := w.redis - {a})
    case Clear => w.(redis := w.redis - {a, l})
    case Tick(d) => w.(now := w.now + d)
  }

  function DoAll(w: World, email: string, steps: seq<Step>, c: Config): Option<World>
    decreases |steps|
  {
    if steps == [] then Some(w)
    else if steps[0].Lock? && w.inFlight == 0 then None
    else DoAll(Do(w, email, steps[0], c), email, steps[1..], c)
  }

  /** An account's two keys as a state of the machine; keys that are not live read as absent. */
  function View(w: World, email: string): State {
    var a, l := AccountLockout.AttemptsKey(email), AccountLockout.LockoutKey(email);
    var live := AccountLockout.Live(w.redis, a, w.now) && w.redis[a].value.Count?;
    State(w.now, if live then w.redis[a].value.n else 0, if live then w.redis[a].expiry else w.now,
          if AccountLockout.Live(w.redis, l, w.now) then Some(w.redis[l].expiry) else None, w.inFlight)
  }

  /** A state with everything that has expired taken out. */
  function Normal(s: State): State {
    State(s.now, LiveCount(s), if Counted(s) then s.countExpiry else s.now, if LockedNow(s) then s.lock else None,
          s.inFlight)
  }

  /** Every step of the machine is its Redis command, up to what has expired. */
  lemma {:induction false} StepsAreRedis(w: World, email: string, step: Step, c: Config)
    requires c.duration >= 1 && (step.Lock? ==> w.inFlight > 0)
    ensures View(Do(w, email, step, c), email) == Normal(Next(View(w, email), step, c))
  {
    AccountLockout.KeysApart(email, email);
    hide AccountLockout.AttemptsKey, AccountLockout.LockoutKey;
  }

  /** Taking out what has expired changes no later step and nothing that is said about a state. */
  lemma {:induction false} NormalIsEnough(s: State, step: Step, c: Config)
    requires Enabled(s, step)
    ensures Enabled(Normal(s), step) && Normal(Next(Normal(s), step, c)) == Normal(Next(s, step, c))
  {}

  lemma {:induction false} NormalSays(s: State, c: Config)
    ensures Covered(Normal(s), c) == Covered(s, c) && Remaining(Normal(s), c) == Remaining(s, c)
    ensures LockedNow(Normal(s)) == LockedNow(s) && Normal(s).inFlight == s.inFlight && Normal(Normal(s)) == Normal(s)
  {}

  lemma {:induction false} NormalRun(s: State, t: State, steps: seq<Step>, c: Config)
    requires Normal(s) == Normal(t)
    ensures After(s, steps, c).Some? <==> After(t, steps, c).Some?
    ensures After(s, steps, c).Some? ==> Normal(After(s, steps, c).value) == Normal(After(t, steps, c).value)
    decreases |steps|
  {
    if steps != [] {
      assert s.inFlight == t.inFlight;
      if Enabled(s, steps[0]) {
        NormalIsEnough(s, steps[0], c);
        NormalIsEnough(t, steps[0], c);
        hide Next, Normal;
        NormalRun(Next(s, steps[0], c), Next(t, steps[0], c), steps[1..], c);
      }
    }
  }

  /** Every run of commands is a run of the machine, and the other way round. */
  lemma {:induction false} RunsAreRedis(w: World, email: string, steps: seq<Step>, c: Config)
    requires c.duration >= 1
    ensures DoAll(w, email, steps, c).Some? <==> After(View(w, email), steps, c).Some?
    ensures DoAll(w, email, steps, c).Some? ==>
      View(DoAll(w, email, steps, c).value, email) == Normal(View(DoAll(w, email, steps, c).value, email))
      && View(DoAll(w, email, steps, c).value, email) == Normal(After(View(w, email), steps, c).value)
    decreases |steps|
  {
    ViewIsNormal(w, email);
    assert View(w, email).inFlight == w.inFlight;
    if steps != [] && !(steps[0].Lock? && w.inFlight == 0) {
      var next := Do(w, email, steps[0], c);
      var s := Next(View(w, email), steps[0], c);
      StepsAreRedis(w, email, steps[0], c);
      assert DoAll(w, email, steps, c) == DoAll(next, email, steps[1..], c);
      assert After(View(w, email), steps, c) == After(s, steps[1..], c);
      NormalSays(s, c);
      hide *;
      RunsAreRedis(next, email, steps[1..], c);
      NormalRun(View(next, email), s, steps[1..], c);
    }
  }

  lemma {:induction false} ViewIsNormal(w: World, email: string)
    ensures Normal(View(w, email)) == View(w, email)
  {
    hide AccountLockout.AttemptsKey, AccountLockout.LockoutKey;
  }

  // ---- the results, on Redis ----

  /** The counter key is live at the threshold only while the lock key is live, and does not outlive it. */
  predicate CoveredIn(w: World, email: string, c: Config) {
    var a, l := AccountLockout.AttemptsKey(email), AccountLockout.LockoutKey(email);
    AccountLockout.Live(w.redis, a, w.now) && w.redis[a].value.Count? && w.redis[a].value.n >= c.maxAttempts ==>
      AccountLockout.Live(w.redis, l, w.now) && w.redis[l].expiry >= w.redis[a].expiry
  }

  ghost predicate AlwaysCoveredInRedis(email: string, c: Config) {
    forall now: int, steps: seq<Step> ::
      var w := DoAll(Fresh(now), email, steps, c);
      w.Some? && w.value.inFlight == 0 ==> CoveredIn(w.value, email, c)
  }

  lemma {:induction false} CoveredView(w: World, email: string, c: Config)
    ensures CoveredIn(w, email, c) <==> Covered(View(w, email), c)
  {
    hide AccountLockout.AttemptsKey, AccountLockout.LockoutKey;
  }

  lemma {:induction false} FreshView(now: int, email: string)
    ensures View(Fresh(now), email) == Start(now)
  {
    hide AccountLockout.AttemptsKey, AccountLockout.LockoutKey;
  }

  lemma {:induction false} CoveredAfter(email: string, now: int, steps: seq<Step>, c: Config)
    requires c.duration >= 1
    ensures var w, s := DoAll(Fresh(now), email, steps, c), After(Start(now), steps, c);
      (w.Some? <==> s.Some?)
      && (w.Some? ==> w.value.inFlight == s.value.inFlight && (CoveredIn(w.value, email, c) <==> Covered(s.value, c)))
  {
    FreshView(now, email);
    RunsAreRedis(Fresh(now), email, steps, c);
    var w, s := DoAll(Fresh(now), email, steps, c), After(Start(now), steps, c);
    if w.Some? {
      assert View(w.value, email).inFlight == w.value.inFlight;
      hide *;
      NormalSays(s.value, c);
      CoveredView(w.value, email, c);
    }
  }

  /** Over all runs of Redis commands, a live counter at the threshold has a live lock that outlives it whenever no
      failure is in flight, if and only if the window is no longer than the lock. */
  lemma {:induction false} CoveredInRedisExactly(email: string, c: Config)
    requires c.duration >= 1
    ensures AlwaysCoveredInRedis(email, c) <==> c.window <= c.duration
  {
    CoveredExactly(c);
    forall now: int, steps: seq<Step> ensures
      var w, s := DoAll(Fresh(now), email, steps, c), After(Start(now), steps, c);
      (w.Some? <==> s.Some?)
      && (w.Some? ==> w.value.inFlight == s.value.inFlight && (CoveredIn(w.value, email, c) <==> Covered(s.value, c)))
    {
      CoveredAfter(email, now, steps, c);
    }
    hide DoAll, After, CoveredIn, Covered;
  }

  /** What `check_lockout` reports as remaining when the lock key is read in one world, not live, and the counter key
      in a later one. */
  function ReportedRemaining(w: World, email: string, c: Config): int {
    var a := AccountLockout.AttemptsKey(email);
    var n := if AccountLockout.Live(w.redis, a, w.now) && w.redis[a].value.Count? then w.redis[a].value.n else 0;
    if n < c.maxAttempts then c.maxAttempts - n else 0
  }

  /** A check on a run of commands: the lock is read after the first of them, the counter after some more; no failure is
      in flight at either moment. */
  ghost predicate Checks(
      email: string, c: Config, now: int, first: seq<Step>, more: seq<Step>, before: World, after: World) {
    && DoAll(Fresh(now), email, first, c) == Some(before) && DoAll(before, email, more, c) == Some(after)
    && before.inFlight == 0 && after.inFlight == 0
  }

  /** The check finds no lock and reports that nothing is left. */
  predicate NothingLeftReported(email: string, c: Config, before: World, after: World) {
    !AccountLockout.Live(before.redis, AccountLockout.LockoutKey(email), before.now)
    && ReportedRemaining(after, email, c) == 0
  }

  lemma {:induction false} ReadsView(w: World, email: string, c: Config)
    ensures ReportedRemaining(w, email, c) == Remaining(View(w, email), c)
    ensures AccountLockout.Live(w.redis, AccountLockout.LockoutKey(email), w.now) <==> LockedNow(View(w, email))
  {
    hide AccountLockout.AttemptsKey, AccountLockout.LockoutKey;
  }

  lemma {:induction false} ChecksAreMoments(
      email: string, c: Config, now: int, first: seq<Step>, more: seq<Step>, before: World, after: World)
    returns (s: State, t: State)
    requires c.duration >= 1 && Checks(email, c, now, first, more, before, after)
    ensures Moments(c, now, first, more, s, t) && s.inFlight == 0 && t.inFlight == 0
    ensures NothingLeftReported(email, c, before, after) <==> ReportsNothingLeft(s, t, c)
    ensures AccountLockout.Live(after.redis, AccountLockout.LockoutKey(email), after.now) <==> LockedNow(t)
  {
    FreshView(now, email);
    RunsAreRedis(Fresh(now), email, first, c);
    RunsAreRedis(before, email, more, c);
    s := After(Start(now), first, c).value;
    assert View(before, email) == Normal(s);
    NormalSays(s, c);
    NormalRun(View(before, email), s, more, c);
    t := After(s, more, c).value;
    assert Normal(t) == View(after, email);
    assert View(before, email).inFlight == before.inFlight && View(after, email).inFlight == after.inFlight;
    NormalSays(t, c);
    ReadsView(before, email, c);
    ReadsView(after, email, c);
    hide After, DoAll, View, Normal, ReportedRemaining, Remaining, LockedNow;
  }

  /** When the window is no longer than the lock, a check that finds no lock and reports nothing left has been overtaken:
      a failure locked the account between its two reads, and the account is locked when the report is made. Otherwise
      there is an attempt left to report. */
  lemma {:induction false} NothingLeftIsALock(
      email: string, c: Config, now: int, first: seq<Step>, more: seq<Step>, before: World, after: World)
    requires c.duration >= 1 && c.maxAttempts >= 1 && c.window <= c.duration
    requires Checks(email, c, now, first, more, before, after) && NothingLeftReported(email, c, before, after)
    ensures Lock in more
    ensures AccountLockout.Live(after.redis, AccountLockout.LockoutKey(email), after.now)
  {
    hide *;
    var s, t := ChecksAreMoments(email, c, now, first, more, before, after);
    NothingLeftExplained(c, now, first, more, s, t);
  }
}
