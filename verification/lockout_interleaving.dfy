/** One account under interleaved logins: a failure is an atomic increment with
    its expiry, and, when it reaches the threshold, a later lock step. */
module LockoutInterleaving {
  import opened Text
  import AccountLockout

  type Config = AccountLockout.Config

  /** A counter and a lock, each with its expiry, and how many failures still have to lock. */
  datatype State = State(now: int, count: int, countExpiry: int, lock: Option<int>, inFlight: nat)

  datatype Step = Increment | Lock | Succeed | Clear | Tick(seconds: nat)

  predicate Counted(s: State) { s.now < s.countExpiry }

  predicate LockedNow(s: State) { s.lock.Some? && s.now < s.lock.value }

  /** The live count; an expired counter reads as none. */
  function LiveCount(s: State): int { if Counted(s) then s.count else 0 }

  /** The attempts that are left by the count alone. */
  function Remaining(s: State, c: Config): int {
    if LiveCount(s) < c.maxAttempts then c.maxAttempts - LiveCount(s) else 0
  }

  function Start(now: int): State { State(now, 0, now, None, 0) }

  predicate Enabled(s: State, step: Step) { step.Lock? ==> s.inFlight > 0 }

  function Next(s: State, step: Step, c: Config): State
    requires Enabled(s, step)
  {
    match step
    case Increment =>
      var n := LiveCount(s) + 1;
      s.(count := n, countExpiry := s.now + c.window,
         inFlight := if n >= c.maxAttempts then s.inFlight + 1 else s.inFlight)
    case Lock => s.(lock := Some(s.now + c.duration), inFlight := s.inFlight - 1)
    case Succeed => s.(countExpiry := s.now)
    case Clear => s.(countExpiry := s.now, lock := None)
    case Tick(d) => s.(now := s.now + d)
  }

  /** The state after a list of steps, if each is possible when it comes. */
  function After(s: State, steps: seq<Step>, c: Config): Option<State>
    decreases |steps|
  {
    if steps == [] then Some(s)
    else if !Enabled(s, steps[0]) then None
    else After(Next(s, steps[0], c), steps[1..], c)
  }

  /** A live count at the threshold is covered by a lock that outlives it. */
  predicate Covered(s: State, c: Config) {
    Counted(s) && s.count >= c.maxAttempts ==> LockedNow(s) && s.lock.value >= s.countExpiry
  }

  /** The counter never lives longer than a window from now. */
  predicate Bounded(s: State, c: Config) { !Counted(s) || s.countExpiry <= s.now + c.window }

  /** What every interleaving keeps: an uncovered count has a failure in flight. */
  predicate Inv(s: State, c: Config) {
    Bounded(s, c) && (s.inFlight > 0 || Covered(s, c))
  }

  lemma {:induction false} StepKeeps(s: State, step: Step, c: Config)
    requires c.window <= c.duration && Enabled(s, step)
    requires Inv(s, c)
    ensures Inv(Next(s, step, c), c)
  {}

  lemma {:induction false} RunKeeps(s: State, steps: seq<Step>, c: Config)
    requires c.window <= c.duration && Inv(s, c)
    ensures After(s, steps, c).Some? ==> Inv(After(s, steps, c).value, c)
    decreases |steps|
  {
    if steps != [] && Enabled(s, steps[0]) {
      StepKeeps(s, steps[0], c);
      RunKeeps(Next(s, steps[0], c), steps[1..], c);
    }
  }

  /** Whenever no failure is in flight, a live count at the threshold has a live lock that outlives it. */
  ghost predicate AlwaysCovered(c: Config) {
    forall now: int, steps: seq<Step> ::
      var after := After(Start(now), steps, c);
      after.Some? && after.value.inFlight == 0 ==> Covered(after.value, c)
  }

  /** Whenever no failure is in flight, an account that is not locked has an attempt left. */
  ghost predicate AlwaysAnAttemptLeft(c: Config) {
    forall now: int, steps: seq<Step> ::
      var after := After(Start(now), steps, c);
      after.Some? && after.value.inFlight == 0 && !LockedNow(after.value) ==> Remaining(after.value, c) >= 1
  }

  // ---- the run that goes wrong ----

  function Repeat(n: nat): seq<Step> { if n == 0 then [] else [Increment] + Repeat(n - 1) }

  /** As many failures as it takes, the lock, and as long a wait as the lock lasts. */
  function Outlasting(c: Config): seq<Step> {
    Repeat(if c.maxAttempts >= 1 then c.maxAttempts else 1) + ([Lock] + [Tick(if c.duration >= 0 then c.duration else 0)])
  }

  lemma {:induction false} AfterConcat(s: State, a: seq<Step>, b: seq<Step>, c: Config)
    ensures After(s, a, c).None? ==> After(s, a + b, c).None?
    ensures After(s, a, c).Some? ==> After(s, a + b, c) == After(After(s, a, c).value, b, c)
    decreases |a|
  {
    if a == [] {
      assert a + b == b;
    } else if Enabled(s, a[0]) {
      assert (a + b)[0] == a[0] && (a + b)[1..] == a[1..] + b;
      AfterConcat(Next(s, a[0], c), a[1..], b, c);
    }
  }

  /** k failures at one moment, from a count of j: one is in flight as soon as the threshold is reached. */
  lemma {:induction false} AfterFailures(s: State, k: nat, c: Config)
    requires c.window >= 1 && 0 <= LiveCount(s) && s.lock.None? && k >= 1
    requires LiveCount(s) + k == if c.maxAttempts >= 1 then c.maxAttempts else 1
    requires s.inFlight == 0
    ensures After(s, Repeat(k), c) ==
      Some(State(s.now, if c.maxAttempts >= 1 then c.maxAttempts else 1, s.now + c.window, None, 1))
    decreases k
  {
    var t := Next(s, Increment, c);
    assert Repeat(k)[0] == Increment && Repeat(k)[1..] == Repeat(k - 1);
    assert After(s, Repeat(k), c) == After(t, Repeat(k - 1), c);
    if k > 1 {
      AfterFailures(t, k - 1, c);
    }
  }

  /** With a window longer than the lock, the lock runs out before the count does. */
  lemma {:induction false} CountOutlastsLock(c: Config, now: int)
    requires c.duration >= 1 && c.window > c.duration
    ensures var after := After(Start(now), Outlasting(c), c);
      && after.Some? && after.value.inFlight == 0 && !LockedNow(after.value)
      && Counted(after.value) && after.value.count >= c.maxAttempts
  {
    var k := if c.maxAttempts >= 1 then c.maxAttempts else 1;
    AfterFailures(Start(now), k, c);
    var a := After(Start(now), Repeat(k), c).value;
    AfterConcat(Start(now), Repeat(k), [Lock] + [Tick(c.duration)], c);
    var b := Next(a, Lock, c);
    assert ([Lock] + [Tick(c.duration)])[1..] == [Tick(c.duration)];
    assert After(a, [Lock] + [Tick(c.duration)], c) == After(b, [Tick(c.duration)], c);
    assert [Tick(c.duration)][1..] == [];
    assert After(b, [Tick(c.duration)], c) == Some(Next(b, Tick(c.duration), c));
  }

  /** Counts are always covered exactly when the window is no longer than the lock. */
  lemma {:induction false} CoveredExactly(c: Config)
    requires c.duration >= 1
    ensures AlwaysCovered(c) <==> c.window <= c.duration
  {
    if c.window <= c.duration {
      forall now: int, steps: seq<Step>
        ensures var after := After(Start(now), steps, c);
          after.Some? && after.value.inFlight == 0 ==> Covered(after.value, c)
      {
        RunKeeps(Start(now), steps, c);
      }
    } else {
      CountOutlastsLock(c, 0);
      hide After, Outlasting;
      assert !Covered(After(Start(0), Outlasting(c), c).value, c);
    }
  }

  /** An account that is neither locked nor being locked always has an attempt left exactly when the window is
      no longer than the lock. */
  lemma {:induction false} AttemptLeftExactly(c: Config)
    requires c.duration >= 1 && c.maxAttempts >= 1
    ensures AlwaysAnAttemptLeft(c) <==> c.window <= c.duration
  {
    if c.window <= c.duration {
      forall now: int, steps: seq<Step>
        ensures var after := After(Start(now), steps, c);
          after.Some? && after.value.inFlight == 0 && !LockedNow(after.value) ==> Remaining(after.value, c) >= 1
      {
        RunKeeps(Start(now), steps, c);
      }
    } else {
      CountOutlastsLock(c, 0);
      hide After, Outlasting;
      assert Remaining(After(Start(0), Outlasting(c), c).value, c) == 0;
    }
  }

  // ---- a check reads twice ----

  /** Two moments of a run: `before` after the first steps, `after` after some more. */
  ghost predicate Moments(c: Config, now: int, first: seq<Step>, more: seq<Step>, before: State, after: State) {
    After(Start(now), first, c) == Some(before) && After(before, more, c) == Some(after)
  }

  /** A check reads the lock at one moment and the count at a later one; it reports no lock and nothing left. */
  predicate ReportsNothingLeft(before: State, after: State, c: Config) {
    !LockedNow(before) && Remaining(after, c) == 0
  }

  /** Every check that reads while no failure is in flight and reports no lock has an attempt to report. */
  ghost predicate AlwaysReportsAttempt(c: Config) {
    forall now: int, first: seq<Step>, more: seq<Step>, before: State, after: State ::
      Moments(c, now, first, more, before, after) && before.inFlight == 0 && after.inFlight == 0 ==>
        !ReportsNothingLeft(before, after, c)
  }

  /** The same for checks during which no failure locks the account. */
  ghost predicate ReportsAttemptUnlessLocking(c: Config) {
    forall now: int, first: seq<Step>, more: seq<Step>, before: State, after: State ::
      Moments(c, now, first, more, before, after) && before.inFlight == 0 && after.inFlight == 0 && Lock !in more ==>
        !ReportsNothingLeft(before, after, c)
  }

  /** A count below the threshold stays below as long as no failure becomes one that has to lock. */
  lemma {:induction false} BelowStaysBelow(s: State, steps: seq<Step>, c: Config)
    requires c.maxAttempts >= 1 && LiveCount(s) < c.maxAttempts && Lock !in steps
    requires After(s, steps, c).Some?
    ensures var t := After(s, steps, c).value;
      t.inFlight >= s.inFlight && (t.inFlight == s.inFlight ==> LiveCount(t) < c.maxAttempts)
    decreases |steps|
  {
    if steps != [] {
      var t := Next(s, steps[0], c);
      assert steps[0] != Lock && Lock !in steps[1..];
      if LiveCount(t) < c.maxAttempts {
        BelowStaysBelow(t, steps[1..], c);
      } else {
        InFlightGrows(t, steps[1..], c);
      }
    }
  }

  lemma {:induction false} InFlightGrows(s: State, steps: seq<Step>, c: Config)
    requires Lock !in steps && After(s, steps, c).Some?
    ensures After(s, steps, c).value.inFlight >= s.inFlight
    decreases |steps|
  {
    if steps != [] {
      assert steps[0] != Lock && Lock !in steps[1..];
      InFlightGrows(Next(s, steps[0], c), steps[1..], c);
    }
  }

  /** A check that no failure locks the account in between of always has an attempt to report, or a lock, exactly
      when the window is no longer than the lock. */
  lemma {:induction false} ReportUnlessLockingExactly(c: Config)
    requires c.duration >= 1 && c.maxAttempts >= 1
    ensures ReportsAttemptUnlessLocking(c) <==> c.window <= c.duration
  {
    if c.window <= c.duration {
      forall now: int, first: seq<Step>, more: seq<Step>, before: State, after: State |
        Moments(c, now, first, more, before, after) && before.inFlight == 0 && after.inFlight == 0 && Lock !in more
        ensures !ReportsNothingLeft(before, after, c)
      {
        RunKeeps(Start(now), first, c);
        hide After;
        if !LockedNow(before) { BelowStaysBelow(before, more, c); }
      }
    } else {
      CountOutlastsLock(c, 0);
      var t := After(Start(0), Outlasting(c), c).value;
      hide Outlasting;
      assert Moments(c, 0, Outlasting(c), [], t, t);
      assert ReportsNothingLeft(t, t, c);
    }
  }

  /** The failures that reach the threshold, and the lock. */
  function Locking(c: Config): seq<Step>
    requires c.maxAttempts >= 1
  {
    Repeat(c.maxAttempts) + [Lock]
  }

  /** Whole failures between the two reads make a check report no lock and nothing left. */
  lemma {:induction false} LockedBetweenReads(c: Config, now: int)
    requires c.duration >= 1 && c.maxAttempts >= 1 && c.window >= 1
    ensures After(Start(now), Locking(c), c).Some?
    ensures var after := After(Start(now), Locking(c), c).value;
      after.inFlight == 0 && ReportsNothingLeft(Start(now), after, c) && LockedNow(after)
  {
    AfterFailures(Start(now), c.maxAttempts, c);
    AfterConcat(Start(now), Repeat(c.maxAttempts), [Lock], c);
    var a := After(Start(now), Repeat(c.maxAttempts), c).value;
    assert [Lock][1..] == [];
    assert After(a, [Lock], c) == Some(Next(a, Lock, c));
  }

  /** So without that proviso a check always has an attempt or a lock to report only in one case, that no count ever
      lives: the window is not positive. */
  lemma {:induction false} ReportExactly(c: Config)
    requires c.duration >= 1 && c.maxAttempts >= 1
    ensures AlwaysReportsAttempt(c) <==> c.window <= 0
  {
    if c.window <= 0 {
      forall now: int, first: seq<Step>, more: seq<Step>, before: State, after: State |
        Moments(c, now, first, more, before, after) && before.inFlight == 0 && after.inFlight == 0
        ensures !ReportsNothingLeft(before, after, c)
      {
        RunKeeps(Start(now), first, c);
        RunKeeps(before, more, c);
        hide After;
      }
    } else {
      LockedBetweenReads(c, 0);
      var t := After(Start(0), Locking(c), c).value;
      assert After(Start(0), [], c) == Some(Start(0));
      hide After, Locking;
      assert Moments(c, 0, [], Locking(c), Start(0), t);
    }
  }

  /** What such a report means when the window is no longer than the lock: the account was locked between the two
      reads, and is locked when the report is made. */
  lemma {:induction false} NothingLeftExplained(
      c: Config, now: int, first: seq<Step>, more: seq<Step>, before: State, after: State)
    requires c.maxAttempts >= 1 && c.window <= c.duration
    requires Moments(c, now, first, more, before, after) && before.inFlight == 0 && after.inFlight == 0
    requires ReportsNothingLeft(before, after, c)
    ensures Lock in more && LockedNow(after)
  {
    RunKeeps(Start(now), first, c);
    RunKeeps(before, more, c);
    hide After;
    if Lock !in more { BelowStaysBelow(before, more, c); }
  }
}
