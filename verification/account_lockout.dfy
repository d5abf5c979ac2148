/** Counting failed logins in Redis and locking accounts. Redis is a map from
    key to value and expiry; a key is live before its expiry. Time is counted
    in seconds. */
module AccountLockout {

  datatype Value = Count(n: int) | Stamp(at: int)

  datatype Entry = Entry(value: Value, expiry: int)

  type Redis = map<string, Entry>

  predicate Live(redis: Redis, key: string, now: int)
    ensures Live(redis, key, now) ==> key in redis
  {
    key in redis && now < redis[key].expiry
  }

  const ATTEMPTS_PREFIX: string := "login_attempts:"
  const LOCKOUT_PREFIX: string := "lockout:"

  function AttemptsKey(email: string): string { ATTEMPTS_PREFIX + email }

  function LockoutKey(email: string): string { LOCKOUT_PREFIX + email }

  /** No two accounts share a key, and no counter is a lock. */
  lemma {:induction false} KeysApart(a: string, b: string)
    ensures AttemptsKey(a) == AttemptsKey(b) ==> a == b
    ensures LockoutKey(a) == LockoutKey(b) ==> a == b
    ensures AttemptsKey(a) != LockoutKey(b)
  {
    assert AttemptsKey(a)[|ATTEMPTS_PREFIX|..] == a && AttemptsKey(b)[|ATTEMPTS_PREFIX|..] == b;
    assert LockoutKey(a)[|LOCKOUT_PREFIX|..] == a && LockoutKey(b)[|LOCKOUT_PREFIX|..] == b;
    assert AttemptsKey(a)[2] == ATTEMPTS_PREFIX[2] == 'g' && LockoutKey(b)[2] == LOCKOUT_PREFIX[2] == 'c';
  }

  datatype Config = Config(maxAttempts: int, duration: int, window: int)

  /** What an operation reports. */
  datatype Status = Status(locked: bool, attempts: int, remaining: int, retryAfter: int, lockedAt: int)

  /** Recording a failure reports a status, or raises when Redis refuses a lock of no duration. */
  datatype Report = Reported(status: Status) | Refused

  // ---- histories ----

  datatype Kind = Failure | Success | Clear

  datatype Event = Event(kind: Kind, email: string, at: int)

  /** The events of one account. */
  function Own(history: seq<Event>, email: string): seq<Event> {
    if history == [] then []
    else
      var n := |history| - 1;
      Own(history[..n], email) + if history[n].email == email then [history[n]] else []
  }

  predicate InOrder(history: seq<Event>) {
    forall i, j :: 0 <= i < j < |history| ==> history[i].at <= history[j].at
  }

  /** The event at i is a failure that follows another failure within the window. */
  predicate Follows(own: seq<Event>, i: int, window: int) {
    0 < i < |own| && own[i].kind == Failure && own[i - 1].kind == Failure && own[i].at < own[i - 1].at + window
  }

  /** The length of the run of failures that ends a history. */
  function Run(own: seq<Event>, window: int): nat {
    var n := |own|;
    if n == 0 || own[n - 1].kind != Failure then 0
    else if Follows(own, n - 1, window) then 1 + Run(own[..n - 1], window)
    else 1
  }

  /** The run is the longest trailing stretch of failures whose every gap is inside the window. */
  lemma {:induction false} RunIsLongest(own: seq<Event>, window: int)
    ensures var k := Run(own, window);
      && k <= |own|
      && (forall i :: |own| - k <= i < |own| ==> own[i].kind == Failure)
      && (forall i :: |own| - k < i < |own| ==> Follows(own, i, window))
      && (own != [] && own[|own| - 1].kind == Failure ==> k > 0 && !Follows(own, |own| - k, window))
  {
    var n := |own|;
    if n > 0 && own[n - 1].kind == Failure && Follows(own, n - 1, window) {
      var before := own[..n - 1];
      RunIsLongest(before, window);
      var k := Run(before, window);
      assert Run(own, window) == 1 + k;
      forall i | n - 1 - k < i < n - 1 ensures Follows(own, i, window) {
        assert Follows(before, i, window);
      }
      forall i | n - 1 - k <= i < n ensures own[i].kind == Failure {
        if i < n - 1 { assert before[i].kind == Failure; }
      }
      assert Follows(own, n - 1 - k, window) ==> Follows(before, n - 1 - k, window);
    }
  }

  /** The i-th event is a failure that reaches the threshold and is not cleared afterwards. */
  predicate Locks(own: seq<Event>, i: int, c: Config) {
    && 0 <= i < |own| && own[i].kind == Failure && Run(own[..i + 1], c.window) >= c.maxAttempts
    && forall j :: i < j < |own| ==> own[j].kind != Clear
  }

  /** The latest failure that locks, or -1. */
  function LastLock(own: seq<Event>, c: Config): (i: int)
    ensures -1 <= i < |own|
  {
    var n := |own|;
    if n == 0 || own[n - 1].kind == Clear then -1
    else if own[n - 1].kind == Failure && Run(own, c.window) >= c.maxAttempts then n - 1
    else LastLock(own[..n - 1], c)
  }

  lemma {:induction false} LastLockIsLast(own: seq<Event>, c: Config)
    ensures LastLock(own, c) >= 0 ==> Locks(own, LastLock(own, c), c)
    ensures forall i :: Locks(own, i, c) ==> i <= LastLock(own, c)
  {
    hide Run;
    var n := |own|;
    if n > 0 {
      assert own[..n] == own;
      if own[n - 1].kind != Clear && !(own[n - 1].kind == Failure && Run(own, c.window) >= c.maxAttempts) {
        var before := own[..n - 1];
        LastLockIsLast(before, c);
        forall i | 0 <= i < n - 1 ensures Locks(own, i, c) <==> Locks(before, i, c) {
          assert before[..i + 1] == own[..i + 1];
          assert own[n - 1].kind != Clear;
          if Locks(before, i, c) {
            forall j | i < j < n ensures own[j].kind != Clear {
              if j < n - 1 { assert before[j] == own[j]; }
            }
          }
          if Locks(own, i, c) {
            forall j | i < j < n - 1 ensures before[j].kind != Clear { assert before[j] == own[j]; }
          }
        }
        assert !Locks(own, n - 1, c);
      }
    }
  }

  /** Locked at `now`: some failure of the last `duration` seconds reached the threshold and no clear followed. */
  ghost predicate Locked(own: seq<Event>, c: Config, now: int) {
    exists i :: Locks(own, i, c) && now < own[i].at + c.duration
  }

  /** The attempts still counted at `now`. */
  function Attempts(own: seq<Event>, c: Config, now: int): nat {
    if own != [] && own[|own| - 1].kind == Failure && now < own[|own| - 1].at + c.window
    then Run(own, c.window) else 0
  }

  // ---- what Redis holds ----

  /** The two keys of an account hold exactly what its own events say. */
  ghost predicate Holds(redis: Redis, own: seq<Event>, email: string, c: Config) {
    var n, l := |own|, LastLock(own, c);
    && (AttemptsKey(email) in redis <==> n > 0 && own[n - 1].kind == Failure)
    && (AttemptsKey(email) in redis ==>
          redis[AttemptsKey(email)] == Entry(Count(Run(own, c.window)), own[n - 1].at + c.window))
    && (LockoutKey(email) in redis <==> l >= 0 && c.duration >= 1)
    && (LockoutKey(email) in redis ==>
          redis[LockoutKey(email)] == Entry(Stamp(own[l].at), own[l].at + c.duration))
  }

  ghost predicate AllHold(redis: Redis, history: seq<Event>, c: Config) {
    forall email :: Holds(redis, Own(history, email), email, c)
  }

  ghost predicate Sound(redis: Redis, history: seq<Event>, c: Config) {
    InOrder(history) && AllHold(redis, history, c)
  }

  lemma {:induction false} LiveCounter(redis: Redis, own: seq<Event>, email: string, c: Config, now: int)
    requires Holds(redis, own, email, c)
    ensures Attempts(own, c, now) ==
      if Live(redis, AttemptsKey(email), now) && redis[AttemptsKey(email)].value.Count?
      then redis[AttemptsKey(email)].value.n else 0
  {
    hide Run, LastLock, AttemptsKey, LockoutKey;
  }

  lemma {:induction false} LiveLock(redis: Redis, own: seq<Event>, email: string, c: Config, now: int)
    requires Holds(redis, own, email, c) && InOrder(own)
    requires own != [] ==> own[|own| - 1].at <= now
    ensures Live(redis, LockoutKey(email), now) <==> Locked(own, c, now)
    ensures Live(redis, LockoutKey(email), now) ==>
      var l := LastLock(own, c);
      0 <= l < |own| && redis[LockoutKey(email)] == Entry(Stamp(own[l].at), own[l].at + c.duration)
  {
    LastLockIsLast(own, c);
    assert forall i :: Locks(own, i, c) ==> 0 <= i < |own|;
    hide Run, LastLock, AttemptsKey, LockoutKey, Locks;
    if Locked(own, c, now) {
      var i :| Locks(own, i, c) && now < own[i].at + c.duration;
      assert own[i].at <= own[|own| - 1].at;
    }
  }

  // ---- one event ----

  /** What a failure makes of the counter, the expiry set anew each time. */
  function Incremented(redis: Redis, key: string, window: int, now: int): (r: Redis)
    ensures key in r && r[key].value.Count? && r == redis[key := r[key]]
  {
    var n := if Live(redis, key, now) && redis[key].value.Count? then redis[key].value.n + 1 else 1;
    redis[key := Entry(Count(n), now + window)]
  }

  /** What reaching the threshold makes of the lock; Redis refuses a lock of no duration. */
  function Locking(redis: Redis, key: string, n: int, c: Config, now: int): Redis {
    if n >= c.maxAttempts && c.duration >= 1 then redis[key := Entry(Stamp(now), now + c.duration)] else redis
  }

  /** No key but the account's own two is touched. */
  ghost predicate ChangesOnly(before: Redis, after: Redis, email: string) {
    forall key :: key != AttemptsKey(email) && key != LockoutKey(email) ==>
      (key in after <==> key in before) && (key in before ==> after[key] == before[key])
  }

  lemma {:induction false} AfterFailure(redis: Redis, own: seq<Event>, email: string, c: Config, now: int)
    requires Holds(redis, own, email, c) && (own != [] ==> own[|own| - 1].at <= now)
    ensures var more := own + [Event(Failure, email, now)];
      var counted := Incremented(redis, AttemptsKey(email), c.window, now);
      counted[AttemptsKey(email)] == Entry(Count(Run(more, c.window)), now + c.window) &&
      var after := Locking(counted, LockoutKey(email), Run(more, c.window), c, now);
      Holds(after, more, email, c) && ChangesOnly(redis, after, email)
  {
    var more := own + [Event(Failure, email, now)];
    var n := |own|;
    assert more[..n] == own && more[n].kind == Failure;
    assert Follows(more, n, c.window) <==> Live(redis, AttemptsKey(email), now) by { hide Run, LastLock; }
    assert Run(more, c.window) == if Live(redis, AttemptsKey(email), now) then 1 + Run(own, c.window) else 1;
    KeysApart(email, email);
    assert LastLock(more, c) == if Run(more, c.window) >= c.maxAttempts then n else LastLock(own, c);
    hide Run, LastLock, AttemptsKey, LockoutKey;
  }

  lemma {:induction false} AfterSuccess(redis: Redis, own: seq<Event>, email: string, c: Config, now: int)
    requires Holds(redis, own, email, c)
    ensures Holds(redis - {AttemptsKey(email)}, own + [Event(Success, email, now)], email, c)
    ensures ChangesOnly(redis, redis - {AttemptsKey(email)}, email)
  {
    var more := own + [Event(Success, email, now)];
    assert more[..|own|] == own;
    KeysApart(email, email);
    assert LastLock(more, c) == LastLock(own, c);
    hide Run, LastLock, AttemptsKey, LockoutKey;
  }

  lemma {:induction false} AfterClear(redis: Redis, own: seq<Event>, email: string, c: Config, now: int)
    ensures Holds(redis - {AttemptsKey(email), LockoutKey(email)}, own + [Event(Clear, email, now)], email, c)
    ensures ChangesOnly(redis, redis - {AttemptsKey(email), LockoutKey(email)}, email)
  {
    assert LastLock(own + [Event(Clear, email, now)], c) == -1;
    hide Run, LastLock, AttemptsKey, LockoutKey;
  }

  /** Changing the keys of one account leaves what is held of every other. */
  lemma {:induction false} OthersKept(
      redis: Redis, after: Redis, own: seq<Event>, email: string, other: string, c: Config)
    requires other != email && Holds(redis, own, other, c)
    requires ChangesOnly(redis, after, email)
    ensures Holds(after, own, other, c)
  {
    KeysApart(email, other);
    KeysApart(other, email);
    hide Run, LastLock, AttemptsKey, LockoutKey;
  }

  lemma {:induction false} OwnGrows(history: seq<Event>, e: Event, email: string)
    ensures Own(history + [e], email) ==
      if e.email == email then Own(history, email) + [e] else Own(history, email)
  {
    assert (history + [e])[..|history|] == history;
  }

  lemma {:induction false} OwnInOrder(history: seq<Event>, email: string)
    requires InOrder(history)
    ensures InOrder(Own(history, email))
    ensures forall e :: e in Own(history, email) ==> e.email == email && e in history
    ensures Own(history, email) != [] ==>
      Own(history, email)[|Own(history, email)| - 1].at <= history[|history| - 1].at
  {
    if history != [] {
      var n := |history| - 1;
      var own := Own(history[..n], email);
      OwnInOrder(history[..n], email);
      assert Own(history, email) == own + if history[n].email == email then [history[n]] else [];
      hide Own;
      forall e | e in own ensures e.at <= history[n].at {
        var i :| 0 <= i < n && history[i] == e;
      }
      if own != [] { assert own[|own| - 1] in own; }
      if history[n].email == email { InOrderGrows(own, history[n]); }
    }
  }

  // ---- the service ----

  class AccountLockoutService {
    const config: Config
    const lower: string -> string     // `str.lower`
    var redis: Redis
    ghost var history: seq<Event>     // every event, under the lower-cased email

    /** Redis holds, for every account, what the account's own events say and nothing of anyone else's. */
    ghost predicate Valid() reads this {
      Sound(redis, history, config)
    }

    /** The clock has not been turned back. */
    ghost predicate NotBefore(now: int) reads this {
      history != [] ==> history[|history| - 1].at <= now
    }

    constructor (config: Config, lower: string -> string)
      ensures Valid() && history == [] && this.config == config && this.lower == lower
    {
      this.config, this.lower, redis, history := config, lower, map[], [];
    }

    /** The first read of a check: whether there is a live lock, since when and until when. */
    method ReadLock(email: string, now: int) returns (locked: bool, lockedAt: int, expiry: int)
      requires Valid() && NotBefore(now)
      ensures var own := Own(history, lower(email));
        && (locked <==> Locked(own, config, now))
        && (locked ==>
              var l := LastLock(own, config);
              0 <= l < |own| && Locks(own, l, config) && lockedAt == own[l].at && expiry == own[l].at + config.duration)
    {
      var who := lower(email);
      ghost var own := Own(history, who);
      OwnHolds(redis, history, who, config, now);
      LiveLock(redis, own, who, config, now);
      LastLockIsLast(own, config);
      hide *;
      var lock := LockoutKey(who);
      locked, lockedAt, expiry := false, 0, 0;
      if Live(redis, lock, now) && redis[lock].value.Stamp? {
        locked, lockedAt, expiry := true, redis[lock].value.at, redis[lock].expiry;
      }
    }

    /** The second read of a check: the attempts still counted. */
    method ReadAttempts(email: string, now: int) returns (attempts: int)
      requires Valid() && NotBefore(now)
      ensures attempts == Attempts(Own(history, lower(email)), config, now)
    {
      var who := lower(email);
      OwnHolds(redis, history, who, config, now);
      LiveCounter(redis, Own(history, who), who, config, now);
      hide *;
      var counter := AttemptsKey(who);
      attempts := if Live(redis, counter, now) && redis[counter].value.Count? then redis[counter].value.n else 0;
    }

    /** A check nothing else comes in between of: the lock is read at `now`, and then, at `later`, its time to live
        or the attempts. */
    method CheckLockout(email: string, now: int, later: int) returns (s: Status)
      requires Valid() && NotBefore(now) && now <= later
      ensures var own := Own(history, lower(email));
        && (s.locked <==> Locked(own, config, now))
        && (s.locked ==>
              var l := LastLock(own, config);
              && 0 <= l < |own| && Locks(own, l, config) && s.lockedAt == own[l].at
              && s.remaining == 0 && s.attempts == config.maxAttempts
              && s.retryAfter == if later < own[l].at + config.duration then own[l].at + config.duration - later else 0)
        && (!s.locked ==>
              && s.attempts == Attempts(own, config, later)
              && s.remaining == if s.attempts < config.maxAttempts then config.maxAttempts - s.attempts else 0)
    {
      hide Own, Locked, LastLock, Locks, Attempts, Sound;
      var locked, lockedAt, expiry := ReadLock(email, now);
      if locked {
        var ttl := expiry - later;
        return Status(true, config.maxAttempts, 0, if ttl > 0 then ttl else 0, lockedAt);
      }
      var attempts := ReadAttempts(email, later);
      s := Status(false, attempts,
                  if attempts < config.maxAttempts then config.maxAttempts - attempts else 0, 0, 0);
    }

    /** Counts a failure, and locks the account when the count reaches the threshold. */
    method RecordFailedAttempt(email: string, now: int) returns (report: Report)
      requires Valid() && NotBefore(now)
      modifies this`redis, this`history
      ensures Valid() && history == old(history) + [Event(Failure, lower(email), now)]
      ensures var n := Run(Own(history, lower(email)), config.window);
        report ==
          if n < config.maxAttempts then Reported(Status(false, n, config.maxAttempts - n, 0, 0))
          else if config.duration < 1 then Refused
          else Reported(Status(true, n, 0, config.duration, now))
    {
      var who := lower(email);
      ghost var e := Event(Failure, who, now);
      hide Holds, AllHold, Own, InOrder, Run, LastLock, AttemptsKey, LockoutKey, Incremented, Locking, Sound;
      FailureSound(redis, history, e, config);
      var counted := Incremented(redis, AttemptsKey(who), config.window, now);
      var n := counted[AttemptsKey(who)].value.n;
      var after := Locking(counted, LockoutKey(who), n, config, now);
      history, redis := history + [e], after;
      report :=
        if n < config.maxAttempts then Reported(Status(false, n, config.maxAttempts - n, 0, 0))
        else if config.duration < 1 then Refused
        else Reported(Status(true, n, 0, config.duration, now));
    }

    /** Forgets the counted attempts; a lock stays. */
    method RecordSuccessfulLogin(email: string, now: int)
      requires Valid() && NotBefore(now)
      modifies this`redis, this`history
      ensures Valid() && history == old(history) + [Event(Success, lower(email), now)]
    {
      var who := lower(email);
      ghost var e := Event(Success, who, now);
      hide Holds, AllHold, Own, InOrder, Run, LastLock, AttemptsKey, LockoutKey, Sound;
      SuccessSound(redis, history, e, config);
      history, redis := history + [e], redis - {AttemptsKey(who)};
    }

    /** Forgets attempts and lock; says whether there was a live lock. */
    method ClearLockout(email: string, now: int) returns (cleared: bool)
      requires Valid() && NotBefore(now)
      modifies this`redis, this`history
      ensures Valid() && history == old(history) + [Event(Clear, lower(email), now)]
      ensures cleared == Locked(Own(old(history), lower(email)), config, now)
    {
      var who := lower(email);
      ghost var e := Event(Clear, who, now);
      hide Holds, AllHold, Own, InOrder, Run, LastLock, AttemptsKey, LockoutKey, Locked, Sound;
      ClearSound(redis, history, e, config);
      LockRead(redis, history, who, config, now);
      cleared := Live(redis, LockoutKey(who), now);
      history, redis := history + [e], redis - {AttemptsKey(who), LockoutKey(who)};
    }
  }

  lemma {:induction false} InOrderGrows(history: seq<Event>, e: Event)
    requires InOrder(history) && (history != [] ==> history[|history| - 1].at <= e.at)
    ensures InOrder(history + [e])
  {}

  /** From the account that was touched to all accounts. */
  lemma {:induction false} EveryAccount(before: Redis, after: Redis, history: seq<Event>, e: Event, c: Config)
    requires Sound(before, history, c) && (history != [] ==> history[|history| - 1].at <= e.at)
    requires Holds(after, Own(history + [e], e.email), e.email, c)
    requires ChangesOnly(before, after, e.email)
    ensures Sound(after, history + [e], c)
  {
    hide Holds, Own, AttemptsKey, LockoutKey;
    InOrderGrows(history, e);
    forall email ensures Holds(after, Own(history + [e], email), email, c) {
      if email != e.email {
        OwnGrows(history, e, email);
        hide *;
        OthersKept(before, after, Own(history, email), e.email, email, c);
      }
    }
  }

  lemma {:induction false} OwnHolds(redis: Redis, history: seq<Event>, email: string, c: Config, now: int)
    requires Sound(redis, history, c) && (history != [] ==> history[|history| - 1].at <= now)
    ensures var own := Own(history, email);
      Holds(redis, own, email, c) && InOrder(own) && (own != [] ==> own[|own| - 1].at <= now)
  {
    OwnInOrder(history, email);
    hide Own, Holds;
  }

  lemma {:induction false} LockRead(redis: Redis, history: seq<Event>, email: string, c: Config, now: int)
    requires Sound(redis, history, c) && (history != [] ==> history[|history| - 1].at <= now)
    ensures Live(redis, LockoutKey(email), now) <==> Locked(Own(history, email), c, now)
  {
    hide *;
    OwnHolds(redis, history, email, c, now);
    LiveLock(redis, Own(history, email), email, c, now);
  }

  lemma {:induction false} FailureSound(redis: Redis, history: seq<Event>, e: Event, c: Config)
    requires Sound(redis, history, c) && (history != [] ==> history[|history| - 1].at <= e.at) && e.kind == Failure
    ensures var counted := Incremented(redis, AttemptsKey(e.email), c.window, e.at);
      var n := counted[AttemptsKey(e.email)].value.n;
      n == Run(Own(history + [e], e.email), c.window)
      && Sound(Locking(counted, LockoutKey(e.email), n, c, e.at), history + [e], c)
  {
    var own := Own(history, e.email);
    assert e == Event(Failure, e.email, e.at);
    hide *;
    OwnHolds(redis, history, e.email, c, e.at);
    OwnGrows(history, e, e.email);
    AfterFailure(redis, own, e.email, c, e.at);
    var counted := Incremented(redis, AttemptsKey(e.email), c.window, e.at);
    EveryAccount(redis, Locking(counted, LockoutKey(e.email), Run(own + [e], c.window), c, e.at), history, e, c);
  }

  lemma {:induction false} SuccessSound(redis: Redis, history: seq<Event>, e: Event, c: Config)
    requires Sound(redis, history, c) && (history != [] ==> history[|history| - 1].at <= e.at) && e.kind == Success
    ensures Sound(redis - {AttemptsKey(e.email)}, history + [e], c)
  {
    assert e == Event(Success, e.email, e.at);
    hide *;
    OwnHolds(redis, history, e.email, c, e.at);
    OwnGrows(history, e, e.email);
    AfterSuccess(redis, Own(history, e.email), e.email, c, e.at);
    EveryAccount(redis, redis - {AttemptsKey(e.email)}, history, e, c);
  }

  lemma {:induction false} ClearSound(redis: Redis, history: seq<Event>, e: Event, c: Config)
    requires Sound(redis, history, c) && (history != [] ==> history[|history| - 1].at <= e.at) && e.kind == Clear
    ensures Sound(redis - {AttemptsKey(e.email), LockoutKey(e.email)}, history + [e], c)
  {
    assert e == Event(Clear, e.email, e.at);
    hide *;
    OwnGrows(history, e, e.email);
    AfterClear(redis, Own(history, e.email), e.email, c, e.at);
    EveryAccount(redis, redis - {AttemptsKey(e.email), LockoutKey(e.email)}, history, e, c);
  }
}
