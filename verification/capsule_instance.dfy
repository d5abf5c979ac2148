/** Running instances of capsules and the gauge that counts them per tenant. */
module CapsuleInstances {
  import opened Text

  datatype Status = Running | Completed | Terminated

  /** A row; `state` is a JSON object. */
  datatype Instance = Instance(
    capsule: nat, tenant: string, session: string, state: map<string, string>, status: Status,
    startedAt: int, completedAt: Option<int>)

  datatype Result = Done(id: nat) | Refused

  /** How many of these instances of a tenant are running. */
  ghost function RunningOf(rows: map<nat, Instance>, tenant: string): set<nat> {
    set id | id in rows && rows[id].tenant == tenant && rows[id].status == Running
  }

  /** The running instances started before a moment. */
  ghost function Stale(rows: map<nat, Instance>, cutoff: int): set<nat> {
    set id | id in rows && rows[id].status == Running && rows[id].startedAt < cutoff
  }

  function Gauge(gauge: map<string, int>, tenant: string): int {
    if tenant in gauge then gauge[tenant] else 0
  }

  /** What ending an instance makes of its row. */
  function Ended(i: Instance, status: Status, state: map<string, string>, now: int): Instance {
    i.(status := status, state := state, completedAt := Some(now))
  }

  /** Every tenant's gauge is its number of running instances, and exactly those have no time of completion. */
  ghost predicate Sound(rows: map<nat, Instance>, gauge: map<string, int>) {
    && (forall tenant :: Gauge(gauge, tenant) == |RunningOf(rows, tenant)|)
    && forall id :: id in rows ==> (rows[id].completedAt.None? <==> rows[id].status == Running)
  }

  /** Finished instances stay what they are, and no row goes away. */
  ghost predicate FinishedKept(before: map<nat, Instance>, after: map<nat, Instance>) {
    && before.Keys <= after.Keys
    && forall id :: id in before && before[id].status != Running ==> after[id] == before[id]
  }

  lemma {:induction false} StartSound(rows: map<nat, Instance>, gauge: map<string, int>, id: nat, i: Instance)
    requires Sound(rows, gauge) && id !in rows && i.status == Running && i.completedAt.None?
    ensures Sound(rows[id := i], gauge[i.tenant := Gauge(gauge, i.tenant) + 1])
  {
    var after, gauged := rows[id := i], gauge[i.tenant := Gauge(gauge, i.tenant) + 1];
    forall tenant ensures Gauge(gauged, tenant) == |RunningOf(after, tenant)| {
      OneMoreRunning(rows, id, i, tenant);
      hide RunningOf;
      assert Gauge(gauge, tenant) == |RunningOf(rows, tenant)|;
    }
  }

  lemma {:induction false} OneMoreRunning(rows: map<nat, Instance>, id: nat, i: Instance, tenant: string)
    requires id !in rows && i.status == Running
    ensures |RunningOf(rows[id := i], tenant)| == |RunningOf(rows, tenant)| + if tenant == i.tenant then 1 else 0
  {
    var before, after := RunningOf(rows, tenant), RunningOf(rows[id := i], tenant);
    assert id !in before;
    if tenant == i.tenant {
      assert after == before + {id};
    } else {
      assert after == before;
    }
  }

  lemma {:induction false} OneLessRunning(rows: map<nat, Instance>, id: nat, i: Instance, tenant: string)
    requires id in rows && rows[id].status == Running && i.status != Running && i.tenant == rows[id].tenant
    ensures |RunningOf(rows[id := i], tenant)| == |RunningOf(rows, tenant)| - if tenant == i.tenant then 1 else 0
  {
    var before, after := RunningOf(rows, tenant), RunningOf(rows[id := i], tenant);
    assert after == before - if tenant == i.tenant then {id} else {};
    assert tenant == i.tenant ==> id in before;
  }

  lemma {:induction false} EndSound(rows: map<nat, Instance>, gauge: map<string, int>, id: nat, i: Instance)
    requires Sound(rows, gauge) && id in rows && rows[id].status == Running
    requires i.tenant == rows[id].tenant && i.status != Running && i.completedAt.Some?
    ensures Sound(rows[id := i], gauge[i.tenant := Gauge(gauge, i.tenant) - 1])
  {
    var after, gauged := rows[id := i], gauge[i.tenant := Gauge(gauge, i.tenant) - 1];
    forall tenant ensures Gauge(gauged, tenant) == |RunningOf(after, tenant)| {
      OneLessRunning(rows, id, i, tenant);
      hide RunningOf;
      assert Gauge(gauge, tenant) == |RunningOf(rows, tenant)|;
    }
  }

  lemma {:induction false} ChangeSound(rows: map<nat, Instance>, gauge: map<string, int>, id: nat, i: Instance)
    requires Sound(rows, gauge) && id in rows
    requires i.tenant == rows[id].tenant && i.status == rows[id].status && i.completedAt == rows[id].completedAt
    ensures Sound(rows[id := i], gauge)
  {
    forall tenant ensures RunningOf(rows[id := i], tenant) == RunningOf(rows, tenant) {}
  }

  /** What a cleanup leaves: exactly the stale instances are terminated, each at its time and with its reason. */
  ghost predicate CleanedUp(
      before: map<nat, Instance>, after: map<nat, Instance>, done: set<nat>, reason: string, now: int) {
    && after.Keys == before.Keys
    && forall id :: id in before ==>
        after[id] ==
          if id in done then Ended(before[id], Terminated, before[id].state["termination_reason" := reason], now)
          else before[id]
  }

  lemma {:induction false} CleanedStep(
      before: map<nat, Instance>, rows: map<nat, Instance>, done: set<nat>, reason: string, now: int, id: nat,
      after: map<nat, Instance>)
    requires CleanedUp(before, rows, done, reason, now) && id in before && id !in done
    requires after == rows[id := Ended(rows[id], Terminated, rows[id].state["termination_reason" := reason], now)]
    ensures CleanedUp(before, after, done + {id}, reason, now)
  {
    hide Ended;
  }

  /** When all stale instances are terminated, none is left and the finished ones are as before. */
  lemma {:induction false} CleanedAll(
      before: map<nat, Instance>, rows: map<nat, Instance>, cutoff: int, reason: string, now: int)
    requires CleanedUp(before, rows, Stale(before, cutoff), reason, now)
    ensures Stale(rows, cutoff) == {} && FinishedKept(before, rows)
  {}

  /** An instance still to be terminated is there, running. */
  lemma {:induction false} StillRunning(
      before: map<nat, Instance>, rows: map<nat, Instance>, cutoff: int, done: set<nat>, reason: string, now: int, id: nat)
    requires CleanedUp(before, rows, done, reason, now) && id in Stale(before, cutoff) && id !in done
    ensures id in before && id in rows && rows[id] == before[id] && rows[id].status == Running
  {}

  class InstanceService {
    var rows: map<nat, Instance>
    var gauge: map<string, int>

    ghost predicate Valid() reads this { Sound(rows, gauge) }

    constructor ()
      ensures Valid() && rows == map[]
    {
      rows, gauge := map[], map[];
      assert forall tenant :: RunningOf(map[], tenant) == {};
    }

    /** Starts an instance of an active capsule that verifies; both are known to the caller's `injectable`. */
    method CreateInstance(
        id: nat, capsule: nat, tenant: string, session: string, initial: map<string, string>, injectable: bool, now: int)
      returns (r: Result)
      requires Valid() && id !in rows
      modifies this
      ensures Valid() && FinishedKept(old(rows), rows)
      ensures !injectable ==> r == Refused && rows == old(rows) && gauge == old(gauge)
      ensures injectable ==> r == Done(id)
      ensures injectable ==>
        rows == old(rows)[id := Instance(capsule, tenant, session, initial, Running, now, None)]
    {
      if !injectable { return Refused; }
      var instance := Instance(capsule, tenant, session, initial, Running, now, None);
      StartSound(rows, gauge, id, instance);
      rows, gauge := rows[id := instance], gauge[tenant := Gauge(gauge, tenant) + 1];
      r := Done(id);
    }

    method UpdateInstanceState(id: nat, state: map<string, string>) returns (r: Result)
      requires Valid()
      modifies this`rows
      ensures Valid() && FinishedKept(old(rows), rows)
      ensures r == if id in old(rows) && old(rows)[id].status == Running then Done(id) else Refused
      ensures rows == if r == Done(id) then old(rows)[id := old(rows)[id].(state := state)] else old(rows)
    {
      if id !in rows || rows[id].status != Running { return Refused; }
      ChangeSound(rows, gauge, id, rows[id].(state := state));
      rows := rows[id := rows[id].(state := state)];
      r := Done(id);
    }

    /** Completes a running instance; a finished one is returned as it is. */
    method CompleteInstance(id: nat, final: Option<map<string, string>>, now: int) returns (r: Result)
      requires Valid()
      modifies this
      ensures Valid() && FinishedKept(old(rows), rows)
      ensures r == if id in old(rows) then Done(id) else Refused
      ensures rows ==
        if id in old(rows) && old(rows)[id].status == Running then
          old(rows)[id := Ended(old(rows)[id], Completed, if final.Some? then final.value else old(rows)[id].state, now)]
        else old(rows)
    {
      if id !in rows { return Refused; }
      if rows[id].status != Running { return Done(id); }
      var ended := Ended(rows[id], Completed, if final.Some? then final.value else rows[id].state, now);
      EndSound(rows, gauge, id, ended);
      rows, gauge := rows[id := ended], gauge[ended.tenant := Gauge(gauge, ended.tenant) - 1];
      r := Done(id);
    }

    /** Terminates a running instance and writes down why; a finished one is returned as it is. */
    method TerminateInstance(id: nat, reason: string, now: int) returns (r: Result)
      requires Valid()
      modifies this
      ensures Valid() && FinishedKept(old(rows), rows)
      ensures r == if id in old(rows) then Done(id) else Refused
      ensures rows ==
        if id in old(rows) && old(rows)[id].status == Running then
          old(rows)[id := Ended(old(rows)[id], Terminated, old(rows)[id].state["termination_reason" := reason], now)]
        else old(rows)
    {
      if id !in rows { return Refused; }
      if rows[id].status != Running { return Done(id); }
      var ended := Ended(rows[id], Terminated, rows[id].state["termination_reason" := reason], now);
      EndSound(rows, gauge, id, ended);
      rows, gauge := rows[id := ended], gauge[ended.tenant := Gauge(gauge, ended.tenant) - 1];
      r := Done(id);
    }

    method CountRunning(tenant: string) returns (count: nat)
      requires Valid()
      ensures count == |RunningOf(rows, tenant)| && count == Gauge(gauge, tenant)
    {
      var ids := set id | id in rows && rows[id].tenant == tenant && rows[id].status == Running;
      assert ids == RunningOf(rows, tenant);
      count := |ids|;
    }

    /** Terminates exactly the running instances older than the cutoff, and says how many there were. */
    method CleanupStaleInstances(cutoff: int, reason: string, now: int) returns (count: nat)
      requires Valid()
      modifies this
      ensures Valid() && FinishedKept(old(rows), rows)
      ensures CleanedUp(old(rows), rows, Stale(old(rows), cutoff), reason, now)
      ensures count == |Stale(old(rows), cutoff)|
      ensures Stale(rows, cutoff) == {}
    {
      ghost var before, all := rows, Stale(rows, cutoff);
      var stale := set id | id in rows && rows[id].status == Running && rows[id].startedAt < cutoff;
      assert stale == all && all - stale == {};
      count := 0;
      hide Sound, Gauge, Ended, CleanedUp, Stale, FinishedKept;
      assert CleanedUp(before, rows, all - stale, reason, now) by { NothingCleaned(rows, reason, now); }
      while stale != {}
        invariant Valid() && stale <= all && count == |all| - |stale|
        invariant CleanedUp(before, rows, all - stale, reason, now)
        decreases |stale|
      {
        var id :| id in stale;
        StillRunning(before, rows, cutoff, all - stale, reason, now, id);
        ghost var current := rows;
        var r := TerminateInstance(id, reason, now);
        CleanedStep(before, current, all - stale, reason, now, id, rows);
        assert all - (stale - {id}) == (all - stale) + {id};
        stale := stale - {id};
        count := count + 1;
      }
      assert all - {} == all;
      CleanedAll(before, rows, cutoff, reason, now);
    }
  }

  lemma {:induction false} NothingCleaned(rows: map<nat, Instance>, reason: string, now: int)
    ensures CleanedUp(rows, rows, {}, reason, now)
  {}

  // ---- over whole runs ----

  datatype Op =
    | Create(id: nat, capsule: nat, tenant: string, session: string, initial: map<string, string>, now: int)
    | Update(id: nat, state: map<string, string>)
    | Finish(id: nat, final: Option<map<string, string>>, now: int)
    | Terminate(id: nat, reason: string, now: int)
    | Cleanup(cutoff: int, reason: string, now: int)

  /** Any sequence of operations on one service keeps what every operation keeps: gauges count, finished
      instances never change. */
  method Perform(service: InstanceService, ops: seq<Op>)
    requires service.Valid()
    modifies service
    ensures service.Valid() && FinishedKept(old(service.rows), service.rows)
  {
    hide Sound;
    for i := 0 to |ops|
      invariant service.Valid() && FinishedKept(old(service.rows), service.rows)
    {
      ghost var before := service.rows;
      match ops[i] {
        case Create(id, capsule, tenant, session, initial, now) =>
          if id !in service.rows { var _ := service.CreateInstance(id, capsule, tenant, session, initial, true, now); }
        case Update(id, state) => var _ := service.UpdateInstanceState(id, state);
        case Finish(id, final, now) => var _ := service.CompleteInstance(id, final, now);
        case Terminate(id, reason, now) => var _ := service.TerminateInstance(id, reason, now);
        case Cleanup(cutoff, reason, now) => var _ := service.CleanupStaleInstances(cutoff, reason, now);
      }
      KeptChains(old(service.rows), before, service.rows);
    }
  }

  lemma {:induction false} KeptChains(a: map<nat, Instance>, b: map<nat, Instance>, c: map<nat, Instance>)
    requires FinishedKept(a, b) && FinishedKept(b, c)
    ensures FinishedKept(a, c)
  {}
}
