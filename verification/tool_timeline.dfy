/** What the consumer of a run is told, and in which order. */
module ToolTimeline {
  import opened ToolPolicies
  import opened ToolCalling

  // ---- every call is accounted for ----

  predicate IsDone(s: Step) { s.Yield? && s.event.Done? }

  predicate IsResult(s: Step) { s.Append? && s.message.ToolResult? }

  /** The event and the result tell the consumer and the model the same about the same call. */
  predicate Match(done: Step, result: Step) {
    IsDone(done) && IsResult(result) && done.event.id == result.message.id && done.event.body == result.message.body
  }

  predicate IsRequest(s: Step) { s.Yield? && s.event.ApprovalRequest? }

  /** The execution of a call with this name and these arguments, or the event that closes it. */
  predicate Concerns(s: Step, name: string, args: Args) {
    || (s.Execute? && s.name == name && s.args == args)
    || (IsDone(s) && s.event.name == name && s.event.args == args)
  }

  /** What must stand next to the n-th step: a result right after its event and an event right before its result;
      an execution right before an event that is no refusal and shows what was executed, and no success without an
      execution; an approval request right before the execution it led to or the event that closes it, of the very
      arguments the human was shown; a human's refusal right after the request for that call, and no other refusal after
      one. */
  predicate ToldAt(steps: seq<Step>, n: int)
    requires 0 <= n < |steps|
  {
    && (IsResult(steps[n]) ==> n > 0 && Match(steps[n - 1], steps[n]))
    && (IsDone(steps[n]) ==> n + 1 < |steps| && Match(steps[n], steps[n + 1]))
    && (IsDone(steps[n]) && steps[n].event.body.Value? ==> n > 0 && steps[n - 1].Execute?)
    && (IsDone(steps[n]) && steps[n].event.body.Refused? ==>
          && (n > 0 ==> !steps[n - 1].Execute?)
          && (steps[n].event.body.why.ByHuman? <==>
                n > 0 && IsRequest(steps[n - 1]) && steps[n - 1].event.id == steps[n].event.id))
    && (steps[n].Execute? ==>
          && n + 1 < |steps| && IsDone(steps[n + 1]) && !steps[n + 1].event.body.Refused?
          && steps[n + 1].event.name == steps[n].name && steps[n + 1].event.args == steps[n].args)
    && (IsRequest(steps[n]) ==> n + 1 < |steps| && Concerns(steps[n + 1], steps[n].event.name, steps[n].event.args))
  }

  predicate Told(steps: seq<Step>) {
    forall n :: 0 <= n < |steps| ==> ToldAt(steps, n)
  }

  /** Steps that are none of a call's. */
  predicate Quiet(s: Step) {
    !IsDone(s) && !IsResult(s) && !s.Execute? && !IsRequest(s)
  }

  lemma {:induction false} QuietIsTold(steps: seq<Step>)
    requires forall n :: 0 <= n < |steps| ==> Quiet(steps[n])
    ensures Told(steps)
  {}

  /** A told list does not end in the middle of a call, so a list after it starts afresh. */
  lemma {:induction false} ToldConcat(a: seq<Step>, b: seq<Step>)
    requires Told(a) && Told(b)
    ensures Told(a + b)
  {
    var c := a + b;
    hide IsDone, IsResult, IsRequest, Match;
    forall n | 0 <= n < |c| ensures ToldAt(c, n) {
      if n < |a| {
        assert ToldAt(a, n);
        assert n > 0 ==> c[n - 1] == a[n - 1];
        assert n + 1 < |a| ==> c[n + 1] == a[n + 1];
      } else {
        assert ToldAt(b, n - |a|);
        assert n - |a| > 0 ==> c[n - 1] == b[n - |a| - 1];
        assert n - |a| + 1 < |b| ==> c[n + 1] == b[n - |a| + 1];
        if n == |a| && n > 0 { assert ToldAt(a, n - 1); }
      }
    }
  }

  lemma {:induction false} RefusalTold(i: int, call: ToolCall, forget: bool)
    ensures Told(RefusalSteps(i, call, ByPolicy))
    ensures Told([Yield(ApprovalRequest(i, call.id, call.name, call.args))] + RefusalSteps(i, call, ByHuman(forget)))
  {}

  lemma {:induction false} ExecuteTold(env: Env, i: int, k: nat, call: ToolCall)
    ensures Told(ExecuteSteps(env, i, k, call))
    ensures Told([Yield(ApprovalRequest(i, call.id, call.name, call.args))] + ExecuteSteps(env, i, k, call))
  {
    hide Bind;
  }

  lemma {:induction false} CallTold(env: Env, i: int, k: nat, call: ToolCall)
    ensures Told(CallSteps(env, i, k, call))
  {
    RefusalTold(i, Bound(env.capsule, call), call.name == FORGET);
    ExecuteTold(env, i, k, Bound(env.capsule, call));
    hide Told, Bound, RefusalSteps, ExecuteSteps, Decided, Approved;
  }

  lemma {:induction false} CallsTold(env: Env, i: int, calls: seq<ToolCall>, k: nat)
    requires k <= |calls|
    ensures Told(CallsSteps(env, i, calls, k))
    decreases |calls| - k
  {
    if k == |calls| {
      assert CallsSteps(env, i, calls, k) == [];
    } else {
      CallsUnfold(env, i, calls, k);
      hide *;
      CallTold(env, i, k, calls[k]);
      CallsTold(env, i, calls, k + 1);
      ToldConcat(CallSteps(env, i, k, calls[k]), CallsSteps(env, i, calls, k + 1));
    }
  }

  /** While the model streams, the consumer gets texts, calls and fragments only. */
  predicate Streaming(s: Step) {
    s.Yield? && (s.event.Text? || s.event.Call? || s.event.Fragment?)
  }

  lemma {:induction false} DeltasStream(i: int, deltas: seq<Delta>, seen: set<int>)
    ensures forall n :: 0 <= n < |DeltaSteps(i, deltas, seen)| ==> Streaming(DeltaSteps(i, deltas, seen)[n])
  {
    if deltas != [] { DeltasStream(i, deltas[1..], seen + {deltas[0].index}); }
  }

  lemma {:induction false} StreamStreams(i: int, chunks: seq<Chunk>, seen: set<int>)
    ensures forall n :: 0 <= n < |StreamSteps(i, chunks, seen)| ==> Streaming(StreamSteps(i, chunks, seen)[n])
  {
    if chunks != [] {
      StreamStreams(i, chunks[1..], SeenAfter(chunks[0], seen));
      if chunks[0].Deltas? { DeltasStream(i, chunks[0].deltas, seen); }
      hide DeltaSteps, SeenAfter;
    }
  }

  lemma {:induction false} FinalStreams(env: Env, chunks: seq<Chunk>)
    ensures forall n :: 0 <= n < |FinalSteps(env, chunks)| ==> Streaming(FinalSteps(env, chunks)[n])
  {
    if chunks != [] { FinalStreams(env, chunks[1..]); }
  }

  /** Asking and streaming, and then a round's block. */
  lemma {:induction false} RoundHeard(env: Env, i: int) returns (heard: seq<Step>, block: seq<Step>)
    ensures RoundSteps(env, i) == heard + block
    ensures heard == [Ask(i, env.offered)] + StreamSteps(i, env.model(i).chunks, {})
    ensures forall n :: 0 <= n < |heard| ==> Quiet(heard[n])
    ensures Stops(env, i) ==> block == []
    ensures !Stops(env, i) ==>
      var calls := Pending(env.model(i).chunks);
      block == [Append(Assistant(calls))] + CallsSteps(env, i, calls, 0)
  {
    var calls := Pending(env.model(i).chunks);
    StreamStreams(i, env.model(i).chunks, {});
    heard := [Ask(i, env.offered)] + StreamSteps(i, env.model(i).chunks, {});
    block := if Stops(env, i) then [] else [Append(Assistant(calls))] + CallsSteps(env, i, calls, 0);
    hide StreamSteps, CallsSteps, Pending;
  }

  lemma {:induction false} RoundTold(env: Env, i: int)
    ensures Told(RoundSteps(env, i))
  {
    var heard, block := RoundHeard(env, i);
    var calls := Pending(env.model(i).chunks);
    assert Quiet(Append(Assistant(calls)));
    hide *;
    QuietIsTold(heard);
    if Stops(env, i) {
      QuietIsTold(block);
    } else {
      QuietIsTold([Append(Assistant(calls))]);
      CallsTold(env, i, calls, 0);
      ToldConcat([Append(Assistant(calls))], CallsSteps(env, i, calls, 0));
    }
    ToldConcat(heard, block);
  }

  lemma {:induction false} LastRoundTold(env: Env, i: int)
    requires i > env.limit
    ensures Told(RoundsSteps(env, i))
  {
    RoundsEnd(env, i);
    FinalStreams(env, env.model(i).chunks);
    hide FinalSteps, RoundsSteps, Told;
    QuietIsTold(RoundsSteps(env, i));
  }

  lemma {:induction false} RoundsTold(env: Env, i: int)
    ensures Told(RoundsSteps(env, i))
    decreases env.limit - i + 1
  {
    if i > env.limit {
      LastRoundTold(env, i);
    } else {
      hide *;
      RoundsUnfold(env, i);
      RoundTold(env, i);
      if !Stops(env, i) {
        RoundsTold(env, i + 1);
        ToldConcat(RoundSteps(env, i), RoundsSteps(env, i + 1));
      }
    }
  }

  /** In every run the consumer and the model are told the same about every call, nothing is reported as done that
      was not executed, and no refused call is executed. */
  lemma {:induction false} EveryCallIsTold(env: Env)
    ensures Told(RunSteps(env))
  {
    assert RunSteps(env) == RoundsSteps(env, 1);
    hide RoundsSteps, RunSteps, Told;
    RoundsTold(env, 1);
  }

  // ---- calls are announced once, before their fragments ----

  predicate IsCall(s: Step) { s.Yield? && s.event.Call? }

  predicate IsFragment(s: Step) { s.Yield? && s.event.Fragment? }

  /** The call with this index is announced among the steps. */
  predicate Announces(steps: seq<Step>, x: int) {
    exists m :: 0 <= m < |steps| && IsCall(steps[m]) && steps[m].event.index == x
  }

  /** Every call announced was not among the seen ones and is announced once; every fragment's call is among the seen
      ones or announced before it; all of round i. */
  predicate Announced(steps: seq<Step>, i: int, seen: set<int>) {
    && (forall n :: 0 <= n < |steps| && IsCall(steps[n]) ==>
          steps[n].event.iteration == i && steps[n].event.index !in seen)
    && (forall a, b :: 0 <= a < b < |steps| && IsCall(steps[a]) && IsCall(steps[b]) ==>
          steps[a].event.index != steps[b].event.index)
    && (forall n :: 0 <= n < |steps| && IsFragment(steps[n]) ==>
          steps[n].event.iteration == i
          && (steps[n].event.index in seen || Announces(steps[..n], steps[n].event.index)))
  }

  /** The indices seen after these steps. */
  ghost predicate SeesUpTo(steps: seq<Step>, seen: set<int>, after: set<int>) {
    forall x :: x in after <==> x in seen || Announces(steps, x)
  }

  lemma {:induction false} AnnouncesConcat(a: seq<Step>, b: seq<Step>, x: int)
    ensures Announces(a + b, x) <==> Announces(a, x) || Announces(b, x)
  {
    var c := a + b;
    if Announces(a, x) {
      var m :| 0 <= m < |a| && IsCall(a[m]) && a[m].event.index == x;
      assert c[m] == a[m];
    }
    if Announces(b, x) {
      var m :| 0 <= m < |b| && IsCall(b[m]) && b[m].event.index == x;
      assert c[|a| + m] == b[m];
    }
    if Announces(c, x) {
      var m :| 0 <= m < |c| && IsCall(c[m]) && c[m].event.index == x;
      if m < |a| { assert c[m] == a[m]; } else { assert c[m] == b[m - |a|]; }
    }
  }

  lemma {:induction false} AnnouncedConcat(
      a: seq<Step>, b: seq<Step>, i: int, seen: set<int>, middle: set<int>, after: set<int>)
    requires Announced(a, i, seen) && SeesUpTo(a, seen, middle)
    requires Announced(b, i, middle) && SeesUpTo(b, middle, after)
    ensures Announced(a + b, i, seen) && SeesUpTo(a + b, seen, after)
  {
    var c := a + b;
    hide Announces;
    forall x, y | 0 <= x < y < |c| && IsCall(c[x]) && IsCall(c[y]) ensures c[x].event.index != c[y].event.index {
      if x >= |a| { assert c[x] == b[x - |a|]; }
      if y >= |a| { assert c[y] == b[y - |a|]; }
      if x < |a| <= y { AnnouncesAt(a, x); }
    }
    forall n | 0 <= n < |c| && IsFragment(c[n]) ensures
      c[n].event.iteration == i && (c[n].event.index in seen || Announces(c[..n], c[n].event.index))
    {
      if n < |a| {
        assert c[..n] == a[..n];
      } else {
        assert c[n] == b[n - |a|] && c[..n] == a + b[..n - |a|];
        AnnouncesConcat(a, b[..n - |a|], c[n].event.index);
      }
    }
    forall x ensures Announces(c, x) <==> Announces(a, x) || Announces(b, x) { AnnouncesConcat(a, b, x); }
  }

  lemma {:induction false} AnnouncesAt(a: seq<Step>, x: int)
    requires 0 <= x < |a| && IsCall(a[x])
    ensures Announces(a, a[x].event.index)
  {}

  lemma {:induction false} DeltaAnnounced(i: int, d: Delta, seen: set<int>)
    ensures Announced(DeltaStep(i, d, seen), i, seen)
    ensures SeesUpTo(DeltaStep(i, d, seen), seen, seen + {d.index})
  {
    var steps := DeltaStep(i, d, seen);
    if d.index !in seen {
      AnnouncesAt(steps, 0);
      if d.fragment != "" { AnnouncesAt(steps[..1], 0); }
    }
  }

  lemma {:induction false} NothingAnnounced(steps: seq<Step>, i: int, seen: set<int>)
    requires forall n :: 0 <= n < |steps| ==> !IsCall(steps[n]) && !IsFragment(steps[n])
    ensures Announced(steps, i, seen) && SeesUpTo(steps, seen, seen)
  {}

  lemma {:induction false} DeltasAnnounced(i: int, deltas: seq<Delta>, seen: set<int>)
    ensures Announced(DeltaSteps(i, deltas, seen), i, seen)
    ensures SeesUpTo(DeltaSteps(i, deltas, seen), seen, seen + Indices(deltas))
  {
    if deltas == [] {
      assert Indices(deltas) == {} && DeltaSteps(i, deltas, seen) == [];
      hide Announced, SeesUpTo, Indices;
      NothingAnnounced([], i, seen);
      assert seen + {} == seen;
    } else {
      var more, rest := seen + {deltas[0].index}, deltas[1..];
      assert DeltaSteps(i, deltas, seen) == DeltaStep(i, deltas[0], seen) + DeltaSteps(i, rest, more);
      IndicesCons(deltas);
      hide *;
      assert more + Indices(rest) == seen + Indices(deltas);
      DeltaAnnounced(i, deltas[0], seen);
      DeltasAnnounced(i, rest, more);
      AnnouncedConcat(DeltaStep(i, deltas[0], seen), DeltaSteps(i, rest, more), i, seen, more, seen + Indices(deltas));
    }
  }

  lemma {:induction false} IndicesCons(deltas: seq<Delta>)
    requires deltas != []
    ensures Indices(deltas) == {deltas[0].index} + Indices(deltas[1..])
  {
    var rest := deltas[1..];
    forall x | x in Indices(deltas) ensures x in {deltas[0].index} + Indices(rest) {
      var k :| 0 <= k < |deltas| && deltas[k].index == x;
      if k > 0 { assert rest[k - 1] == deltas[k]; }
    }
    forall x | x in Indices(rest) ensures x in Indices(deltas) {
      var k :| 0 <= k < |rest| && rest[k].index == x;
      assert deltas[k + 1] == rest[k];
    }
  }

  lemma {:induction false} ChunkAnnounced(i: int, chunk: Chunk, seen: set<int>)
    ensures Announced(ChunkSteps(i, chunk, seen), i, seen)
    ensures SeesUpTo(ChunkSteps(i, chunk, seen), seen, SeenAfter(chunk, seen))
  {
    if chunk.Deltas? {
      DeltasAnnounced(i, chunk.deltas, seen);
      hide Announced, SeesUpTo, DeltaSteps, Indices;
    } else {
      hide Announced, SeesUpTo, DeltaSteps, Indices;
      NothingAnnounced(ChunkSteps(i, chunk, seen), i, seen);
    }
  }

  /** Within a round, every call the model streams is announced exactly once, before its first fragment. */
  lemma {:induction false} StreamAnnounced(i: int, chunks: seq<Chunk>, seen: set<int>) returns (after: set<int>)
    ensures Announced(StreamSteps(i, chunks, seen), i, seen)
    ensures SeesUpTo(StreamSteps(i, chunks, seen), seen, after)
  {
    after := seen;
    if chunks == [] {
      assert StreamSteps(i, chunks, seen) == [];
      hide *;
      NothingAnnounced([], i, seen);
    } else {
      var middle := SeenAfter(chunks[0], seen);
      assert StreamSteps(i, chunks, seen) == ChunkSteps(i, chunks[0], seen) + StreamSteps(i, chunks[1..], middle);
      hide *;
      ChunkAnnounced(i, chunks[0], seen);
      after := StreamAnnounced(i, chunks[1..], middle);
      AnnouncedConcat(ChunkSteps(i, chunks[0], seen), StreamSteps(i, chunks[1..], middle), i, seen, middle, after);
    }
  }
}
