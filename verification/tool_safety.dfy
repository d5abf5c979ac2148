/** Which calls a run of the tool loop executes, in which order, and how often
    it asks the model. */
module ToolSafety {
  import opened Text
  import opened ToolPolicies
  import opened ToolCalling
  import opened ToolRuns

  // ---- executions ----

  /** The rounds from `from` to `i` all asked for tools, within the cap. */
  predicate Reached(env: Env, from: int, i: int) {
    from <= i <= env.limit && forall j :: from <= j <= i ==> !Stops(env, j)
  }

  /** Nothing forbids the call, the guardrail does not deny it, and either it may run alone and the guardrail
      has no objection to that, or a human said yes to this very call; a tool of the highest risk tier always
      needs the human. */
  predicate MayExecute(env: Env, i: int, k: nat, name: string, args: Args) {
    && Unforbidden(env.subject, env.capsule, env.iq, name, env.gate(i, k))
    && !Objects(env.clef(i, k), name)
    && (|| Approved(env, i, k)
        || (MayRunAlone(env.capsule, env.iq, name, args) && NoObjection(env.clef(i, k)) && !IsTierThree(name)))
  }

  /** The step is the execution of the k-th call of round i, with the identity bound, and it may execute. */
  predicate Sanctioned(env: Env, i: int, calls: seq<ToolCall>, s: Step) {
    && s.Execute? && s.iteration == i && s.index < |calls|
    && s.name == calls[s.index].name && s.args == Bind(env.capsule, s.name, calls[s.index].args)
    && !env.tool(i, s.index).Unknown?
    && MayExecute(env, i, s.index, s.name, s.args)
  }

  lemma {:induction false} DecidedToRun(env: Env, i: int, k: nat, call: ToolCall)
    ensures var d := Decided(env, i, k, call);
      (d == Auto || (d == Approval && Approved(env, i, k)))
      <==> MayExecute(env, i, k, call.name, Bind(env.capsule, call.name, call.args))
  {
    var args := Bind(env.capsule, call.name, call.args);
    AuthorizeExactly(env.subject, env.capsule, env.iq, call.name, args, env.gate(i, k), env.clef(i, k));
    hide Authorize, Unforbidden, MayRunAlone, NoObjection, IsTierThree, Bind;
  }

  predicate Among(s: Step, steps: seq<Step>) { s in steps }

  lemma {:induction false} AmongIs(s: Step, steps: seq<Step>)
    ensures Among(s, steps) <==> s in steps
  {}

  lemma {:induction false} CallExecutes(env: Env, i: int, k: nat, calls: seq<ToolCall>, s: Step)
    requires s.Execute? && k < |calls|
    ensures Among(s, CallSteps(env, i, k, calls[k])) <==> Sanctioned(env, i, calls, s) && s.index == k
  {
    var call, bound := calls[k], Bound(env.capsule, calls[k]);
    DecidedToRun(env, i, k, call);
    assert s in ExecuteSteps(env, i, k, bound) <==> !env.tool(i, k).Unknown? && s == Execute(i, k, call.name, bound.args);
    assert s !in RefusalSteps(i, bound, ByPolicy) && s !in RefusalSteps(i, bound, ByHuman(call.name == FORGET));
    hide MayExecute, Decided, Bind, Approved, ExecuteSteps, RefusalSteps;
  }

  lemma {:induction false} CallsMembers(env: Env, i: int, calls: seq<ToolCall>, k: nat, s: Step)
    requires k < |calls|
    ensures Among(s, CallsSteps(env, i, calls, k)) <==>
      Among(s, CallSteps(env, i, k, calls[k])) || Among(s, CallsSteps(env, i, calls, k + 1))
  {
    hide *;
    CallsUnfold(env, i, calls, k);
    AmongIs(s, CallsSteps(env, i, calls, k));
    AmongIs(s, CallSteps(env, i, k, calls[k]));
    AmongIs(s, CallsSteps(env, i, calls, k + 1));
  }

  lemma {:induction false} NoneLeft(env: Env, i: int, calls: seq<ToolCall>, s: Step)
    requires s.Execute?
    ensures !Among(s, CallsSteps(env, i, calls, |calls|)) && (Sanctioned(env, i, calls, s) ==> s.index < |calls|)
  {
    assert CallsSteps(env, i, calls, |calls|) == [];
    hide CallsSteps, MayExecute, Bind;
  }

  lemma {:induction false} RoundsMembers(env: Env, i: int, s: Step)
    requires i <= env.limit
    ensures s in RoundsSteps(env, i) <==>
      s in RoundSteps(env, i) || (!Stops(env, i) && s in RoundsSteps(env, i + 1))
  {
    hide *;
    RoundsUnfold(env, i);
  }

  lemma {:induction false} CallsExecute(env: Env, i: int, calls: seq<ToolCall>, k: nat, s: Step)
    requires s.Execute? && k <= |calls|
    ensures Among(s, CallsSteps(env, i, calls, k)) <==> Sanctioned(env, i, calls, s) && s.index >= k
    decreases |calls| - k
  {
    hide *;
    if k == |calls| {
      NoneLeft(env, i, calls, s);
    } else {
      CallExecutes(env, i, k, calls, s);
      CallsExecute(env, i, calls, k + 1, s);
      CallsMembers(env, i, calls, k, s);
    }
  }

  lemma {:induction false} RoundExecutes(env: Env, i: int, s: Step)
    requires s.Execute?
    ensures s in RoundSteps(env, i) <==> !Stops(env, i) && Sanctioned(env, i, Pending(env.model(i).chunks), s)
  {
    var a, b := RoundParts(env, i);
    var calls := Pending(env.model(i).chunks);
    assert forall j :: 0 <= j < |a| ==> a[j] != s;
    hide *;
    InConcat(s, a, b);
    if !Stops(env, i) {
      CallsExecute(env, i, calls, 0, s);
      AmongIs(s, CallsSteps(env, i, calls, 0));
    }
  }

  lemma {:induction false} ReachedSplits(env: Env, from: int, i: int)
    ensures Reached(env, from, i) <==> from <= env.limit && !Stops(env, from) && (i == from || Reached(env, from + 1, i))
  {
    hide Stops;
  }

  lemma {:induction false} LastRoundExecutesNothing(env: Env, i: int, s: Step)
    requires i > env.limit && s.Execute?
    ensures s !in RoundsSteps(env, i)
  {
    RoundsEnd(env, i);
    FinalAppendsNothing(env, env.model(i).chunks);
    hide *;
    InConcat(s, [Ask(i, false)], FinalSteps(env, env.model(i).chunks));
  }

  lemma {:induction false} RoundsExecute(env: Env, from: int, s: Step)
    requires s.Execute?
    ensures s in RoundsSteps(env, from) <==>
      Reached(env, from, s.iteration) && Sanctioned(env, s.iteration, Pending(env.model(s.iteration).chunks), s)
    decreases env.limit - from + 1
  {
    ReachedSplits(env, from, s.iteration);
    hide *;
    if from > env.limit {
      LastRoundExecutesNothing(env, from, s);
    } else {
      RoundsMembers(env, from, s);
      RoundExecutes(env, from, s);
      SanctionedHere(env, from, Pending(env.model(from).chunks), s);
      if !Stops(env, from) {
        RoundsExecute(env, from + 1, s);
        ReachedLater(env, from + 1, s.iteration);
      }
    }
  }

  lemma {:induction false} ReachedLater(env: Env, from: int, i: int)
    ensures Reached(env, from, i) ==> i >= from
  {}

  lemma {:induction false} SanctionedHere(env: Env, i: int, calls: seq<ToolCall>, s: Step)
    ensures Sanctioned(env, i, calls, s) ==> s.Execute? && s.iteration == i
  {
    hide MayExecute, Bind;
  }

  /** A run executes exactly the sanctioned calls: the k-th call of a round that was reached, under the
      identity of the capsule, and only if it may execute. */
  lemma {:induction false} ExecutesExactly(env: Env, s: Step)
    requires s.Execute?
    ensures s in RunSteps(env) <==>
      Reached(env, 1, s.iteration) && Sanctioned(env, s.iteration, Pending(env.model(s.iteration).chunks), s)
  {
    assert RunSteps(env) == RoundsSteps(env, 1);
    hide *;
    RoundsExecute(env, 1, s);
  }

  /** What no run ever does: execute without the gate's consent, against the denied list, a network tool with
      egress refused, a tool of the highest tier or an unlisted one without a human, or a memory tool under
      another tenant than the capsule's. */
  lemma {:induction false} NothingUnsanctionedRuns(env: Env, s: Step)
    requires s.Execute? && s in RunSteps(env)
    ensures env.subject && env.gate(s.iteration, s.index) == Allows
    ensures CapsulePolicy(env.capsule).Some? && s.name !in CapsulePolicy(env.capsule).value.denied
    ensures IsNetwork(s.name) ==> EgressPermitted(env.iq)
    ensures IsTierThree(s.name) ==> Approved(env, s.iteration, s.index)
    ensures AllNeedHuman(env.iq) && !IsKit(s.name) && !ForgetsByQuery(s.name, s.args) ==>
      Approved(env, s.iteration, s.index)
    ensures !IsKit(s.name) && s.name !in CapsulePolicy(env.capsule).value.auto && !ForgetsByQuery(s.name, s.args) ==>
      Approved(env, s.iteration, s.index)
    ensures IsMemoryTool(s.name) && env.capsule.tenant != "" ==> Argument(s.args, "tenant_id") == env.capsule.tenant
  {
    ExecutesExactly(env, s);
    hide RunSteps, Reached, IsNetwork, IsTierThree, IsKit, EgressPermitted, AllNeedHuman, ForgetsByQuery,
      CapsulePolicy, Pending, Bind, Approved, NoObjection, IsMemoryTool, Argument, Objects;
    BindsIdentity(env.capsule, s.name, Pending(env.model(s.iteration).chunks)[s.index].args);
  }

  // ---- without a human ----

  /** A turn whose model asks for one call, under an operator who wants a human on everything, with nobody there. */
  function LoneCall(call: ToolCall): Env {
    Env(true, 1, true, Capsule("t", "c", NoObject, Found(NoObject)), Some(AgentIq("", true, "")),
        i => Stream([Calls([call])], false), (i, k) => Allows, (i, k) => SwitchedOff, (i, k) => NobodyToAsk,
        (i, k) => Returns(""), chunk => "")
  }

  lemma {:induction false} KitIsHarmless(name: string)
    requires IsKit(name) || name == FORGET
    ensures name != "" && name[0] == 'm'
  {}

  lemma {:induction false} NetworkIsNoMemory(name: string)
    requires name != "" && name[0] == 'm'
    ensures !IsNetwork(name)
  {}

  lemma {:induction false} TierThreeIsNoMemory(name: string)
    requires name != "" && name[0] == 'm'
    ensures !IsTierThree(name)
  {}

  /** The memory kit, and a `memory_forget` with a query, do run although every call should wait for a human and
      nobody has agreed to any. */
  lemma {:induction false} RunsWithoutHuman(call: ToolCall)
    requires IsKit(call.name) || ForgetsByQuery(call.name, Bind(LoneCall(call).capsule, call.name, call.args))
    ensures var env := LoneCall(call);
      && AllNeedHuman(env.iq) && !Approved(env, 1, 0)
      && Execute(1, 0, call.name, Bind(env.capsule, call.name, call.args)) in RunSteps(env)
  {
    var env := LoneCall(call);
    var s := Execute(1, 0, call.name, Bind(env.capsule, call.name, call.args));
    assert ForgetsByQuery(call.name, s.args) ==> call.name == FORGET;
    assert AllNeedHuman(env.iq) && !Approved(env, 1, 0);
    hide IsKit, IsNetwork, IsTierThree, ForgetsByQuery, Bind, FORGET, AllNeedHuman, Approved, Pending, Reached;
    KitIsHarmless(call.name);
    NetworkIsNoMemory(call.name);
    TierThreeIsNoMemory(call.name);
    LoneCallIsReached(call);
    LoneCallMayRun(call, s.args);
    hide MayExecute;
    assert Sanctioned(env, 1, [call], s);
    hide *;
    ExecutesExactly(env, s);
  }

  lemma {:induction false} LoneCallMayRun(call: ToolCall, args: Args)
    requires IsKit(call.name) || ForgetsByQuery(call.name, args)
    requires !IsNetwork(call.name) && !IsTierThree(call.name)
    ensures MayExecute(LoneCall(call), 1, 0, call.name, args)
  {
    hide IsKit, IsNetwork, IsTierThree, ForgetsByQuery, AllNeedHuman, Approved;
  }

  lemma {:induction false} LoneCallIsReached(call: ToolCall)
    ensures Pending(LoneCall(call).model(1).chunks) == [call] && Reached(LoneCall(call), 1, 1)
  {
    assert Pending(LoneCall(call).model(1).chunks) == [call];
  }

  /** Such calls there are. */
  lemma {:induction false} RecallRunsWithoutHuman(id: string, args: Args)
    ensures var call := ToolCall(id, "memory_recall", args);
      Execute(1, 0, "memory_recall", Bind(LoneCall(call).capsule, call.name, args)) in RunSteps(LoneCall(call))
  {
    var call := ToolCall(id, "memory_recall", args);
    assert IsKit(call.name);
    hide *;
    RunsWithoutHuman(call);
  }

  lemma {:induction false} ForgetRunsWithoutHuman(id: string)
    ensures var call := ToolCall(id, FORGET, map["query" := "Zoe"]);
      Execute(1, 0, FORGET, Bind(LoneCall(call).capsule, FORGET, call.args)) in RunSteps(LoneCall(call))
  {
    var call := ToolCall(id, FORGET, map["query" := "Zoe"]);
    var bound := Bind(LoneCall(call).capsule, FORGET, call.args);
    assert LoneCall(call).capsule.tenant == "t";
    BindsNothingElse(LoneCall(call).capsule, FORGET, call.args, "query");
    assert Argument(call.args, "query") == "Zoe" && ForgetQuery(bound) == "Zoe";
    assert |Strip("Zoe")| == 3 by {
      var z := "Zoe";
      assert Trimmed(White, z);
      hide Trim;
      TrimTrimmed(White, z);
    }
    assert ForgetsByQuery(FORGET, bound);
    hide *;
    RunsWithoutHuman(call);
  }

  // ---- order ----

  predicate Earlier(s: Step, t: Step) {
    s.Execute? && t.Execute? ==>
      s.iteration < t.iteration || (s.iteration == t.iteration && s.index < t.index)
  }

  predicate Ordered(steps: seq<Step>) {
    forall a, b :: 0 <= a < b < |steps| ==> Earlier(steps[a], steps[b])
  }

  lemma {:induction false} OrderedConcat(a: seq<Step>, b: seq<Step>)
    requires Ordered(a) && Ordered(b)
    requires forall s, t :: s in a && t in b ==> Earlier(s, t)
    ensures Ordered(a + b)
  {
    var c := a + b;
    hide Earlier;
    forall i, j | 0 <= i < j < |c| ensures Earlier(c[i], c[j]) {
      if j < |a| {
      } else if i >= |a| {
        assert c[i] == b[i - |a|] && c[j] == b[j - |a|];
      } else {
        assert c[i] in a && c[j] == b[j - |a|] && c[j] in b;
      }
    }
  }

  lemma {:induction false} NoExecutionOrdered(steps: seq<Step>)
    requires forall j :: 0 <= j < |steps| ==> !steps[j].Execute?
    ensures Ordered(steps)
  {}

  lemma {:induction false} CallOrdered(env: Env, i: int, k: nat, call: ToolCall)
    ensures Ordered(CallSteps(env, i, k, call))
  {
    hide Decided, Bind, Approved;
    var steps := CallSteps(env, i, k, call);
    assert forall a :: 0 <= a < |steps| - 3 ==> !steps[a].Execute?;
    assert |steps| >= 2 && !steps[|steps| - 1].Execute? && !steps[|steps| - 2].Execute?;
  }

  lemma {:induction false} CallsOrdered(env: Env, i: int, calls: seq<ToolCall>, k: nat)
    requires k <= |calls|
    ensures Ordered(CallsSteps(env, i, calls, k))
    decreases |calls| - k
  {
    if k == |calls| {
      assert CallsSteps(env, i, calls, k) == [];
    } else {
      CallsUnfold(env, i, calls, k);
      var a, b := CallSteps(env, i, k, calls[k]), CallsSteps(env, i, calls, k + 1);
      hide *;
      CallOrdered(env, i, k, calls[k]);
      CallsOrdered(env, i, calls, k + 1);
      forall s, t | s in a && t in b ensures Earlier(s, t) {
        if s.Execute? && t.Execute? {
          CallExecutes(env, i, k, calls, s);
          CallsExecute(env, i, calls, k + 1, t);
          SanctionedHere(env, i, calls, s);
          SanctionedHere(env, i, calls, t);
        }
        EarlierIntro(s, t);
      }
      OrderedConcat(a, b);
    }
  }

  lemma {:induction false} EarlierIntro(s: Step, t: Step)
    requires s.Execute? && t.Execute? ==>
      s.iteration < t.iteration || (s.iteration == t.iteration && s.index < t.index)
    ensures Earlier(s, t)
  {}

  lemma {:induction false} RoundOrdered(env: Env, i: int)
    ensures Ordered(RoundSteps(env, i))
  {
    var a, b := RoundParts(env, i);
    var calls := Pending(env.model(i).chunks);
    assert forall j :: 0 <= j < |a| ==> !a[j].Execute?;
    hide *;
    NoExecutionOrdered(a);
    if Stops(env, i) {
      NoExecutionOrdered(b);
    } else {
      var c, d := [Append(Assistant(calls))], CallsSteps(env, i, calls, 0);
      NoExecutionOrdered(c);
      CallsOrdered(env, i, calls, 0);
      forall s, t | s in c && t in d ensures Earlier(s, t) { EarlierIntro(s, t); }
      OrderedConcat(c, d);
    }
    forall s, t | s in a && t in b ensures Earlier(s, t) { EarlierIntro(s, t); }
    OrderedConcat(a, b);
  }

  lemma {:induction false} RoundsOrdered(env: Env, i: int)
    ensures Ordered(RoundsSteps(env, i))
    decreases env.limit - i + 1
  {
    if i > env.limit {
      RoundsEnd(env, i);
      FinalAppendsNothing(env, env.model(i).chunks);
      hide *;
      NoExecutionOrdered(RoundsSteps(env, i));
    } else {
      RoundsUnfold(env, i);
      hide *;
      RoundOrdered(env, i);
      if !Stops(env, i) {
        RoundsOrdered(env, i + 1);
        var a, b := RoundSteps(env, i), RoundsSteps(env, i + 1);
        forall s, t | s in a && t in b ensures Earlier(s, t) {
          if s.Execute? && t.Execute? {
            RoundExecutes(env, i, s);
            SanctionedHere(env, i, Pending(env.model(i).chunks), s);
            RoundsExecute(env, i + 1, t);
            ReachedLater(env, i + 1, t.iteration);
          }
          EarlierIntro(s, t);
        }
        OrderedConcat(a, b);
      }
    }
  }

  /** Executions follow the order of the rounds and of the calls in them; none is repeated. */
  lemma {:induction false} ExecutedOnceInOrder(env: Env, a: nat, b: nat)
    requires a < b < |RunSteps(env)| && RunSteps(env)[a].Execute? && RunSteps(env)[b].Execute?
    ensures var s, t := RunSteps(env)[a], RunSteps(env)[b];
      s.iteration < t.iteration || (s.iteration == t.iteration && s.index < t.index)
  {
    assert RunSteps(env) == RoundsSteps(env, 1);
    hide RoundsSteps, RunSteps;
    RoundsOrdered(env, 1);
    assert Earlier(RunSteps(env)[a], RunSteps(env)[b]);
  }

  // ---- rounds ----

  /** The model calls among the steps. */
  function Asked(steps: seq<Step>): seq<Step> {
    if steps == [] then [] else (if steps[0].Ask? then [steps[0]] else []) + Asked(steps[1..])
  }

  /** How many rounds are asked from the i-th on, the tool-less one included. */
  function Rounds(env: Env, i: int): nat
    decreases env.limit - i + 1
  {
    if i > env.limit || Stops(env, i) then 1 else 1 + Rounds(env, i + 1)
  }

  lemma {:induction false} AskedSplits(a: seq<Step>, b: seq<Step>)
    ensures Asked(a + b) == Asked(a) + Asked(b)
  {
    if a == [] {
      assert a + b == b;
    } else {
      assert (a + b)[1..] == a[1..] + b && (a + b)[0] == a[0];
      AskedSplits(a[1..], b);
    }
  }

  lemma {:induction false} NothingAsked(steps: seq<Step>)
    requires forall j :: 0 <= j < |steps| ==> !steps[j].Ask?
    ensures Asked(steps) == []
  {
    if steps != [] { NothingAsked(steps[1..]); }
  }

  lemma {:induction false} CallAsksNothing(env: Env, i: int, k: nat, call: ToolCall)
    ensures Asked(CallSteps(env, i, k, call)) == []
  {
    hide Decided, Bind, Approved, Asked;
    NothingAsked(CallSteps(env, i, k, call));
  }

  lemma {:induction false} CallsAskNothing(env: Env, i: int, calls: seq<ToolCall>, k: nat)
    requires k <= |calls|
    ensures Asked(CallsSteps(env, i, calls, k)) == []
    decreases |calls| - k
  {
    if k == |calls| {
      assert CallsSteps(env, i, calls, k) == [];
    } else {
      CallsUnfold(env, i, calls, k);
      hide *;
      CallAsksNothing(env, i, k, calls[k]);
      CallsAskNothing(env, i, calls, k + 1);
      AskedSplits(CallSteps(env, i, k, calls[k]), CallsSteps(env, i, calls, k + 1));
    }
  }

  lemma {:induction false} RoundAsks(env: Env, i: int)
    ensures Asked(RoundSteps(env, i)) == [Ask(i, env.offered)]
  {
    var a, b := RoundParts(env, i);
    var calls := Pending(env.model(i).chunks);
    assert Asked(a) == [a[0]] + Asked(a[1..]);
    NothingAsked(a[1..]);
    hide *;
    if Stops(env, i) {
      NothingAsked(b);
    } else {
      NothingAsked([Append(Assistant(calls))]);
      CallsAskNothing(env, i, calls, 0);
      AskedSplits([Append(Assistant(calls))], CallsSteps(env, i, calls, 0));
    }
    AskedSplits(a, b);
  }

  /** The rounds are numbered from i on, and tools are offered, if there are any, up to the cap. */
  predicate AskOrder(env: Env, i: int, asked: seq<Step>) {
    forall j :: 0 <= j < |asked| ==> asked[j] == Ask(i + j, i + j <= env.limit && env.offered)
  }

  lemma {:induction false} RoundsAsk(env: Env, i: int)
    ensures |Asked(RoundsSteps(env, i))| == Rounds(env, i)
    ensures AskOrder(env, i, Asked(RoundsSteps(env, i)))
    decreases env.limit - i + 1
  {
    assert Rounds(env, i) == if i > env.limit || Stops(env, i) then 1 else 1 + Rounds(env, i + 1);
    hide *;
    if i > env.limit {
      LastAsk(env, i);
    } else if Stops(env, i) {
      StoppedAsk(env, i);
    } else {
      RoundsAsk(env, i + 1);
      NextAsk(env, i);
    }
  }

  lemma {:induction false} StoppedAsk(env: Env, i: int)
    requires i <= env.limit && Stops(env, i)
    ensures AskOrder(env, i, Asked(RoundsSteps(env, i))) && |Asked(RoundsSteps(env, i))| == 1
  {
    hide RoundsSteps, Asked, Stops;
    AskedUnfolds(env, i);
  }

  lemma {:induction false} NextAsk(env: Env, i: int)
    requires i <= env.limit && !Stops(env, i) && AskOrder(env, i + 1, Asked(RoundsSteps(env, i + 1)))
    ensures AskOrder(env, i, Asked(RoundsSteps(env, i)))
    ensures |Asked(RoundsSteps(env, i))| == 1 + |Asked(RoundsSteps(env, i + 1))|
  {
    hide *;
    AskedUnfolds(env, i);
    AskedCons(env, i, Asked(RoundsSteps(env, i + 1)), Asked(RoundsSteps(env, i)));
  }

  lemma {:induction false} AskedUnfolds(env: Env, i: int)
    requires i <= env.limit
    ensures Stops(env, i) ==> Asked(RoundsSteps(env, i)) == [Ask(i, env.offered)]
    ensures !Stops(env, i) ==>
      Asked(RoundsSteps(env, i)) == [Ask(i, env.offered)] + Asked(RoundsSteps(env, i + 1))
  {
    hide *;
    RoundsUnfold(env, i);
    RoundAsks(env, i);
    if !Stops(env, i) { AskedSplits(RoundSteps(env, i), RoundsSteps(env, i + 1)); }
  }

  lemma {:induction false} AskedCons(env: Env, i: int, rest: seq<Step>, asked: seq<Step>)
    requires asked == [Ask(i, env.offered)] + rest && i <= env.limit && AskOrder(env, i + 1, rest)
    ensures AskOrder(env, i, asked) && |asked| == 1 + |rest|
  {
    forall j | 0 <= j < |asked| ensures asked[j] == Ask(i + j, i + j <= env.limit && env.offered) {
      if j > 0 { assert asked[j] == rest[j - 1]; }
    }
  }

  lemma {:induction false} LastAsk(env: Env, i: int)
    requires i > env.limit
    ensures AskOrder(env, i, Asked(RoundsSteps(env, i))) && |Asked(RoundsSteps(env, i))| == 1
  {
    assert AskOrder(env, i, [Ask(i, false)]);
    RoundsEnd(env, i);
    FinalAppendsNothing(env, env.model(i).chunks);
    assert Asked([Ask(i, false)]) == [Ask(i, false)] + Asked([]);
    hide *;
    NothingAsked([]);
    NothingAsked(FinalSteps(env, env.model(i).chunks));
    AskedSplits([Ask(i, false)], FinalSteps(env, env.model(i).chunks));
  }

  lemma {:induction false} RoundsBounded(env: Env, i: int)
    requires i <= env.limit + 1
    ensures Rounds(env, i) <= env.limit - i + 2
    ensures Rounds(env, i) == env.limit - i + 2 <==> forall j :: i <= j <= env.limit ==> !Stops(env, j)
    decreases env.limit - i + 1
  {
    hide Stops;
    if i <= env.limit && !Stops(env, i) { RoundsBounded(env, i + 1); }
  }

  /** The model is asked in rounds 1, 2, … and at most once more than the cap; the round after the cap is the
      one without tools, and it takes place exactly when every round before it asked for tools. */
  lemma {:induction false} ModelRounds(env: Env)
    ensures var asked, cap := Asked(RunSteps(env)), if env.limit > 0 then env.limit else 0;
      && 1 <= |asked| <= cap + 1
      && AskOrder(env, 1, asked)
      && (|asked| == cap + 1 <==> forall j :: 1 <= j <= env.limit ==> !Stops(env, j))
  {
    assert RunSteps(env) == RoundsSteps(env, 1);
    assert env.limit < 1 ==> Rounds(env, 1) == 1;
    hide *;
    RoundsAsk(env, 1);
    if env.limit >= 0 { RoundsBounded(env, 1); }
  }
}
