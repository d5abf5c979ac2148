/** The native function-calling loop: model, tools, model, up to a cap. The
    model's streams, the gate, the guardrail, the human and the tools are an
    `Env`ironment of arbitrary answers; a run is the list of the steps it takes. */
module ToolCalling {
  import opened Text
  import opened ToolPolicies

  type Args = map<string, string>

  datatype ToolCall = ToolCall(id: string, name: string, args: Args)

  /** One entry of the transcript. */
  datatype Message =
    | Plain(text: string)
    | Assistant(calls: seq<ToolCall>)
    | ToolResult(id: string, body: Body)

  /** Who refused a call; a human's refusal of `memory_forget` is told in words of its own. */
  datatype Refusal = ByPolicy | ByHuman(forget: bool)

  /** What a call came to: only a value is a success. */
  datatype Body = Value(text: string) | Failure(text: string) | Refused(why: Refusal)

  datatype Delta = Delta(index: int, id: string, name: string, fragment: string)

  /** One chunk of a model stream. */
  datatype Chunk = Token(text: string) | Calls(calls: seq<ToolCall>) | Deltas(deltas: seq<Delta>)

  /** A model stream, which may raise after its chunks. */
  datatype Stream = Stream(chunks: seq<Chunk>, raises: bool)

  datatype Human = NobodyToAsk | Says(yes: bool) | WaitRaises

  /** Running a tool: unknown to the registry, failing or timing out, or returning. */
  datatype Outcome = Unknown(error: string) | Fails(error: string) | Returns(result: string)

  /** What the consumer of the stream gets. */
  datatype Event =
    | Text(text: string)
    | Call(iteration: int, index: int, id: string, name: string)
    | Fragment(iteration: int, index: int, id: string, text: string)
    | ApprovalRequest(iteration: int, id: string, name: string, args: Args)
    | Done(iteration: int, id: string, name: string, args: Args, body: Body)

  /** What a run does, one after the other. */
  datatype Step =
    | Ask(iteration: int, tools: bool)
    | Yield(event: Event)
    | Append(message: Message)
    | Execute(iteration: int, index: nat, name: string, args: Args)

  /** Everything a run meets. `index` counts the calls of one round. */
  datatype Env = Env(
    offered: bool,                    // whether there are tools to offer
    limit: int,                       // max_iterations
    subject: bool, capsule: Capsule, iq: Option<AgentIq>,
    model: int -> Stream,
    gate: (int, nat) -> GateAnswer,
    clef: (int, nat) -> Clef,
    human: (int, nat) -> Human,
    tool: (int, nat) -> Outcome,
    describe: Chunk -> string)        // a chunk that is not text, as text

  datatype Ending = Answered | Raised | Capped

  // ---- what a run is ----

  /** The calls of a round: those of the last chunk that carries any list of calls. */
  function Pending(chunks: seq<Chunk>): seq<ToolCall> {
    if chunks == [] then []
    else if chunks[|chunks| - 1].Calls? then chunks[|chunks| - 1].calls
    else Pending(chunks[..|chunks| - 1])
  }

  /** The first fragment of a call announces it; every non-empty fragment is passed on. */
  function DeltaStep(i: int, d: Delta, seen: set<int>): seq<Step> {
    (if d.index in seen then [] else [Yield(Call(i, d.index, d.id, d.name))])
    + (if d.fragment == "" then [] else [Yield(Fragment(i, d.index, d.id, d.fragment))])
  }

  function DeltaSteps(i: int, deltas: seq<Delta>, seen: set<int>): seq<Step> {
    if deltas == [] then []
    else DeltaStep(i, deltas[0], seen) + DeltaSteps(i, deltas[1..], seen + {deltas[0].index})
  }

  function Indices(deltas: seq<Delta>): set<int> {
    set k | 0 <= k < |deltas| :: deltas[k].index
  }

  function TextSteps(text: string): seq<Step> {
    if text == "" then [] else [Yield(Text(text))]
  }

  function ChunkSteps(i: int, chunk: Chunk, seen: set<int>): seq<Step> {
    match chunk
    case Token(text) => TextSteps(text)
    case Calls(_) => []
    case Deltas(deltas) => DeltaSteps(i, deltas, seen)
  }

  function SeenAfter(chunk: Chunk, seen: set<int>): set<int> {
    if chunk.Deltas? then seen + Indices(chunk.deltas) else seen
  }

  function StreamSteps(i: int, chunks: seq<Chunk>, seen: set<int>): seq<Step> {
    if chunks == [] then []
    else ChunkSteps(i, chunks[0], seen) + StreamSteps(i, chunks[1..], SeenAfter(chunks[0], seen))
  }

  function Decided(env: Env, i: int, k: nat, call: ToolCall): Decision {
    Authorize(env.subject, env.capsule, env.iq, call.name, Bind(env.capsule, call.name, call.args),
              env.gate(i, k), env.clef(i, k))
  }

  /** A call with the arguments the loop gives it: the capsule's identity in place of the model's. */
  function Bound(capsule: Capsule, call: ToolCall): ToolCall {
    call.(args := Bind(capsule, call.name, call.args))
  }

  /** A call that does not run: the consumer and the model both learn so. */
  function RefusalSteps(i: int, call: ToolCall, why: Refusal): seq<Step> {
    [Yield(Done(i, call.id, call.name, call.args, Refused(why))), Append(ToolResult(call.id, Refused(why)))]
  }

  function BodyOf(outcome: Outcome): Body {
    match outcome
    case Unknown(error) => Failure(error)
    case Fails(error) => Failure(error)
    case Returns(result) => Value(result)
  }

  function ExecuteSteps(env: Env, i: int, k: nat, call: ToolCall): seq<Step> {
    var outcome := env.tool(i, k);
    (if outcome.Unknown? then [] else [Execute(i, k, call.name, call.args)])
    + [Yield(Done(i, call.id, call.name, call.args, BodyOf(outcome))), Append(ToolResult(call.id, BodyOf(outcome)))]
  }

  predicate Approved(env: Env, i: int, k: nat) { env.human(i, k) == Says(true) }

  function CallSteps(env: Env, i: int, k: nat, call: ToolCall): seq<Step> {
    var bound := Bound(env.capsule, call);
    match Decided(env, i, k, call)
    case Auto => ExecuteSteps(env, i, k, bound)
    case Denied => RefusalSteps(i, bound, ByPolicy)
    case Approval =>
      [Yield(ApprovalRequest(i, bound.id, bound.name, bound.args))]
      + if Approved(env, i, k) then ExecuteSteps(env, i, k, bound)
        else RefusalSteps(i, bound, ByHuman(call.name == FORGET))
  }

  /** The calls of one round from the k-th on. */
  function CallsSteps(env: Env, i: int, calls: seq<ToolCall>, k: nat): seq<Step>
    requires k <= |calls|
    decreases |calls| - k
  {
    if k == |calls| then [] else CallSteps(env, i, k, calls[k]) + CallsSteps(env, i, calls, k + 1)
  }

  /** The rounds from the i-th on; after the cap, one more round without tools. */
  function RoundsSteps(env: Env, i: int): seq<Step>
    decreases env.limit - i + 1
  {
    if i > env.limit then [Ask(i, false)] + FinalSteps(env, env.model(i).chunks)
    else RoundSteps(env, i) + if Stops(env, i) then [] else RoundsSteps(env, i + 1)
  }

  function RoundSteps(env: Env, i: int): seq<Step> {
    var calls := Pending(env.model(i).chunks);
    [Ask(i, env.offered)] + StreamSteps(i, env.model(i).chunks, {})
    + if Stops(env, i) then [] else [Append(Assistant(calls))] + CallsSteps(env, i, calls, 0)
  }

  /** The i-th round is the last one: its stream raises, or asks for no tool. */
  predicate Stops(env: Env, i: int) {
    env.model(i).raises || Pending(env.model(i).chunks) == []
  }

  function FinalText(env: Env, chunk: Chunk): string {
    if chunk.Token? then chunk.text else env.describe(chunk)
  }

  function FinalSteps(env: Env, chunks: seq<Chunk>): seq<Step> {
    if chunks == [] then [] else TextSteps(FinalText(env, chunks[0])) + FinalSteps(env, chunks[1..])
  }

  function RunSteps(env: Env): seq<Step> { RoundsSteps(env, 1) }

  function MessageOf(step: Step): seq<Message> { if step.Append? then [step.message] else [] }

  function EventOf(step: Step): seq<Event> { if step.Yield? then [step.event] else [] }

  /** The messages a list of steps appends. */
  function Appended(steps: seq<Step>): seq<Message> {
    if steps == [] then [] else MessageOf(steps[0]) + Appended(steps[1..])
  }

  /** The events a list of steps yields. */
  function Yielded(steps: seq<Step>): seq<Event> {
    if steps == [] then [] else EventOf(steps[0]) + Yielded(steps[1..])
  }

  lemma {:induction false} AppendedSplits(a: seq<Step>, b: seq<Step>)
    ensures Appended(a + b) == Appended(a) + Appended(b)
  {
    if a == [] {
      assert a + b == b;
    } else {
      var c := a + b;
      assert c[0] == a[0] && c[1..] == a[1..] + b;
      assert Appended(c) == MessageOf(a[0]) + Appended(c[1..]);
      assert Appended(a) == MessageOf(a[0]) + Appended(a[1..]);
      hide *;
      AppendedSplits(a[1..], b);
    }
  }

  lemma {:induction false} YieldedSplits(a: seq<Step>, b: seq<Step>)
    ensures Yielded(a + b) == Yielded(a) + Yielded(b)
  {
    if a == [] {
      assert a + b == b;
    } else {
      var c := a + b;
      assert c[0] == a[0] && c[1..] == a[1..] + b;
      assert Yielded(c) == EventOf(a[0]) + Yielded(c[1..]);
      assert Yielded(a) == EventOf(a[0]) + Yielded(a[1..]);
      hide *;
      YieldedSplits(a[1..], b);
    }
  }

  lemma {:induction false} OneStep(step: Step)
    ensures Appended([step]) == MessageOf(step) && Yielded([step]) == EventOf(step)
  {
    assert [step][1..] == [];
    assert Appended([step]) == MessageOf(step) + Appended([]);
    assert Yielded([step]) == EventOf(step) + Yielded([]);
  }

  lemma {:induction false} PendingGrows(chunks: seq<Chunk>, n: nat)
    requires n < |chunks|
    ensures Pending(chunks[..n + 1]) == if chunks[n].Calls? then chunks[n].calls else Pending(chunks[..n])
  {
    assert chunks[..n + 1][..n] == chunks[..n];
  }

  // ---- the loop itself ----

  /** One turn: the caller's transcript, extended in place, and what the consumer has received. */
  class Turn {
    var messages: seq<Message>
    var events: seq<Event>
    ghost var log: seq<Step>
    ghost const initial: seq<Message>

    /** The transcript is the untouched initial list followed by what the steps so far appended. */
    ghost predicate Valid() reads this {
      messages == initial + Appended(log) && events == Yielded(log)
    }

    constructor (messages: seq<Message>)
      ensures Valid() && this.messages == messages && initial == messages && log == []
    {
      this.messages, events, log, initial := messages, [], [], messages;
    }

    method Emit(event: Event)
      requires Valid()
      modifies this
      ensures Valid() && log == old(log) + [Yield(event)]
    {
      OneStep(Yield(event));
      AppendedSplits(log, [Yield(event)]);
      YieldedSplits(log, [Yield(event)]);
      events, log := events + [event], log + [Yield(event)];
    }

    method Push(message: Message)
      requires Valid()
      modifies this
      ensures Valid() && log == old(log) + [Append(message)]
    {
      OneStep(Append(message));
      AppendedSplits(log, [Append(message)]);
      YieldedSplits(log, [Append(message)]);
      messages, log := messages + [message], log + [Append(message)];
    }

    ghost method Note(step: Step)
      requires Valid() && (step.Ask? || step.Execute?)
      modifies this`log
      ensures Valid() && log == old(log) + [step]
    {
      OneStep(step);
      AppendedSplits(log, [step]);
      YieldedSplits(log, [step]);
      log := log + [step];
    }

    method EmitText(text: string)
      requires Valid()
      modifies this
      ensures Valid() && log == old(log) + TextSteps(text)
    {
      if text != "" { Emit(Text(text)); }
    }

    method ReadDelta(i: int, d: Delta, seen: set<int>)
      requires Valid()
      modifies this
      ensures Valid() && log == old(log) + DeltaStep(i, d, seen)
    {
      if d.index !in seen { Emit(Call(i, d.index, d.id, d.name)); }
      if d.fragment != "" { Emit(Fragment(i, d.index, d.id, d.fragment)); }
    }

    method ReadDeltas(i: int, deltas: seq<Delta>, seen: set<int>) returns (seen': set<int>)
      requires Valid()
      modifies this
      ensures Valid() && log == old(log) + DeltaSteps(i, deltas, seen)
      ensures seen' == seen + Indices(deltas)
    {
      seen' := seen;
      var n := 0;
      ghost var whole := log + DeltaSteps(i, deltas, seen);
      assert deltas[0..] == deltas && Indices(deltas[..0]) == {};
      assert DeltaSteps(i, [], seen) == [];
      hide *;
      while n < |deltas|
        invariant 0 <= n <= |deltas| && Valid()
        invariant seen' == seen + Indices(deltas[..n])
        invariant whole == log + DeltaSteps(i, deltas[n..], seen')
      {
        ghost var before, rest := log, DeltaSteps(i, deltas[n + 1..], seen' + {deltas[n].index});
        DeltaUnfolds(i, deltas, n, seen');
        IndicesGrow(deltas, n);
        ReadDelta(i, deltas[n], seen');
        Chain(whole, before, DeltaStep(i, deltas[n], seen'), rest, log);
        seen' := seen' + {deltas[n].index};
        n := n + 1;
      }
      DeltasEnd(i, deltas, seen');
    }

    method ReadChunk(i: int, chunk: Chunk, pending: seq<ToolCall>, seen: set<int>)
      returns (pending': seq<ToolCall>, seen': set<int>)
      requires Valid()
      modifies this
      ensures Valid() && log == old(log) + ChunkSteps(i, chunk, seen)
      ensures pending' == if chunk.Calls? then chunk.calls else pending
      ensures seen' == SeenAfter(chunk, seen)
    {
      pending', seen' := pending, seen;
      match chunk {
        case Calls(calls) => pending' := calls;
        case Deltas(deltas) => seen' := ReadDeltas(i, deltas, seen);
        case Token(text) => EmitText(text);
      }
    }

    method ReadStream(i: int, chunks: seq<Chunk>) returns (pending: seq<ToolCall>)
      requires Valid()
      modifies this
      ensures Valid() && log == old(log) + StreamSteps(i, chunks, {})
      ensures pending == Pending(chunks)
    {
      pending := [];
      var seen: set<int>, n := {}, 0;
      ghost var whole := log + StreamSteps(i, chunks, {});
      assert chunks[0..] == chunks && Pending(chunks[..0]) == [];
      hide *;
      while n < |chunks|
        invariant 0 <= n <= |chunks| && Valid() && pending == Pending(chunks[..n])
        invariant whole == log + StreamSteps(i, chunks[n..], seen)
      {
        ghost var before, steps := log, ChunkSteps(i, chunks[n], seen);
        StreamUnfolds(i, chunks, n, seen);
        PendingGrows(chunks, n);
        pending, seen := ReadChunk(i, chunks[n], pending, seen);
        Chain(whole, before, steps, StreamSteps(i, chunks[n + 1..], seen), log);
        n := n + 1;
      }
      StreamEnds(i, chunks, seen);
    }

    method Refuse(i: int, call: ToolCall, why: Refusal)
      requires Valid()
      modifies this
      ensures Valid() && log == old(log) + RefusalSteps(i, call, why)
    {
      Emit(Done(i, call.id, call.name, call.args, Refused(why)));
      Push(ToolResult(call.id, Refused(why)));
    }

    method RunTool(env: Env, i: int, k: nat, call: ToolCall)
      requires Valid()
      modifies this
      ensures Valid() && log == old(log) + ExecuteSteps(env, i, k, call)
    {
      var outcome := env.tool(i, k);
      if !outcome.Unknown? { Note(Execute(i, k, call.name, call.args)); }
      Emit(Done(i, call.id, call.name, call.args, BodyOf(outcome)));
      Push(ToolResult(call.id, BodyOf(outcome)));
    }

    method HandleCall(env: Env, i: int, k: nat, call: ToolCall)
      requires Valid()
      modifies this
      ensures Valid() && log == old(log) + CallSteps(env, i, k, call)
    {
      var decision, bound := Decided(env, i, k, call), Bound(env.capsule, call);
      ghost var asked := [Yield(ApprovalRequest(i, bound.id, bound.name, bound.args))];
      var refused, why := decision == Denied, ByPolicy;
      assert CallSteps(env, i, k, call) ==
        (if decision == Approval then asked else [])
        + if decision == Denied then RefusalSteps(i, bound, ByPolicy)
          else if decision == Approval && !Approved(env, i, k) then RefusalSteps(i, bound, ByHuman(call.name == FORGET))
          else ExecuteSteps(env, i, k, bound);
      if decision == Approval {
        Emit(ApprovalRequest(i, bound.id, bound.name, bound.args));
        var answer := env.human(i, k);
        refused, why := !(answer.Says? && answer.yes), ByHuman(call.name == FORGET);
        assert refused == !Approved(env, i, k);
      }
      hide *;
      if refused {
        Refuse(i, bound, why);
      } else {
        RunTool(env, i, k, bound);
      }
    }

    method HandleCalls(env: Env, i: int, calls: seq<ToolCall>)
      requires Valid()
      modifies this
      ensures Valid() && log == old(log) + CallsSteps(env, i, calls, 0)
    {
      var k := 0;
      ghost var whole := log + CallsSteps(env, i, calls, 0);
      assert CallsSteps(env, i, calls, |calls|) == [];
      hide *;
      while k < |calls|
        invariant 0 <= k <= |calls| && Valid()
        invariant whole == log + CallsSteps(env, i, calls, k)
      {
        ghost var before := log;
        CallsUnfold(env, i, calls, k);
        HandleCall(env, i, k, calls[k]);
        Chain(whole, before, CallSteps(env, i, k, calls[k]), CallsSteps(env, i, calls, k + 1), log);
        k := k + 1;
      }
    }

    method ReadFinal(env: Env, chunks: seq<Chunk>)
      requires Valid()
      modifies this
      ensures Valid() && log == old(log) + FinalSteps(env, chunks)
    {
      var n := 0;
      ghost var whole := log + FinalSteps(env, chunks);
      assert chunks[0..] == chunks && FinalSteps(env, []) == [];
      hide *;
      while n < |chunks|
        invariant 0 <= n <= |chunks| && Valid()
        invariant whole == log + FinalSteps(env, chunks[n..])
      {
        ghost var before := log;
        FinalUnfolds(env, chunks, n);
        EmitText(FinalText(env, chunks[n]));
        Chain(whole, before, TextSteps(FinalText(env, chunks[n])), FinalSteps(env, chunks[n + 1..]), log);
        n := n + 1;
      }
    }

    /** One round with tools: whether the loop goes on. */
    method Round(env: Env, i: int) returns (goesOn: bool)
      requires Valid() && i <= env.limit
      modifies this
      ensures Valid() && goesOn == !Stops(env, i)
      ensures log == old(log) + RoundSteps(env, i)
    {
      hide *;
      ghost var before := log;
      var stream := env.model(i);
      Note(Ask(i, env.offered));
      var pending := ReadStream(i, stream.chunks);
      ghost var asked, read := [Ask(i, env.offered)], StreamSteps(i, stream.chunks, {});
      goesOn := !stream.raises && pending != [];
      RoundIs(env, i, pending, asked, read);
      if goesOn {
        Push(Assistant(pending));
        HandleCalls(env, i, pending);
        Chained(before, asked, read, [Append(Assistant(pending))], CallsSteps(env, i, pending, 0));
      } else {
        Chained(before, asked, read, [], []);
      }
    }

    /** `run_tool_loop`: takes exactly the steps of the run, in order. */
    method Run(env: Env) returns (ending: Ending)
      requires Valid()
      modifies this
      ensures Valid() && log == old(log) + RunSteps(env)
      ensures ending == EndingFrom(env, 1)
    {
      var i := 1;
      ghost var whole := log + RunSteps(env);
      assert RunSteps(env) == RoundsSteps(env, 1);
      hide *;
      while i <= env.limit
        invariant 1 <= i && Valid()
        invariant whole == log + RoundsSteps(env, i)
        invariant EndingFrom(env, 1) == EndingFrom(env, i)
        decreases env.limit - i
      {
        ghost var before := log;
        var goesOn := Round(env, i);
        RoundsUnfold(env, i);
        if !goesOn {
          ending := if env.model(i).raises then Raised else Answered;
          return;
        }
        Chain(whole, before, RoundSteps(env, i), RoundsSteps(env, i + 1), log);
        i := i + 1;
      }
      RoundsEnd(env, i);
      ghost var before := log;
      var stream := env.model(i);
      Note(Ask(i, false));
      ReadFinal(env, stream.chunks);
      Chain(whole, before, [Ask(i, false)], FinalSteps(env, stream.chunks), before + [Ask(i, false)]);
      ending := if stream.raises then Raised else Capped;
    }
  }

  // ---- unfoldings ----

  lemma {:induction false} Chain(
      whole: seq<Step>, before: seq<Step>, steps: seq<Step>, rest: seq<Step>, after: seq<Step>)
    requires whole == before + (steps + rest) && after == before + steps
    ensures whole == after + rest
  {}

  lemma {:induction false} RoundIs(env: Env, i: int, calls: seq<ToolCall>, asked: seq<Step>, read: seq<Step>)
    requires calls == Pending(env.model(i).chunks)
    requires asked == [Ask(i, env.offered)] && read == StreamSteps(i, env.model(i).chunks, {})
    ensures Stops(env, i) <==> env.model(i).raises || calls == []
    ensures RoundSteps(env, i) ==
      if Stops(env, i) then asked + read + ([] + [])
      else asked + read + ([Append(Assistant(calls))] + CallsSteps(env, i, calls, 0))
  {
    hide Pending, StreamSteps, CallsSteps;
  }

  lemma {:induction false} Chained(before: seq<Step>, a: seq<Step>, b: seq<Step>, c: seq<Step>, d: seq<Step>)
    ensures before + a + b + c + d == before + (a + b + (c + d))
  {}

  lemma {:induction false} DeltasEnd(i: int, deltas: seq<Delta>, seen: set<int>)
    ensures DeltaSteps(i, deltas[|deltas|..], seen) == [] && deltas[..|deltas|] == deltas
  {}

  lemma {:induction false} StreamEnds(i: int, chunks: seq<Chunk>, seen: set<int>)
    ensures StreamSteps(i, chunks[|chunks|..], seen) == [] && chunks[..|chunks|] == chunks
  {}

  lemma {:induction false} StreamUnfolds(i: int, chunks: seq<Chunk>, n: nat, seen: set<int>)
    requires n < |chunks|
    ensures StreamSteps(i, chunks[n..], seen) ==
      ChunkSteps(i, chunks[n], seen) + StreamSteps(i, chunks[n + 1..], SeenAfter(chunks[n], seen))
  {
    assert chunks[n..][1..] == chunks[n + 1..] && chunks[n..][0] == chunks[n];
  }

  lemma {:induction false} CallsUnfold(env: Env, i: int, calls: seq<ToolCall>, k: nat)
    requires k < |calls|
    ensures CallsSteps(env, i, calls, k) == CallSteps(env, i, k, calls[k]) + CallsSteps(env, i, calls, k + 1)
  {
    hide CallSteps;
  }

  lemma {:induction false} RoundsUnfold(env: Env, i: int)
    requires i <= env.limit
    ensures Stops(env, i) ==> RoundsSteps(env, i) == RoundSteps(env, i)
    ensures Stops(env, i) ==> EndingFrom(env, i) == if env.model(i).raises then Raised else Answered
    ensures !Stops(env, i) ==> RoundsSteps(env, i) == RoundSteps(env, i) + RoundsSteps(env, i + 1)
    ensures !Stops(env, i) ==> EndingFrom(env, i) == EndingFrom(env, i + 1)
  {
    hide RoundSteps, Pending;
  }

  lemma {:induction false} RoundsEnd(env: Env, i: int)
    requires i > env.limit
    ensures RoundsSteps(env, i) == [Ask(i, false)] + FinalSteps(env, env.model(i).chunks)
    ensures EndingFrom(env, i) == if env.model(i).raises then Raised else Capped
  {
    hide FinalSteps;
  }

  lemma {:induction false} DeltaUnfolds(i: int, deltas: seq<Delta>, n: nat, seen: set<int>)
    requires n < |deltas|
    ensures DeltaSteps(i, deltas[n..], seen) ==
      DeltaStep(i, deltas[n], seen) + DeltaSteps(i, deltas[n + 1..], seen + {deltas[n].index})
  {
    assert deltas[n..][1..] == deltas[n + 1..] && deltas[n..][0] == deltas[n];
  }

  lemma {:induction false} FinalUnfolds(env: Env, chunks: seq<Chunk>, n: nat)
    requires n < |chunks|
    ensures FinalSteps(env, chunks[n..]) ==
      TextSteps(FinalText(env, chunks[n])) + FinalSteps(env, chunks[n + 1..])
  {
    assert chunks[n..][1..] == chunks[n + 1..] && chunks[n..][0] == chunks[n];
  }

  lemma {:induction false} IndicesGrow(deltas: seq<Delta>, n: nat)
    requires n < |deltas|
    ensures Indices(deltas[..n + 1]) == Indices(deltas[..n]) + {deltas[n].index}
  {
    var a, b := deltas[..n], deltas[..n + 1];
    forall x | x in Indices(a) ensures x in Indices(b) {
      var k :| 0 <= k < n && a[k].index == x;
      assert b[k] == a[k];
    }
    assert b[n] == deltas[n];
    forall x | x in Indices(b) ensures x in Indices(a) + {deltas[n].index} {
      var k :| 0 <= k <= n && b[k].index == x;
      assert k < n ==> a[k] == b[k];
    }
  }

  /** How a run ends. */
  function EndingFrom(env: Env, i: int): Ending
    decreases env.limit - i + 1
  {
    if env.model(i).raises then Raised
    else if i > env.limit then Capped
    else if Pending(env.model(i).chunks) == [] then Answered
    else EndingFrom(env, i + 1)
  }
}
