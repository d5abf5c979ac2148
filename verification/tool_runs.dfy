/** What holds of every run of the tool loop, and of every prefix of one. */
module ToolRuns {
  import opened ToolPolicies
  import opened ToolCalling

  // ---- sequences ----

  lemma {:induction false} InConcat<T>(x: T, a: seq<T>, b: seq<T>)
    ensures x in a + b <==> x in a || x in b
  {}

  lemma {:induction false} PrefixOfConcat<T>(a: seq<T>, b: seq<T>, n: nat)
    requires n <= |a| + |b|
    ensures n <= |a| ==> (a + b)[..n] == a[..n]
    ensures n > |a| ==> (a + b)[..n] == a + b[..n - |a|]
  {}

  // ---- the transcript ----

  /** Results that answer the calls in order, from the k-th call on. */
  predicate Answers(results: seq<Message>, calls: seq<ToolCall>, k: nat) {
    && k + |results| <= |calls|
    && forall j :: 0 <= j < |results| ==> results[j].ToolResult? && results[j].id == calls[k + j].id
  }

  /** Closed blocks and then at most one open block, one block per round from the i-th on. A block is an
      assistant message carrying all calls of its round, at least one, and results that answer the calls in
      order: all of them when the block is closed, a proper prefix when it is open. */
  predicate Blocks(env: Env, i: int, messages: seq<Message>)
    decreases |messages|
  {
    var calls := Pending(env.model(i).chunks);
    messages == [] ||
    (&& i <= env.limit && calls != [] && messages[0] == Assistant(calls)
     && if |messages| <= |calls| then Answers(messages[1..], calls, 0)
        else Answers(messages[1..1 + |calls|], calls, 0) && Blocks(env, i + 1, messages[1 + |calls|..]))
  }

  function BlockCount(messages: seq<Message>): nat {
    if messages == [] then 0 else (if messages[0].Assistant? then 1 else 0) + BlockCount(messages[1..])
  }

  lemma {:induction false} CallPrefix(env: Env, i: int, k: nat, call: ToolCall, n: nat)
    requires n <= |CallSteps(env, i, k, call)|
    ensures |CallSteps(env, i, k, call)| > 0
    ensures n < |CallSteps(env, i, k, call)| ==> Appended(CallSteps(env, i, k, call)[..n]) == []
    ensures n == |CallSteps(env, i, k, call)| ==>
      var a := Appended(CallSteps(env, i, k, call)[..n]);
      |a| == 1 && a[0].ToolResult? && a[0].id == call.id
  {
    var steps := CallSteps(env, i, k, call);
    hide Bind, Decided, Approved;
    assert |steps| >= 2 && forall j :: 0 <= j < |steps| - 1 ==> !steps[j].Append?;
    var last := steps[|steps| - 1];
    assert last.Append? && last.message.ToolResult? && last.message.id == call.id;
    hide CallSteps;
    if n < |steps| {
      NothingAppended(steps[..n]);
    } else {
      NothingAppended(steps[..n - 1]);
      assert steps[..n] == steps[..n - 1] + [last];
      AppendedSplits(steps[..n - 1], [last]);
      OneStep(last);
    }
  }

  lemma {:induction false} NothingAppended(steps: seq<Step>)
    requires forall j :: 0 <= j < |steps| ==> !steps[j].Append?
    ensures Appended(steps) == []
  {
    if steps != [] { NothingAppended(steps[1..]); }
  }

  lemma {:induction false} CallsPrefix(env: Env, i: int, calls: seq<ToolCall>, k: nat, n: nat)
    requires k <= |calls| && n <= |CallsSteps(env, i, calls, k)|
    ensures Answers(Appended(CallsSteps(env, i, calls, k)[..n]), calls, k)
    ensures n == |CallsSteps(env, i, calls, k)| ==>
      |Appended(CallsSteps(env, i, calls, k)[..n])| == |calls| - k
    decreases |calls| - k
  {
    if k < |calls| {
      CallsUnfold(env, i, calls, k);
      var a, b := CallSteps(env, i, k, calls[k]), CallsSteps(env, i, calls, k + 1);
      assert Answers([], calls, k);
      hide *;
      PrefixOfConcat(a, b, n);
      CallPrefix(env, i, k, calls[k], if n <= |a| then n else |a|);
      var m := if n <= |a| then 0 else n - |a|;
      CallsPrefix(env, i, calls, k + 1, m);
      assert a[..|a|] == a && b[..0] == [];
      if n >= |a| {
        assert (a + b)[..n] == a + b[..m];
        AppendedSplits(a, b[..m]);
        AnswersCons(Appended(a), Appended(b[..m]), calls, k);
      }
    }
  }

  lemma {:induction false} AnswersCons(a: seq<Message>, b: seq<Message>, calls: seq<ToolCall>, k: nat)
    requires k < |calls| && |a| == 1 && a[0].ToolResult? && a[0].id == calls[k].id
    requires Answers(b, calls, k + 1)
    ensures Answers(a + b, calls, k)
  {
    forall j | 0 <= j < |a + b| ensures (a + b)[j].ToolResult? && (a + b)[j].id == calls[k + j].id {
      if j > 0 { assert (a + b)[j] == b[j - 1]; }
    }
  }

  lemma {:induction false} StreamAppendsNothing(i: int, chunks: seq<Chunk>, seen: set<int>)
    ensures forall j :: 0 <= j < |StreamSteps(i, chunks, seen)| ==> StreamSteps(i, chunks, seen)[j].Yield?
  {
    if chunks != [] {
      StreamAppendsNothing(i, chunks[1..], SeenAfter(chunks[0], seen));
      if chunks[0].Deltas? { DeltasAppendNothing(i, chunks[0].deltas, seen); }
      hide DeltaSteps, SeenAfter;
    }
  }

  lemma {:induction false} DeltasAppendNothing(i: int, deltas: seq<Delta>, seen: set<int>)
    ensures forall j :: 0 <= j < |DeltaSteps(i, deltas, seen)| ==> DeltaSteps(i, deltas, seen)[j].Yield?
  {
    if deltas != [] { DeltasAppendNothing(i, deltas[1..], seen + {deltas[0].index}); }
  }

  lemma {:induction false} FinalAppendsNothing(env: Env, chunks: seq<Chunk>)
    ensures forall j :: 0 <= j < |FinalSteps(env, chunks)| ==> FinalSteps(env, chunks)[j].Yield?
  {
    if chunks != [] { FinalAppendsNothing(env, chunks[1..]); }
  }

  /** One round: nothing is appended while the model streams, and the block after that. */
  lemma {:induction false} RoundParts(env: Env, i: int) returns (listening: seq<Step>, block: seq<Step>)
    ensures RoundSteps(env, i) == listening + block
    ensures listening != [] && listening[0] == Ask(i, env.offered)
    ensures forall j :: 1 <= j < |listening| ==> listening[j].Yield?
    ensures Stops(env, i) ==> block == []
    ensures !Stops(env, i) ==> var calls := Pending(env.model(i).chunks);
      calls != [] && block == [Append(Assistant(calls))] + CallsSteps(env, i, calls, 0)
  {
    var calls := Pending(env.model(i).chunks);
    var stream := StreamSteps(i, env.model(i).chunks, {});
    StreamAppendsNothing(i, env.model(i).chunks, {});
    listening := [Ask(i, env.offered)] + stream;
    block := if Stops(env, i) then [] else [Append(Assistant(calls))] + CallsSteps(env, i, calls, 0);
    hide StreamSteps, CallsSteps, Pending;
  }

  lemma {:induction false} OneBlock(env: Env, i: int, calls: seq<ToolCall>, messages: seq<Message>)
    requires i <= env.limit && calls == Pending(env.model(i).chunks) && calls != []
    requires messages != [] && messages[0] == Assistant(calls) && Answers(messages[1..], calls, 0)
    ensures Blocks(env, i, messages)
  {
    if |messages| > |calls| {
      assert messages[1..1 + |calls|] == messages[1..] && messages[1 + |calls|..] == [];
    }
    hide Answers, Pending;
  }

  lemma {:induction false} BlocksCons(
      env: Env, i: int, calls: seq<ToolCall>, block: seq<Message>, rest: seq<Message>)
    requires i <= env.limit && calls == Pending(env.model(i).chunks) && calls != []
    requires |block| == 1 + |calls| && block[0] == Assistant(calls) && Answers(block[1..], calls, 0)
    requires Blocks(env, i + 1, rest)
    ensures Blocks(env, i, block + rest)
  {
    var messages := block + rest;
    assert messages[0] == block[0] && messages[1..1 + |calls|] == block[1..] && messages[1 + |calls|..] == rest;
    hide Answers, Pending;
  }

  /** What a prefix of the block's steps appends. */
  lemma {:induction false} BlockPrefix(env: Env, i: int, calls: seq<ToolCall>, block: seq<Step>, n: nat)
    requires block == [Append(Assistant(calls))] + CallsSteps(env, i, calls, 0) && n <= |block|
    ensures var m := Appended(block[..n]);
      (n == 0 ==> m == [])
      && (n > 0 ==> m != [] && m[0] == Assistant(calls) && Answers(m[1..], calls, 0))
      && (n == |block| ==> |m| == 1 + |calls|)
  {
    var head, rest := [Append(Assistant(calls))], CallsSteps(env, i, calls, 0);
    OneStep(head[0]);
    hide CallsSteps, Answers;
    if n > 0 {
      PrefixOfConcat(head, rest, n);
      assert head[..1] == head && rest[..0] == [];
      CallsPrefix(env, i, calls, 0, n - 1);
      AppendedSplits(head, rest[..n - 1]);
      assert block[..n] == head + rest[..n - 1];
      assert Appended(block[..n])[1..] == Appended(rest[..n - 1]);
    }
  }

  lemma {:induction false} RoundPrefix(env: Env, i: int, n: nat)
    requires n <= |RoundSteps(env, i)| && i <= env.limit
    ensures Blocks(env, i, Appended(RoundSteps(env, i)[..n]))
    ensures !Stops(env, i) && n == |RoundSteps(env, i)| ==>
      var m, calls := Appended(RoundSteps(env, i)), Pending(env.model(i).chunks);
      calls != [] && |m| == 1 + |calls| && m[0] == Assistant(calls) && Answers(m[1..], calls, 0)
  {
    var a, b := RoundParts(env, i);
    var calls := Pending(env.model(i).chunks);
    assert Blocks(env, i, []);
    hide Blocks, Answers, RoundSteps, Pending, Stops;
    PrefixOfConcat(a, b, n);
    if n <= |a| {
      NothingAppended(a[..n]);
      if n == |RoundSteps(env, i)| { assert b == []; }
    } else {
      NothingAppended(a);
      AppendedSplits(a, b[..n - |a|]);
      assert b != [];
      BlockPrefix(env, i, calls, b, n - |a|);
      var m := Appended(b[..n - |a|]);
      OneBlock(env, i, calls, m);
      assert Appended(RoundSteps(env, i)[..n]) == m;
      if n == |RoundSteps(env, i)| { assert b[..n - |a|] == b && RoundSteps(env, i)[..n] == a + b; }
    }
  }

  lemma {:induction false} RoundsPrefix(env: Env, i: int, n: nat)
    requires n <= |RoundsSteps(env, i)|
    ensures Blocks(env, i, Appended(RoundsSteps(env, i)[..n]))
    decreases env.limit - i + 1
  {
    var steps := RoundsSteps(env, i);
    if i > env.limit {
      LastRoundPrefix(env, i, n);
    } else {
      RoundsUnfold(env, i);
      var a, b := RoundSteps(env, i), RoundsSteps(env, i + 1);
      hide *;
      if Stops(env, i) {
        RoundPrefix(env, i, n);
      } else {
        PrefixOfConcat(a, b, n);
        if n <= |a| {
          RoundPrefix(env, i, n);
        } else {
          RoundPrefix(env, i, |a|);
          assert a[..|a|] == a;
          RoundsPrefix(env, i + 1, n - |a|);
          BothParts(env, i, Pending(env.model(i).chunks), a, b[..n - |a|]);
        }
      }
    }
  }

  lemma {:induction false} BothParts(env: Env, i: int, calls: seq<ToolCall>, a: seq<Step>, b: seq<Step>)
    requires i <= env.limit && calls == Pending(env.model(i).chunks) && calls != []
    requires |Appended(a)| == 1 + |calls| && Appended(a)[0] == Assistant(calls)
    requires Answers(Appended(a)[1..], calls, 0) && Blocks(env, i + 1, Appended(b))
    ensures Blocks(env, i, Appended(a + b))
  {
    hide *;
    AppendedSplits(a, b);
    BlocksCons(env, i, calls, Appended(a), Appended(b));
  }

  lemma {:induction false} LastRoundPrefix(env: Env, i: int, n: nat)
    requires i > env.limit && n <= |RoundsSteps(env, i)|
    ensures Blocks(env, i, Appended(RoundsSteps(env, i)[..n]))
  {
    RoundsEnd(env, i);
    FinalAppendsNothing(env, env.model(i).chunks);
    assert Blocks(env, i, []);
    hide *;
    NothingAppended(RoundsSteps(env, i)[..n]);
  }

  /** At every moment of every run, the transcript has grown by closed blocks and at most one open block,
      at most one block per allowed round. */
  lemma {:induction false} TranscriptShape(env: Env, n: nat)
    requires n <= |RunSteps(env)|
    ensures Blocks(env, 1, Appended(RunSteps(env)[..n]))
    ensures BlockCount(Appended(RunSteps(env)[..n])) <= if env.limit > 0 then env.limit else 0
  {
    assert RunSteps(env) == RoundsSteps(env, 1);
    hide Blocks, BlockCount, RoundsSteps, RunSteps;
    RoundsPrefix(env, 1, n);
    BlocksBounded(env, 1, Appended(RunSteps(env)[..n]));
  }

  lemma {:induction false} BlocksBounded(env: Env, i: int, messages: seq<Message>)
    requires Blocks(env, i, messages)
    ensures BlockCount(messages) <= if i <= env.limit then env.limit - i + 1 else 0
    decreases |messages|
  {
    if messages != [] {
      var calls := Pending(env.model(i).chunks);
      var k := if |messages| <= |calls| then |messages| else 1 + |calls|;
      var results, rest := messages[1..k], messages[k..];
      assert BlockCount(messages) == 1 + BlockCount(messages[1..]);
      CutInTwo(messages, k);
      assert rest == [] || Blocks(env, i + 1, rest);
      assert Answers(results, calls, 0);
      hide Pending, BlockCount, Blocks;
      CountResults(results, rest);
      if rest == [] { NoBlocks(); } else { BlocksBounded(env, i + 1, rest); }
    }
  }

  lemma {:induction false} CutInTwo(messages: seq<Message>, k: int)
    requires 1 <= k <= |messages|
    ensures messages[1..] == messages[1..k] + messages[k..]
  {}

  lemma {:induction false} NoBlocks()
    ensures BlockCount([]) == 0
  {}

  lemma {:induction false} CountResults(results: seq<Message>, rest: seq<Message>)
    requires forall j :: 0 <= j < |results| ==> results[j].ToolResult?
    ensures BlockCount(results + rest) == BlockCount(rest)
  {
    if results == [] {
      assert results + rest == rest;
    } else {
      assert (results + rest)[1..] == results[1..] + rest;
      CountResults(results[1..], rest);
    }
  }
}
