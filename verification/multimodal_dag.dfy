/** Executing a list of nodes with dependencies, one after the other or all at
    once. */
module MultimodalDag {

  datatype Operation = GenerateImage | RenderDiagram | Screenshot | Custom {
    /** The operations nothing is wired for; each of them raises. */
    predicate Unwired() { this != Custom }
  }

  datatype Node = Node(id: string, operation: Operation, input: string, dependsOn: seq<string>)

  /** How a node ends; a failed one because of a dependency or because its operation is not wired. */
  datatype Outcome = Completed(output: string) | DependencyFailed(dependency: string) | NotWired(operation: Operation)

  datatype Result = Result(id: string, outcome: Outcome) {
    predicate Failed() { !outcome.Completed? }
  }

  // ---- what each node's result is ----

  /** The last node before k with this id, or -1. */
  function LastBefore(nodes: seq<Node>, k: nat, id: string): (j: int)
    requires k <= |nodes|
    ensures -1 <= j < k
    ensures j >= 0 ==> nodes[j].id == id
    ensures forall i :: j < i < k ==> nodes[i].id != id
  {
    if k == 0 then -1 else if nodes[k - 1].id == id then k - 1 else LastBefore(nodes, k - 1, id)
  }

  /** The dependency is known by now and has failed. */
  predicate DependencyFails(nodes: seq<Node>, k: nat, id: string)
    requires k < |nodes|
    decreases k, 0, 0
  {
    var j := LastBefore(nodes, k, id);
    j >= 0 && Fails(nodes, j)
  }

  /** The first failed dependency from the d-th on, or how many dependencies there are. */
  function FirstFailed(nodes: seq<Node>, k: nat, d: nat): (e: nat)
    requires k < |nodes| && d <= |nodes[k].dependsOn|
    ensures d <= e <= |nodes[k].dependsOn|
    decreases k, 1, |nodes[k].dependsOn| - d
  {
    if d == |nodes[k].dependsOn| || DependencyFails(nodes, k, nodes[k].dependsOn[d]) then d
    else FirstFailed(nodes, k, d + 1)
  }

  /** A node fails when a known dependency has failed or its operation is not wired. */
  predicate Fails(nodes: seq<Node>, k: nat)
    requires k < |nodes|
    decreases k, 2, 0
  {
    FirstFailed(nodes, k, 0) < |nodes[k].dependsOn| || nodes[k].operation.Unwired()
  }

  function Own(node: Node): Outcome {
    if node.operation.Unwired() then NotWired(node.operation) else Completed(node.input)
  }

  /** The first failed dependency is the one reported, before the operation is looked at. */
  function ResultAt(nodes: seq<Node>, k: nat): (r: Result)
    requires k < |nodes|
  {
    var e := FirstFailed(nodes, k, 0);
    Result(nodes[k].id, if e < |nodes[k].dependsOn| then DependencyFailed(nodes[k].dependsOn[e]) else Own(nodes[k]))
  }

  function Sequential(nodes: seq<Node>): seq<Result> {
    seq(|nodes|, k requires 0 <= k < |nodes| => ResultAt(nodes, k))
  }

  /** In parallel no node ever sees another one's result. */
  function Parallel(nodes: seq<Node>): seq<Result> {
    seq(|nodes|, k requires 0 <= k < |nodes| => Result(nodes[k].id, Own(nodes[k])))
  }

  predicate AnyFailed(results: seq<Result>) {
    exists k :: 0 <= k < |results| && results[k].Failed()
  }

  // ---- the executor ----

  /** What the executor knows about the nodes before k: for every id the result of the last one. */
  ghost predicate Knows(results: map<string, Result>, nodes: seq<Node>, k: nat)
    requires k <= |nodes|
  {
    forall id: string ::
      var j := LastBefore(nodes, k, id);
      (id in results <==> j >= 0) && (j >= 0 ==> results[id] == ResultAt(nodes, j))
  }

  lemma {:induction false} KnowsFailure(results: map<string, Result>, nodes: seq<Node>, k: nat, id: string)
    requires k < |nodes| && Knows(results, nodes, k)
    ensures DependencyFails(nodes, k, id) <==> KnownFailed(results, id)
  {
    var j := LastBefore(nodes, k, id);
    if j >= 0 { ResultFails(nodes, j); }
    hide ResultAt, Fails;
  }

  lemma {:induction false} ResultFails(nodes: seq<Node>, k: nat)
    requires k < |nodes|
    ensures ResultAt(nodes, k).Failed() <==> Fails(nodes, k)
  {
    hide FirstFailed;
  }

  lemma {:induction false} KnowsMore(results: map<string, Result>, nodes: seq<Node>, k: nat)
    requires k < |nodes| && Knows(results, nodes, k)
    ensures Knows(results[nodes[k].id := ResultAt(nodes, k)], nodes, k + 1)
  {
    hide ResultAt;
  }

  /** The id is among the results, and its result is a failure. */
  predicate KnownFailed(results: map<string, Result>, id: string) { id in results && results[id].Failed() }

  /** The e-th dependency has this id, is known to have failed, and is the first such. */
  predicate Reported(node: Node, results: map<string, Result>, e: int, id: string) {
    && 0 <= e < |node.dependsOn| && id == node.dependsOn[e] && KnownFailed(results, id)
    && forall d :: 0 <= d < e ==> !KnownFailed(results, node.dependsOn[d])
  }

  /** `execute_node`, given the results so far: the first dependency known to have failed is reported, and without
      one the operation decides. */
  method ExecuteNode(node: Node, results: map<string, Result>) returns (r: Result)
    ensures r.id == node.id
    ensures r.outcome.DependencyFailed? ==> exists e :: Reported(node, results, e, r.outcome.dependency)
    ensures !r.outcome.DependencyFailed? ==>
      r.outcome == Own(node) && forall d :: 0 <= d < |node.dependsOn| ==> !KnownFailed(results, node.dependsOn[d])
  {
    for d := 0 to |node.dependsOn|
      invariant forall c :: 0 <= c < d ==> !KnownFailed(results, node.dependsOn[c])
    {
      if KnownFailed(results, node.dependsOn[d]) {
        assert Reported(node, results, d, node.dependsOn[d]);
        return Result(node.id, DependencyFailed(node.dependsOn[d]));
      }
    }
    r := Result(node.id, Own(node));
  }

  lemma {:induction false} FirstFailedIs(nodes: seq<Node>, k: nat, d: nat, e: nat)
    requires k < |nodes| && d <= e <= |nodes[k].dependsOn|
    requires forall c :: d <= c < e ==> !DependencyFails(nodes, k, nodes[k].dependsOn[c])
    requires e < |nodes[k].dependsOn| ==> DependencyFails(nodes, k, nodes[k].dependsOn[e])
    ensures FirstFailed(nodes, k, d) == e
    decreases e - d
  {
    hide DependencyFails;
    if d < e { FirstFailedIs(nodes, k, d + 1, e); }
  }

  /** `execute_dag` */
  method ExecuteDag(nodes: seq<Node>, parallel: bool) returns (results: seq<Result>, failed: bool)
    ensures results == if parallel then Parallel(nodes) else Sequential(nodes)
    ensures failed <==> AnyFailed(results)
  {
    results := [];
    var known: map<string, Result> := map[];
    failed := false;
    assert Knows(known, nodes, 0);
    hide Knows, ResultAt, Own, DependencyFails;
    for k := 0 to |nodes|
      invariant |results| == k && Knows(known, nodes, if parallel then 0 else k) && (parallel ==> known == map[])
      invariant forall i :: 0 <= i < k ==>
        results[i] == if parallel then Result(nodes[i].id, Own(nodes[i])) else ResultAt(nodes, i)
      invariant failed <==> AnyFailed(results)
    {
      var r := ExecuteNode(nodes[k], known);
      if !parallel {
        NodeResult(nodes, k, known, r);
        KnowsMore(known, nodes, k);
        known := known[nodes[k].id := r];
      }
      FailedGrows(results, r);
      results := results + [r];
      failed := failed || r.Failed();
    }
  }

  lemma {:induction false} ResultIs(nodes: seq<Node>, k: nat, e: nat)
    requires k < |nodes| && e == FirstFailed(nodes, k, 0)
    ensures ResultAt(nodes, k) ==
      Result(nodes[k].id, if e < |nodes[k].dependsOn| then DependencyFailed(nodes[k].dependsOn[e]) else Own(nodes[k]))
  {
    hide FirstFailed, Own;
  }

  /** What `ExecuteNode` promises is the specified result. */
  lemma {:induction false} NodeResult(nodes: seq<Node>, k: nat, results: map<string, Result>, r: Result)
    requires k < |nodes| && Knows(results, nodes, k) && r.id == nodes[k].id
    requires r.outcome.DependencyFailed? ==> exists e :: Reported(nodes[k], results, e, r.outcome.dependency)
    requires var node := nodes[k];
      !r.outcome.DependencyFailed? ==>
        r.outcome == Own(node) && forall d :: 0 <= d < |node.dependsOn| ==> !KnownFailed(results, node.dependsOn[d])
    ensures r == ResultAt(nodes, k)
  {
    var ids := nodes[k].dependsOn;
    hide Knows, KnownFailed, DependencyFails, ResultAt, Own;
    forall c | 0 <= c < |ids| ensures DependencyFails(nodes, k, ids[c]) <==> KnownFailed(results, ids[c]) {
      KnowsFailure(results, nodes, k, ids[c]);
    }
    var e: int := |ids|;
    if r.outcome.DependencyFailed? {
      e :| Reported(nodes[k], results, e, r.outcome.dependency);
    }
    FirstFailedIs(nodes, k, 0, e);
    ResultIs(nodes, k, e);
  }

  lemma {:induction false} FailedGrows(results: seq<Result>, r: Result)
    ensures AnyFailed(results + [r]) <==> AnyFailed(results) || r.Failed()
  {
    var more := results + [r];
    if AnyFailed(results) {
      var k :| 0 <= k < |results| && results[k].Failed();
      assert more[k].Failed();
    }
    if r.Failed() { assert more[|results|].Failed(); }
  }

  // ---- failure is reachability ----

  /** Node k depends on node j: j is the last node before k with an id that k names. */
  predicate DependsOn(nodes: seq<Node>, k: int, j: int) {
    0 <= j < k < |nodes| && nodes[j].id in nodes[k].dependsOn && forall i :: j < i < k ==> nodes[i].id != nodes[j].id
  }

  /** A chain of dependencies from node k to a node whose operation is not wired; it may consist of k alone. */
  predicate LeadsToUnwired(nodes: seq<Node>, k: int, chain: seq<int>) {
    && chain != [] && chain[0] == k
    && (forall i :: 0 <= i < |chain| ==> 0 <= chain[i] < |nodes|)
    && (forall i :: 0 <= i < |chain| - 1 ==> DependsOn(nodes, chain[i], chain[i + 1]))
    && nodes[chain[|chain| - 1]].operation.Unwired()
  }

  lemma {:induction false} FailsByDependency(nodes: seq<Node>, k: nat)
    requires k < |nodes|
    ensures Fails(nodes, k) <==>
      nodes[k].operation.Unwired() || exists j: nat :: DependsOn(nodes, k, j) && Fails(nodes, j)
  {
    var e := FirstFailed(nodes, k, 0);
    FirstFailedFails(nodes, k, 0);
    if e < |nodes[k].dependsOn| {
      var j := LastBefore(nodes, k, nodes[k].dependsOn[e]);
      assert DependsOn(nodes, k, j) && Fails(nodes, j);
    }
    hide FirstFailed;
    if j: nat :| DependsOn(nodes, k, j) && Fails(nodes, j) {
      var d :| 0 <= d < |nodes[k].dependsOn| && nodes[k].dependsOn[d] == nodes[j].id;
      assert LastBefore(nodes, k, nodes[j].id) == j;
      assert DependencyFails(nodes, k, nodes[k].dependsOn[d]);
    }
  }

  lemma {:induction false} FirstFailedFails(nodes: seq<Node>, k: nat, d: nat)
    requires k < |nodes| && d <= |nodes[k].dependsOn|
    ensures var e := FirstFailed(nodes, k, d);
      (e < |nodes[k].dependsOn| ==> DependencyFails(nodes, k, nodes[k].dependsOn[e]))
      && forall c :: d <= c < e ==> !DependencyFails(nodes, k, nodes[k].dependsOn[c])
    decreases |nodes[k].dependsOn| - d
  {
    hide DependencyFails;
    if d < |nodes[k].dependsOn| && !DependencyFails(nodes, k, nodes[k].dependsOn[d]) {
      FirstFailedFails(nodes, k, d + 1);
    }
  }

  lemma {:induction false} FailureHasChain(nodes: seq<Node>, k: nat) returns (chain: seq<int>)
    requires k < |nodes| && Fails(nodes, k)
    ensures LeadsToUnwired(nodes, k, chain)
    decreases k
  {
    FailsByDependency(nodes, k);
    hide Fails;
    if nodes[k].operation.Unwired() {
      chain := [k];
    } else {
      var j: nat :| DependsOn(nodes, k, j) && Fails(nodes, j);
      var rest := FailureHasChain(nodes, j);
      chain := [k] + rest;
      forall i | 0 <= i < |chain| - 1 ensures DependsOn(nodes, chain[i], chain[i + 1]) {
        if i > 0 { assert chain[i] == rest[i - 1] && chain[i + 1] == rest[i]; }
      }
    }
  }

  lemma {:induction false} ChainFails(nodes: seq<Node>, k: nat, chain: seq<int>)
    requires k < |nodes| && LeadsToUnwired(nodes, k, chain)
    ensures Fails(nodes, k)
    decreases |chain|
  {
    FailsByDependency(nodes, k);
    hide Fails;
    if |chain| > 1 {
      var rest := chain[1..];
      assert DependsOn(nodes, chain[0], chain[1]);
      forall i | 0 <= i < |rest| - 1 ensures DependsOn(nodes, rest[i], rest[i + 1]) {
        assert rest[i] == chain[i + 1] && rest[i + 1] == chain[i + 2];
      }
      ChainFails(nodes, chain[1], rest);
    }
  }

  /** One after the other, a node fails if and only if some chain of dependencies on earlier nodes leads from it
      to an operation that is not wired. */
  lemma {:induction false} FailsIffReachable(nodes: seq<Node>, k: nat)
    requires k < |nodes|
    ensures Sequential(nodes)[k].Failed() <==> exists chain :: LeadsToUnwired(nodes, k, chain)
  {
    ResultFails(nodes, k);
    hide Fails, ResultAt, LeadsToUnwired;
    if Fails(nodes, k) { var chain := FailureHasChain(nodes, k); }
    if chain :| LeadsToUnwired(nodes, k, chain) { ChainFails(nodes, k, chain); }
  }

  /** With distinct ids the dependencies are simply the earlier nodes that are named. */
  lemma {:induction false} DistinctDependencies(nodes: seq<Node>, k: nat, j: nat)
    requires forall a, b :: 0 <= a < b < |nodes| ==> nodes[a].id != nodes[b].id
    ensures DependsOn(nodes, k, j) <==> j < k < |nodes| && nodes[j].id in nodes[k].dependsOn
  {}

  /** What fails in parallel fails one after the other too, and the whole fails in both modes or in neither. */
  lemma {:induction false} ModesAgreeOverall(nodes: seq<Node>)
    ensures forall k :: 0 <= k < |nodes| ==> (Parallel(nodes)[k].Failed() ==> Sequential(nodes)[k].Failed())
    ensures AnyFailed(Parallel(nodes)) <==> AnyFailed(Sequential(nodes))
  {
    forall k | 0 <= k < |nodes| ensures Sequential(nodes)[k].Failed() <==> Fails(nodes, k) {
      ResultFails(nodes, k);
      hide Fails, ResultAt;
    }
    forall k | 0 <= k < |nodes| && nodes[k].operation.Unwired() ensures Fails(nodes, k) {
      hide FirstFailed;
    }
    hide Fails, ResultAt;
    if AnyFailed(Parallel(nodes)) {
      var k :| 0 <= k < |nodes| && Parallel(nodes)[k].Failed();
      assert Sequential(nodes)[k].Failed();
    }
    if AnyFailed(Sequential(nodes)) {
      var k :| 0 <= k < |nodes| && Sequential(nodes)[k].Failed();
      var chain := FailureHasChain(nodes, k);
      assert Parallel(nodes)[chain[|chain| - 1]].Failed();
    }
  }

  /** Where the two modes agree: in the whole result exactly at the nodes that are not behind an unwired operation,
      and in whether the node failed also at those whose own operation is not wired. */
  lemma {:induction false} ModesAgreeAt(nodes: seq<Node>, k: nat)
    requires k < |nodes|
    ensures (Parallel(nodes)[k].Failed() == Sequential(nodes)[k].Failed())
        <==> (nodes[k].operation.Unwired() || !BehindUnwired(nodes, k))
    ensures Parallel(nodes)[k] == Sequential(nodes)[k] <==> !BehindUnwired(nodes, k)
  {
    ResultFails(nodes, k);
    FailsByDependency(nodes, k);
    BehindIsDependency(nodes, k);
    FirstFailedFails(nodes, k, 0);
    var e := FirstFailed(nodes, k, 0);
    ResultIs(nodes, k, e);
    if e < |nodes[k].dependsOn| {
      var j := LastBefore(nodes, k, nodes[k].dependsOn[e]);
      assert DependsOn(nodes, k, j) && Fails(nodes, j);
    }
    hide FirstFailed, ResultAt, Fails, BehindUnwired, LastBefore;
    if j: nat :| DependsOn(nodes, k, j) && Fails(nodes, j) {
      var d :| 0 <= d < |nodes[k].dependsOn| && nodes[k].dependsOn[d] == nodes[j].id;
      LastIs(nodes, k, j);
      assert DependencyFails(nodes, k, nodes[k].dependsOn[d]);
      assert e < |nodes[k].dependsOn|;
    }
  }

  /** A chain of dependencies leads from the node through at least one other to an operation that is not wired. */
  ghost predicate BehindUnwired(nodes: seq<Node>, k: int) {
    exists chain: seq<int> :: |chain| > 1 && LeadsToUnwired(nodes, k, chain)
  }

  lemma {:induction false} LastIs(nodes: seq<Node>, k: nat, j: nat)
    requires DependsOn(nodes, k, j)
    ensures LastBefore(nodes, k, nodes[j].id) == j
  {}

  lemma {:induction false} BehindIsDependency(nodes: seq<Node>, k: nat)
    requires k < |nodes|
    ensures BehindUnwired(nodes, k) <==> exists j: nat :: DependsOn(nodes, k, j) && Fails(nodes, j)
  {
    hide Fails;
    if BehindUnwired(nodes, k) {
      var chain: seq<int> :| |chain| > 1 && LeadsToUnwired(nodes, k, chain);
      var rest := chain[1..];
      assert DependsOn(nodes, chain[0], chain[1]);
      forall i | 0 <= i < |rest| - 1 ensures DependsOn(nodes, rest[i], rest[i + 1]) {
        assert rest[i] == chain[i + 1] && rest[i + 1] == chain[i + 2];
      }
      assert LeadsToUnwired(nodes, chain[1], rest);
      ChainFails(nodes, chain[1], rest);
    }
    if j: nat :| DependsOn(nodes, k, j) && Fails(nodes, j) {
      var rest := FailureHasChain(nodes, j);
      var chain := [k] + rest;
      forall i | 0 <= i < |chain| - 1 ensures DependsOn(nodes, chain[i], chain[i + 1]) {
        if i > 0 { assert chain[i] == rest[i - 1] && chain[i + 1] == rest[i]; }
      }
      assert LeadsToUnwired(nodes, k, chain);
    }
  }

  /** The modes do not agree node by node: a wired node that names an unwired one fails only one after the other. */
  lemma {:induction false} ModesDiffer(a: Node, b: Node)
    requires a.operation.Unwired() && !b.operation.Unwired() && a.id in b.dependsOn
    ensures Sequential([a, b])[1].Failed() && !Parallel([a, b])[1].Failed()
  {
    var nodes := [a, b];
    assert DependsOn(nodes, 1, 0);
    assert LeadsToUnwired(nodes, 1, [1, 0]);
    FailsIffReachable(nodes, 1);
    hide ResultAt;
  }
}
