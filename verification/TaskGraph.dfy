/** The task graph of agent/task_graph.py and its layering by repeated removal of ready tasks. */
module AgentGraph {
  import opened Wrappers

  /** A task id; `rank` is its place in the order of the id strings. */
  datatype Id = Id(rank: int)

  type Deps = map<Id, set<Id>>

  datatype Role = Market | Research | Technical | Factor | Portfolio | Risk | Review | Supervisor

  datatype AgentTask = AgentTask(id: Id, role: Role, toolBudget: nat, tokenBudget: nat)

  datatype GraphError = DuplicateTask | UnknownDependency | GraphCycle

  datatype Layering = Layers(layers: seq<set<Id>>) | Cyclic

  function Ready(deps: Deps): set<Id> { set k | k in deps && deps[k] == {} }

  /** Take the ready tasks out, and out of everyone's dependencies. */
  function Strip(deps: Deps, ready: set<Id>): Deps { map k | k in deps && k !in ready :: deps[k] - ready }

  lemma StripShrinks(deps: Deps)
    requires Ready(deps) != {}
    ensures |Strip(deps, Ready(deps)).Keys| < |deps.Keys|
  {
    assert Strip(deps, Ready(deps)).Keys == deps.Keys - Ready(deps);
    var k :| k in Ready(deps);
    assert k in deps.Keys;
    Cardinality(deps.Keys - Ready(deps), deps.Keys);
  }

  lemma {:induction false} Cardinality(a: set<Id>, b: set<Id>)
    requires a < b
    ensures |a| < |b|
  {
    var x :| x in b && x !in a;
    if a != {} {
      var y :| y in a;
      Cardinality(a - {y}, b - {y});
    }
  }

  function Layer(deps: Deps): Layering
    decreases |deps.Keys|
  {
    if deps == map[] then Layers([])
    else if Ready(deps) == {} then Cyclic
    else
      StripShrinks(deps);
      match Layer(Strip(deps, Ready(deps)))
      case Cyclic => Cyclic
      case Layers(rest) => Layers([Ready(deps)] + rest)
  }

  // ---- When layering fails ------------------------------------------------------------

  /** Each entry depends on the next one. */
  ghost predicate IsChain(deps: Deps, c: seq<Id>) {
    && c != [] && c[0] in deps
    && forall k :: 0 <= k < |c| - 1 ==> c[k] in deps && c[k + 1] in deps[c[k]]
  }

  ghost predicate IsCycle(deps: Deps, c: seq<Id>) {
    IsChain(deps, c) && |c| >= 2 && c[0] == c[|c| - 1]
  }

  ghost predicate IsDangling(deps: Deps, id: Id, d: Id) {
    id in deps && d in deps[id] && d !in deps
  }

  ghost predicate Broken(deps: Deps) {
    (exists c :: IsCycle(deps, c)) || (exists id, d :: IsDangling(deps, id, d))
  }

  /** A nonempty set whose members all wait for each other, or for nobody, never becomes ready. */
  lemma {:induction false} WaitersNeverReady(deps: Deps, waiting: set<Id>)
    requires waiting != {} && waiting <= deps.Keys
    requires forall x :: x in waiting ==> exists d :: d in deps[x] && (d in waiting || d !in deps)
    ensures Layer(deps) == Cyclic
    decreases |deps.Keys|
  {
    if Ready(deps) != {} {
      StripShrinks(deps);
      var next := Strip(deps, Ready(deps));
      forall x | x in waiting ensures x in next && exists d :: d in next[x] && (d in waiting || d !in next) {
        var d :| d in deps[x] && (d in waiting || d !in deps);
        assert d in next[x];
      }
      WaitersNeverReady(next, waiting);
    }
  }

  /** Follow dependencies for `n` steps. */
  lemma {:induction false} LongWalk(deps: Deps, x: Id, n: nat) returns (w: seq<Id>)
    requires x in deps
    requires forall k :: k in deps ==> deps[k] != {} && deps[k] <= deps.Keys
    ensures |w| == n + 1 && w[0] == x && IsChain(deps, w) && forall k :: 0 <= k < |w| ==> w[k] in deps
    decreases n
  {
    if n == 0 {
      w := [x];
    } else {
      var d :| d in deps[x];
      var rest := LongWalk(deps, d, n - 1);
      w := [x] + rest;
    }
  }

  lemma {:induction false} DistinctCount(w: seq<Id>)
    requires forall j, k :: 0 <= j < k < |w| ==> w[j] != w[k]
    ensures |set x | x in w| == |w|
  {
    if w != [] {
      var n := |w| - 1;
      DistinctCount(w[..n]);
      assert (set x | x in w) == (set x | x in w[..n]) + {w[n]};
    }
  }

  lemma {:induction false} SubsetCount(a: set<Id>, b: set<Id>)
    requires a <= b
    ensures |a| <= |b|
  {
    if a != b {
      Cardinality(a, b);
    }
  }

  /** A walk longer than the graph repeats a task: a cycle. */
  lemma WalkHasCycle(deps: Deps, x: Id) returns (c: seq<Id>)
    requires x in deps
    requires forall k :: k in deps ==> deps[k] != {} && deps[k] <= deps.Keys
    ensures IsCycle(deps, c)
  {
    var w := LongWalk(deps, x, |deps.Keys|);
    if forall j, k :: 0 <= j < k < |w| ==> w[j] != w[k] {
      DistinctCount(w);
      SubsetCount((set x | x in w), deps.Keys);
      assert false;
    }
    var j, k :| 0 <= j < k < |w| && w[j] == w[k];
    c := w[j..k + 1];
  }

  /** Layering fails exactly when there is a cycle or an edge to an unregistered task. */
  lemma {:induction false} CyclicIffBroken(deps: Deps)
    ensures Layer(deps) == Cyclic <==> Broken(deps)
    decreases |deps.Keys|
  {
    if c :| IsCycle(deps, c) {
      var waiting := set k | 0 <= k < |c| :: c[k];
      forall x | x in waiting ensures x in deps && exists d :: d in deps[x] && d in waiting {
        var k :| 0 <= k < |c| && c[k] == x;
        var next := if k == |c| - 1 then c[1] else c[k + 1];
        assert next in deps[x] && next in waiting;
      }
      assert c[0] in waiting;
      WaitersNeverReady(deps, waiting);
    } else if id, d :| IsDangling(deps, id, d) {
      WaitersNeverReady(deps, {id});
    } else if deps != map[] {
      if Ready(deps) == {} {
        var x :| x in deps;
        forall k | k in deps ensures deps[k] != {} && deps[k] <= deps.Keys {
          assert k !in Ready(deps);
          forall d | d in deps[k] ensures d in deps.Keys {
            assert !IsDangling(deps, k, d);
          }
        }
        var c := WalkHasCycle(deps, x);
        assert false;
      } else {
        StripShrinks(deps);
        var next := Strip(deps, Ready(deps));
        CyclicIffBroken(next);
        if c :| IsCycle(next, c) {
          assert IsCycle(deps, c);
          assert false;
        }
        if id, d :| IsDangling(next, id, d) {
          assert IsDangling(deps, id, d);
          assert false;
        }
      }
    }
  }

  // ---- What the layers are -------------------------------------------------------------

  ghost predicate Covers(layers: seq<set<Id>>, x: Id) { exists k :: 0 <= k < |layers| && x in layers[k] }

  ghost predicate Disjoint(layers: seq<set<Id>>) {
    forall j, k :: 0 <= j < k < |layers| ==> layers[j] !! layers[k]
  }

  ghost predicate Partitions(layers: seq<set<Id>>, ids: set<Id>) {
    && Disjoint(layers)
    && (forall k :: 0 <= k < |layers| ==> layers[k] != {})
    && (forall x :: x in ids <==> Covers(layers, x))
  }

  lemma CoversCons(ready: set<Id>, rest: seq<set<Id>>, x: Id)
    ensures Covers([ready] + rest, x) <==> x in ready || Covers(rest, x)
  {
    var layers := [ready] + rest;
    if x in ready {
      assert x in layers[0];
    }
    if k :| 0 <= k < |rest| && x in rest[k] {
      assert x in layers[k + 1];
    }
  }

  lemma DisjointCons(ready: set<Id>, rest: seq<set<Id>>)
    requires Disjoint(rest) && forall k :: 0 <= k < |rest| ==> ready !! rest[k]
    ensures Disjoint([ready] + rest)
  {
  }

  lemma PartitionCons(ready: set<Id>, rest: seq<set<Id>>, ids: set<Id>)
    requires ready != {} && ready <= ids && Partitions(rest, ids - ready)
    ensures Partitions([ready] + rest, ids)
  {
    forall k | 0 <= k < |rest| ensures ready !! rest[k] {
      forall x | x in rest[k] ensures x !in ready {
        assert Covers(rest, x);
      }
    }
    hide Covers, Disjoint;
    DisjointCons(ready, rest);
    forall x ensures x in ids <==> Covers([ready] + rest, x) {
      CoversCons(ready, rest, x);
    }
  }

  /** The layers are nonempty, disjoint and cover every task. */
  lemma {:induction false} LayersPartition(deps: Deps)
    requires Layer(deps).Layers?
    ensures Partitions(Layer(deps).layers, deps.Keys)
    decreases |deps.Keys|
  {
    if deps != map[] {
      hide Partitions;
      StripShrinks(deps);
      var ready := Ready(deps);
      var next := Strip(deps, ready);
      LayersPartition(next);
      assert next.Keys == deps.Keys - ready;
      PartitionCons(ready, Layer(next).layers, deps.Keys);
    }
  }

  /** A task's layer is the number of dependencies on its longest chain. */
  lemma {:induction false} LayerIsLongestChain(deps: Deps, k: nat, id: Id)
    requires Layer(deps).Layers? && k < |Layer(deps).layers| && id in Layer(deps).layers[k]
    ensures exists c :: IsChain(deps, c) && c[0] == id && |c| == k + 1
    ensures forall c :: IsChain(deps, c) && c[0] == id ==> |c| <= k + 1
    decreases |deps.Keys|
  {
    StripShrinks(deps);
    var ready := Ready(deps);
    var next := Strip(deps, ready);
    if k == 0 {
      assert IsChain(deps, [id]);
      forall c | IsChain(deps, c) && |c| > 1 ensures deps[c[0]] != {} {
        assert c[1] in deps[c[0]];
      }
    } else {
      LayerIsLongestChain(next, k - 1, id);
      var c :| IsChain(next, c) && c[0] == id && |c| == k;
      ChainStaysInside(next, c);
      var d :| d in deps[c[k - 1]];
      assert IsChain(deps, c + [d]);
      forall c | IsChain(deps, c) && c[0] == id ensures |c| <= k + 1 {
        if |c| > 1 {
          StripKeepsChain(deps, c);
        }
      }
    }
  }

  /** In a layered graph every chain ends in a registered task. */
  lemma ChainStaysInside(deps: Deps, c: seq<Id>)
    requires Layer(deps).Layers? && IsChain(deps, c)
    ensures c[|c| - 1] in deps
  {
    CyclicIffBroken(deps);
    var n := |c| - 1;
    if n > 0 {
      assert c[n - 1 + 1] in deps[c[n - 1]];
      assert !IsDangling(deps, c[n - 1], c[n]);
    }
  }

  /** Everything but the end of a chain has dependencies, so it survives the removal of the ready tasks. */
  lemma StripKeepsChain(deps: Deps, c: seq<Id>)
    requires IsChain(deps, c) && |c| > 1
    ensures IsChain(Strip(deps, Ready(deps)), c[..|c| - 1])
  {
    var next := Strip(deps, Ready(deps));
    forall k | 0 <= k < |c| - 1 ensures c[k] in next {
      assert c[k + 1] in deps[c[k]];
    }
    var p := c[..|c| - 1];
    forall k | 0 <= k < |p| - 1 ensures p[k] in next && p[k + 1] in next[p[k]] {
      assert c[k + 1] in deps[c[k]];
    }
  }

  /** A dependency always sits in a strictly earlier layer. */
  lemma {:induction false} DependenciesComeEarlier(deps: Deps, j: nat, k: nat, id: Id, d: Id)
    requires Layer(deps).Layers? && k < |Layer(deps).layers| && id in Layer(deps).layers[k]
    requires j < |Layer(deps).layers| && d in Layer(deps).layers[j] && id in deps && d in deps[id]
    ensures j < k
  {
    LayerIsLongestChain(deps, k, id);
    LayerIsLongestChain(deps, j, d);
    var c :| IsChain(deps, c) && c[0] == d && |c| == j + 1;
    var longer := [id] + c;
    assert IsChain(deps, longer);
  }

  // ---- The mutable graph ---------------------------------------------------------------

  datatype Graph = Graph(tasks: map<Id, AgentTask>, deps: Deps)

  datatype AddResult = AddResult(graph: Graph, error: Option<GraphError>)

  /** Register the task first, then check its dependencies, then the layering of what results. */
  function Add(g: Graph, task: AgentTask, dependsOn: set<Id>): AddResult {
    if task.id in g.tasks then AddResult(g, Some(DuplicateTask))
    else
      var tasks := g.tasks[task.id := task];
      if !(dependsOn <= tasks.Keys) then AddResult(Graph(tasks, g.deps), Some(UnknownDependency))
      else
        var deps := g.deps[task.id := dependsOn];
        AddResult(Graph(tasks, deps), if Layer(deps).Cyclic? then Some(GraphCycle) else None)
  }

  /** What successful additions maintain. */
  ghost predicate WellBuilt(g: Graph) {
    && g.tasks.Keys == g.deps.Keys
    && (forall k :: k in g.tasks ==> g.tasks[k].id == k)
    && !Broken(g.deps)
  }

  /** On a well-built graph an addition succeeds exactly for a fresh id with registered dependencies. */
  lemma AddSucceedsIff(g: Graph, task: AgentTask, dependsOn: set<Id>)
    requires WellBuilt(g)
    ensures Add(g, task, dependsOn).error.None? <==> task.id !in g.tasks && dependsOn <= g.tasks.Keys
    ensures Add(g, task, dependsOn).error.None? ==> WellBuilt(Add(g, task, dependsOn).graph)
  {
    var deps := g.deps[task.id := dependsOn];
    CyclicIffBroken(deps);
    if task.id !in g.tasks && dependsOn <= g.tasks.Keys {
      forall k | k in g.deps ensures task.id !in g.deps[k] {
        assert !IsDangling(g.deps, k, task.id);
      }
      if c :| IsCycle(deps, c) {
        OldCycle(g.deps, task.id, dependsOn, c);
      }
      if id, d :| IsDangling(deps, id, d) {
        assert IsDangling(g.deps, id, d);
      }
    } else if task.id !in g.tasks && dependsOn <= g.tasks.Keys + {task.id} {
      assert IsCycle(deps, [task.id, task.id]);
    }
  }

  /** Nothing registered earlier depends on the new task, so a cycle would be an old one. */
  lemma OldCycle(deps: Deps, id: Id, dependsOn: set<Id>, c: seq<Id>)
    requires id !in deps && dependsOn <= deps.Keys && forall k :: k in deps ==> id !in deps[k]
    requires IsCycle(deps[id := dependsOn], c)
    ensures IsCycle(deps, c)
  {
    var all := deps[id := dependsOn];
    forall k | 1 <= k < |c| ensures c[k] != id {
      assert c[k - 1 + 1] in all[c[k - 1]];
    }
  }

  /**
   * A graph stays well built exactly when the task is a duplicate or all its dependencies were registered before it.
   */
  lemma AdditionKeepsWellBuiltIff(g: Graph, task: AgentTask, dependsOn: set<Id>)
    requires WellBuilt(g)
    ensures WellBuilt(Add(g, task, dependsOn).graph) <==> task.id in g.tasks || dependsOn <= g.tasks.Keys
  {
    AddSucceedsIff(g, task, dependsOn);
    if task.id !in g.tasks && !(dependsOn <= g.tasks.Keys) {
      var after := Add(g, task, dependsOn).graph;
      assert task.id in after.tasks;
      if dependsOn <= g.tasks.Keys + {task.id} {
        assert IsCycle(after.deps, [task.id, task.id]);
      }
    }
  }

  /**
   * After an unknown dependency was refused its task stays registered without an entry: it can never be added
   * again, and exactly the fresh tasks that depend on the earlier ones alone can still be added.
   */
  lemma RefusedTaskPoisonsGraph(g: Graph, task: AgentTask, dependsOn: set<Id>, later: AgentTask, needs: set<Id>)
    requires WellBuilt(g) && Add(g, task, dependsOn).error == Some(UnknownDependency)
    ensures var poisoned := Add(g, task, dependsOn).graph;
            && (Add(poisoned, later, needs).error.None? <==>
                  later.id !in g.tasks && later.id != task.id && needs <= g.tasks.Keys)
            && Add(poisoned, task, needs).error == Some(DuplicateTask)
  {
    if later.id !in g.tasks && later.id != task.id {
      var deps := g.deps[later.id := needs];
      CyclicIffBroken(deps);
      if needs <= g.tasks.Keys {
        AddSucceedsIff(g, later, needs);
      } else if task.id in needs {
        assert IsDangling(deps, later.id, task.id);
      } else if needs <= g.tasks.Keys + {later.id} {
        assert IsCycle(deps, [later.id, later.id]);
      }
    }
  }

  /** A task that depends on itself passes the dependency test and is stored: every later addition is refused. */
  lemma SelfDependencyPoisonsGraph(g: Graph, task: AgentTask, dependsOn: set<Id>, later: AgentTask, needs: set<Id>)
    requires WellBuilt(g) && task.id !in g.tasks
    requires task.id in dependsOn && dependsOn <= g.tasks.Keys + {task.id}
    ensures Add(g, task, dependsOn).error == Some(GraphCycle)
    ensures Add(Add(g, task, dependsOn).graph, later, needs).error.Some?
  {
    var poisoned := Add(g, task, dependsOn).graph;
    CyclicIffBroken(poisoned.deps);
    assert IsCycle(poisoned.deps, [task.id, task.id]);
    if later.id !in poisoned.tasks {
      var deps := poisoned.deps[later.id := needs];
      CyclicIffBroken(deps);
      assert IsCycle(deps, [task.id, task.id]);
    }
  }

  ghost predicate IsListing(s: seq<Id>, ids: set<Id>) {
    && (forall j, k :: 0 <= j < k < |s| ==> s[j].rank < s[k].rank)
    && (forall x :: x in ids <==> x in s)
  }

  /** `sorted(...)` over a layer. */
  method SortIds(ids: set<Id>) returns (s: seq<Id>)
    ensures IsListing(s, ids)
  {
    s := [];
    var rest := ids;
    while rest != {}
      invariant rest <= ids && IsListing(s, ids - rest)
      decreases |rest|
    {
      var x :| x in rest;
      var n := 0;
      while n < |s| && s[n].rank < x.rank
        invariant 0 <= n <= |s| && forall k :: 0 <= k < n ==> s[k].rank < x.rank
      {
        n := n + 1;
      }
      ghost var before := s;
      s := s[..n] + [x] + s[n..];
      assert forall y :: y in s <==> y in before || y == x by {
        assert before == before[..n] + before[n..];
      }
      rest := rest - {x};
    }
  }

  /** The sorted listing of a set is unique. */
  lemma {:induction false} ListingUnique(a: seq<Id>, b: seq<Id>, ids: set<Id>)
    requires IsListing(a, ids) && IsListing(b, ids)
    ensures a == b
    decreases |a|
  {
    EmptyListing(a, ids);
    EmptyListing(b, ids);
    if a != [] {
      assert a[0] in ids;
      assert b[0] in ids;
      assert a[0] == b[0];
      var rest := ids - {a[0]};
      assert IsListing(a[1..], rest) by { Tail(a, ids); }
      assert IsListing(b[1..], rest) by { Tail(b, ids); }
      ListingUnique(a[1..], b[1..], rest);
      assert a == [a[0]] + a[1..] && b == [b[0]] + b[1..];
    }
  }

  lemma EmptyListing(s: seq<Id>, ids: set<Id>)
    requires IsListing(s, ids)
    ensures s == [] <==> ids == {}
  {
    if s != [] {
      assert s[0] in ids;
    }
  }

  lemma Tail(s: seq<Id>, ids: set<Id>)
    requires IsListing(s, ids) && s != []
    ensures IsListing(s[1..], ids - {s[0]})
  {
    forall x ensures x in ids - {s[0]} <==> x in s[1..] {
      assert x in s <==> x == s[0] || x in s[1..];
      if x in s[1..] {
        var k :| 1 <= k < |s| && s[k] == x;
      }
    }
  }

  class TaskGraph {
    var tasks: map<Id, AgentTask>
    var dependencies: Deps

    ghost function View(): Graph
      reads this
    {
      Graph(tasks, dependencies)
    }

    constructor ()
      ensures View() == Graph(map[], map[])
    {
      tasks, dependencies := map[], map[];
    }

    method AddTask(task: AgentTask, dependsOn: set<Id>) returns (error: Option<GraphError>)
      modifies this
      ensures AddResult(View(), error) == Add(old(View()), task, dependsOn)
    {
      if task.id in tasks {
        return Some(DuplicateTask);
      }
      tasks := tasks[task.id := task];
      if !(dependsOn <= tasks.Keys) {
        return Some(UnknownDependency);
      }
      dependencies := dependencies[task.id := dependsOn];
      var layers := TopologicalLayers();
      return if layers.None? then Some(GraphCycle) else None;
    }

    /** Repeatedly take out the tasks whose dependencies are all gone; `None` is the raised cycle error. */
    method TopologicalLayers() returns (layers: Option<seq<seq<Id>>>)
      ensures layers.None? <==> Layer(dependencies).Cyclic?
      ensures layers.Some? ==>
                var sets := Layer(dependencies).layers;
                |layers.value| == |sets| && forall k :: 0 <= k < |sets| ==> IsListing(layers.value[k], sets[k])
    {
      var remaining := dependencies;
      var found: seq<seq<Id>> := [];
      ghost var sets: seq<set<Id>> := [];
      while remaining != map[]
        invariant |found| == |sets| && forall k :: 0 <= k < |sets| ==> IsListing(found[k], sets[k])
        invariant Layer(dependencies) ==
                    match Layer(remaining) case Cyclic => Cyclic case Layers(rest) => Layers(sets + rest)
        decreases |remaining.Keys|
      {
        var ids := Ready(remaining);
        var ready := SortIds(ids);
        EmptyListing(ready, ids);
        if ready == [] {
          return None;
        }
        StripShrinks(remaining);
        found, sets := found + [ready], sets + [ids];
        remaining := Strip(remaining, ids);
        assert forall rest :: sets[..|sets| - 1] + ([ids] + rest) == sets + rest;
      }
      assert sets + [] == sets;
      return Some(found);
    }
  }
}
