/** The layered run of agent/supervisor.py: reserve, run, then commit or release, in any completion order. */
module Supervisors {
  import opened Wrappers
  import opened AgentGraph
  import opened SharedContexts

  datatype Event = Started(id: Id) | Settled(id: Id)

  datatype State = State(budget: Budget, statuses: map<Id, Status>)

  // ---- Order of events -----------------------------------------------------------------

  /** No task starts or settles twice, and each starts only after all its dependencies have settled. */
  ghost predicate Orderly(trace: seq<Event>, deps: Deps) {
    forall p :: 0 <= p < |trace| ==>
      && trace[p] !in trace[..p]
      && (trace[p].Started? ==>
            trace[p].id in deps && forall d :: d in deps[trace[p].id] ==> Settled(d) in trace[..p])
  }

  lemma OrderlyAppend(trace: seq<Event>, deps: Deps, e: Event)
    requires Orderly(trace, deps) && e !in trace
    requires e.Started? ==> e.id in deps && forall d :: d in deps[e.id] ==> Settled(d) in trace
    ensures Orderly(trace + [e], deps)
  {
    var all := trace + [e];
    forall p | 0 <= p < |all|
      ensures all[p] !in all[..p]
      ensures all[p].Started? ==> all[p].id in deps && forall d :: d in deps[all[p].id] ==> Settled(d) in all[..p]
    {
      assert all[..p] == trace[..p];
      if p == |trace| {
        assert trace[..p] == trace;
      }
    }
  }

  // ---- Completion order does not matter -------------------------------------------------

  /** Net effect of settling a task that stays within its reservation: the reservation becomes its usage. */
  function Net(s: State, task: AgentTask, o: Outcome): State {
    match o
    case Raised(budget) =>
      State(Charge(s.budget, 0 - task.toolBudget, 0 - task.tokenBudget),
            s.statuses[task.id := if budget then BudgetExhausted else Failed])
    case Returned(a) =>
      State(Charge(s.budget, a.tools - task.toolBudget, a.tokens - task.tokenBudget)
              .(artifacts := s.budget.artifacts[task.id := a]),
            s.statuses[task.id := a.status])
  }

  function Finish(s: State, open: seq<AgentTask>, run: AgentTask -> Outcome): State
    decreases |open|
  {
    if open == [] then s else Finish(Net(s, open[0], run(open[0])), open[1..], run)
  }

  ghost predicate DistinctIds(open: seq<AgentTask>) {
    forall j, k :: 0 <= j < k < |open| ==> open[j].id != open[k].id
  }

  lemma UpdatesCommute<T>(m: map<Id, T>, i: Id, x: T, j: Id, y: T)
    requires i != j
    ensures m[i := x][j := y] == m[j := y][i := x]
  {
  }

  lemma NetCommutes(s: State, a: AgentTask, b: AgentTask, o: Outcome, p: Outcome)
    requires a.id != b.id
    ensures Net(Net(s, a, o), b, p) == Net(Net(s, b, p), a, o)
  {
    var before := s.budget.artifacts;
    UpdatesCommute(s.statuses, a.id, Net(s, a, o).statuses[a.id], b.id, Net(s, b, p).statuses[b.id]);
    if o.Returned? && p.Returned? {
      UpdatesCommute(before, a.id, o.artifact, b.id, p.artifact);
    }
  }

  /** Settling any open future first leads to the same final state. */
  lemma {:induction false} FinishInAnyOrder(s: State, open: seq<AgentTask>, k: nat, run: AgentTask -> Outcome)
    requires k < |open| && DistinctIds(open)
    ensures Finish(Net(s, open[k], run(open[k])), Without(open, k), run) == Finish(s, open, run)
    decreases |open|
  {
    if k == 0 {
      assert Without(open, 0) == open[1..];
    } else {
      assert Without(open, k)[0] == open[0];
      assert Without(open, k)[1..] == Without(open[1..], k - 1);
      NetCommutes(s, open[k], open[0], run(open[k]), run(open[0]));
      FinishInAnyOrder(Net(s, open[0], run(open[0])), open[1..], k - 1, run);
    }
  }

  function ActualTools(open: seq<AgentTask>, run: AgentTask -> Outcome): int {
    if open == [] then 0
    else (match run(open[0]) case Returned(a) => a.tools case Raised(_) => 0) + ActualTools(open[1..], run)
  }

  function ActualTokens(open: seq<AgentTask>, run: AgentTask -> Outcome): int {
    if open == [] then 0
    else (match run(open[0]) case Returned(a) => a.tokens case Raised(_) => 0) + ActualTokens(open[1..], run)
  }

  /** Once every future is settled the reservations are gone and only actual usage remains. */
  lemma {:induction false} FinishLeavesActualUsage(s: State, open: seq<AgentTask>, run: AgentTask -> Outcome)
    ensures Finish(s, open, run).budget.tools == s.budget.tools - ReservedTools(open) + ActualTools(open, run)
    ensures Finish(s, open, run).budget.tokens == s.budget.tokens - ReservedTokens(open) + ActualTokens(open, run)
    ensures Finish(s, open, run).budget.maxTools == s.budget.maxTools &&
              Finish(s, open, run).budget.maxTokens == s.budget.maxTokens
    decreases |open|
  {
    if open != [] {
      FinishLeavesActualUsage(Net(s, open[0], run(open[0])), open[1..], run);
    }
  }

  // ---- The deterministic result of a layer ----------------------------------------------

  datatype Reserved = Reserved(state: State, open: seq<AgentTask>)

  /** Reserve in layer order; a rejected task is marked and skipped. */
  function ReserveAll(s: State, tasks: seq<AgentTask>): Reserved {
    if tasks == [] then Reserved(s, [])
    else
      var n := |tasks| - 1;
      var r := ReserveAll(s, tasks[..n]);
      var task := tasks[n];
      if Fits(r.state.budget, task.toolBudget, task.tokenBudget) then
        Reserved(r.state.(budget := Charge(r.state.budget, task.toolBudget, task.tokenBudget)), r.open + [task])
      else
        r.(state := r.state.(statuses := r.state.statuses[task.id := BudgetExhausted]))
  }

  function LayerResult(s: State, tasks: seq<AgentTask>, run: AgentTask -> Outcome): State {
    var r := ReserveAll(s, tasks);
    Finish(r.state, r.open, run)
  }

  function Select(tasks: map<Id, AgentTask>, ids: seq<Id>): seq<AgentTask>
    requires forall id :: id in ids ==> id in tasks
  {
    seq(|ids|, k requires 0 <= k < |ids| => tasks[ids[k]])
  }

  function Visible(artifacts: map<Id, Artifact>, deps: set<Id>): map<Id, Artifact> {
    map d | d in deps && d in artifacts :: artifacts[d]
  }

  /** Where a layer's futures started from and, for workers within their reservations, where they must end. */
  datatype Course = Course(past: seq<Event>, deps: Deps, artifacts: map<Id, Artifact>, statuses: map<Id, Status>,
                           ids: set<Id>, run: AgentTask -> Outcome, goal: State, lawful: bool)

  class Supervisor {
    const registered: set<Role>
    const specialist: (AgentTask, map<Id, Artifact>) -> Outcome
    /** Whether the repository accepts the artifact of a task. */
    const persists: Id -> bool

    constructor (registered: set<Role>, specialist: (AgentTask, map<Id, Artifact>) -> Outcome, persists: Id -> bool) {
      this.registered, this.specialist, this.persists := registered, specialist, persists;
    }

    /** The worker: a missing specialist or a foreign artifact is an exception. */
    function RunOne(task: AgentTask, visible: map<Id, Artifact>): (o: Outcome)
      ensures o.Returned? ==> o.artifact.id == task.id && o.artifact.role == task.role && task.role in registered
    {
      if task.role !in registered then Raised(false)
      else
        match specialist(task, visible)
        case Raised(budget) => Raised(budget)
        case Returned(a) => if a.role != task.role || a.id != task.id then Raised(false) else Returned(a)
    }

    /** The worker of each task of a layer, seeing the artifacts its dependencies recorded before the layer. */
    function Workers(artifacts: map<Id, Artifact>, deps: Deps): AgentTask -> Outcome {
      (task: AgentTask) => RunOne(task, Visible(artifacts, if task.id in deps then deps[task.id] else {}))
    }

    /** What a future delivers, if it is an artifact, stays within its task's reservation and persists. */
    ghost predicate OnBudget(task: AgentTask, o: Outcome) {
      o.Returned? ==> o.artifact.tools <= task.toolBudget && o.artifact.tokens <= task.tokenBudget && persists(task.id)
    }

    ghost predicate AllOnBudget(open: seq<AgentTask>, run: AgentTask -> Outcome) {
      forall k :: 0 <= k < |open| ==> OnBudget(open[k], run(open[k]))
    }

    lemma RestOnBudget(open: seq<AgentTask>, k: nat, run: AgentTask -> Outcome)
      requires k < |open| && AllOnBudget(open, run)
      ensures OnBudget(open[k], run(open[k])) && AllOnBudget(Without(open, k), run)
    {
    }

    /** The failed tasks so far: settled, but not both recorded and persisted. */
    ghost predicate FailuresOk(failures: seq<Id>, artifacts: map<Id, Artifact>, settled: set<Id>) {
      && NoRepeats(failures)
      && forall id :: id in failures <==> id in settled && !(id in artifacts && persists(id))
    }

    lemma FailuresStep(failures: seq<Id>, before: map<Id, Artifact>, after: map<Id, Artifact>, settled: set<Id>,
                       id: Id, failed: bool)
      requires FailuresOk(failures, before, settled) && id !in settled
      requires after == before || (id in after && after == before[id := after[id]])
      requires failed <==> !(id in after && persists(id))
      ensures FailuresOk(if failed then failures + [id] else failures, after, settled + {id})
    {
    }

    lemma NothingFailed(artifacts: map<Id, Artifact>, statuses: map<Id, Status>, ids: set<Id>)
      ensures FailuresOk([], artifacts, {}) && SameOutside(statuses, statuses, ids)
    {
    }

    /** Rejected and late failures of one layer together. */
    lemma LayerFailures(rejected: seq<Id>, late: seq<Id>, artifacts: map<Id, Artifact>, layer: seq<Id>, open: set<Id>)
      requires NoRepeats(rejected) && forall id :: id in rejected <==> id in layer && id !in open
      requires FailuresOk(late, artifacts, open) && forall id :: id in open ==> id in layer
      requires forall id :: id in rejected ==> id !in artifacts
      ensures FailuresOk(rejected + late, artifacts, set id | id in layer)
    {
      NoRepeatsJoin(rejected, late);
    }

    lemma FailuresJoin(a: seq<Id>, b: seq<Id>, before: map<Id, Artifact>, after: map<Id, Artifact>,
                       first: set<Id>, second: set<Id>)
      requires FailuresOk(a, before, first) && FailuresOk(b, after, second) && first !! second
      requires forall id :: id in first ==> (id in before <==> id in after)
      ensures FailuresOk(a + b, after, first + second)
    {
      NoRepeatsJoin(a, b);
    }

    /** First half of a layer: reserve for each task in order; a rejected one settles at once. */
    method ReserveLayer(shared: SharedContext, tasks: map<Id, AgentTask>, layer: seq<Id>, before: map<Id, Status>,
                        ghost deps: Deps, ghost past: seq<Event>, ghost recorded: seq<Artifact>)
      returns (statuses: map<Id, Status>, failures: seq<Id>, open: seq<AgentTask>, ghost trace: seq<Event>)
      requires forall id :: id in layer ==> id in tasks && tasks[id].id == id
      requires NoRepeats(layer) && Orderly(past, deps)
      requires forall id :: id in layer ==>
                 && Started(id) !in past && Settled(id) !in past
                 && id in deps && forall d :: d in deps[id] ==> Settled(d) in past
      modifies shared
      ensures Orderly(trace, deps) && (forall e :: e in past ==> e in trace)
      ensures forall e :: e in trace ==> e in past || e.id in layer
      ensures forall id :: id in layer ==> Settled(id) in trace || id in IdsOf(open)
      ensures forall k :: 0 <= k < |open| ==> open[k].id in layer && open[k] == tasks[open[k].id]
      ensures DistinctIds(open) && forall id :: id in IdsOf(open) ==> id in layer && Settled(id) !in trace
      ensures NoRepeats(failures) && forall id :: id in failures <==> id in layer && id !in IdsOf(open)
      ensures SameOutside(statuses, before, set id | id in layer)
      ensures ReserveAll(State(old(shared.View()), before), Select(tasks, layer))
           == Reserved(State(shared.View(), statuses), open)
      ensures LedgerLaw(old(shared.View()), recorded, []) ==> LedgerLaw(shared.View(), recorded, open)
    {
      hide Orderly, LedgerLaw, IdsOf, SameOutside, ReservingOk, DistinctIds, NoRepeats;
      ghost var start, ids := State(shared.View(), before), set id | id in layer;
      statuses, failures, open, trace := before, [], [], past;
      ReservingStarts(past, deps, before, ids);
      for n := 0 to |layer|
        invariant ReservingOk(trace, past, deps, layer[..n], open, failures)
        invariant forall k :: 0 <= k < |open| ==> open[k].id in layer[..n] && open[k] == tasks[open[k].id]
        invariant SameOutside(statuses, before, ids)
        invariant ReserveAll(start, Select(tasks, layer[..n])) == Reserved(State(shared.View(), statuses), open)
        invariant LedgerLaw(old(shared.View()), recorded, []) ==> LedgerLaw(shared.View(), recorded, open)
      {
        var id := layer[n];
        var task := tasks[id];
        ghost var prefix := Select(tasks, layer[..n + 1]);
        assert layer[..n + 1] == layer[..n] + [id];
        NewInPrefix(layer, n);
        assert prefix[..n] == Select(tasks, layer[..n]) && prefix[n] == task;
        ghost var b := shared.View();
        var ok := shared.ReserveBudget(task.toolBudget, task.tokenBudget);
        if !ok {
          ReservingRejects(trace, past, deps, layer[..n], open, failures, id);
          SameOutsideStep(statuses, before, ids, id, BudgetExhausted);
          statuses, failures := statuses[id := BudgetExhausted], failures + [id];
          trace := trace + [Settled(id)];
        } else {
          if LedgerLaw(b, recorded, open) {
            ReserveKeepsLaw(b, recorded, open, task);
          }
          ReservingAccepts(trace, past, deps, layer[..n], open, failures, task);
          trace := trace + [Started(id)];
          open := open + [task];
        }
      }
      assert layer[..|layer|] == layer;
      ReservingDone(trace, past, deps, layer, open, failures);
    }

    /** Second half of a layer: handle the futures as they complete, in any order. */
    method DrainFutures(shared: SharedContext, futures: seq<AgentTask>, before: map<Id, Status>, deps: Deps,
                        ghost past: seq<Event>, ghost start: seq<Artifact>)
      returns (statuses: map<Id, Status>, failures: seq<Id>, ghost trace: seq<Event>, ghost recorded: seq<Artifact>)
      requires Orderly(past, deps) && DistinctIds(futures)
      requires forall id :: id in IdsOf(futures) ==> id in deps && deps[id] !! IdsOf(futures) && Settled(id) !in past
      requires Mirrors(shared.artifacts, start) && shared.artifacts.Keys !! IdsOf(futures)
      modifies shared
      ensures Mirrors(shared.artifacts, recorded) &&
                shared.artifacts.Keys <= old(shared.artifacts).Keys + IdsOf(futures)
      ensures Orderly(trace, deps) && (forall e :: e in past ==> e in trace)
      ensures forall e :: e in trace ==> e in past || (e.Settled? && e.id in IdsOf(futures))
      ensures forall id :: id in IdsOf(futures) ==> Settled(id) in trace
      ensures forall d :: d !in IdsOf(futures) ==> (d in shared.artifacts <==> d in old(shared.artifacts))
      ensures FailuresOk(failures, shared.artifacts, IdsOf(futures)) && SameOutside(statuses, before, IdsOf(futures))
      ensures AllOnBudget(futures, Workers(old(shared.artifacts), deps)) &&
                LedgerLaw(old(shared.View()), start, futures) ==>
                && LedgerLaw(shared.View(), recorded, [])
                && State(shared.View(), statuses)
                   == Finish(State(old(shared.View()), before), futures, Workers(old(shared.artifacts), deps))
    {
      hide Orderly, LedgerLaw, Mirrors, Finish, Settle, Recording, RunOne, Recorded, CommitFits, IdsOf, DistinctIds,
           Visible, Without, FailuresOk, AllOnBudget, SameOutside, Draining;
      ghost var now, run := State(shared.View(), before), Workers(shared.artifacts, deps);
      ghost var lawful := AllOnBudget(futures, run) && LedgerLaw(shared.View(), start, futures);
      ghost var c := Course(past, deps, shared.artifacts, before, IdsOf(futures), run, Finish(now, futures, run),
                            lawful);
      statuses, failures, trace, recorded := before, [], past, start;
      DrainStarts(now, start, futures, c);
      var pending := futures;
      while pending != []
        invariant Draining(State(shared.View(), statuses), recorded, trace, failures, pending, c)
        decreases |pending|
      {
        var k :| 0 <= k < |pending|;
        var task := pending[k];
        ghost var b, s := shared.View(), State(shared.View(), statuses);
        DrainFacts(s, recorded, trace, failures, pending, c, k);
        var visible := shared.DependencyArtifacts(deps[task.id]);
        var outcome := RunOne(task, visible);
        var failed;
        statuses, failed := HandleFuture(shared, task, outcome, statuses);
        DrainStep(s, recorded, trace, failures, pending, c, k, outcome);
        recorded := Recording(b, recorded, task, outcome);
        failures := if failed then failures + [task.id] else failures;
        trace := trace + [Settled(task.id)];
        pending := Without(pending, k);
      }
      DrainEnds(State(shared.View(), statuses), recorded, trace, failures, c);
    }

    /** While draining: the trace, the artifact table, the ledger, the failures and the statuses are all on course. */
    ghost predicate Draining(s: State, recorded: seq<Artifact>, trace: seq<Event>, failures: seq<Id>,
                             pending: seq<AgentTask>, c: Course) {
      && IdsOf(pending) <= c.ids && DistinctIds(pending)
      && TraceOk(trace, c.past, c.deps, c.ids, IdsOf(pending))
      && TableOk(s.budget.artifacts, recorded, c.artifacts, c.ids, IdsOf(pending))
      && (c.lawful ==> OnCourse(s, recorded, pending, c.run, c.goal) && AllOnBudget(pending, c.run))
      && FailuresOk(failures, s.budget.artifacts, c.ids - IdsOf(pending))
      && SameOutside(s.statuses, c.statuses, c.ids)
    }

    lemma DrainStarts(s: State, start: seq<Artifact>, futures: seq<AgentTask>, c: Course)
      requires Orderly(c.past, c.deps) && DistinctIds(futures) && c.ids == IdsOf(futures)
      requires Mirrors(s.budget.artifacts, start) && s.budget.artifacts.Keys !! c.ids
      requires forall id :: id in c.ids ==> Settled(id) !in c.past
      requires c.artifacts == s.budget.artifacts && c.statuses == s.statuses && c.goal == Finish(s, futures, c.run)
      requires c.lawful ==> AllOnBudget(futures, c.run) && LedgerLaw(s.budget, start, futures)
      ensures Draining(s, start, c.past, [], futures, c)
    {
      hide Orderly, LedgerLaw, Mirrors, Finish, TraceOk, TableOk, OnCourse, AllOnBudget, FailuresOk, SameOutside, IdsOf;
      StartDraining(s, c.past, c.deps, start, futures, c.run);
      NothingFailed(s.budget.artifacts, s.statuses, c.ids);
      assert c.ids - IdsOf(futures) == {};
    }

    lemma DrainFacts(s: State, recorded: seq<Artifact>, trace: seq<Event>, failures: seq<Id>,
                     pending: seq<AgentTask>, c: Course, k: nat)
      requires Draining(s, recorded, trace, failures, pending, c) && k < |pending|
      ensures pending[k].id in c.ids && |Without(pending, k)| < |pending|
      ensures var deps := if pending[k].id in c.deps then c.deps[pending[k].id] else {};
              var table := s.budget.artifacts;
              deps !! c.ids ==> (map d | d in deps && d in table :: table[d]) == Visible(c.artifacts, deps)
    {
      hide Orderly, LedgerLaw, Mirrors, Finish, TraceOk, TableOk, OnCourse, AllOnBudget, FailuresOk, SameOutside,
           IdsOf, DistinctIds, Visible;
      IdsWithout(pending, k);
      var deps := if pending[k].id in c.deps then c.deps[pending[k].id] else {};
      if deps !! c.ids {
        SameVisible(s.budget.artifacts, recorded, c.artifacts, c.ids, IdsOf(pending), deps);
      }
    }

    lemma DrainStep(s: State, recorded: seq<Artifact>, trace: seq<Event>, failures: seq<Id>,
                    pending: seq<AgentTask>, c: Course, k: nat, o: Outcome)
      requires Draining(s, recorded, trace, failures, pending, c) && k < |pending| && o == c.run(pending[k])
      requires o.Returned? ==> o.artifact.id == pending[k].id
      ensures var task, b := pending[k], s.budget;
              var persisted := persists(task.id);
              var failed := !(Recorded(b, task, o) && persisted);
              Draining(State(Settle(b, task, o, persisted),
                             s.statuses[task.id := SettledStatus(b, task, o, persisted)]),
                       Recording(b, recorded, task, o), trace + [Settled(task.id)],
                       if failed then failures + [task.id] else failures, Without(pending, k), c)
    {
      hide Orderly, LedgerLaw, Mirrors, Finish, TraceOk, TableOk, OnCourse, AllOnBudget, FailuresOk, SameOutside,
           IdsOf, DistinctIds, Settle, Recording, Recorded, SettledStatus, Without;
      var task, b := pending[k], s.budget;
      var persisted := persists(task.id);
      var after, next := Settle(b, task, o, persisted), Recording(b, recorded, task, o);
      var failed := !(Recorded(b, task, o) && persisted);
      IdsWithout(pending, k);
      TableFacts(b.artifacts, recorded, c.artifacts, c.ids, IdsOf(pending));
      MirrorsStep(b, recorded, task, o, persisted);
      TableStep(b.artifacts, recorded, after.artifacts, next, c.artifacts, c.ids, IdsOf(pending), task.id);
      TraceStep(trace, c.past, c.deps, c.ids, IdsOf(pending), task.id);
      FailuresStep(failures, b.artifacts, after.artifacts, c.ids - IdsOf(pending), task.id, failed);
      assert c.ids - IdsOf(pending) + {task.id} == c.ids - IdsOf(Without(pending, k));
      SameOutsideStep(s.statuses, c.statuses, c.ids, task.id, SettledStatus(b, task, o, persisted));
      if c.lawful {
        RestOnBudget(pending, k, c.run);
        OnCourseStep(s, recorded, pending, k, o, c.run, c.goal, persisted);
      }
    }

    lemma DrainEnds(s: State, recorded: seq<Artifact>, trace: seq<Event>, failures: seq<Id>, c: Course)
      requires Draining(s, recorded, trace, failures, [], c)
      ensures Orderly(trace, c.deps) && (forall e :: e in c.past ==> e in trace)
      ensures forall e :: e in trace ==> e in c.past || (e.Settled? && e.id in c.ids)
      ensures forall id :: id in c.ids ==> Settled(id) in trace
      ensures Mirrors(s.budget.artifacts, recorded) && s.budget.artifacts.Keys <= c.artifacts.Keys + c.ids
      ensures forall d :: d !in c.ids ==> (d in s.budget.artifacts <==> d in c.artifacts)
      ensures FailuresOk(failures, s.budget.artifacts, c.ids) && SameOutside(s.statuses, c.statuses, c.ids)
      ensures c.lawful ==> LedgerLaw(s.budget, recorded, []) && s == c.goal
    {
      hide Orderly, LedgerLaw, Mirrors, FailuresOk, SameOutside;
      assert IdsOf([]) == {} by { NoOpenIds(); }
      assert c.ids - {} == c.ids;
      DoneDraining(s, trace, c.past, c.deps, recorded, c.artifacts, c.ids, c.run, c.goal, c.lawful);
    }

    /** One layer: reserve, then drain. */
    method RunLayer(shared: SharedContext, tasks: map<Id, AgentTask>, deps: Deps, layer: seq<Id>,
                    before: map<Id, Status>, ghost past: seq<Event>, ghost start: seq<Artifact>)
      returns (statuses: map<Id, Status>, failures: seq<Id>, ghost trace: seq<Event>, ghost recorded: seq<Artifact>)
      requires forall id :: id in layer ==> id in tasks && tasks[id].id == id && id in deps
      requires NoRepeats(layer) && Orderly(past, deps)
      requires forall id :: id in layer ==> Started(id) !in past && Settled(id) !in past
      requires forall id, d :: id in layer && d in deps[id] ==> d !in layer && Settled(d) in past
      requires Mirrors(shared.artifacts, start) && forall id :: id in layer ==> id !in shared.artifacts
      modifies shared
      ensures Mirrors(shared.artifacts, recorded)
      ensures forall id :: id !in layer ==> (id in shared.artifacts <==> id in old(shared.artifacts))
      ensures FailuresOk(failures, shared.artifacts, set id | id in layer)
      ensures SameOutside(statuses, before, set id | id in layer)
      ensures Orderly(trace, deps) && (forall e :: e in past ==> e in trace)
      ensures forall e :: e in trace ==> e in past || e.id in layer
      ensures forall id :: id in layer ==> Settled(id) in trace
      ensures var s := State(old(shared.View()), before);
              var run := Workers(old(shared.artifacts), deps);
              AllOnBudget(ReserveAll(s, Select(tasks, layer)).open, run) && LedgerLaw(s.budget, start, []) ==>
                && LedgerLaw(shared.View(), recorded, [])
                && State(shared.View(), statuses) == LayerResult(s, Select(tasks, layer), run)
    {
      hide LedgerLaw, Orderly, ReserveAll, Finish, Mirrors, AllOnBudget, FailuresOk, SameOutside, IdsOf;
      ghost var artifacts := shared.artifacts;
      ghost var s0 := State(shared.View(), before);
      var open, late;
      statuses, failures, open, trace := ReserveLayer(shared, tasks, layer, before, deps, past, start);
      ReserveKeepsArtifacts(s0, Select(tasks, layer));
      assert shared.artifacts == artifacts;
      ghost var middle := statuses;
      statuses, late, trace, recorded := DrainFutures(shared, open, statuses, deps, trace, start);
      LayerFailures(failures, late, shared.artifacts, layer, IdsOf(open));
      SameOutsideJoins(before, middle, statuses, (set id | id in layer), IdsOf(open));
      failures := failures + late;
    }

    /** The whole run over one graph. */
    method Run(graph: TaskGraph, maxAgents: int, maxTools: int, maxTokens: int)
      returns (result: RunResult, ghost trace: seq<Event>, ghost recorded: seq<Artifact>, ghost layers: seq<seq<Id>>)
      requires Registered(graph.View())
      ensures result.TooManyAgents? <==> |graph.tasks| > maxAgents
      ensures !result.TooManyAgents? ==> (result.CycleRaised? <==> Broken(graph.dependencies))
      ensures result.Finished? ==>
                && Orderly(trace, graph.dependencies)
                && (forall id :: id in graph.dependencies <==> Settled(id) in trace)
                && FailuresOk(result.failures, result.state.budget.artifacts, graph.dependencies.Keys)
                && SameOutside(result.state.statuses, Fresh(graph.tasks, maxTools, maxTokens).statuses,
                               graph.dependencies.Keys)
                && Listed(graph.dependencies, layers)
                && Tasked(graph.tasks, layers)
                && Mirrors(result.state.budget.artifacts, recorded)
                && var start := Fresh(graph.tasks, maxTools, maxTokens);
                   (RunOnBudget(this, start, graph.tasks, graph.dependencies, layers) && 0 <= maxTools &&
                     0 <= maxTokens ==>
                      && LedgerLaw(result.state.budget, recorded, [])
                      && result.state == RunAll(this, start, graph.tasks, graph.dependencies, layers))
    {
      hide LedgerLaw, Orderly, LayerResult, Layer, Broken, Mirrors, Union, Listed, FailuresOk, SameOutside,
      AllOnBudget, RunAll,
           RunOnBudget, Running;
      trace, recorded, layers := [], [], [];
      if |graph.tasks| > maxAgents {
        return TooManyAgents, [], [], [];
      }
      var tasks, deps := graph.tasks, graph.dependencies;
      var shared := new SharedContext(maxTools, maxTokens);
      var found := graph.TopologicalLayers();
      CyclicIffBroken(deps);
      if found.None? {
        return CycleRaised, [], [], [];
      }
      layers := found.value;
      assert Listed(deps, layers) by { IsListed(deps, layers); }
      ListedInGraph(deps, layers);
      var statuses, failures;
      statuses, failures, trace, recorded := RunLayers(shared, tasks, deps, found.value);
      RunFacts(State(shared.View(), statuses), recorded, trace, failures, deps.Keys, deps,
               Fresh(tasks, maxTools, maxTokens));
      result := Finished(State(Budget(maxTools, maxTokens, shared.toolUsed, shared.tokenUsed, shared.artifacts),
                               statuses), failures);
    }

    /** The loop over the layers. */
    method RunLayers(shared: SharedContext, tasks: map<Id, AgentTask>, deps: Deps, layers: seq<seq<Id>>)
      returns (statuses: map<Id, Status>, failures: seq<Id>, ghost trace: seq<Event>, ghost recorded: seq<Artifact>)
      requires Listed(deps, layers) && Union(layers) == deps.Keys
      requires Tasked(tasks, layers) && forall id :: id in tasks ==> tasks[id].id == id
      requires shared.View() == Fresh(tasks, shared.maxTools, shared.maxTokens).budget
      modifies shared
      ensures var begin, now := Fresh(tasks, shared.maxTools, shared.maxTokens), State(shared.View(), statuses);
              && Running(now, recorded, trace, failures, deps.Keys, deps, begin)
              && (RunOnBudget(this, begin, tasks, deps, layers) && 0 <= shared.maxTools && 0 <= shared.maxTokens ==>
                    LedgerLaw(shared.View(), recorded, []) && now == RunAll(this, begin, tasks, deps, layers))
    {
      hide LedgerLaw, Orderly, LayerResult, Layer, Mirrors, Union, Listed, FailuresOk, SameOutside, AllOnBudget, RunAll,
           RunOnBudget, Running, NoRepeats, ReserveAll;
      statuses, failures, trace, recorded := map id | id in tasks :: Pending, [], [], [];
      ghost var begin := Fresh(tasks, shared.maxTools, shared.maxTokens);
      NothingYet(shared.View(), deps);
      RunNothing(this, begin, tasks, deps, layers);
      ghost var done: set<Id> := {};
      NoUnion();
      RunStarts(begin, deps, begin);
      for n := 0 to |layers|
        invariant done == Union(layers[..n])
        invariant Running(State(shared.View(), statuses), recorded, trace, failures, done, deps, begin)
        invariant RunOnBudget(this, begin, tasks, deps, layers[..n]) && 0 <= shared.maxTools &&
                  0 <= shared.maxTokens ==>
                    && LedgerLaw(shared.View(), recorded, [])
                    && State(shared.View(), statuses) == RunAll(this, begin, tasks, deps, layers[..n])
      {
        LayerIsReady(deps, layers, n);
        ghost var s, was, told, layer := State(shared.View(), statuses), trace, failures, set id | id in layers[n];
        RunFacts(s, recorded, trace, failures, done, deps, begin);
        RunGrows(this, begin, tasks, deps, layers, n);
        var late;
        statuses, late, trace, recorded := RunLayer(shared, tasks, deps, layers[n], statuses, trace, recorded);
        failures := failures + late;
        RunStep(s, was, told, done, layer, State(shared.View(), statuses), recorded, trace, late, deps, begin);
        done := done + layer;
      }
      assert layers[..|layers|] == layers;
    }

    /** Between layers: all about the layers that are done, and nothing about the rest. */
    ghost predicate Running(s: State, recorded: seq<Artifact>, trace: seq<Event>, failures: seq<Id>, done: set<Id>,
                            deps: Deps, begin: State) {
      && Orderly(trace, deps) && (forall e :: e in trace ==> e.id in done)
      && (forall id :: id in done ==> Settled(id) in trace)
      && Mirrors(s.budget.artifacts, recorded) && s.budget.artifacts.Keys <= done
      && FailuresOk(failures, s.budget.artifacts, done) && SameOutside(s.statuses, begin.statuses, done)
    }

    lemma RunStarts(s: State, deps: Deps, begin: State)
      requires s.budget.artifacts == map[] && s.statuses == begin.statuses
      ensures Running(s, [], [], [], {}, deps, begin)
    {
    }

    lemma RunFacts(s: State, recorded: seq<Artifact>, trace: seq<Event>, failures: seq<Id>, done: set<Id>,
                   deps: Deps, begin: State)
      requires Running(s, recorded, trace, failures, done, deps, begin)
      ensures Orderly(trace, deps) && (forall e :: e in trace ==> e.id in done)
      ensures forall id :: id in done ==> Settled(id) in trace
      ensures Mirrors(s.budget.artifacts, recorded) && s.budget.artifacts.Keys <= done
      ensures FailuresOk(failures, s.budget.artifacts, done) && SameOutside(s.statuses, begin.statuses, done)
    {
    }

    lemma RunStep(s: State, was: seq<Event>, told: seq<Id>, done: set<Id>, layer: set<Id>,
                  t: State, recorded: seq<Artifact>, trace: seq<Event>, late: seq<Id>, deps: Deps, begin: State)
      requires (forall e :: e in was ==> e.id in done) && (forall id :: id in done ==> Settled(id) in was)
      requires FailuresOk(told, s.budget.artifacts, done) && SameOutside(s.statuses, begin.statuses, done)
      requires s.budget.artifacts.Keys <= done && done !! layer
      requires Orderly(trace, deps) && (forall e :: e in was ==> e in trace)
      requires forall e :: e in trace ==> e in was || e.id in layer
      requires forall id :: id in layer ==> Settled(id) in trace
      requires Mirrors(t.budget.artifacts, recorded)
      requires forall id :: id !in layer ==> (id in t.budget.artifacts <==> id in s.budget.artifacts)
      requires FailuresOk(late, t.budget.artifacts, layer) && SameOutside(t.statuses, s.statuses, layer)
      ensures Running(t, recorded, trace, told + late, done + layer, deps, begin)
    {
      hide Orderly, Mirrors, FailuresOk, SameOutside;
      FailuresJoin(told, late, s.budget.artifacts, t.budget.artifacts, done, layer);
      SameOutsideJoins(begin.statuses, s.statuses, t.statuses, done, layer);
    }

    /** Commit and persist an artifact, or release the reservation and mark the task. */
    method HandleFuture(shared: SharedContext, task: AgentTask, outcome: Outcome, before: map<Id, Status>)
      returns (statuses: map<Id, Status>, failed: bool)
      requires outcome.Returned? ==> outcome.artifact.id == task.id
      modifies shared
      ensures shared.View() == Settle(old(shared.View()), task, outcome, persists(task.id))
      ensures failed <==> !(Recorded(old(shared.View()), task, outcome) && persists(task.id))
      ensures statuses == before[task.id := SettledStatus(old(shared.View()), task, outcome, persists(task.id))]
    {
      match outcome
      case Raised(budget) =>
        shared.ReleaseBudget(task.toolBudget, task.tokenBudget);
        return before[task.id := if budget then BudgetExhausted else Failed], true;
      case Returned(a) =>
        statuses := before[task.id := a.status];
        var ok := shared.CommitBudget(task.toolBudget, task.tokenBudget, a);
        if !ok {
          shared.ReleaseBudget(task.toolBudget, task.tokenBudget);
          return statuses[task.id := BudgetExhausted], true;
        }
        if !persists(a.id) {
          shared.ReleaseBudget(task.toolBudget, task.tokenBudget);
          return statuses[task.id := Failed], true;
        }
        return statuses, false;
    }
  }

  datatype RunResult = TooManyAgents | CycleRaised | Finished(state: State, failures: seq<Id>)

  ghost predicate Tasked(tasks: map<Id, AgentTask>, layers: seq<seq<Id>>) {
    forall k, id :: 0 <= k < |layers| && id in layers[k] ==> id in tasks
  }

  /** Layer after layer, each as if its futures completed in order. */
  ghost function RunAll(w: Supervisor, s: State, tasks: map<Id, AgentTask>, deps: Deps, layers: seq<seq<Id>>): State
    requires Tasked(tasks, layers)
  {
    if layers == [] then s
    else
      var n := |layers| - 1;
      var before := RunAll(w, s, tasks, deps, layers[..n]);
      LayerResult(before, Select(tasks, layers[n]), w.Workers(before.budget.artifacts, deps))
  }

  /** Every artifact that this run delivers stays within its own task's reservation and persists. */
  ghost predicate RunOnBudget(w: Supervisor, s: State, tasks: map<Id, AgentTask>, deps: Deps, layers: seq<seq<Id>>)
    requires Tasked(tasks, layers)
  {
    layers == [] ||
    (var n := |layers| - 1;
     var before := RunAll(w, s, tasks, deps, layers[..n]);
     && RunOnBudget(w, s, tasks, deps, layers[..n])
     && w.AllOnBudget(ReserveAll(before, Select(tasks, layers[n])).open, w.Workers(before.budget.artifacts, deps)))
  }

  lemma RunNothing(w: Supervisor, s: State, tasks: map<Id, AgentTask>, deps: Deps, layers: seq<seq<Id>>)
    ensures RunAll(w, s, tasks, deps, layers[..0]) == s
  {
  }

  lemma RunGrows(w: Supervisor, s: State, tasks: map<Id, AgentTask>, deps: Deps, layers: seq<seq<Id>>, n: nat)
    requires Tasked(tasks, layers)
    requires n < |layers|
    ensures var before := RunAll(w, s, tasks, deps, layers[..n]);
            var run := w.Workers(before.budget.artifacts, deps);
            && RunAll(w, s, tasks, deps, layers[..n + 1]) == LayerResult(before, Select(tasks, layers[n]), run)
            && (RunOnBudget(w, s, tasks, deps, layers[..n + 1]) <==>
                  && RunOnBudget(w, s, tasks, deps, layers[..n])
                  && w.AllOnBudget(ReserveAll(before, Select(tasks, layers[n])).open, run))
  {
    hide LayerResult, ReserveAll;
    assert layers[..n + 1][..n] == layers[..n];
  }

  /** Workers that never exceed the reservations of the graph's own tasks make every run stay on budget. */
  lemma {:induction false} FrugalWorkersStayOnBudget(w: Supervisor, s: State, tasks: map<Id, AgentTask>, deps: Deps,
                                                     layers: seq<seq<Id>>)
    requires Tasked(tasks, layers)
    requires forall id, visible :: id in tasks ==> w.OnBudget(tasks[id], w.RunOne(tasks[id], visible))
    ensures RunOnBudget(w, s, tasks, deps, layers)
  {
    hide RunAll, ReserveAll;
    if layers != [] {
      var n := |layers| - 1;
      FrugalWorkersStayOnBudget(w, s, tasks, deps, layers[..n]);
      var before := RunAll(w, s, tasks, deps, layers[..n]);
      ReservedAreTasks(before, tasks, layers[n]);
      var open, run := ReserveAll(before, Select(tasks, layers[n])).open, w.Workers(before.budget.artifacts, deps);
      forall k | 0 <= k < |open| ensures w.OnBudget(open[k], run(open[k])) {
        assert open[k] in tasks.Values;
        var id :| id in tasks && tasks[id] == open[k];
        var visible := Visible(before.budget.artifacts, if open[k].id in deps then deps[open[k].id] else {});
        assert w.OnBudget(tasks[id], w.RunOne(tasks[id], visible));
      }
    }
  }

  lemma ReservedAreTasks(s: State, tasks: map<Id, AgentTask>, layer: seq<Id>)
    requires forall id :: id in layer ==> id in tasks
    ensures forall task :: task in ReserveAll(s, Select(tasks, layer)).open ==> task in tasks.Values
  {
    ReservedAreGiven(s, Select(tasks, layer));
    hide ReserveAll;
    forall task | task in Select(tasks, layer) ensures task in tasks.Values {
      var j :| 0 <= j < |layer| && Select(tasks, layer)[j] == task;
      assert layer[j] in tasks;
    }
  }

  lemma {:induction false} ReservedAreGiven(s: State, tasks: seq<AgentTask>)
    ensures forall task :: task in ReserveAll(s, tasks).open ==> task in tasks
  {
    if tasks != [] {
      ReservedAreGiven(s, tasks[..|tasks| - 1]);
    }
  }

  function Fresh(tasks: map<Id, AgentTask>, maxTools: int, maxTokens: int): State {
    State(Budget(maxTools, maxTokens, 0, 0, map[]), map id | id in tasks :: Pending)
  }

  lemma NothingYet(b: Budget, deps: Deps)
    ensures Orderly([], deps) && Mirrors(map[], [])
    ensures b.tools == b.tokens == 0 && 0 <= b.maxTools && 0 <= b.maxTokens ==> LedgerLaw(b, [], [])
  {
  }

  lemma {:induction false} ReserveKeepsArtifacts(s: State, tasks: seq<AgentTask>)
    ensures ReserveAll(s, tasks).state.budget.artifacts == s.budget.artifacts
  {
    if tasks != [] {
      ReserveKeepsArtifacts(s, tasks[..|tasks| - 1]);
    }
  }

  ghost predicate Registered(g: Graph) {
    g.deps.Keys <= g.tasks.Keys && forall id :: id in g.tasks ==> g.tasks[id].id == id
  }

  /** Every graph reached by additions, successful or not, is registered. */
  lemma AddKeepsRegistered(g: Graph, task: AgentTask, dependsOn: set<Id>)
    requires Registered(g)
    ensures Registered(Add(g, task, dependsOn).graph)
  {
  }

  /** A dependency of a task in layer k lies in some earlier layer, and not in layer k. */
  lemma DependencySettledEarlier(deps: Deps, k: nat, id: Id, d: Id)
    requires Layer(deps).Layers? && k < |Layer(deps).layers| && id in Layer(deps).layers[k]
    requires id in deps && d in deps[id]
    ensures d !in Layer(deps).layers[k] && exists j :: 0 <= j < k && d in Layer(deps).layers[j]
  {
    var sets := Layer(deps).layers;
    CyclicIffBroken(deps);
    assert !IsDangling(deps, id, d);
    LayersPartition(deps);
    assert Covers(sets, d);
    var j: int :| 0 <= j < |sets| && d in sets[j];
    DependenciesComeEarlier(deps, j, k, id, d);
    assert sets[j] !! sets[k];
  }

  /** The listed layers, as the loop over them needs them. */
  ghost predicate Listed(deps: Deps, layers: seq<seq<Id>>) {
    && Layer(deps).Layers? && |layers| == |Layer(deps).layers|
    && forall k :: 0 <= k < |layers| ==> IsListing(layers[k], Layer(deps).layers[k])
  }

  lemma IsListed(deps: Deps, layers: seq<seq<Id>>)
    requires Layer(deps).Layers? && |layers| == |Layer(deps).layers|
    requires forall k :: 0 <= k < |layers| ==> IsListing(layers[k], Layer(deps).layers[k])
    ensures Listed(deps, layers)
  {
  }

  lemma NoUnion()
    ensures Union([]) == {}
  {
  }

  /** The ids of the first layers. */
  function Union(layers: seq<seq<Id>>): set<Id> {
    if layers == [] then {}
    else
      var last := layers[|layers| - 1];
      Union(layers[..|layers| - 1]) + set id | id in last
  }

  lemma {:induction false} InUnion(layers: seq<seq<Id>>, id: Id)
    ensures id in Union(layers) <==> exists j :: 0 <= j < |layers| && id in layers[j]
  {
    if layers != [] {
      var n := |layers| - 1;
      InUnion(layers[..n], id);
      if j :| 0 <= j < |layers| && id in layers[j] && j < n {
        assert id in layers[..n][j];
      }
    }
  }

  lemma ListedInGraph(deps: Deps, layers: seq<seq<Id>>)
    requires Listed(deps, layers)
    ensures forall k, id :: 0 <= k < |layers| && id in layers[k] ==> id in deps
    ensures Union(layers) == deps.Keys
  {
    var sets := Layer(deps).layers;
    LayersPartition(deps);
    forall k, id | 0 <= k < |layers| && id in layers[k] ensures id in deps {
      assert id in sets[k];
      assert Covers(sets, id);
    }
    forall id ensures id in Union(layers) <==> id in deps.Keys {
      InUnion(layers, id);
      if id in deps {
        assert Covers(sets, id);
        var k: int :| 0 <= k < |sets| && id in sets[k];
        assert id in layers[k];
      }
    }
  }

  lemma LayerIsNew(deps: Deps, layers: seq<seq<Id>>, k: nat)
    requires Listed(deps, layers) && k < |layers|
    ensures NoRepeats(layers[k])
    ensures forall id :: id in layers[k] ==> id in deps && id !in Union(layers[..k])
  {
    var sets := Layer(deps).layers;
    LayersPartition(deps);
    hide Layer, Union;
    forall id | id in layers[k] ensures id in deps && id !in Union(layers[..k]) {
      assert id in sets[k];
      assert Covers(sets, id);
      assert forall j :: 0 <= j < k ==> sets[j] !! sets[k];
      InUnion(layers[..k], id);
    }
  }

  /** What the loop needs of layer k: registered, no repeats, new, and with all dependencies in earlier layers. */
  lemma LayerIsReady(deps: Deps, layers: seq<seq<Id>>, k: nat)
    requires Listed(deps, layers) && k < |layers|
    ensures NoRepeats(layers[k])
    ensures forall id :: id in layers[k] ==> id in deps && id !in Union(layers[..k])
    ensures forall id, d :: id in layers[k] && d in deps[id] ==> d !in layers[k] && d in Union(layers[..k])
    ensures Union(layers[..k + 1]) == Union(layers[..k]) + set id | id in layers[k]
  {
    LayerIsNew(deps, layers, k);
    assert layers[..k + 1][..k] == layers[..k];
    assert Union(layers[..k + 1]) == Union(layers[..k]) + set id | id in layers[k];
    hide Layer, Union, NoRepeats;
    var sets := Layer(deps).layers;
    forall id, d | id in layers[k] && d in deps[id] ensures d !in layers[k] && d in Union(layers[..k]) {
      DependencySettledEarlier(deps, k, id, d);
      var j: int :| 0 <= j < k && d in sets[j];
      assert d in layers[..k][j];
      InUnion(layers[..k], d);
    }
  }

  function FromRecorded(recorded: seq<Artifact>): map<Id, Artifact> {
    if recorded == [] then map[]
    else
      var n := |recorded| - 1;
      FromRecorded(recorded[..n])[recorded[n].id := recorded[n]]
  }

  /** The artifact table holds exactly the recorded artifacts, one per task. */
  ghost predicate Mirrors(artifacts: map<Id, Artifact>, recorded: seq<Artifact>) {
    artifacts == FromRecorded(recorded) && |artifacts| == |recorded|
  }

  /** Two tables that differ at most on some ids. */
  ghost predicate SameOutside(after: map<Id, Status>, before: map<Id, Status>, ids: set<Id>) {
    forall id :: id !in ids ==> (id in after <==> id in before) && (id in after ==> after[id] == before[id])
  }

  lemma SameOutsideStep(after: map<Id, Status>, before: map<Id, Status>, ids: set<Id>, id: Id, status: Status)
    requires SameOutside(after, before, ids) && id in ids
    ensures SameOutside(after[id := status], before, ids)
  {
  }

  lemma SameOutsideJoins(a: map<Id, Status>, b: map<Id, Status>, c: map<Id, Status>, first: set<Id>, second: set<Id>)
    requires SameOutside(b, a, first) && SameOutside(c, b, second)
    ensures SameOutside(c, a, first + second)
    ensures second <= first ==> SameOutside(c, a, first)
  {
  }

  lemma MirrorsStep(b: Budget, recorded: seq<Artifact>, task: AgentTask, o: Outcome, persisted: bool)
    requires Mirrors(b.artifacts, recorded) && task.id !in b.artifacts && (o.Returned? ==> o.artifact.id == task.id)
    ensures Mirrors(Settle(b, task, o, persisted).artifacts, Recording(b, recorded, task, o))
    ensures var after := Settle(b, task, o, persisted).artifacts;
            && (task.id in after <==> Recorded(b, task, o))
            && (after == b.artifacts || (o.Returned? && after == b.artifacts[task.id := o.artifact]))
  {
    if Recorded(b, task, o) {
      var more := recorded + [o.artifact];
      assert more[..|more| - 1] == recorded;
    }
  }

  function IdsOf(open: seq<AgentTask>): set<Id> { set k | 0 <= k < |open| :: open[k].id }

  lemma NoOpenIds()
    ensures IdsOf([]) == {}
  {
  }

  lemma IdsAppend(open: seq<AgentTask>, task: AgentTask)
    ensures IdsOf(open + [task]) == IdsOf(open) + {task.id}
  {
    var all := open + [task];
    forall id ensures id in IdsOf(all) <==> id in IdsOf(open) || id == task.id {
      if k :| 0 <= k < |open| && open[k].id == id {
        assert all[k].id == id;
      }
      assert all[|open|] == task;
    }
  }

  /** The status a settled task ends with. */
  function SettledStatus(b: Budget, task: AgentTask, o: Outcome, persisted: bool): Status {
    match o
    case Raised(budget) => if budget then BudgetExhausted else Failed
    case Returned(a) =>
      if !CommitFits(b, task.toolBudget, task.tokenBudget, a) then BudgetExhausted
      else if !persisted then Failed else a.status
  }

  /** The law holds now, and settling the rest in order would end in `goal`. */
  ghost predicate OnCourse(s: State, recorded: seq<Artifact>, open: seq<AgentTask>, run: AgentTask -> Outcome,
                           goal: State) {
    LedgerLaw(s.budget, recorded, open) && Finish(s, open, run) == goal
  }

  /** Settling any thrifty future next stays on course. */
  lemma OnCourseStep(s: State, recorded: seq<Artifact>, open: seq<AgentTask>, k: nat, o: Outcome,
                     run: AgentTask -> Outcome, goal: State, persisted: bool)
    requires k < |open| && DistinctIds(open) && o == run(open[k]) && OnCourse(s, recorded, open, run, goal)
    requires o.Returned? ==> && persisted && o.artifact.id == open[k].id
                             && o.artifact.tools <= open[k].toolBudget && o.artifact.tokens <= open[k].tokenBudget
    ensures var task := open[k];
            OnCourse(State(Settle(s.budget, task, o, persisted),
                           s.statuses[task.id := SettledStatus(s.budget, task, o, persisted)]),
                     Recording(s.budget, recorded, task, o), Without(open, k), run, goal)
  {
    SettleKeepsLawIff(s.budget, recorded, open, k, o, persisted);
    WithoutReleases(open, k);
    UsageNonNegative(recorded);
    FinishInAnyOrder(s, open, k, run);
    assert Settle(s.budget, open[k], o, persisted) == Net(s, open[k], o).budget;
  }

  /** Only settlements of these futures are new, and all but the pending ones have happened. */
  ghost predicate TraceOk(trace: seq<Event>, past: seq<Event>, deps: Deps, ids: set<Id>, pending: set<Id>) {
    && Orderly(trace, deps) && (forall e :: e in past ==> e in trace)
    && (forall e :: e in trace ==> e in past || (e.Settled? && e.id in ids))
    && (forall id :: id in ids ==> Settled(id) in trace || id in pending)
    && (forall id :: id in pending ==> Settled(id) !in trace)
  }

  lemma TraceStep(trace: seq<Event>, past: seq<Event>, deps: Deps, ids: set<Id>, pending: set<Id>, id: Id)
    requires TraceOk(trace, past, deps, ids, pending) && id in ids && id in pending
    ensures TraceOk(trace + [Settled(id)], past, deps, ids, pending - {id})
  {
    OrderlyAppend(trace, deps, Settled(id));
  }

  /** The artifact table mirrors the recorded ones, and changed only for futures that are no longer pending. */
  ghost predicate TableOk(table: map<Id, Artifact>, recorded: seq<Artifact>, start: map<Id, Artifact>,
                          ids: set<Id>, pending: set<Id>) {
    && Mirrors(table, recorded) && table.Keys !! pending && table.Keys <= start.Keys + ids
    && (forall d :: d !in ids ==> (d in table <==> d in start) && (d in table ==> table[d] == start[d]))
  }

  lemma TableStep(before: map<Id, Artifact>, recorded: seq<Artifact>, after: map<Id, Artifact>, next: seq<Artifact>,
                  start: map<Id, Artifact>, ids: set<Id>, pending: set<Id>, id: Id)
    requires TableOk(before, recorded, start, ids, pending) && id in ids && Mirrors(after, next)
    requires after == before || (id in after && after == before[id := after[id]])
    ensures TableOk(after, next, start, ids, pending - {id})
  {
    hide Mirrors;
  }

  lemma TableFacts(table: map<Id, Artifact>, recorded: seq<Artifact>, start: map<Id, Artifact>,
                   ids: set<Id>, pending: set<Id>)
    requires TableOk(table, recorded, start, ids, pending)
    ensures Mirrors(table, recorded) && table.Keys !! pending
  {
  }

  lemma SameVisible(table: map<Id, Artifact>, recorded: seq<Artifact>, start: map<Id, Artifact>,
                    ids: set<Id>, pending: set<Id>, deps: set<Id>)
    requires TableOk(table, recorded, start, ids, pending) && deps !! ids
    ensures (map d | d in deps && d in table :: table[d]) == Visible(start, deps)
  {
  }

  lemma StartDraining(s: State, past: seq<Event>, deps: Deps, recorded: seq<Artifact>, open: seq<AgentTask>,
                      run: AgentTask -> Outcome)
    requires Orderly(past, deps) && Mirrors(s.budget.artifacts, recorded) && s.budget.artifacts.Keys !! IdsOf(open)
    requires forall id :: id in IdsOf(open) ==> Settled(id) !in past
    ensures TraceOk(past, past, deps, IdsOf(open), IdsOf(open))
    ensures TableOk(s.budget.artifacts, recorded, s.budget.artifacts, IdsOf(open), IdsOf(open))
    ensures LedgerLaw(s.budget, recorded, open) ==> OnCourse(s, recorded, open, run, Finish(s, open, run))
  {
  }

  lemma DoneDraining(s: State, trace: seq<Event>, past: seq<Event>, deps: Deps, recorded: seq<Artifact>,
                     start: map<Id, Artifact>, ids: set<Id>, run: AgentTask -> Outcome, goal: State, lawful: bool)
    requires TraceOk(trace, past, deps, ids, IdsOf([])) && TableOk(s.budget.artifacts, recorded, start, ids, IdsOf([]))
    requires lawful ==> OnCourse(s, recorded, [], run, goal)
    ensures Orderly(trace, deps) && (forall e :: e in past ==> e in trace)
    ensures forall e :: e in trace ==> e in past || (e.Settled? && e.id in ids)
    ensures forall id :: id in ids ==> Settled(id) in trace
    ensures Mirrors(s.budget.artifacts, recorded) && s.budget.artifacts.Keys <= start.Keys + ids
    ensures forall d :: d !in ids ==> (d in s.budget.artifacts <==> d in start)
    ensures lawful ==> LedgerLaw(s.budget, recorded, []) && s == goal
  {
  }

  lemma IdsWithout(open: seq<AgentTask>, k: nat)
    requires k < |open| && DistinctIds(open)
    ensures IdsOf(open) == IdsOf(Without(open, k)) + {open[k].id} && open[k].id !in IdsOf(Without(open, k))
    ensures IdsOf(Without(open, k)) == IdsOf(open) - {open[k].id}
    ensures |Without(open, k)| < |open| && DistinctIds(Without(open, k))
  {
    var rest := Without(open, k);
    forall id ensures id in IdsOf(open) <==> id in IdsOf(rest) || id == open[k].id {
      if j :| 0 <= j < |open| && open[j].id == id && j != k {
        assert rest[if j < k then j else j - 1].id == id;
      }
      if j :| 0 <= j < |rest| && rest[j].id == id {
        assert open[if j < k then j else j + 1].id == id;
      }
      if id == open[k].id {
        assert id in IdsOf(open);
      }
    }
  }

  /** While reserving: what the trace, the open tasks and the rejected ones say about the ids tried so far. */
  ghost predicate ReservingOk(trace: seq<Event>, past: seq<Event>, deps: Deps, tried: seq<Id>, open: seq<AgentTask>,
                              failures: seq<Id>) {
    && Orderly(trace, deps) && (forall e :: e in past ==> e in trace)
    && (forall e :: e in trace ==> e in past || e.id in tried)
    && (forall id :: id in tried ==> Settled(id) in trace || id in IdsOf(open))
    && (forall id :: id in IdsOf(open) ==> id in tried && Settled(id) !in trace)
    && DistinctIds(open)
    && NoRepeats(failures) && forall id :: id in failures <==> id in tried && id !in IdsOf(open)
  }

  lemma ReservingStarts(past: seq<Event>, deps: Deps, before: map<Id, Status>, ids: set<Id>)
    requires Orderly(past, deps)
    ensures ReservingOk(past, past, deps, [], [], []) && SameOutside(before, before, ids)
  {
  }

  lemma ReservingRejects(trace: seq<Event>, past: seq<Event>, deps: Deps, tried: seq<Id>, open: seq<AgentTask>,
                         failures: seq<Id>, id: Id)
    requires ReservingOk(trace, past, deps, tried, open, failures) && id !in tried && Settled(id) !in past
    ensures ReservingOk(trace + [Settled(id)], past, deps, tried + [id], open, failures + [id])
  {
    OrderlyAppend(trace, deps, Settled(id));
    hide Orderly, IdsOf, DistinctIds;
    NoRepeatsAppend(failures, id);
  }

  lemma ReservingAccepts(trace: seq<Event>, past: seq<Event>, deps: Deps, tried: seq<Id>, open: seq<AgentTask>,
                         failures: seq<Id>, task: AgentTask)
    requires ReservingOk(trace, past, deps, tried, open, failures) && task.id !in tried
    requires Started(task.id) !in past && Settled(task.id) !in past
    requires task.id in deps && forall d :: d in deps[task.id] ==> Settled(d) in past
    ensures ReservingOk(trace + [Started(task.id)], past, deps, tried + [task.id], open + [task], failures)
  {
    OrderlyAppend(trace, deps, Started(task.id));
    IdsAppend(open, task);
    DistinctAppend(open, task);
    hide Orderly, IdsOf, DistinctIds, NoRepeats;
  }

  lemma ReservingDone(trace: seq<Event>, past: seq<Event>, deps: Deps, tried: seq<Id>, open: seq<AgentTask>,
                      failures: seq<Id>)
    requires ReservingOk(trace, past, deps, tried, open, failures)
    ensures Orderly(trace, deps) && (forall e :: e in past ==> e in trace)
    ensures forall e :: e in trace ==> e in past || e.id in tried
    ensures forall id :: id in tried ==> Settled(id) in trace || id in IdsOf(open)
    ensures forall id :: id in IdsOf(open) ==> id in tried && Settled(id) !in trace
    ensures DistinctIds(open)
    ensures NoRepeats(failures) && forall id :: id in failures <==> id in tried && id !in IdsOf(open)
  {
  }

  lemma DistinctAppend(open: seq<AgentTask>, task: AgentTask)
    requires DistinctIds(open) && task.id !in IdsOf(open)
    ensures DistinctIds(open + [task])
  {
    assert forall k :: 0 <= k < |open| ==> open[k].id in IdsOf(open);
  }

  lemma NewInPrefix(ids: seq<Id>, n: nat)
    requires NoRepeats(ids) && n < |ids|
    ensures ids[n] !in ids[..n]
  {
  }

  lemma NoRepeatsAppend(ids: seq<Id>, id: Id)
    requires NoRepeats(ids) && id !in ids
    ensures NoRepeats(ids + [id])
  {
  }

  lemma NoRepeatsJoin(a: seq<Id>, b: seq<Id>)
    requires NoRepeats(a) && NoRepeats(b) && forall id :: id in a ==> id !in b
    ensures NoRepeats(a + b)
  {
    forall j, k | 0 <= j < |a| && 0 <= k < |b| ensures a[j] != b[k] {
      assert a[j] in a && b[k] in b;
    }
  }

  ghost predicate NoRepeats(layer: seq<Id>) {
    forall j, k :: 0 <= j < k < |layer| ==> layer[j] != layer[k]
  }
}
