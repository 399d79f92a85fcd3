/** The shared artifact and budget store of agent/shared_context.py, and the reservation law. */
module SharedContexts {
  import opened Wrappers
  import opened AgentGraph

  datatype Status = Pending | Running | Success | Failed | Blocked | BudgetExhausted

  datatype Artifact = Artifact(role: Role, id: Id, status: Status, tools: nat, tokens: nat)

  /** Counters are signed: the subtraction in a commit is not clamped. */
  datatype Budget = Budget(maxTools: int, maxTokens: int, tools: int, tokens: int, artifacts: map<Id, Artifact>)

  predicate Fits(b: Budget, tools: int, tokens: int) {
    b.tools + tools <= b.maxTools && b.tokens + tokens <= b.maxTokens
  }

  function Charge(b: Budget, tools: int, tokens: int): Budget {
    b.(tools := b.tools + tools, tokens := b.tokens + tokens)
  }

  function Record(b: Budget, a: Artifact): Budget
    requires Fits(b, a.tools, a.tokens)
  {
    Charge(b, a.tools, a.tokens).(artifacts := b.artifacts[a.id := a])
  }

  function Release(b: Budget, tools: int, tokens: int): Budget {
    b.(tools := MaxInt(0, b.tools - tools), tokens := MaxInt(0, b.tokens - tokens))
  }

  /** Give the reservation back, then record: the first half stays done when the second is refused. */
  function Commit(b: Budget, tools: int, tokens: int, a: Artifact): Budget {
    var freed := Charge(b, -tools, -tokens);
    if Fits(freed, a.tools, a.tokens) then Record(freed, a) else freed
  }

  predicate CommitFits(b: Budget, tools: int, tokens: int, a: Artifact) {
    Fits(Charge(b, -tools, -tokens), a.tools, a.tokens)
  }

  class SharedContext {
    const maxTools: int
    const maxTokens: int
    var toolUsed: int
    var tokenUsed: int
    var artifacts: map<Id, Artifact>

    ghost function View(): Budget
      reads this
    {
      Budget(maxTools, maxTokens, toolUsed, tokenUsed, artifacts)
    }

    constructor (maxTools: int, maxTokens: int)
      ensures View() == Budget(maxTools, maxTokens, 0, 0, map[])
    {
      this.maxTools, this.maxTokens := maxTools, maxTokens;
      toolUsed, tokenUsed, artifacts := 0, 0, map[];
    }

    /** False stands for the raised BudgetExceeded. */
    method RecordArtifact(a: Artifact) returns (ok: bool)
      modifies this
      ensures ok == Fits(old(View()), a.tools, a.tokens)
      ensures View() == if ok then Record(old(View()), a) else old(View())
    {
      if toolUsed + a.tools > maxTools {
        return false;
      }
      if tokenUsed + a.tokens > maxTokens {
        return false;
      }
      toolUsed, tokenUsed := toolUsed + a.tools, tokenUsed + a.tokens;
      artifacts := artifacts[a.id := a];
      return true;
    }

    method ReserveBudget(tools: int, tokens: int) returns (ok: bool)
      modifies this
      ensures ok == Fits(old(View()), tools, tokens)
      ensures View() == if ok then Charge(old(View()), tools, tokens) else old(View())
    {
      if toolUsed + tools > maxTools || tokenUsed + tokens > maxTokens {
        return false;
      }
      toolUsed, tokenUsed := toolUsed + tools, tokenUsed + tokens;
      return true;
    }

    method CommitBudget(tools: int, tokens: int, a: Artifact) returns (ok: bool)
      modifies this
      ensures ok == CommitFits(old(View()), tools, tokens, a)
      ensures View() == Commit(old(View()), tools, tokens, a)
    {
      toolUsed, tokenUsed := toolUsed - tools, tokenUsed - tokens;
      ok := RecordArtifact(a);
    }

    method ReleaseBudget(tools: int, tokens: int)
      modifies this
      ensures View() == Release(old(View()), tools, tokens)
    {
      toolUsed, tokenUsed := MaxInt(0, toolUsed - tools), MaxInt(0, tokenUsed - tokens);
    }

    method DependencyArtifacts(deps: set<Id>) returns (found: map<Id, Artifact>)
      ensures found == map d | d in deps && d in artifacts :: artifacts[d]
    {
      found := map d | d in deps && d in artifacts :: artifacts[d];
    }
  }

  // ---- The reservation protocol --------------------------------------------------------

  /** What a future delivers: an artifact, or an exception (a budget one or any other). */
  datatype Outcome = Returned(artifact: Artifact) | Raised(budget: bool)

  /** The main thread's handling of one finished future; `persisted` is whether the repository accepted the artifact. */
  function Settle(b: Budget, task: AgentTask, o: Outcome, persisted: bool): Budget {
    match o
    case Raised(_) => Release(b, task.toolBudget, task.tokenBudget)
    case Returned(a) =>
      var committed := Commit(b, task.toolBudget, task.tokenBudget, a);
      if CommitFits(b, task.toolBudget, task.tokenBudget, a) && persisted then committed
      else Release(committed, task.toolBudget, task.tokenBudget)
  }

  predicate Recorded(b: Budget, task: AgentTask, o: Outcome) {
    o.Returned? && CommitFits(b, task.toolBudget, task.tokenBudget, o.artifact)
  }

  function ToolsOf(recorded: seq<Artifact>): int {
    if recorded == [] then 0 else ToolsOf(recorded[..|recorded| - 1]) + recorded[|recorded| - 1].tools
  }

  function TokensOf(recorded: seq<Artifact>): int {
    if recorded == [] then 0 else TokensOf(recorded[..|recorded| - 1]) + recorded[|recorded| - 1].tokens
  }

  function ReservedTools(open: seq<AgentTask>): nat {
    if open == [] then 0 else open[0].toolBudget + ReservedTools(open[1..])
  }

  function ReservedTokens(open: seq<AgentTask>): nat {
    if open == [] then 0 else open[0].tokenBudget + ReservedTokens(open[1..])
  }

  /** Used is recorded usage plus outstanding reservations, within the caps. */
  ghost predicate LedgerLaw(b: Budget, recorded: seq<Artifact>, open: seq<AgentTask>) {
    && b.tools == ToolsOf(recorded) + ReservedTools(open)
    && b.tokens == TokensOf(recorded) + ReservedTokens(open)
    && 0 <= b.tools <= b.maxTools && 0 <= b.tokens <= b.maxTokens
  }

  function Without(open: seq<AgentTask>, k: nat): seq<AgentTask>
    requires k < |open|
  {
    open[..k] + open[k + 1..]
  }

  lemma {:induction false} WithoutReleases(open: seq<AgentTask>, k: nat)
    requires k < |open|
    ensures ReservedTools(Without(open, k)) == ReservedTools(open) - open[k].toolBudget
    ensures ReservedTokens(Without(open, k)) == ReservedTokens(open) - open[k].tokenBudget
  {
    if k == 0 {
      assert Without(open, 0) == open[1..];
    } else {
      WithoutReleases(open[1..], k - 1);
      assert Without(open, k) == [open[0]] + Without(open[1..], k - 1);
    }
  }

  lemma {:induction false} ReservedAppend(open: seq<AgentTask>, task: AgentTask)
    ensures ReservedTools(open + [task]) == ReservedTools(open) + task.toolBudget
    ensures ReservedTokens(open + [task]) == ReservedTokens(open) + task.tokenBudget
  {
    if open == [] {
      assert open + [task] == [task];
    } else {
      assert (open + [task])[1..] == open[1..] + [task];
      ReservedAppend(open[1..], task);
    }
  }

  lemma {:induction false} UsageNonNegative(recorded: seq<Artifact>)
    ensures ToolsOf(recorded) >= 0 && TokensOf(recorded) >= 0
  {
    if recorded != [] {
      UsageNonNegative(recorded[..|recorded| - 1]);
    }
  }

  /** What a settled future adds to the recorded artifacts. */
  function Recording(b: Budget, recorded: seq<Artifact>, task: AgentTask, o: Outcome): seq<Artifact> {
    if Recorded(b, task, o) then recorded + [o.artifact] else recorded
  }

  /** Reserving keeps the law whenever it is accepted. */
  lemma ReserveKeepsLaw(b: Budget, recorded: seq<Artifact>, open: seq<AgentTask>, task: AgentTask)
    requires LedgerLaw(b, recorded, open) && Fits(b, task.toolBudget, task.tokenBudget)
    ensures LedgerLaw(Charge(b, task.toolBudget, task.tokenBudget), recorded, open + [task])
  {
    ReservedAppend(open, task);
  }

  /** Releasing a reservation that is already gone is harmless only if it was empty or nothing else is left. */
  predicate HarmlessRelease(freed: int, reserved: int) { reserved == 0 || freed == 0 }

  /**
   * Settling keeps the law exactly when the outcome is an exception, or commits and persists, or the second
   * release finds nothing: for each counter the task reserved none of it, or no one else has used or reserved
   * any and the artifact, if it was recorded, used none.
   */
  lemma SettleKeepsLawIff(b: Budget, recorded: seq<Artifact>, open: seq<AgentTask>, k: nat, o: Outcome, persisted: bool)
    requires LedgerLaw(b, recorded, open) && k < |open|
    ensures var task, fits := open[k], Recorded(b, open[k], o);
            LedgerLaw(Settle(b, task, o, persisted), Recording(b, recorded, task, o), Without(open, k)) <==>
              || o.Raised?
              || (fits && persisted)
              || (&& HarmlessRelease(b.tools - task.toolBudget + (if fits then o.artifact.tools else 0),
                                     task.toolBudget)
                  && HarmlessRelease(b.tokens - task.tokenBudget + (if fits then o.artifact.tokens else 0),
                                     task.tokenBudget))
  {
    WithoutReleases(open, k);
    UsageNonNegative(recorded);
    if o.Returned? {
      var more := recorded + [o.artifact];
      assert more[..|more| - 1] == recorded;
    }
  }

  /** Staying within the reservation always commits. */
  lemma WithinReservationCommits(b: Budget, recorded: seq<Artifact>, open: seq<AgentTask>, k: nat, a: Artifact)
    requires LedgerLaw(b, recorded, open) && k < |open|
    requires a.tools <= open[k].toolBudget && a.tokens <= open[k].tokenBudget
    ensures CommitFits(b, open[k].toolBudget, open[k].tokenBudget, a)
  {
  }

  /** Two tasks, one over its reservation: the usage that is reported in the end hides a recorded artifact. */
  lemma OverspendHidesUsage()
    ensures var a, b := AgentTask(Id(1), Market, 5, 0), AgentTask(Id(2), Risk, 5, 0);
            var fair, greedy := Artifact(Market, Id(1), Success, 5, 0), Artifact(Risk, Id(2), Success, 7, 0);
            var start := Charge(Charge(Budget(10, 0, 0, 0, map[]), 5, 0), 5, 0);
            var fairFirst := Settle(Settle(start, a, Returned(fair), true), b, Returned(greedy), true);
            var greedyFirst := Settle(Settle(start, b, Returned(greedy), true), a, Returned(fair), true);
            && fairFirst.artifacts == map[Id(1) := fair] && fairFirst.tools == 0
            && Charge(Settle(start, b, Returned(greedy), true), -5, 0).tools == -5
            && greedyFirst.artifacts == map[Id(1) := fair] && greedyFirst.tools == 0
  {
  }
}
