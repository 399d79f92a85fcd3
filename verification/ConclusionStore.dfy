/** Conclusion runs and their fenced in-memory store: idempotent reserve, compare-and-swap save, atomic commit. */
module ConclusionStore {
  import opened Wrappers

  datatype RunState = Received | BundleRequested | BundleFrozen | Synthesizing | Validating | Succeeded | Failed

  function Successors(s: RunState): set<RunState> {
    match s
    case Received => {BundleRequested, Failed}
    case BundleRequested => {BundleFrozen, Failed}
    case BundleFrozen => {Synthesizing, Failed}
    case Synthesizing => {Validating, Failed}
    case Validating => {Succeeded, Failed}
    case Succeeded => {}
    case Failed => {}
  }

  datatype ConclusionId = ConclusionId(text: string)

  datatype IdempotencyKey = IdempotencyKey(text: string)

  datatype Seal = Seal(content: string)

  /** `payload` stands for the frozen bundle, model ids, result and error code. */
  datatype Run = Run(id: ConclusionId, key: IdempotencyKey, rawHash: string, state: RunState, version: int,
                     seal: Option<Seal>, payload: string)
  {
    /** `None` is the raised state conflict. */
    function Transition(target: RunState): (r: Option<Run>) {
      if target !in Successors(state) then None
      else Some(this.(state := target, version := version + 1))
    }
  }

  datatype Citation = Citation(finding: int, knowledge: string, evidence: string, quoteHash: string)

  const ABSENT_SEAL_DIGEST := "knowledge-conclusion.sealed-response.absent.v1"

  type Digest = Seal -> string

  function DigestForCompare(run: Run, digest: Digest): string {
    if run.seal.None? || digest(run.seal.value) == "" then ABSENT_SEAL_DIGEST else digest(run.seal.value)
  }

  datatype Store = Store(runs: map<ConclusionId, Run>, byKey: map<IdempotencyKey, ConclusionId>,
                         citations: map<ConclusionId, seq<Citation>>)

  datatype Outcome = Returned(run: Run) | IdempotencyConflict | Fenced | DuplicateCitation

  datatype Result = Result(store: Store, outcome: Outcome)

  function ReserveIn(s: Store, run: Run): Result
    requires run.key in s.byKey ==> s.byKey[run.key] in s.runs
  {
    if run.key in s.byKey then
      var prior := s.runs[s.byKey[run.key]];
      Result(s, if prior.rawHash != run.rawHash then IdempotencyConflict else Returned(prior))
    else
      Result(s.(byKey := s.byKey[run.key := run.id], runs := s.runs[run.id := run]), Returned(run))
  }

  /** The compare half of the compare-and-swap; no expected digest means no digest comparison. */
  predicate Passes(s: Store, id: ConclusionId, expected: int, expectedSeal: Option<string>, digest: Digest) {
    && id in s.runs && s.runs[id].version == expected
    && (expectedSeal.Some? ==> DigestForCompare(s.runs[id], digest) == expectedSeal.value)
  }

  function SaveIn(s: Store, run: Run, expected: int, expectedSeal: Option<string>, digest: Digest): Result {
    if !Passes(s, run.id, expected, expectedSeal, digest) then Result(s, Fenced)
    else Result(s.(runs := s.runs[run.id := run]), Returned(run))
  }

  predicate DistinctRows(rows: seq<Citation>) {
    forall j, k :: 0 <= j < k < |rows| ==>
      (rows[j].finding, rows[j].knowledge, rows[j].evidence) != (rows[k].finding, rows[k].knowledge, rows[k].evidence)
  }

  function CommitIn(s: Store, run: Run, rows: seq<Citation>, expected: int, expectedSeal: Option<string>,
                    digest: Digest): Result
  {
    if !Passes(s, run.id, expected, expectedSeal, digest) then Result(s, Fenced)
    else if s.runs[run.id].state == Succeeded then Result(s, Returned(s.runs[run.id]))
    else if !DistinctRows(rows) then Result(s, DuplicateCitation)
    else Result(s.(runs := s.runs[run.id := run], citations := s.citations[run.id := rows]), Returned(run))
  }

  class InMemoryRepository {
    const digest: Digest
    var runs: map<ConclusionId, Run>
    var byKey: map<IdempotencyKey, ConclusionId>
    var citations: map<ConclusionId, seq<Citation>>

    ghost function View(): Store
      reads this
    {
      Store(runs, byKey, citations)
    }

    constructor (digest: Digest)
      ensures View() == Store(map[], map[], map[])
    {
      this.digest := digest;
      runs, byKey, citations := map[], map[], map[];
    }

    method Reserve(run: Run) returns (outcome: Outcome)
      requires run.key in byKey ==> byKey[run.key] in runs
      modifies this
      ensures Result(View(), outcome) == ReserveIn(old(View()), run)
    {
      if run.key in byKey {
        var prior := runs[byKey[run.key]];
        return if prior.rawHash != run.rawHash then IdempotencyConflict else Returned(prior);
      }
      byKey := byKey[run.key := run.id];
      runs := runs[run.id := run];
      return Returned(run);
    }

    method Save(run: Run, expected: int, expectedSeal: Option<string>) returns (outcome: Outcome)
      modifies this
      ensures Result(View(), outcome) == SaveIn(old(View()), run, expected, expectedSeal, digest)
    {
      if run.id !in runs || runs[run.id].version != expected
         || (expectedSeal.Some? && DigestForCompare(runs[run.id], digest) != expectedSeal.value) {
        return Fenced;
      }
      runs := runs[run.id := run];
      return Returned(run);
    }

    method CommitResult(run: Run, rows: seq<Citation>, expected: int, expectedSeal: Option<string>)
      returns (outcome: Outcome)
      modifies this
      ensures Result(View(), outcome) == CommitIn(old(View()), run, rows, expected, expectedSeal, digest)
    {
      if run.id !in runs || runs[run.id].version != expected
         || (expectedSeal.Some? && DigestForCompare(runs[run.id], digest) != expectedSeal.value) {
        return Fenced;
      }
      if runs[run.id].state == Succeeded {
        return Returned(runs[run.id]);
      }
      // The source compares the size of the set of row keys with the number of rows.
      var keys := set k | 0 <= k < |rows| :: (rows[k].finding, rows[k].knowledge, rows[k].evidence);
      KeyCount(rows);
      if |keys| != |rows| {
        return DuplicateCitation;
      }
      runs := runs[run.id := run];
      citations := citations[run.id := rows];
      return Returned(run);
    }
  }

  function RowKeys(rows: seq<Citation>): set<(int, string, string)> {
    set k | 0 <= k < |rows| :: (rows[k].finding, rows[k].knowledge, rows[k].evidence)
  }

  function KeyOf(row: Citation): (int, string, string) { (row.finding, row.knowledge, row.evidence) }

  lemma RowKeysGrow(rows: seq<Citation>, row: Citation)
    ensures RowKeys(rows + [row]) == RowKeys(rows) + {KeyOf(row)}
  {
    var all := rows + [row];
    forall x ensures x in RowKeys(all) <==> x in RowKeys(rows) || x == KeyOf(row) {
      if k :| 0 <= k < |rows| && x == KeyOf(rows[k]) {
        assert all[k] == rows[k];
      }
      assert all[|rows|] == row;
    }
  }

  lemma DistinctGrows(rows: seq<Citation>, row: Citation)
    ensures DistinctRows(rows + [row]) <==> DistinctRows(rows) && KeyOf(row) !in RowKeys(rows)
  {
    var all := rows + [row];
    assert forall k :: 0 <= k < |rows| ==> all[k] == rows[k] && KeyOf(rows[k]) in RowKeys(rows);
    if k :| 0 <= k < |rows| && KeyOf(rows[k]) == KeyOf(row) {
      assert !DistinctRows(all) by { assert KeyOf(all[k]) == KeyOf(all[|rows|]); }
    }
    if !DistinctRows(rows) {
      var j, k :| 0 <= j < k < |rows| && KeyOf(rows[j]) == KeyOf(rows[k]);
      assert KeyOf(all[j]) == KeyOf(all[k]);
    }
  }

  lemma {:induction false} KeyCount(rows: seq<Citation>)
    ensures |RowKeys(rows)| <= |rows|
    ensures |RowKeys(rows)| == |rows| <==> DistinctRows(rows)
  {
    if rows != [] {
      var n := |rows| - 1;
      KeyCount(rows[..n]);
      assert rows == rows[..n] + [rows[n]];
      RowKeysGrow(rows[..n], rows[n]);
      DistinctGrows(rows[..n], rows[n]);
      hide RowKeys, DistinctRows, KeyOf;
    }
  }

  // ---- Many workers --------------------------------------------------------------------

  /** The store together with every run it ever held, per id, in the order written. */
  datatype World = World(store: Store, history: map<ConclusionId, seq<Run>>)

  /** What a worker does with a run it read at some earlier point. */
  datatype Action =
    | Reserve(run: Run)
    | Advance(read: Run, target: RunState, seal: Option<Seal>, payload: string, expectedSeal: Option<string>)
    | SealAttempt(read: Run, sealed: Seal, expectedSeal: Option<string>)
    | Commit(read: Run, rows: seq<Citation>, payload: string, expectedSeal: Option<string>)

  /** Reservations carry fresh ids; every other write starts from a run that was once stored. */
  ghost predicate Enabled(w: World, a: Action) {
    match a
    case Reserve(run) => run.state == Received && run.version == 0 && run.id !in w.history
    case Advance(read, target, _, _, _) =>
      read.id in w.history && read in w.history[read.id] && read.Transition(target).Some? && target != Succeeded
    case SealAttempt(read, _, _) =>
      read.id in w.history && read in w.history[read.id] && (read.state == Synthesizing || read.state == Validating)
    case Commit(read, _, _, _) =>
      read.id in w.history && read in w.history[read.id] && read.Transition(Succeeded).Some?
  }

  /** The run after a transition; a refused one raises before anything is stored. */
  function Moved(run: Run, target: RunState): Run {
    match run.Transition(target)
    case Some(moved) => moved
    case None => run
  }

  /** The run an enabled action tries to store. */
  function Staged(a: Action): Run {
    match a
    case Reserve(run) => run
    case Advance(read, target, seal, payload, _) => Moved(read.(seal := seal, payload := payload), target)
    case SealAttempt(read, sealed, _) => read.(seal := Some(sealed), version := read.version + 1)
    case Commit(read, _, payload, _) => Moved(read.(payload := payload), Succeeded)
  }

  function Perform(s: Store, a: Action, digest: Digest): Result
    requires forall key :: key in s.byKey ==> s.byKey[key] in s.runs
  {
    match a
    case Reserve(run) => ReserveIn(s, run)
    case Advance(read, _, _, _, expectedSeal) => SaveIn(s, Staged(a), read.version, expectedSeal, digest)
    case SealAttempt(read, _, expectedSeal) => SaveIn(s, Staged(a), read.version, expectedSeal, digest)
    case Commit(read, rows, _, expectedSeal) => CommitIn(s, Staged(a), rows, read.version, expectedSeal, digest)
  }

  function Step(w: World, a: Action, digest: Digest): World
    requires forall key :: key in w.store.byKey ==> w.store.byKey[key] in w.store.runs
  {
    var r := Perform(w.store, a, digest);
    var run := Staged(a);
    World(r.store,
          if r.store == w.store then w.history
          else w.history[run.id := (if run.id in w.history then w.history[run.id] else []) + [run]])
  }

  /** One write to a run: a transition of the table, or a sealed attempt inside the two model states. */
  ghost predicate IsEdge(a: Run, b: Run) {
    && b.id == a.id && b.key == a.key && b.rawHash == a.rawHash && b.version == a.version + 1
    && (b.state in Successors(a.state) || (b.state == a.state && (a.state == Synthesizing || a.state == Validating)))
  }

  ghost predicate IsPath(h: seq<Run>, id: ConclusionId) {
    && h != [] && h[0].state == Received && h[0].id == id
    && (forall k :: 0 <= k < |h| ==> h[k].version == k && h[k].id == id)
    && (forall k :: 0 <= k < |h| - 1 ==> IsEdge(h[k], h[k + 1]))
  }

  ghost predicate PathsInv(w: World) {
    && w.store.runs.Keys == w.history.Keys
    && forall id :: id in w.history ==>
         IsPath(w.history[id], id) && w.history[id][|w.history[id]| - 1] == w.store.runs[id]
  }

  ghost predicate KeysInv(s: Store) {
    && (forall key :: key in s.byKey ==> s.byKey[key] in s.runs && s.runs[s.byKey[key]].key == key)
    && (forall id :: id in s.runs ==> s.runs[id].key in s.byKey && s.byKey[s.runs[id].key] == id)
  }

  /** Citations are stored for exactly the succeeded runs. */
  ghost predicate CitationsInv(s: Store) {
    forall id :: id in s.runs && s.runs[id].state == Succeeded <==> id in s.citations
  }

  ghost predicate Inv(w: World) { PathsInv(w) && KeysInv(w.store) && CitationsInv(w.store) }

  predicate Terminal(s: RunState) { s == Succeeded || s == Failed }

  lemma TerminalIffNoSuccessor(s: RunState)
    ensures Terminal(s) <==> Successors(s) == {}
  {
    if s == Received { assert BundleRequested in Successors(s); }
    assert !Terminal(s) ==> Failed in Successors(s);
  }

  /** A write that passes the version check was based on the run that is stored now. */
  lemma PassingReadIsCurrent(w: World, read: Run)
    requires Inv(w) && read.id in w.history && read in w.history[read.id]
    requires w.store.runs[read.id].version == read.version
    ensures read == w.store.runs[read.id]
  {
    var h := w.history[read.id];
    var k :| 0 <= k < |h| && h[k] == read;
  }

  /** So comparing the digest captured with the same read adds no fence to the version check. */
  lemma CapturedDigestNeverFences(w: World, read: Run, digest: Digest)
    requires Inv(w) && read.id in w.history && read in w.history[read.id]
    ensures Passes(w.store, read.id, read.version, Some(DigestForCompare(read, digest)), digest)
       <==> Passes(w.store, read.id, read.version, None, digest)
  {
    if w.store.runs[read.id].version == read.version {
      PassingReadIsCurrent(w, read);
    }
  }

  /**
   * A caller that saw an empty slot is fenced as soon as a seal is stored, unless the digest collides with the
   * marker.
   */
  lemma AbsentMarkerFences(s: Store, id: ConclusionId, expected: int, digest: Digest)
    requires id in s.runs && s.runs[id].version == expected
    ensures Passes(s, id, expected, Some(ABSENT_SEAL_DIGEST), digest) <==>
              || s.runs[id].seal.None?
              || digest(s.runs[id].seal.value) in {"", ABSENT_SEAL_DIGEST}
  {
  }

  lemma ReserveKeepsInv(w: World, run: Run)
    requires Inv(w) && Enabled(w, Reserve(run)) && run.key !in w.store.byKey
    ensures Inv(Opened(w, run))
  {
    ReserveKeepsPaths(w, run);
    ReserveKeepsStore(w.store, run);
    hide PathsInv, KeysInv, CitationsInv;
  }

  lemma ReserveKeepsPaths(w: World, run: Run)
    requires PathsInv(w) && run.state == Received && run.version == 0 && run.id !in w.history
    ensures PathsInv(Opened(w, run))
  {
    assert IsPath([run], run.id);
    hide IsPath;
  }

  lemma ReserveKeepsStore(s: Store, run: Run)
    requires KeysInv(s) && CitationsInv(s) && run.id !in s.runs && run.key !in s.byKey && run.state == Received
    ensures var next := s.(byKey := s.byKey[run.key := run.id], runs := s.runs[run.id := run]);
            KeysInv(next) && CitationsInv(next)
  {
  }

  /** The effect of an accepted write on the world. */
  function Written(w: World, run: Run, citations: map<ConclusionId, seq<Citation>>): World
    requires run.id in w.history
  {
    World(w.store.(runs := w.store.runs[run.id := run], citations := citations),
          w.history[run.id := w.history[run.id] + [run]])
  }

  lemma WriteKeepsInv(w: World, run: Run, citations: map<ConclusionId, seq<Citation>>)
    requires Inv(w) && run.id in w.history && IsEdge(w.store.runs[run.id], run)
    requires citations.Keys == w.store.citations.Keys + (if run.state == Succeeded then {run.id} else {})
    ensures Inv(Written(w, run, citations))
  {
    WriteKeepsPaths(w, run, citations);
    WriteKeepsStore(w.store, run, citations);
    hide PathsInv, KeysInv, CitationsInv, IsEdge;
  }

  lemma WriteKeepsStore(s: Store, run: Run, citations: map<ConclusionId, seq<Citation>>)
    requires KeysInv(s) && CitationsInv(s) && run.id in s.runs && IsEdge(s.runs[run.id], run)
    requires citations.Keys == s.citations.Keys + (if run.state == Succeeded then {run.id} else {})
    ensures var next := s.(runs := s.runs[run.id := run], citations := citations); KeysInv(next) && CitationsInv(next)
  {
    assert s.runs[run.id].state != Succeeded;
  }

  lemma WriteKeepsPaths(w: World, run: Run, citations: map<ConclusionId, seq<Citation>>)
    requires PathsInv(w) && run.id in w.history && IsEdge(w.store.runs[run.id], run)
    ensures PathsInv(Written(w, run, citations))
  {
    var h := w.history[run.id];
    ExtendPath(h, run);
    hide IsPath, IsEdge;
    var next := Written(w, run, citations);
    assert next.history[run.id][|h|] == run;
  }

  /** The effect of an accepted reservation. */
  function Opened(w: World, run: Run): World {
    World(w.store.(byKey := w.store.byKey[run.key := run.id], runs := w.store.runs[run.id := run]),
          w.history[run.id := [run]])
  }

  /** A step changes nothing, opens a fresh run, or appends one legal write to the current run. */
  lemma StepShape(w: World, a: Action, digest: Digest)
    requires Inv(w) && Enabled(w, a)
    ensures var run, next := Staged(a), Step(w, a, digest);
            || next == w
            || (a.Reserve? && run.id !in w.history && run.key !in w.store.byKey && next == Opened(w, run))
            || (!a.Reserve? && run.id in w.history && run.id in w.store.runs && IsEdge(w.store.runs[run.id], run)
                && next.store.citations.Keys == w.store.citations.Keys +
                  (if run.state == Succeeded then {run.id} else {})
                && next == Written(w, run, next.store.citations))
  {
    var run, next := Staged(a), Step(w, a, digest);
    if next.store != w.store {
      if a.Reserve? {
        assert [] + [run] == [run];
      } else {
        PassingReadIsCurrent(w, a.read);
        assert IsEdge(a.read, run);
      }
    }
  }

  /** Every step of every worker keeps the invariant. */
  lemma StepKeepsInv(w: World, a: Action, digest: Digest)
    requires Inv(w) && Enabled(w, a)
    ensures Inv(Step(w, a, digest))
  {
    hide Step, Perform;
    var run, next := Staged(a), Step(w, a, digest);
    StepShape(w, a, digest);
    if next != w {
      if a.Reserve? {
        ReserveKeepsInv(w, run);
      } else {
        WriteKeepsInv(w, run, next.store.citations);
      }
    }
  }

  lemma ExtendPath(h: seq<Run>, run: Run)
    requires IsPath(h, run.id) && IsEdge(h[|h| - 1], run)
    ensures IsPath(h + [run], run.id)
  {
    var all := h + [run];
    forall k | 0 <= k < |all| - 1 ensures IsEdge(all[k], all[k + 1]) {
      assert k < |h| - 1 ==> IsEdge(h[k], h[k + 1]);
    }
  }

  /** A finished run never changes again. */
  lemma TerminalRunsStay(w: World, a: Action, digest: Digest, id: ConclusionId)
    requires Inv(w) && Enabled(w, a) && id in w.store.runs && Terminal(w.store.runs[id].state)
    ensures id in Step(w, a, digest).store.runs && Step(w, a, digest).store.runs[id] == w.store.runs[id]
  {
    hide Step, Perform, Inv;
    InvMeans(w);
    StepShape(w, a, digest);
    if Step(w, a, digest) != w {
      assert a.Reserve? || !Terminal(w.store.runs[Staged(a).id].state);
    }
  }

  lemma InvMeans(w: World)
    requires Inv(w)
    ensures w.store.runs.Keys == w.history.Keys
    ensures forall key :: key in w.store.byKey ==> w.store.byKey[key] in w.store.runs
  {
  }

  /** A write staged from a run keeps its id and raises its version by one. */
  lemma StagedNext(w: World, a: Action)
    requires Enabled(w, a) && !a.Reserve?
    ensures Staged(a).id == a.read.id && Staged(a).version == a.read.version + 1
  {
  }

  lemma StaleIsFenced(s: Store, b: Action, digest: Digest)
    requires forall key :: key in s.byKey ==> s.byKey[key] in s.runs
    requires !b.Reserve? && Staged(b).id == b.read.id
    requires b.read.id in s.runs ==> s.runs[b.read.id].version != b.read.version
    ensures Perform(s, b, digest) == Result(s, Fenced)
  {
    hide Staged, DistinctRows, DigestForCompare;
  }

  lemma ChangedWorld(w: World, a: Action, digest: Digest)
    requires forall key :: key in w.store.byKey ==> w.store.byKey[key] in w.store.runs
    requires Perform(w.store, a, digest).store != w.store
    ensures Step(w, a, digest) != w
  {
    hide Perform, Staged;
  }

  /** Of two writers that read the same version, at most the first changes the store. */
  lemma SecondWriterIsFenced(w: World, a: Action, b: Action, digest: Digest)
    requires Inv(w) && Enabled(w, a) && Enabled(w, b) && !a.Reserve? && !b.Reserve?
    requires a.read.id == b.read.id && a.read.version == b.read.version
    requires Perform(w.store, a, digest).store != w.store
    ensures var after := Step(w, a, digest);
            && (forall key :: key in after.store.byKey ==> after.store.byKey[key] in after.store.runs)
            && Perform(after.store, b, digest) == Result(after.store, Fenced)
  {
    StepKeepsInv(w, a, digest);
    StepShape(w, a, digest);
    StagedNext(w, a);
    StagedNext(w, b);
    ChangedWorld(w, a, digest);
    hide Perform, Step, Inv, Enabled, Staged;
    InvMeans(Step(w, a, digest));
    StaleIsFenced(Step(w, a, digest).store, b, digest);
  }

  // ---- Whole runs ----------------------------------------------------------------------

  /** Any interleaving: each action is enabled when it happens. */
  ghost predicate Schedule(w: World, actions: seq<Action>, digest: Digest)
    requires Inv(w)
    decreases |actions|
  {
    actions == [] ||
    (Enabled(w, actions[0]) &&
     (StepKeepsInv(w, actions[0], digest); Schedule(Step(w, actions[0], digest), actions[1..], digest)))
  }

  ghost function Play(w: World, actions: seq<Action>, digest: Digest): (r: World)
    requires Inv(w) && Schedule(w, actions, digest)
    ensures Inv(r)
    decreases |actions|
  {
    if actions == [] then w
    else
      StepKeepsInv(w, actions[0], digest);
      Play(Step(w, actions[0], digest), actions[1..], digest)
  }

  ghost predicate Prefix(a: seq<Run>, b: seq<Run>) { |a| <= |b| && b[..|a|] == a }

  /** What every interleaving guarantees about the past it started from. */
  ghost predicate Preserves(w: World, r: World) {
    && (forall id :: id in w.history ==> id in r.history && Prefix(w.history[id], r.history[id]))
    && (forall key :: key in w.store.byKey ==> key in r.store.byKey && r.store.byKey[key] == w.store.byKey[key])
    && (forall id :: id in w.store.runs && Terminal(w.store.runs[id].state) ==>
          id in r.store.runs && r.store.runs[id] == w.store.runs[id])
  }

  lemma StepPreserves(w: World, a: Action, digest: Digest)
    requires Inv(w) && Enabled(w, a)
    ensures Preserves(w, Step(w, a, digest))
  {
    hide Step, Perform, IsPath, Staged;
    StepShape(w, a, digest);
    var run, next := Staged(a), Step(w, a, digest);
    if next != w && !a.Reserve? {
      WrittenPreserves(w, run, next.store.citations);
    } else if next != w {
      OpenedPreserves(w, run);
    }
  }

  lemma WrittenPreserves(w: World, run: Run, citations: map<ConclusionId, seq<Citation>>)
    requires run.id in w.history && run.id in w.store.runs && IsEdge(w.store.runs[run.id], run)
    ensures Preserves(w, Written(w, run, citations))
  {
    var h := w.history[run.id];
    assert (h + [run])[..|h|] == h;
    forall id | id in w.history ensures Prefix(w.history[id], Written(w, run, citations).history[id]) {
      assert w.history[id][..|w.history[id]|] == w.history[id];
    }
    TerminalIffNoSuccessor(w.store.runs[run.id].state);
    hide Successors, Prefix;
  }

  lemma OpenedPreserves(w: World, run: Run)
    requires run.id !in w.history && run.id !in w.store.runs && run.key !in w.store.byKey
    ensures Preserves(w, Opened(w, run))
  {
    forall id | id in w.history ensures Prefix(w.history[id], w.history[id]) {
      assert w.history[id][..|w.history[id]|] == w.history[id];
    }
    hide Prefix;
  }

  /** Under every interleaving histories only grow, keys keep their conclusion, and finished runs stay. */
  lemma {:induction false} PlayPreserves(w: World, actions: seq<Action>, digest: Digest)
    requires Inv(w) && Schedule(w, actions, digest)
    ensures Preserves(w, Play(w, actions, digest))
    decreases |actions|
  {
    if actions != [] {
      StepKeepsInv(w, actions[0], digest);
      var next := Step(w, actions[0], digest);
      StepPreserves(w, actions[0], digest);
      PlayPreserves(next, actions[1..], digest);
      PreservesTransitive(w, next, Play(w, actions, digest));
    }
  }

  lemma PreservesTransitive(a: World, b: World, c: World)
    requires Preserves(a, b) && Preserves(b, c)
    ensures Preserves(a, c)
  {
    forall id | id in a.history ensures id in c.history && Prefix(a.history[id], c.history[id]) {
      var x, y, z := a.history[id], b.history[id], c.history[id];
      assert z[..|x|] == z[..|y|][..|x|];
    }
  }

  /** The key maps to this conclusion, which carries this request hash. */
  ghost predicate Holds(w: World, key: IdempotencyKey, id: ConclusionId, rawHash: string) {
    && key in w.store.byKey && w.store.byKey[key] == id && id in w.store.runs && id in w.history
    && w.store.runs[id].rawHash == rawHash && w.store.runs[id].id == id
  }

  lemma ReservationHolds(w: World, first: Run, digest: Digest)
    requires Inv(w) && Enabled(w, Reserve(first)) && Perform(w.store, Reserve(first), digest).outcome.Returned?
    ensures Holds(Step(w, Reserve(first), digest), first.key,
                  Perform(w.store, Reserve(first), digest).outcome.run.id, first.rawHash)
  {
    if first.key in w.store.byKey {
      FirstRun(w, w.store.byKey[first.key]);
    }
  }

  lemma HoldsForever(w: World, actions: seq<Action>, digest: Digest, key: IdempotencyKey, id: ConclusionId,
                     rawHash: string)
    requires Inv(w) && Schedule(w, actions, digest) && Holds(w, key, id, rawHash)
    ensures Holds(Play(w, actions, digest), key, id, rawHash)
  {
    PlayPreserves(w, actions, digest);
    var later := Play(w, actions, digest);
    FirstRun(w, id);
    FirstRun(later, id);
    assert w.history[id] == later.history[id][..|w.history[id]|];
  }

  /** While a key is held, reserving it returns the held conclusion, or conflicts on a different request. */
  lemma HeldKeyAnswers(w: World, id: ConclusionId, rawHash: string, again: Run)
    requires Holds(w, again.key, id, rawHash)
    ensures ReserveIn(w.store, again)
         == Result(w.store, if again.rawHash == rawHash then Returned(w.store.runs[id]) else IdempotencyConflict)
    ensures w.store.runs[id].id == id
  {
  }

  /** Once a reservation succeeded, its key is held for the same conclusion under every interleaving that follows. */
  lemma ReservationsOfOneKeyAgree(w: World, first: Run, actions: seq<Action>, digest: Digest)
    requires Inv(w) && Enabled(w, Reserve(first)) && Perform(w.store, Reserve(first), digest).outcome.Returned?
    requires Inv(Step(w, Reserve(first), digest)) && Schedule(Step(w, Reserve(first), digest), actions, digest)
    ensures Holds(Play(Step(w, Reserve(first), digest), actions, digest), first.key,
                  Perform(w.store, Reserve(first), digest).outcome.run.id, first.rawHash)
  {
    ReservationHolds(w, first, digest);
    hide Perform, Step, Schedule, Play, Holds;
    HoldsForever(Step(w, Reserve(first), digest), actions, digest, first.key,
                 Perform(w.store, Reserve(first), digest).outcome.run.id, first.rawHash);
  }

  /** The identity fields of a stored run are those of the first run of its history. */
  lemma FirstRun(w: World, id: ConclusionId)
    requires Inv(w) && id in w.history
    ensures w.store.runs[id].rawHash == w.history[id][0].rawHash && w.store.runs[id].id == id
  {
    SameIdentity(w.history[id], id, |w.history[id]| - 1);
  }

  lemma {:induction false} SameIdentity(h: seq<Run>, id: ConclusionId, k: nat)
    requires IsPath(h, id) && k < |h|
    ensures h[k].rawHash == h[0].rawHash && h[k].key == h[0].key
  {
    if k > 0 {
      SameIdentity(h, id, k - 1);
      assert IsEdge(h[k - 1], h[k - 1 + 1]);
    }
  }

  /** Versions only grow: a write staged from an outdated read stays fenced whatever the other workers do next. */
  lemma OutdatedStaysFenced(w: World, actions: seq<Action>, b: Action, digest: Digest)
    requires Inv(w) && Schedule(w, actions, digest) && !b.Reserve? && Staged(b).id == b.read.id
    requires b.read.id in w.store.runs && b.read.version < w.store.runs[b.read.id].version
    ensures var later := Play(w, actions, digest);
            && (forall key :: key in later.store.byKey ==> later.store.byKey[key] in later.store.runs)
            && Perform(later.store, b, digest) == Result(later.store, Fenced)
  {
    var later, id := Play(w, actions, digest), b.read.id;
    PlayPreserves(w, actions, digest);
    InvMeans(w);
    InvMeans(later);
    StoredVersion(w, id);
    StoredVersion(later, id);
    hide Perform, Play, Schedule, Inv, Staged;
    StaleIsFenced(later.store, b, digest);
  }

  lemma StoredVersion(w: World, id: ConclusionId)
    requires Inv(w) && id in w.history
    ensures id in w.store.runs && w.store.runs[id].version == |w.history[id]| - 1
  {
  }

  /** Of two writers that read the same version, the second is fenced after any further interleaving as well. */
  lemma SecondWriterStaysFenced(w: World, a: Action, b: Action, actions: seq<Action>, digest: Digest)
    requires Inv(w) && Enabled(w, a) && Enabled(w, b) && !a.Reserve? && !b.Reserve?
    requires a.read.id == b.read.id && a.read.version == b.read.version
    requires Perform(w.store, a, digest).store != w.store
    requires Inv(Step(w, a, digest)) && Schedule(Step(w, a, digest), actions, digest)
    ensures var later := Play(Step(w, a, digest), actions, digest);
            && (forall key :: key in later.store.byKey ==> later.store.byKey[key] in later.store.runs)
            && Perform(later.store, b, digest) == Result(later.store, Fenced)
  {
    StepShape(w, a, digest);
    StagedNext(w, a);
    StagedNext(w, b);
    ChangedWorld(w, a, digest);
    hide Perform, Step, Inv, Enabled, Staged, Play, Schedule;
    OutdatedStaysFenced(Step(w, a, digest), actions, b, digest);
  }

  /** The repository before anything was reserved. */
  ghost function Empty(): (w: World)
    ensures Inv(w)
  {
    World(Store(map[], map[], map[]), map[])
  }

  /**
   * Under every interleaving from an empty repository: the runs stored for an id form a path of transitions whose
   * versions count the writes, the key of a run leads to it alone, and citations exist exactly for succeeded runs.
   */
  lemma EveryScheduleKeepsOrder(actions: seq<Action>, digest: Digest, id: ConclusionId)
    requires Schedule(Empty(), actions, digest) && id in Play(Empty(), actions, digest).store.runs
    ensures var w := Play(Empty(), actions, digest);
            && id in w.history && IsPath(w.history[id], id)
            && w.store.runs[id] == w.history[id][|w.history[id]| - 1]
            && w.store.runs[id].version == |w.history[id]| - 1
            && (w.store.runs[id].state == Succeeded <==> id in w.store.citations)
            && (forall key :: key in w.store.byKey && w.store.byKey[key] == id <==> key == w.store.runs[id].key)
  {
    assert Inv(Play(Empty(), actions, digest));
    hide Play, Schedule, IsEdge;
  }
}
