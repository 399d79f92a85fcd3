/** Decision replay v2: what a runner's output may change, and what the audit record says changed. */
module Replay {
  import opened Wrappers
  import Text

  /** The keys of segments, runner results and overrides that the replay looks at. */
  datatype Key =
    | Bundle | Evidence | ModelIdentity | SkillIdentity | PolicyVersion | WorkflowVersion | PolicyEvaluation
    | Model | Skill | Policy | Workflow | Runtime | Specialists | Conflicts | Proposal | ProposalHash | Output | Final
    | FixedFields | Artifacts | AppliedOverrides | Overrides | FinalDecision | Payload | Identity
    | Exact | Counterfactual | CounterfactualOverrides
    | MarketRegime | RiskParameter | PortfolioState | Strategy
    | Action | Approved | Decision | Other(name: string)

  datatype Json =
    | Null | Flag(b: bool) | Number(n: real) | Text(s: string) | Items(items: seq<Json>) | Object(fields: Segments)

  type Segments = map<Key, Json>

  datatype Component = Exactly | TheModel | TheSkill | ThePolicy | TheWorkflow | Overriding

  /** An injected runner seen through the one call the replay makes. */
  datatype Runner = Missing | Raises | Returns(result: Json)

  function Get(m: Segments, key: Key): Json { if key in m then m[key] else Null }

  function At(j: Json, key: Key): Json { if j.Object? then Get(j.fields, key) else Null }

  predicate IsTruthy(j: Json) {
    match j
    case Null => false
    case Flag(b) => b
    case Number(n) => n != 0.0
    case Text(s) => s != ""
    case Items(items) => items != []
    case Object(fields) => fields != map[]
  }

  predicate IsFilledObject(j: Json) { j.Object? && j.fields != map[] }

  /** The segment a component's replacement is filed under. */
  function SlotOf(component: Component): Key {
    match component
    case Exactly => Exact
    case TheModel => Model
    case TheSkill => Skill
    case ThePolicy => Policy
    case TheWorkflow => Workflow
    case Overriding => Counterfactual
  }

  /** The field that names a component's identity. */
  function IdentityOf(component: Component): Key {
    match component
    case TheModel => ModelIdentity
    case TheSkill => SkillIdentity
    case ThePolicy => PolicyVersion
    case TheWorkflow => WorkflowVersion
    case Exactly => Exact
    case Overriding => CounterfactualOverrides
  }

  predicate IsReplacing(component: Component) { component != Exactly && component != Overriding }

  // ---- Applying a runner's result ---------------------------------------------------------

  const COPIED: seq<Key> :=
    [Model, Skill, ModelIdentity, SkillIdentity, Policy, PolicyEvaluation, PolicyVersion, Workflow, WorkflowVersion,
     Runtime, Proposal, Output, Final, Specialists, Artifacts, Conflicts, AppliedOverrides]

  function Copied(into: Segments, from: Segments, keys: seq<Key>): Segments {
    if keys == [] then into
    else
      var n := |keys| - 1;
      var before := Copied(into, from, keys[..n]);
      if keys[n] in from then before[keys[n] := from[keys[n]]] else before
  }

  function VersionIn(replacement: Json): Json {
    if replacement.Object? then Get(replacement.fields, PolicyVersion) else replacement
  }

  /** The requested replacement as the component's identity. */
  function Identified(component: Component, segments: Segments, replacement: Json): Segments {
    match component
    case TheModel => segments[ModelIdentity := replacement][Model := replacement]
    case TheSkill => segments[SkillIdentity := replacement][Skill := replacement]
    case ThePolicy => segments[PolicyVersion := VersionIn(replacement)]
    case TheWorkflow => segments[WorkflowVersion := replacement][Workflow := replacement]
    case Exactly => segments
    case Overriding => segments
  }

  function Slotted(component: Component, baseline: Segments, replacement: Json): Segments {
    var slot := SlotOf(component);
    baseline[slot := if replacement != Null then replacement else Get(baseline, slot)]
  }

  /** Specialists and the policy fall back on their other names; a version inside the policy wins. */
  function Versioned(segments: Segments, result: Segments): Segments {
    var useArtifacts := Artifacts in result && Specialists !in result;
    var a := if useArtifacts then segments[Specialists := result[Artifacts]] else segments;
    var b := if PolicyEvaluation in result && Policy !in result then a[Policy := result[PolicyEvaluation]] else a;
    var c := if PolicyEvaluation in result then b[PolicyEvaluation := result[PolicyEvaluation]] else b;
    var version := At(Get(c, Policy), PolicyVersion);
    if version != Null then c[PolicyVersion := version] else c
  }

  function Aliased(segments: Segments, result: Segments): Segments {
    var a := if ModelIdentity in result then segments[Model := Get(segments, ModelIdentity)] else segments;
    var b := if SkillIdentity in result then a[Skill := Get(a, SkillIdentity)] else a;
    if WorkflowVersion in result then b[Workflow := Get(b, WorkflowVersion)] else b
  }

  function HashOf(hash: Json -> string, proposal: Json): Json {
    Text(hash(if proposal.Object? && Payload in proposal.fields then proposal.fields[Payload] else proposal))
  }

  predicate IsEnvelope(result: Segments) {
    || Model in result || Skill in result || Policy in result || Workflow in result || Runtime in result
    || Proposal in result || Output in result || Final in result || Specialists in result || Conflicts in result
    || FinalDecision in result
  }

  /** The proposal's hash is recomputed; the final decision is taken out of the output or of the result itself. */
  function Concluded(hash: Json -> string, component: Component, segments: Segments, result: Segments): Segments {
    var a := if Proposal in result then segments[ProposalHash := HashOf(hash, result[Proposal])] else segments;
    var b := if Output in result && result[Output].Object? && FinalDecision in result[Output].fields
             then a[Final := result[Output].fields[FinalDecision]]
             else if FinalDecision in result then a[Output := Object(result)][Final := result[FinalDecision]] else a;
    if !IsEnvelope(result) && (Action in result || Approved in result || Decision in result || component == Overriding)
    then b[Output := Object(result)] else b
  }

  function Applied(hash: Json -> string, component: Component, baseline: Segments, result: Json,
                   replacement: Json): Segments {
    var start := Identified(component, Slotted(component, baseline, replacement), replacement);
    if !result.Object? then start[Output := result]
    else
      var f := result.fields;
      Identified(component, Concluded(hash, component, Aliased(Versioned(Copied(start, f, COPIED), f), f), f),
                 replacement)
  }

  method ApplyRunnerResult(hash: Json -> string, component: Component, baseline: Segments, result: Json,
                           replacement: Json)
    returns (replayed: Segments)
    ensures replayed == Applied(hash, component, baseline, result, replacement)
  {
    var slot := SlotOf(component);
    replayed := baseline[slot := if replacement != Null then replacement else Get(baseline, slot)];
    replayed := Identified(component, replayed, replacement);
    if !result.Object? {
      return replayed[Output := result];
    }
    var f := result.fields;
    ghost var start := replayed;
    for i := 0 to |COPIED|
      invariant replayed == Copied(start, f, COPIED[..i])
    {
      assert COPIED[..i + 1][..i] == COPIED[..i];
      if COPIED[i] in f {
        replayed := replayed[COPIED[i] := f[COPIED[i]]];
      }
    }
    assert COPIED[..|COPIED|] == COPIED;
    replayed := Versioned(replayed, f);
    replayed := Aliased(replayed, f);
    replayed := Concluded(hash, component, replayed, f);
    replayed := Identified(component, replayed, replacement);
  }

  lemma {:induction false} CopiedAt(into: Segments, from: Segments, keys: seq<Key>, key: Key)
    ensures key in Copied(into, from, keys) <==> key in into || (key in keys && key in from)
    ensures Get(Copied(into, from, keys), key) == if key in keys && key in from then from[key] else Get(into, key)
  {
    if keys != [] {
      var n := |keys| - 1;
      CopiedAt(into, from, keys[..n], key);
      assert keys == keys[..n] + [keys[n]];
    }
  }

  /** What a field that names the decision's inputs holds after a runner's result, read off the result alone. */
  function Settled(hash: Json -> string, component: Component, baseline: Segments, f: Segments, replacement: Json,
                   field: Key): Json {
    if IsReplacing(component) && field == IdentityOf(component) then
      if component == ThePolicy then VersionIn(replacement) else replacement
    else if (field == ModelIdentity || field == SkillIdentity || field == WorkflowVersion) && field in f then f[field]
    else if field == ProposalHash && Proposal in f then HashOf(hash, f[Proposal])
    else if field == PolicyVersion then
      var inPolicy := At(PolicySaid(baseline, f), PolicyVersion);
      if inPolicy != Null then inPolicy
      else if PolicyVersion in f then f[PolicyVersion]
      else Get(baseline, PolicyVersion)
    else Get(baseline, field)
  }

  /** The policy a runner reports, under either name, or the recorded one. */
  function PolicySaid(baseline: Segments, f: Segments): Json {
    if Policy in f then f[Policy] else if PolicyEvaluation in f then f[PolicyEvaluation] else Get(baseline, Policy)
  }

  predicate NamesInput(field: Key) {
    || field == Bundle || field == Evidence || field == ModelIdentity || field == SkillIdentity
    || field == PolicyVersion || field == WorkflowVersion || field == ProposalHash
  }

  lemma StartAt(component: Component, baseline: Segments, replacement: Json, field: Key)
    requires NamesInput(field) || (field == Policy && component != ThePolicy)
    ensures var start := Identified(component, Slotted(component, baseline, replacement), replacement);
            !IsReplacing(component) || field != IdentityOf(component) ==> Get(start, field) == Get(baseline, field)
  {
  }

  lemma CopiedKeys(field: Key)
    ensures NamesInput(field) ==> (field in COPIED <==>
              field == ModelIdentity || field == SkillIdentity || field == PolicyVersion || field == WorkflowVersion)
    ensures Policy in COPIED
  {
    var c := COPIED;
    assert c[2] == ModelIdentity && c[3] == SkillIdentity && c[4] == Policy && c[6] == PolicyVersion &&
      c[8] == WorkflowVersion;
  }

  lemma VersionedAt(segments: Segments, f: Segments, field: Key)
    requires NamesInput(field)
    ensures field != PolicyVersion ==> Get(Versioned(segments, f), field) == Get(segments, field)
    ensures var policy := if PolicyEvaluation in f && Policy !in f then f[PolicyEvaluation] else Get(segments, Policy);
            var version := At(policy, PolicyVersion);
            Get(Versioned(segments, f), PolicyVersion) ==
              if version != Null then version else Get(segments, PolicyVersion)
  {
  }

  lemma AliasedKeeps(segments: Segments, f: Segments, field: Key)
    requires field != Model && field != Skill && field != Workflow
    ensures Get(Aliased(segments, f), field) == Get(segments, field)
  {
  }

  lemma ConcludedAt(hash: Json -> string, component: Component, segments: Segments, f: Segments, field: Key)
    requires field != Output && field != Final
    ensures Get(Concluded(hash, component, segments, f), field) ==
            if field == ProposalHash && Proposal in f then HashOf(hash, f[Proposal]) else Get(segments, field)
  {
    hide IsEnvelope, HashOf;
  }

  lemma IdentifiedAt(component: Component, segments: Segments, replacement: Json, field: Key)
    requires NamesInput(field)
    ensures Get(Identified(component, segments, replacement), field)
         == if IsReplacing(component) && field == IdentityOf(component)
            then if component == ThePolicy then VersionIn(replacement) else replacement
            else Get(segments, field)
  {
  }

  /** The closed form: which inputs a runner can move, and to what. */
  lemma AppliedSettles(hash: Json -> string, component: Component, baseline: Segments, f: Segments, replacement: Json,
                       field: Key)
    requires NamesInput(field)
    ensures Get(Applied(hash, component, baseline, Object(f), replacement), field)
         == Settled(hash, component, baseline, f, replacement, field)
  {
    hide Applied;
    if field == PolicyVersion {
      VersionSettles(hash, component, baseline, f, replacement);
    } else {
      OtherSettles(hash, component, baseline, f, replacement, field);
    }
  }

  lemma OtherSettles(hash: Json -> string, component: Component, baseline: Segments, f: Segments, replacement: Json,
                     field: Key)
    requires NamesInput(field) && field != PolicyVersion
    ensures Get(Applied(hash, component, baseline, Object(f), replacement), field)
         == Settled(hash, component, baseline, f, replacement, field)
  {
    hide Identified, Slotted, Copied, Versioned, Aliased, Concluded, HashOf, COPIED, PolicySaid;
    var start := Identified(component, Slotted(component, baseline, replacement), replacement);
    var copied := Copied(start, f, COPIED);
    var aliased := Aliased(Versioned(copied, f), f);
    StartAt(component, baseline, replacement, field);
    CopiedKeys(field);
    CopiedAt(start, f, COPIED, field);
    VersionedAt(copied, f, field);
    AliasedKeeps(Versioned(copied, f), f, field);
    ConcludedAt(hash, component, aliased, f, field);
    IdentifiedAt(component, Concluded(hash, component, aliased, f), replacement, field);
  }

  lemma VersionSettles(hash: Json -> string, component: Component, baseline: Segments, f: Segments, replacement: Json)
    ensures Get(Applied(hash, component, baseline, Object(f), replacement), PolicyVersion)
         == Settled(hash, component, baseline, f, replacement, PolicyVersion)
  {
    hide Identified, Slotted, Copied, Versioned, Aliased, Concluded, HashOf, COPIED, At, VersionIn;
    var start := Identified(component, Slotted(component, baseline, replacement), replacement);
    var copied := Copied(start, f, COPIED);
    var aliased := Aliased(Versioned(copied, f), f);
    StartAt(component, baseline, replacement, PolicyVersion);
    CopiedKeys(PolicyVersion);
    CopiedAt(start, f, COPIED, PolicyVersion);
    CopiedAt(start, f, COPIED, Policy);
    if component != ThePolicy {
      StartAt(component, baseline, replacement, Policy);
    }
    VersionedAt(copied, f, PolicyVersion);
    AliasedKeeps(Versioned(copied, f), f, PolicyVersion);
    ConcludedAt(hash, component, aliased, f, PolicyVersion);
    IdentifiedAt(component, Concluded(hash, component, aliased, f), replacement, PolicyVersion);
  }

  // ---- Checking a runner's result ---------------------------------------------------------

  function PolicyReported(f: Segments): Json { if PolicyEvaluation in f then f[PolicyEvaluation] else Get(f, Policy) }

  function FinalReported(f: Segments): Json {
    if Final in f then f[Final] else if Output in f then f[Output] else Get(f, FinalDecision)
  }

  predicate HasPolicy(f: Segments) { PolicyEvaluation in f || Policy in f }

  predicate HasFinal(f: Segments) { Final in f || Output in f || FinalDecision in f }

  function Canonical(hash: Json -> string, value: Json, component: Component): string {
    var key := match component
      case ThePolicy => PolicyVersion
      case TheWorkflow => WorkflowVersion
      case _ => Identity;
    hash(if value.Object? && key in value.fields then value.fields[key] else value)
  }

  /** The identity a runner echoes, if any. */
  function Echoed(component: Component, f: Segments): Json {
    match component
    case TheModel => if ModelIdentity in f then f[ModelIdentity] else Get(f, Model)
    case TheSkill => if SkillIdentity in f then f[SkillIdentity] else Get(f, Skill)
    case TheWorkflow => if WorkflowVersion in f then f[WorkflowVersion] else Get(f, Workflow)
    case ThePolicy => if Get(f, PolicyVersion) != Null then f[PolicyVersion] else At(PolicyReported(f), PolicyVersion)
    case Exactly => Null
    case Overriding => Null
  }

  predicate EchoAgrees(hash: Json -> string, component: Component, f: Segments, replacement: Json) {
    var echo := Echoed(component, f);
    echo != Null ==> Canonical(hash, echo, component) == Canonical(hash, replacement, component)
  }

  predicate IsComplete(f: Segments) { IsFilledObject(Get(f, Proposal)) && HasPolicy(f) && HasFinal(f) }

  /** What each component's runner must return. */
  predicate MeetsComponent(hash: Json -> string, component: Component, f: Segments, baseline: Segments) {
    match component
    case Exactly => IsComplete(f)
    case TheModel => IsComplete(f) && At(PolicyReported(f), PolicyVersion) == Get(baseline, PolicyVersion)
    case TheSkill => IsComplete(f) && At(PolicyReported(f), PolicyVersion) == Get(baseline, PolicyVersion)
    case ThePolicy =>
      HasPolicy(f) && HasFinal(f) && (Proposal in f ==> HashOf(hash, f[Proposal]) == Get(baseline, ProposalHash))
    case TheWorkflow =>
      && (Specialists in f || Artifacts in f) && Conflicts in f && IsComplete(f)
      && At(PolicyReported(f), PolicyVersion) == Get(baseline, PolicyVersion)
    case Overriding => HasFinal(f) && (AppliedOverrides in f || Overrides in f)
  }

  predicate Accepts(hash: Json -> string, component: Component, result: Json, baseline: Segments, replacement: Json) {
    && result.Object?
    && var f := result.fields;
       && (HasPolicy(f) ==> PolicyReported(f).Object? && IsTruthy(At(PolicyReported(f), PolicyVersion)))
       && (HasFinal(f) ==> IsFilledObject(FinalReported(f)))
       && MeetsComponent(hash, component, f, baseline)
       && EchoAgrees(hash, component, f, replacement)
  }

  // ---- Fixed and changed fields -----------------------------------------------------------

  function FixedBy(component: Component): seq<Key> {
    match component
    case Exactly => [Bundle, Evidence, ModelIdentity, SkillIdentity, PolicyVersion, WorkflowVersion]
    case TheModel => [Bundle, Evidence, SkillIdentity, PolicyVersion, WorkflowVersion]
    case TheSkill => [Bundle, Evidence, ModelIdentity, PolicyVersion, WorkflowVersion]
    case ThePolicy => [Bundle, Evidence, ModelIdentity, SkillIdentity, WorkflowVersion, ProposalHash]
    case TheWorkflow => [Bundle, Evidence, ModelIdentity, SkillIdentity, PolicyVersion]
    case Overriding => [Bundle, Evidence, ModelIdentity, SkillIdentity, WorkflowVersion]
  }

  const COMPARED: seq<Key> :=
    [ModelIdentity, SkillIdentity, PolicyVersion, WorkflowVersion, PolicyEvaluation, Runtime, Specialists, Conflicts,
     ProposalHash, Proposal, Output, Final, MarketRegime, RiskParameter, PortfolioState, Strategy]

  predicate Differs(baseline: Segments, replayed: Segments, field: Key) { Get(baseline, field) != Get(replayed, field) }

  predicate KeepsFixed(component: Component, baseline: Segments, replayed: Segments) {
    forall i :: 0 <= i < |FixedBy(component)| ==> !Differs(baseline, replayed, FixedBy(component)[i])
  }

  /** A declared field is listed when it differs or the baseline never had it. */
  predicate IsSelected(baseline: Segments, replayed: Segments, field: Key) {
    field !in baseline || Differs(baseline, replayed, field)
  }

  predicate IsFound(baseline: Segments, replayed: Segments, field: Key) {
    field in baseline && field in replayed && Differs(baseline, replayed, field)
  }

  function Select(baseline: Segments, replayed: Segments, declared: seq<Key>): seq<Key> {
    if declared == [] then []
    else
      (if IsSelected(baseline, replayed, declared[0]) then [declared[0]] else [])
      + Select(baseline, replayed, declared[1..])
  }

  function Find(baseline: Segments, replayed: Segments, compared: seq<Key>, except: seq<Key>): seq<Key> {
    if compared == [] then []
    else
      (if IsFound(baseline, replayed, compared[0]) && compared[0] !in except then [compared[0]] else [])
      + Find(baseline, replayed, compared[1..], except)
  }

  /** Later repetitions drop out. */
  function Unique(fields: seq<Key>): seq<Key> {
    if fields == [] then []
    else
      var n := |fields| - 1;
      var before := Unique(fields[..n]);
      if fields[n] in before then before else before + [fields[n]]
  }

  function ChangedFields(baseline: Segments, replayed: Segments, declared: seq<Key>): seq<Key> {
    var selected := Select(baseline, replayed, declared);
    Unique(selected + Find(baseline, replayed, COMPARED, selected))
  }

  function Without(fields: seq<Key>, except: seq<Key>): seq<Key> {
    if fields == [] then []
    else (if fields[0] in except then [] else [fields[0]]) + Without(fields[1..], except)
  }

  lemma {:induction false} SelectHas(baseline: Segments, replayed: Segments, declared: seq<Key>, field: Key)
    ensures field in Select(baseline, replayed, declared) <==>
              field in declared && IsSelected(baseline, replayed, field)
  {
    if declared != [] {
      SelectHas(baseline, replayed, declared[1..], field);
      assert declared == [declared[0]] + declared[1..];
    }
  }

  lemma {:induction false} FindHas(baseline: Segments, replayed: Segments, compared: seq<Key>, except: seq<Key>,
                                   field: Key)
    ensures field in Find(baseline, replayed, compared, except)
       <==> field in compared && field !in except && IsFound(baseline, replayed, field)
  {
    if compared != [] {
      FindHas(baseline, replayed, compared[1..], except, field);
      assert compared == [compared[0]] + compared[1..];
    }
  }

  lemma {:induction false} UniqueHas(fields: seq<Key>, field: Key)
    ensures field in Unique(fields) <==> field in fields
  {
    if fields != [] {
      UniqueHas(fields[..|fields| - 1], field);
      UniqueHas(fields[..|fields| - 1], fields[|fields| - 1]);
      assert fields == fields[..|fields| - 1] + [fields[|fields| - 1]];
    }
  }

  lemma {:induction false} WithoutHas(fields: seq<Key>, except: seq<Key>, field: Key)
    ensures field in Without(fields, except) <==> field in fields && field !in except
  {
    if fields != [] {
      WithoutHas(fields[1..], except, field);
      assert fields == [fields[0]] + fields[1..];
    }
  }

  /** A field is reported changed exactly when it is declared or compared and differs, or is declared and new. */
  lemma ChangedExactly(baseline: Segments, replayed: Segments, declared: seq<Key>, field: Key)
    ensures field in ChangedFields(baseline, replayed, declared) <==>
              || (field in declared && IsSelected(baseline, replayed, field))
              || (field in COMPARED && IsFound(baseline, replayed, field))
  {
    hide Select, Find, Unique, COMPARED;
    var selected := Select(baseline, replayed, declared);
    SelectHas(baseline, replayed, declared, field);
    FindHas(baseline, replayed, COMPARED, selected, field);
    UniqueHas(selected + Find(baseline, replayed, COMPARED, selected), field);
  }

  // ---- The audit record -------------------------------------------------------------------

  datatype Verification = FullReplay | IntegrityOnly

  datatype Failure = InvalidRequest | RunnerRequired | InputInvalid | ExactMismatch

  datatype Diff = Diff(field: Key, baseline: Json, replayed: Json, changed: bool)

  datatype Result = Result(
    decisionId: string, mode: Component, succeeded: bool, isMatch: bool, verification: Verification,
    counterfactual: bool, fixedFields: seq<Key>, changedFields: seq<Key>, diffs: seq<Diff>, replayed: Segments,
    error: Option<Failure>)

  /** The validators of a result and of its diffs. */
  predicate MeetsContract(r: Result) {
    && r.decisionId != ""
    && (!r.succeeded ==> r.error.Some?)
    && (r.counterfactual ==> r.mode == Overriding)
    && (r.mode == Overriding && r.succeeded ==> r.counterfactual)
    && (forall i :: 0 <= i < |r.fixedFields| ==> r.fixedFields[i] !in r.changedFields)
    && (forall i :: 0 <= i < |r.diffs| ==>
          && r.diffs[i].field in r.changedFields
          && r.diffs[i].changed == (r.diffs[i].baseline != r.diffs[i].replayed))
  }

  function Success(decisionId: string, mode: Component, baseline: Segments, replayed: Segments, declared: seq<Key>,
      verification: Verification, requireMatch: bool): Result {
    var changed := ChangedFields(baseline, replayed, declared);
    var diffs := seq(|changed|, i requires 0 <= i < |changed| =>
      Diff(changed[i], Get(baseline, changed[i]), Get(replayed, changed[i]), Differs(baseline, replayed, changed[i])));
    var same := forall i :: 0 <= i < |diffs| ==> !diffs[i].changed;
    Result(decisionId, mode, !requireMatch || same, same, verification, mode == Overriding,
           Without(FixedBy(mode), changed), changed, diffs, replayed,
           if requireMatch && !same then Some(ExactMismatch) else None)
  }

  function Rejected(decisionId: string, mode: Component, error: Failure): Result {
    Result(decisionId, mode, false, false, FullReplay, false, [], [], [], map[], Some(error))
  }

  /** Whatever the runner did, the success record passes the validators; it matches when no listed field differs. */
  lemma SuccessMeetsContract(decisionId: string, mode: Component, baseline: Segments, replayed: Segments,
      declared: seq<Key>, verification: Verification, requireMatch: bool)
    requires decisionId != ""
    ensures var r := Success(decisionId, mode, baseline, replayed, declared, verification, requireMatch);
            && MeetsContract(r)
            && (r.isMatch <==> forall field :: field in r.changedFields ==> !Differs(baseline, replayed, field))
            && (forall field :: field in r.fixedFields <==> field in FixedBy(mode) && field !in r.changedFields)
  {
    hide FixedBy, ChangedFields, Without;
    var changed := ChangedFields(baseline, replayed, declared);
    forall field ensures field in Without(FixedBy(mode), changed) <==> field in FixedBy(mode) && field !in changed {
      WithoutHas(FixedBy(mode), changed, field);
    }
    var r := Success(decisionId, mode, baseline, replayed, declared, verification, requireMatch);
    assert forall i :: 0 <= i < |changed| ==> r.diffs[i].changed == Differs(baseline, replayed, changed[i]);
    if r.isMatch {
      forall field | field in changed ensures !Differs(baseline, replayed, field) {
        var i :| 0 <= i < |changed| && changed[i] == field;
        assert !r.diffs[i].changed;
      }
    }
  }

  // ---- One replay -------------------------------------------------------------------------

  /** The keys a counterfactual may override, in sorted order. */
  const OVERRIDABLE: seq<Key> := [MarketRegime, Policy, PortfolioState, RiskParameter, Strategy]

  predicate RequestOk(decisionId: string, component: Component, overrides: Segments) {
    && Text.Trim(decisionId) != ""
    && match component
       case Exactly => overrides == map[]
       case Overriding => overrides != map[] && forall key :: key in overrides ==> key in OVERRIDABLE
       case _ => overrides.Keys == {SlotOf(component)}
  }

  function Declared(overrides: Segments, keys: seq<Key>): seq<Key> {
    if keys == [] then []
    else (if keys[0] in overrides then [keys[0]] else []) + Declared(overrides, keys[1..])
  }

  /** A counterfactual's replayed segments: the runner's result, the record of the overrides, then each override. */
  function Overridden(hash: Json -> string, baseline: Segments, result: Json, overrides: Segments): Segments {
    Applied(hash, Overriding, baseline, result, Object(overrides))[CounterfactualOverrides := Object(overrides)] +
      overrides
  }

  method ApplyOverrides(hash: Json -> string, baseline: Segments, result: Json, overrides: Segments)
    returns (replayed: Segments)
    ensures replayed == Overridden(hash, baseline, result, overrides)
  {
    hide Applied, Except;
    replayed := ApplyRunnerResult(hash, Overriding, baseline, result, Object(overrides));
    replayed := replayed[CounterfactualOverrides := Object(overrides)];
    ghost var before := replayed;
    ExceptEnds(before, overrides);
    var todo := overrides.Keys;
    while todo != {}
      invariant todo <= overrides.Keys
      invariant replayed == before + Except(overrides, todo)
      decreases |todo|
    {
      var key :| key in todo;
      ExceptStep(before, overrides, todo, key);
      replayed := replayed[key := overrides[key]];
      todo := todo - {key};
    }
  }

  function Except(overrides: Segments, todo: set<Key>): Segments {
    map key | key in overrides && key !in todo :: overrides[key]
  }

  lemma ExceptEnds(before: Segments, overrides: Segments)
    ensures before + Except(overrides, overrides.Keys) == before
    ensures Except(overrides, {}) == overrides
  {
  }

  lemma ExceptStep(before: Segments, overrides: Segments, todo: set<Key>, key: Key)
    requires key in overrides && key in todo
    ensures before + Except(overrides, todo - {key}) == (before + Except(overrides, todo))[key := overrides[key]]
  {
  }

  function OverridesEchoed(f: Segments): Json {
    if AppliedOverrides in f then f[AppliedOverrides] else Get(f, Overrides)
  }

  /** The segments after an accepted result. */
  function Replayed(hash: Json -> string, component: Component, baseline: Segments, result: Json,
                    overrides: Segments): Segments {
    match component
    case Overriding => Overridden(hash, baseline, result, overrides)
    case Exactly => Applied(hash, Exactly, baseline, result, Null)
    case _ => Applied(hash, component, baseline, result, Get(overrides, SlotOf(component)))
  }

  function DeclaredBy(component: Component, overrides: Segments): seq<Key> {
    match component
    case Overriding => Declared(overrides, OVERRIDABLE)
    case Exactly => []
    case _ => [IdentityOf(component)]
  }

  /** Whether a result passes every check made before the record is built. */
  predicate Passes(hash: Json -> string, component: Component, baseline: Segments, result: Json, overrides: Segments) {
    && Accepts(hash, component, result, baseline, Get(overrides, SlotOf(component)))
    && (component == Overriding ==> OverridesEchoed(result.fields) == Object(overrides))
    && (component != Exactly ==>
          KeepsFixed(component, baseline, Replayed(hash, component, baseline, result, overrides)))
  }

  /** The rejection the service builds; for an empty decision id its own validator raises, which is `None`. */
  function Refused(decisionId: string, mode: Component, error: Failure): Option<Result> {
    if decisionId == "" then None else Some(Rejected(decisionId, mode, error))
  }

  method ReplayV2(hash: Json -> string, decisionId: string, component: Component, overrides: Segments, anchored: bool,
                  baseline: Segments, runner: Runner) returns (r: Option<Result>)
    ensures !RequestOk(decisionId, component, overrides) ==> r == Refused(decisionId, component, InvalidRequest)
    ensures RequestOk(decisionId, component, overrides) && !anchored ==>
              r == Some(Rejected(decisionId, component, InputInvalid))
    ensures RequestOk(decisionId, component, overrides) && anchored ==>
              r == Some(match runner
                        case Missing =>
                          if component == Exactly
                          then Success(decisionId, component, baseline, baseline, [], IntegrityOnly, false)
                          else Rejected(decisionId, component,
                                        if component == Overriding then InputInvalid else RunnerRequired)
                        case Raises => Rejected(decisionId, component, InputInvalid)
                        case Returns(result) =>
                          if !Passes(hash, component, baseline, result, overrides)
                          then Rejected(decisionId, component, InputInvalid)
                          else Success(decisionId, component, baseline,
                                       Replayed(hash, component, baseline, result, overrides),
                                       DeclaredBy(component, overrides), FullReplay, component == Exactly))
    ensures r.None? <==> decisionId == ""
    ensures r.Some? ==> MeetsContract(r.value)
  {
    hide Passes, Accepts, Success, Replayed, MeetsContract, KeepsFixed, DeclaredBy;
    if !RequestOk(decisionId, component, overrides) {
      RejectionMeetsContractIff(decisionId, component, InvalidRequest);
      return Refused(decisionId, component, InvalidRequest);
    }
    Nonempty(decisionId);
    RejectionMeetsContractIff(decisionId, component, InputInvalid);
    if !anchored {
      return Some(Rejected(decisionId, component, InputInvalid));
    }
    if runner.Missing? {
      if component == Exactly {
        SuccessMeetsContract(decisionId, component, baseline, baseline, [], IntegrityOnly, false);
        return Some(Success(decisionId, component, baseline, baseline, [], IntegrityOnly, false));
      }
      RejectionMeetsContractIff(decisionId, component, RunnerRequired);
      return Some(Rejected(decisionId, component, if component == Overriding then InputInvalid else RunnerRequired));
    }
    if runner.Raises? {
      return Some(Rejected(decisionId, component, InputInvalid));
    }
    var replayed := RunnerSegments(hash, component, baseline, runner.result, overrides);
    if replayed.None? {
      return Some(Rejected(decisionId, component, InputInvalid));
    }
    var declared := DeclaredBy(component, overrides);
    SuccessMeetsContract(decisionId, component, baseline, replayed.value, declared, FullReplay, component == Exactly);
    r := Some(Success(decisionId, component, baseline, replayed.value, declared, FullReplay, component == Exactly));
  }

  /** Check a runner's result, apply it, and check the fixed fields; `None` is any raised error. */
  method RunnerSegments(hash: Json -> string, component: Component, baseline: Segments, result: Json,
                        overrides: Segments)
    returns (replayed: Option<Segments>)
    ensures replayed.Some? <==> Passes(hash, component, baseline, result, overrides)
    ensures replayed.Some? ==> replayed.value == Replayed(hash, component, baseline, result, overrides)
  {
    hide Accepts, Applied, Overridden, KeepsFixed;
    var replacement := Get(overrides, SlotOf(component));
    if !Accepts(hash, component, result, baseline, replacement) {
      return None;
    }
    AcceptedIsObject(hash, component, baseline, result, replacement);
    var segments;
    if component == Exactly {
      segments := ApplyRunnerResult(hash, component, baseline, result, Null);
      return Some(segments);
    }
    if component == Overriding {
      if OverridesEchoed(result.fields) != Object(overrides) {
        return None;
      }
      segments := ApplyOverrides(hash, baseline, result, overrides);
    } else {
      segments := ApplyRunnerResult(hash, component, baseline, result, replacement);
    }
    replayed := if KeepsFixed(component, baseline, segments) then Some(segments) else None;
  }

  /** A rejection record passes the validators exactly for a non-empty decision id. */
  lemma RejectionMeetsContractIff(decisionId: string, mode: Component, error: Failure)
    ensures MeetsContract(Rejected(decisionId, mode, error)) <==> decisionId != ""
  {
  }

  /** The result neither names another fixed input nor implies one. */
  predicate LeavesFixed(hash: Json -> string, component: Component, baseline: Segments, f: Segments) {
    && (component != TheModel && ModelIdentity in f ==> f[ModelIdentity] == Get(baseline, ModelIdentity))
    && (component != TheSkill && SkillIdentity in f ==> f[SkillIdentity] == Get(baseline, SkillIdentity))
    && (component != TheWorkflow && WorkflowVersion in f ==> f[WorkflowVersion] == Get(baseline, WorkflowVersion))
    && (component != ThePolicy && component != Overriding ==> VersionSaid(baseline, f) == Get(baseline, PolicyVersion))
    && (component == ThePolicy && Proposal in f ==> HashOf(hash, f[Proposal]) == Get(baseline, ProposalHash))
  }

  function VersionSaid(baseline: Segments, f: Segments): Json {
    var inPolicy := At(PolicySaid(baseline, f), PolicyVersion);
    if inPolicy != Null then inPolicy else if PolicyVersion in f then f[PolicyVersion] else Get(baseline, PolicyVersion)
  }

  lemma FixedFieldsAre(component: Component, field: Key)
    ensures field in FixedBy(component) <==>
              || field == Bundle || field == Evidence
              || (field == ModelIdentity && component != TheModel) || (field == SkillIdentity && component != TheSkill)
              || (field == WorkflowVersion && component != TheWorkflow)
              || (field == PolicyVersion && component != ThePolicy && component != Overriding)
              || (field == ProposalHash && component == ThePolicy)
  {
    var c := FixedBy(component);
    assert c[0] == Bundle && c[1] == Evidence;
  }

  /** Overrides never reach an input: those fields are settled as by any other runner. */
  lemma OverriddenSettles(hash: Json -> string, baseline: Segments, f: Segments, overrides: Segments, field: Key)
    requires NamesInput(field) && forall key :: key in overrides ==> key in OVERRIDABLE
    ensures Get(Overridden(hash, baseline, Object(f), overrides), field)
         == Settled(hash, Overriding, baseline, f, Object(overrides), field)
  {
    hide Applied, Settled;
    AppliedSettles(hash, Overriding, baseline, f, Object(overrides), field);
    assert field !in overrides;
  }

  lemma ReplayedSettles(hash: Json -> string, component: Component, baseline: Segments, f: Segments,
                        overrides: Segments, field: Key)
    requires component != Exactly && NamesInput(field)
    requires component == Overriding ==> forall key :: key in overrides ==> key in OVERRIDABLE
    ensures Get(Replayed(hash, component, baseline, Object(f), overrides), field)
         == Settled(hash, component, baseline, f,
              if component == Overriding then Object(overrides) else Get(overrides, SlotOf(component)), field)
  {
    hide Applied, Settled, Overridden;
    if component == Overriding {
      OverriddenSettles(hash, baseline, f, overrides, field);
    } else {
      AppliedSettles(hash, component, baseline, f, Get(overrides, SlotOf(component)), field);
    }
  }

  /** Each fixed field, in terms of the result. */
  predicate Leaves(hash: Json -> string, component: Component, baseline: Segments, f: Segments, field: Key) {
    match field
    case ModelIdentity => ModelIdentity in f ==> f[ModelIdentity] == Get(baseline, ModelIdentity)
    case SkillIdentity => SkillIdentity in f ==> f[SkillIdentity] == Get(baseline, SkillIdentity)
    case WorkflowVersion => WorkflowVersion in f ==> f[WorkflowVersion] == Get(baseline, WorkflowVersion)
    case PolicyVersion => VersionSaid(baseline, f) == Get(baseline, PolicyVersion)
    case ProposalHash => Proposal in f ==> HashOf(hash, f[Proposal]) == Get(baseline, ProposalHash)
    case _ => true
  }

  lemma FixedIsLeft(hash: Json -> string, component: Component, baseline: Segments, f: Segments, overrides: Segments,
                    field: Key)
    requires component != Exactly && field in FixedBy(component)
    requires component == Overriding ==> forall key :: key in overrides ==> key in OVERRIDABLE
    ensures !Differs(baseline, Replayed(hash, component, baseline, Object(f), overrides), field)
       <==> Leaves(hash, component, baseline, f, field)
  {
    hide Replayed, HashOf, FixedBy, Settled, Leaves;
    FixedFieldsAre(component, field);
    ReplayedSettles(hash, component, baseline, f, overrides, field);
    SettledIsLeft(hash, component, baseline, f, if component == Overriding then Object(overrides)
                  else Get(overrides, SlotOf(component)), field);
  }

  lemma SettledIsLeft(hash: Json -> string, component: Component, baseline: Segments, f: Segments, replacement: Json,
                      field: Key)
    requires NamesInput(field) && !(IsReplacing(component) && field == IdentityOf(component))
    ensures Settled(hash, component, baseline, f, replacement, field) == Get(baseline, field) <==>
            Leaves(hash, component, baseline, f, field)
  {
    hide HashOf, At, PolicySaid;
  }

  /** An accepted result gets past the fixed-field check exactly when it leaves every fixed input alone. */
  lemma KeepsFixedIff(hash: Json -> string, component: Component, baseline: Segments, f: Segments, overrides: Segments)
    requires component != Exactly
    requires component == Overriding ==> forall key :: key in overrides ==> key in OVERRIDABLE
    ensures KeepsFixed(component, baseline, Replayed(hash, component, baseline, Object(f), overrides))
       <==> LeavesFixed(hash, component, baseline, f)
  {
    hide Replayed, HashOf, FixedBy, VersionSaid, Differs;
    var replayed := Replayed(hash, component, baseline, Object(f), overrides);
    forall field | field in FixedBy(component)
      ensures !Differs(baseline, replayed, field) <==> Leaves(hash, component, baseline, f, field)
    {
      FixedIsLeft(hash, component, baseline, f, overrides, field);
    }
    FixedFieldsAre(component, ModelIdentity);
    FixedFieldsAre(component, SkillIdentity);
    FixedFieldsAre(component, WorkflowVersion);
    FixedFieldsAre(component, PolicyVersion);
    FixedFieldsAre(component, ProposalHash);
    if LeavesFixed(hash, component, baseline, f) {
      forall field | field in FixedBy(component) ensures Leaves(hash, component, baseline, f, field) {
        FixedFieldsAre(component, field);
      }
    } else if KeepsFixed(component, baseline, replayed) {
      assert forall field :: field in FixedBy(component) ==> !Differs(baseline, replayed, field);
    }
  }

  lemma {:induction false} DeclaredHas(overrides: Segments, keys: seq<Key>, key: Key)
    ensures key in Declared(overrides, keys) <==> key in keys && key in overrides
  {
    if keys != [] {
      DeclaredHas(overrides, keys[1..], key);
      assert keys == [keys[0]] + keys[1..];
    }
  }

  /** No fixed field is ever declared as changed. */
  lemma FixedIsUndeclared(component: Component, overrides: Segments, field: Key)
    requires field in FixedBy(component)
    ensures field !in DeclaredBy(component, overrides)
  {
    FixedFieldsAre(component, field);
    DeclaredHas(overrides, OVERRIDABLE, field);
  }

  /**
   * A replay that passes succeeds, equals the baseline on every fixed field and lists all of them as fixed,
   * and carries exactly the requested replacement or overrides.
   */
  lemma PassedReplayContract(hash: Json -> string, decisionId: string, component: Component, baseline: Segments,
      result: Json, overrides: Segments)
    requires component != Exactly && RequestOk(decisionId, component, overrides)
    requires Passes(hash, component, baseline, result, overrides)
    ensures var replayed := Replayed(hash, component, baseline, result, overrides);
            var r := Success(decisionId, component, baseline, replayed, DeclaredBy(component, overrides), FullReplay,
                             false);
            && MeetsContract(r) && r.succeeded
            && (forall field :: field in FixedBy(component) ==>
              !Differs(baseline, replayed, field) && field in r.fixedFields)
            && (IsReplacing(component) ==>
                  var wanted := Get(overrides, SlotOf(component));
                  Get(replayed, IdentityOf(component)) == if component == ThePolicy then VersionIn(wanted) else wanted)
            && (component == Overriding ==> forall key :: key in overrides ==> Get(replayed, key) == overrides[key])
  {
    hide Accepts, FixedBy, Applied, ChangedFields, Settled, MeetsContract;
    var replayed := Replayed(hash, component, baseline, result, overrides);
    var declared := DeclaredBy(component, overrides);
    Nonempty(decisionId);
    SuccessMeetsContract(decisionId, component, baseline, replayed, declared, FullReplay, false);
    forall field | field in FixedBy(component)
      ensures !Differs(baseline, replayed, field) && field !in ChangedFields(baseline, replayed, declared)
    {
      FixedIsUndeclared(component, overrides, field);
      ChangedExactly(baseline, replayed, declared, field);
    }
    if IsReplacing(component) {
      AcceptedIsObject(hash, component, baseline, result, Get(overrides, SlotOf(component)));
      CarriesIdentity(hash, component, baseline, result, overrides);
    }
  }

  lemma Nonempty(decisionId: string)
    requires Text.Trim(decisionId) != ""
    ensures decisionId != ""
  {
  }

  lemma AcceptedIsObject(hash: Json -> string, component: Component, baseline: Segments, result: Json,
                         replacement: Json)
    requires Accepts(hash, component, result, baseline, replacement)
    ensures result.Object?
  {
  }

  lemma CarriesIdentity(hash: Json -> string, component: Component, baseline: Segments, result: Json,
                        overrides: Segments)
    requires IsReplacing(component) && result.Object?
    ensures var wanted := Get(overrides, SlotOf(component));
            Get(Replayed(hash, component, baseline, result, overrides), IdentityOf(component)) ==
            if component == ThePolicy then VersionIn(wanted) else wanted
  {
    hide Replayed;
    ReplayedSettles(hash, component, baseline, result.fields, overrides, IdentityOf(component));
  }

  // ---- Exact replay -----------------------------------------------------------------------

  lemma AppliedGrows(hash: Json -> string, component: Component, baseline: Segments, f: Segments, replacement: Json,
                     key: Key)
    requires key in baseline
    ensures key in Applied(hash, component, baseline, Object(f), replacement)
  {
    hide COPIED, IsEnvelope, HashOf;
    CopiedAt(Identified(component, Slotted(component, baseline, replacement), replacement), f, COPIED, key);
  }

  /** An exact replay with a runner succeeds exactly when no compared field of the baseline differs. */
  lemma ExactSucceedsIff(hash: Json -> string, decisionId: string, baseline: Segments, f: Segments)
    requires decisionId != ""
    requires forall i :: 0 <= i < |FixedBy(Exactly)| ==> FixedBy(Exactly)[i] in baseline
    ensures var replayed := Applied(hash, Exactly, baseline, Object(f), Null);
            var r := Success(decisionId, Exactly, baseline, replayed, [], FullReplay, true);
            && MeetsContract(r)
            && (r.succeeded <==> forall field :: field in COMPARED && field in baseline ==>
              !Differs(baseline, replayed, field))
            && (r.succeeded ==> r.changedFields == [] && forall field :: field in FixedBy(Exactly) ==>
              !Differs(baseline, replayed, field))
            && (!r.succeeded ==> r.error == Some(ExactMismatch) && r.changedFields != [])
  {
    hide Applied, FixedBy, ChangedFields, MeetsContract, COMPARED;
    var replayed := Applied(hash, Exactly, baseline, Object(f), Null);
    var r := Success(decisionId, Exactly, baseline, replayed, [], FullReplay, true);
    SuccessMeetsContract(decisionId, Exactly, baseline, replayed, [], FullReplay, true);
    forall field ensures field in r.changedFields <==>
      field in COMPARED && field in baseline && Differs(baseline, replayed, field) {
      ChangedExactly(baseline, replayed, [], field);
      if field in baseline {
        AppliedGrows(hash, Exactly, baseline, f, Null, field);
      }
    }
    assert r.changedFields != [] ==> r.changedFields[0] in r.changedFields;
    if r.succeeded {
      forall field | field in FixedBy(Exactly) ensures !Differs(baseline, replayed, field) {
        ExactFixedIsCompared(hash, baseline, f, field);
      }
    }
  }

  /** The two fixed fields that are not compared are out of the runner's reach. */
  lemma ExactFixedIsCompared(hash: Json -> string, baseline: Segments, f: Segments, field: Key)
    requires field in FixedBy(Exactly)
    ensures field in COMPARED || !Differs(baseline, Applied(hash, Exactly, baseline, Object(f), Null), field)
  {
    hide Applied;
    FixedFieldsAre(Exactly, field);
    var c := COMPARED;
    assert c[0] == ModelIdentity && c[1] == SkillIdentity && c[2] == PolicyVersion && c[3] == WorkflowVersion;
    AppliedSettles(hash, Exactly, baseline, f, Null, field);
  }

  // ---- What the record does not say -------------------------------------------------------

  /** Every listed field really differs exactly when no override is null for a field the baseline never had. */
  lemma ListedDiffersIff(hash: Json -> string, decisionId: string, baseline: Segments, result: Json,
                         overrides: Segments)
    requires RequestOk(decisionId, Overriding, overrides)
    ensures var replayed := Overridden(hash, baseline, result, overrides);
            var listed := ChangedFields(baseline, replayed, DeclaredBy(Overriding, overrides));
            (forall field :: field in listed ==> Differs(baseline, replayed, field)) <==>
            (forall key :: key in overrides && key !in baseline ==> overrides[key] != Null)
  {
    hide Applied, ChangedFields, COMPARED;
    var replayed := Overridden(hash, baseline, result, overrides);
    var declared := DeclaredBy(Overriding, overrides);
    forall field
      ensures field in ChangedFields(baseline, replayed, declared) && !Differs(baseline, replayed, field)
         <==> field in overrides && field !in baseline && overrides[field] == Null
    {
      ChangedExactly(baseline, replayed, declared, field);
      DeclaredHas(overrides, OVERRIDABLE, field);
    }
  }
}
