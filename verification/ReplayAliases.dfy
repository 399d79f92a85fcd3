/** Replay v2 keeps identities, the policy and the workflow under two names: which changes its record leaves out. */
module ReplayAliases {
  import opened Wrappers
  import opened Replay
  import Text

  /** The parts of a recorded snapshot that a replay is anchored to. */
  datatype Snapshot = Snapshot(bundle: Json, evidence: Json, model: Json, skill: Json, policy: Segments,
                               runtime: Segments, specialists: Json, conflicts: Json, proposal: Segments,
                               output: Segments)

  /** The baseline: identities, the policy and the workflow each appear under two names. */
  function SegmentsOf(s: Snapshot): Segments { InputsOf(s) + OutcomesOf(s) + IdentitiesOf(s) + AliasesOf(s) }

  function InputsOf(s: Snapshot): Segments {
    map[Bundle := s.bundle, Evidence := s.evidence, Runtime := Object(s.runtime), Specialists := s.specialists,
        Conflicts := s.conflicts]
  }

  function OutcomesOf(s: Snapshot): Segments {
    map[Proposal := Get(s.proposal, Payload), ProposalHash := Get(s.proposal, ProposalHash),
        Output := Object(s.output), Final := Get(s.output, FinalDecision), FixedFields := Items([])]
  }

  function IdentitiesOf(s: Snapshot): Segments {
    map[ModelIdentity := s.model, SkillIdentity := s.skill, PolicyVersion := Get(s.policy, PolicyVersion),
        WorkflowVersion := Get(s.runtime, WorkflowVersion), PolicyEvaluation := Object(s.policy)]
  }

  function AliasesOf(s: Snapshot): Segments {
    map[Model := s.model, Skill := s.skill, Policy := Object(s.policy), Workflow := Get(s.runtime, WorkflowVersion)]
  }

  /** The second name of an identity, of the policy or of the workflow. */
  predicate IsAlias(field: Key) { field == Model || field == Skill || field == Policy || field == Workflow }

  function TwinOf(alias: Key): Key {
    match alias
    case Model => ModelIdentity
    case Skill => SkillIdentity
    case Workflow => WorkflowVersion
    case _ => PolicyEvaluation
  }

  predicate IsReplaced(component: Component, alias: Key) { alias != Policy && SlotOf(component) == alias }

  /** What an alias holds after a result: the replacement, else the identity reported, else the alias reported. */
  function AliasSaid(component: Component, baseline: Segments, f: Segments, replacement: Json, alias: Key): Json {
    if IsReplaced(component, alias) then replacement
    else if alias == Policy && (Policy in f || PolicyEvaluation in f) then PolicySaid(baseline, f)
    else if alias == Policy then
      if component == ThePolicy && replacement != Null then replacement else Get(baseline, Policy)
    else if TwinOf(alias) in f then f[TwinOf(alias)]
    else if alias in f then f[alias]
    else Get(baseline, alias)
  }

  lemma StartAlias(component: Component, baseline: Segments, replacement: Json, alias: Key)
    requires IsAlias(alias)
    ensures Get(Identified(component, Slotted(component, baseline, replacement), replacement), alias)
         == AliasSaid(component, baseline, map[], replacement, alias)
  {
  }

  lemma AliasesAreCopied()
    ensures forall alias :: IsAlias(alias) ==> alias in COPIED && TwinOf(alias) in COPIED
  {
    var c := COPIED;
    assert c[0] == Model && c[1] == Skill && c[2] == ModelIdentity && c[3] == SkillIdentity && c[4] == Policy;
    assert c[5] == PolicyEvaluation && c[7] == Workflow && c[8] == WorkflowVersion;
  }

  lemma AliasesAreNotCompared()
    ensures forall alias :: IsAlias(alias) ==> alias !in COMPARED
  {
  }

  lemma FixedFieldsAreNotCopied()
    ensures FixedFields !in COPIED
  {
  }

  lemma VersionedAlias(segments: Segments, f: Segments, field: Key)
    requires field != PolicyVersion && field != Specialists
    ensures Get(Versioned(segments, f), field) ==
            if field == Policy && PolicyEvaluation in f && Policy !in f then f[PolicyEvaluation]
            else if field == PolicyEvaluation && PolicyEvaluation in f then f[PolicyEvaluation]
            else Get(segments, field)
  {
  }

  lemma AliasedAlias(segments: Segments, f: Segments, field: Key)
    ensures Get(Aliased(segments, f), field) ==
            if (field == Model || field == Skill || field == Workflow) && TwinOf(field) in f
            then Get(segments, TwinOf(field)) else Get(segments, field)
  {
  }

  lemma IdentifiedAlias(component: Component, segments: Segments, replacement: Json, field: Key)
    requires IsAlias(field) || field == PolicyEvaluation || field == FixedFields
    ensures Get(Identified(component, segments, replacement), field) ==
            if IsReplaced(component, field) then replacement else Get(segments, field)
  {
  }

  /** The closed form of an alias, for every result. */
  lemma AppliedAlias(hash: Json -> string, component: Component, baseline: Segments, f: Segments, replacement: Json,
                     alias: Key)
    requires IsAlias(alias)
    ensures Get(Applied(hash, component, baseline, Object(f), replacement), alias)
         == AliasSaid(component, baseline, f, replacement, alias)
  {
    hide Identified, Slotted, Copied, Versioned, Aliased, Concluded, COPIED, COMPARED;
    var start := Identified(component, Slotted(component, baseline, replacement), replacement);
    var copied := Copied(start, f, COPIED);
    var versioned := Versioned(copied, f);
    var aliased := Aliased(versioned, f);
    StartAlias(component, baseline, replacement, alias);
    AliasesAreCopied();
    CopiedAt(start, f, COPIED, alias);
    CopiedAt(start, f, COPIED, TwinOf(alias));
    VersionedAlias(copied, f, alias);
    VersionedAlias(copied, f, TwinOf(alias));
    AliasedAlias(versioned, f, alias);
    ConcludedAt(hash, component, aliased, f, alias);
    IdentifiedAlias(component, Concluded(hash, component, aliased, f), replacement, alias);
  }

  /** The policy evaluation is the reported one; the list of fixed fields is out of reach. */
  lemma AppliedEvaluation(hash: Json -> string, component: Component, baseline: Segments, f: Segments,
                          replacement: Json)
    ensures var replayed := Applied(hash, component, baseline, Object(f), replacement);
            && Get(replayed, PolicyEvaluation) ==
               (if PolicyEvaluation in f then f[PolicyEvaluation] else Get(baseline, PolicyEvaluation))
            && Get(replayed, FixedFields) == Get(baseline, FixedFields)
  {
    hide Copied, Versioned, Aliased, Concluded, COPIED, COMPARED;
    var start := Identified(component, Slotted(component, baseline, replacement), replacement);
    assert Get(start, PolicyEvaluation) == Get(baseline, PolicyEvaluation);
    assert Get(start, FixedFields) == Get(baseline, FixedFields);
    hide Identified, Slotted;
    var copied := Copied(start, f, COPIED);
    var versioned := Versioned(copied, f);
    var aliased := Aliased(versioned, f);
    AliasesAreCopied();
    assert TwinOf(Policy) in COPIED;
    FixedFieldsAreNotCopied();
    CopiedAt(start, f, COPIED, PolicyEvaluation);
    CopiedAt(start, f, COPIED, FixedFields);
    VersionedAlias(copied, f, PolicyEvaluation);
    VersionedAlias(copied, f, FixedFields);
    AliasedAlias(versioned, f, PolicyEvaluation);
    AliasedAlias(versioned, f, FixedFields);
    ConcludedAt(hash, component, aliased, f, PolicyEvaluation);
    ConcludedAt(hash, component, aliased, f, FixedFields);
    IdentifiedAlias(component, Concluded(hash, component, aliased, f), replacement, PolicyEvaluation);
    IdentifiedAlias(component, Concluded(hash, component, aliased, f), replacement, FixedFields);
  }

  function WantedBy(component: Component, overrides: Segments): Json {
    match component
    case Overriding => Object(overrides)
    case Exactly => Null
    case _ => Get(overrides, SlotOf(component))
  }

  function ListedBy(hash: Json -> string, component: Component, baseline: Segments, result: Json,
                    overrides: Segments): seq<Key> {
    ChangedFields(baseline, Replayed(hash, component, baseline, result, overrides), DeclaredBy(component, overrides))
  }

  /** The replay passes and, for an exact one, matches. */
  ghost predicate Succeeds(hash: Json -> string, decisionId: string, component: Component, baseline: Segments,
                           result: Json, overrides: Segments) {
    && RequestOk(decisionId, component, overrides)
    && Passes(hash, component, baseline, result, overrides)
    && Success(decisionId, component, baseline, Replayed(hash, component, baseline, result, overrides),
               DeclaredBy(component, overrides), FullReplay, component == Exactly).succeeded
  }

  /** A baseline segment changes, but the record does not name it. */
  predicate ChangesUnlisted(hash: Json -> string, component: Component, baseline: Segments, result: Json,
                            overrides: Segments, field: Key) {
    && field in baseline
    && Differs(baseline, Replayed(hash, component, baseline, result, overrides), field)
    && field !in ListedBy(hash, component, baseline, result, overrides)
  }

  /** What no override names is settled by the runner's result alone. */
  lemma NotOverridden(hash: Json -> string, component: Component, baseline: Segments, f: Segments,
                      overrides: Segments, field: Key)
    requires component == Overriding ==> field !in overrides || field !in OVERRIDABLE
    requires component == Overriding ==> forall key :: key in overrides ==> key in OVERRIDABLE
    requires field != CounterfactualOverrides
    ensures Get(Replayed(hash, component, baseline, Object(f), overrides), field)
         == Get(Applied(hash, component, baseline, Object(f), WantedBy(component, overrides)), field)
  {
    hide Applied;
  }

  lemma ReplayedAlias(hash: Json -> string, component: Component, baseline: Segments, f: Segments,
                      overrides: Segments, alias: Key)
    requires IsAlias(alias)
    requires component == Overriding ==> forall key :: key in overrides ==> key in OVERRIDABLE
    ensures Get(Replayed(hash, component, baseline, Object(f), overrides), alias) ==
            if component == Overriding && alias in overrides then overrides[alias]
            else AliasSaid(component, baseline, f, WantedBy(component, overrides), alias)
  {
    hide Applied, AliasSaid;
    AppliedAlias(hash, component, baseline, f, WantedBy(component, overrides), alias);
    if component == Overriding && alias in overrides {
      assert Get(Overridden(hash, baseline, Object(f), overrides), alias) == overrides[alias];
    } else {
      NotOverridden(hash, component, baseline, f, overrides, alias);
    }
  }

  /** An alias is listed only as a policy override that differs. */
  lemma AliasIsListedIff(hash: Json -> string, component: Component, baseline: Segments, result: Json,
                         overrides: Segments, alias: Key)
    requires IsAlias(alias) && alias in baseline
    requires component == Overriding ==> forall key :: key in overrides ==> key in OVERRIDABLE
    ensures alias in ListedBy(hash, component, baseline, result, overrides) <==>
              && component == Overriding && alias in overrides
              && Differs(baseline, Replayed(hash, component, baseline, result, overrides), alias)
  {
    hide Replayed, ChangedFields, COMPARED;
    AliasesAreNotCompared();
    DeclaredHas(overrides, OVERRIDABLE, alias);
    ChangedExactly(baseline, Replayed(hash, component, baseline, result, overrides), DeclaredBy(component, overrides),
                   alias);
  }

  /** A compared segment of the baseline is listed exactly when it differs. */
  lemma ComparedIsListedIff(hash: Json -> string, component: Component, baseline: Segments, f: Segments,
                            overrides: Segments, field: Key)
    requires field in COMPARED && field in baseline
    ensures var replayed := Replayed(hash, component, baseline, Object(f), overrides);
            field in ListedBy(hash, component, baseline, Object(f), overrides) <==> Differs(baseline, replayed, field)
  {
    hide Applied, ChangedFields, COMPARED;
    AppliedGrows(hash, component, baseline, f, WantedBy(component, overrides), field);
    var replayed := Replayed(hash, component, baseline, Object(f), overrides);
    assert field in replayed;
    hide Replayed;
    ChangedExactly(baseline, replayed, DeclaredBy(component, overrides), field);
  }

  lemma IdentitiesAreCompared()
    ensures ModelIdentity in COMPARED && SkillIdentity in COMPARED && WorkflowVersion in COMPARED
    ensures PolicyEvaluation in COMPARED
  {
    var c := COMPARED;
    assert c[0] == ModelIdentity && c[1] == SkillIdentity && c[3] == WorkflowVersion && c[4] == PolicyEvaluation;
  }

  /** In a replay that succeeds, an identity that was not replaced is echoed unchanged or not at all. */
  lemma TwinStays(hash: Json -> string, decisionId: string, component: Component, s: Snapshot, f: Segments,
                  overrides: Segments, alias: Key)
    requires Succeeds(hash, decisionId, component, SegmentsOf(s), Object(f), overrides)
    requires IsAlias(alias) && alias != Policy && !IsReplaced(component, alias)
    ensures TwinOf(alias) in f ==> f[TwinOf(alias)] == Get(SegmentsOf(s), TwinOf(alias))
  {
    hide SegmentsOf, Accepts, HashOf, Applied, Replayed, ChangedFields, COMPARED, Success;
    var baseline, twin := SegmentsOf(s), TwinOf(alias);
    var replayed := Replayed(hash, component, baseline, Object(f), overrides);
    if component == Exactly {
      ExactMatches(hash, decisionId, s, f, overrides);
      IdentitiesAreCompared();
      InBaseline(s);
      AppliedSettles(hash, Exactly, baseline, f, Null, twin);
      ExactReplayed(hash, baseline, f, overrides);
    } else {
      KeepsFixedIff(hash, component, baseline, f, overrides);
    }
  }

  lemma ExactReplayed(hash: Json -> string, baseline: Segments, f: Segments, overrides: Segments)
    ensures Replayed(hash, Exactly, baseline, Object(f), overrides) == Applied(hash, Exactly, baseline, Object(f), Null)
  {
  }

  lemma InBaseline(s: Snapshot)
    ensures forall alias :: IsAlias(alias) ==> alias in SegmentsOf(s) && TwinOf(alias) in SegmentsOf(s)
    ensures forall alias :: IsAlias(alias) ==> Get(SegmentsOf(s), alias) == Get(SegmentsOf(s), TwinOf(alias))
  {
    forall alias | IsAlias(alias)
      ensures alias in SegmentsOf(s) && TwinOf(alias) in SegmentsOf(s)
      ensures Get(SegmentsOf(s), alias) == Get(SegmentsOf(s), TwinOf(alias))
    {
      TwinsAgree(s, alias);
    }
  }

  lemma TwinsAgree(s: Snapshot, alias: Key)
    requires IsAlias(alias)
    ensures alias in SegmentsOf(s) && TwinOf(alias) in SegmentsOf(s)
    ensures Get(SegmentsOf(s), alias) == Get(SegmentsOf(s), TwinOf(alias))
  {
    NamesAgree(s, alias);
    hide AliasesOf, IdentitiesOf, InputsOf, OutcomesOf;
  }

  lemma NamesAgree(s: Snapshot, alias: Key)
    requires IsAlias(alias)
    ensures alias in AliasesOf(s) && TwinOf(alias) in IdentitiesOf(s) && TwinOf(alias) !in AliasesOf(s)
    ensures AliasesOf(s)[alias] == IdentitiesOf(s)[TwinOf(alias)]
  {
  }

  lemma FixedInBaseline(s: Snapshot)
    ensures forall i :: 0 <= i < |FixedBy(Exactly)| ==> FixedBy(Exactly)[i] in SegmentsOf(s)
  {
  }

  /** An exact replay that succeeds differs in no compared segment. */
  lemma ExactMatches(hash: Json -> string, decisionId: string, s: Snapshot, f: Segments, overrides: Segments)
    requires Succeeds(hash, decisionId, Exactly, SegmentsOf(s), Object(f), overrides)
    ensures var baseline := SegmentsOf(s);
            forall field :: field in COMPARED && field in baseline ==>
              !Differs(baseline, Replayed(hash, Exactly, baseline, Object(f), overrides), field)
  {
    hide SegmentsOf, Passes, Applied, COMPARED, Success;
    Nonempty(decisionId);
    FixedInBaseline(s);
    ExactSucceedsIff(hash, decisionId, SegmentsOf(s), f);
  }

  /**
   * What a result must leave alone for an alias to keep its recorded value: a replaced alias the replacement must
   * equal it, the policy must be reported as recorded or be a declared override, and any other alias must be
   * reported as recorded unless its identity is reported with it.
   */
  predicate AliasStays(component: Component, baseline: Segments, f: Segments, overrides: Segments, alias: Key) {
    if component == Overriding && alias in overrides then overrides[alias] == Get(baseline, alias)
    else if IsReplaced(component, alias) then Get(overrides, alias) == Get(baseline, alias)
    else if alias == Policy then PolicySaid(baseline, f) == Get(baseline, Policy)
    else alias in f && TwinOf(alias) !in f ==> f[alias] == Get(baseline, alias)
  }

  /** In a replay that succeeds an alias differs from the record exactly when the result does not leave it alone. */
  lemma AliasDiffersIff(hash: Json -> string, decisionId: string, component: Component, s: Snapshot, f: Segments,
                        overrides: Segments, alias: Key)
    requires Succeeds(hash, decisionId, component, SegmentsOf(s), Object(f), overrides) && IsAlias(alias)
    ensures var baseline := SegmentsOf(s);
            Differs(baseline, Replayed(hash, component, baseline, Object(f), overrides), alias) <==>
            !AliasStays(component, baseline, f, overrides, alias)
  {
    hide SegmentsOf, Replayed, Succeeds, RequestOk, OVERRIDABLE, AliasSaid, AliasStays, HasPolicy;
    var baseline := SegmentsOf(s);
    TwinsAgree(s, alias);
    SucceedsMeans(hash, decisionId, component, baseline, Object(f), overrides);
    ReplayedAlias(hash, component, baseline, f, overrides, alias);
    if !IsReplaced(component, alias) && alias != Policy {
      TwinStays(hash, decisionId, component, s, f, overrides, alias);
    }
    StaysMeans(component, baseline, f, overrides, alias);
  }

  lemma StaysMeans(component: Component, baseline: Segments, f: Segments, overrides: Segments, alias: Key)
    requires IsAlias(alias) && Get(baseline, alias) == Get(baseline, TwinOf(alias))
    requires alias != Policy && !IsReplaced(component, alias) && TwinOf(alias) in f ==>
               f[TwinOf(alias)] == Get(baseline, TwinOf(alias))
    requires component == ThePolicy ==> HasPolicy(f)
    ensures AliasStays(component, baseline, f, overrides, alias) <==>
            Get(baseline, alias) ==
            if component == Overriding && alias in overrides then overrides[alias]
            else AliasSaid(component, baseline, f, WantedBy(component, overrides), alias)
  {
  }

  /** No other segment of the baseline changes unlisted. */
  lemma OthersAreListed(hash: Json -> string, component: Component, s: Snapshot, f: Segments, overrides: Segments,
                        field: Key)
    requires component == Overriding ==> forall key :: key in overrides ==> key in OVERRIDABLE
    requires !IsAlias(field)
    ensures !ChangesUnlisted(hash, component, SegmentsOf(s), Object(f), overrides, field)
  {
    hide SegmentsOf, COMPARED, ListedBy, Replayed;
    if field in SegmentsOf(s) {
      BaselineIs(s, field);
      if field in COMPARED {
        ComparedIsListedIff(hash, component, SegmentsOf(s), f, overrides, field);
      } else {
        OutOfReach(hash, component, SegmentsOf(s), f, overrides, field);
      }
    }
  }

  lemma OutOfReach(hash: Json -> string, component: Component, baseline: Segments, f: Segments, overrides: Segments,
                   field: Key)
    requires component == Overriding ==> forall key :: key in overrides ==> key in OVERRIDABLE
    requires field == Bundle || field == Evidence || field == FixedFields
    ensures Get(Replayed(hash, component, baseline, Object(f), overrides), field) == Get(baseline, field)
  {
    hide Applied, Replayed;
    NotOverridden(hash, component, baseline, f, overrides, field);
    if field == FixedFields {
      AppliedEvaluation(hash, component, baseline, f, WantedBy(component, overrides));
    } else {
      AppliedSettles(hash, component, baseline, f, WantedBy(component, overrides), field);
    }
  }

  lemma BaselineIs(s: Snapshot, field: Key)
    requires field in SegmentsOf(s)
    ensures IsAlias(field) || field in COMPARED || field == Bundle || field == Evidence || field == FixedFields
  {
    KeysOf(s, field);
    hide SegmentsOf, COMPARED;
    if !IsAlias(field) && field != Bundle && field != Evidence && field != FixedFields {
      IsCompared(field);
    }
  }

  lemma IsCompared(field: Key)
    requires || field == ModelIdentity || field == SkillIdentity || field == PolicyVersion || field == WorkflowVersion
             || field == PolicyEvaluation || field == Runtime || field == Specialists || field == Conflicts
             || field == ProposalHash || field == Proposal || field == Output || field == Final
    ensures field in COMPARED
  {
    var c := COMPARED;
    var k := match field
      case ModelIdentity => 0
      case SkillIdentity => 1
      case PolicyVersion => 2
      case WorkflowVersion => 3
      case PolicyEvaluation => 4
      case Runtime => 5
      case Specialists => 6
      case Conflicts => 7
      case ProposalHash => 8
      case Proposal => 9
      case Output => 10
      case _ => 11;
    assert c[k] == field;
  }

  lemma KeysOf(s: Snapshot, field: Key)
    requires field in SegmentsOf(s)
    ensures || IsAlias(field) || field == Bundle || field == Evidence || field == FixedFields
            || field == ModelIdentity || field == SkillIdentity || field == PolicyVersion || field == WorkflowVersion
            || field == PolicyEvaluation || field == Runtime || field == Specialists || field == Conflicts
            || field == ProposalHash || field == Proposal || field == Output || field == Final
  {
    InputKeys(s, field);
    OutcomeKeys(s, field);
    NameKeys(s, field);
    hide InputsOf, OutcomesOf, IdentitiesOf, AliasesOf;
  }

  lemma InputKeys(s: Snapshot, field: Key)
    ensures field in InputsOf(s) ==>
              || field == Bundle || field == Evidence || field == Runtime || field == Specialists || field == Conflicts
  {
  }

  lemma OutcomeKeys(s: Snapshot, field: Key)
    ensures field in OutcomesOf(s) ==>
              || field == Proposal || field == ProposalHash || field == Output || field == Final || field == FixedFields
  {
  }

  lemma NameKeys(s: Snapshot, field: Key)
    ensures field in IdentitiesOf(s) ==>
              || field == ModelIdentity || field == SkillIdentity || field == PolicyVersion
              || field == WorkflowVersion || field == PolicyEvaluation
    ensures field in AliasesOf(s) ==> IsAlias(field)
  {
  }

  /** An alias changes unlisted exactly when it is not an override and the result does not leave it alone. */
  lemma UnlistedAliasIff(hash: Json -> string, decisionId: string, component: Component, s: Snapshot, f: Segments,
                         overrides: Segments, alias: Key)
    requires Succeeds(hash, decisionId, component, SegmentsOf(s), Object(f), overrides) && IsAlias(alias)
    ensures ChangesUnlisted(hash, component, SegmentsOf(s), Object(f), overrides, alias) <==>
            && !(component == Overriding && alias in overrides)
            && !AliasStays(component, SegmentsOf(s), f, overrides, alias)
  {
    hide Passes, Success, AliasStays, Replayed, ListedBy, SegmentsOf;
    InBaseline(s);
    AliasIsListedIff(hash, component, SegmentsOf(s), Object(f), overrides, alias);
    AliasDiffersIff(hash, decisionId, component, s, f, overrides, alias);
  }

  /** A replay that succeeds changes a segment its record does not name exactly when some alias does not stay. */
  lemma UnlistedChangeIff(hash: Json -> string, decisionId: string, component: Component, s: Snapshot, f: Segments,
                          overrides: Segments)
    requires Succeeds(hash, decisionId, component, SegmentsOf(s), Object(f), overrides)
    ensures (exists field :: ChangesUnlisted(hash, component, SegmentsOf(s), Object(f), overrides, field)) <==>
            (exists alias :: IsAlias(alias) && !(component == Overriding && alias in overrides)
                             && !AliasStays(component, SegmentsOf(s), f, overrides, alias))
  {
    hide Passes, Success, AliasStays, SegmentsOf, ChangesUnlisted;
    var baseline := SegmentsOf(s);
    forall field
      ensures ChangesUnlisted(hash, component, baseline, Object(f), overrides, field) <==>
              && IsAlias(field) && !(component == Overriding && field in overrides)
              && !AliasStays(component, baseline, f, overrides, field)
    {
      if IsAlias(field) {
        UnlistedAliasIff(hash, decisionId, component, s, f, overrides, field);
      } else {
        OthersAreListed(hash, component, s, f, overrides, field);
      }
    }
  }

  /** An alias that is reported beside an identity which is not, or a policy beside an unchanged evaluation. */
  predicate IsSilent(component: Component, baseline: Segments, f: Segments, overrides: Segments, alias: Key) {
    && !(component == Overriding && alias in overrides) && !IsReplaced(component, alias)
    && alias in f && f[alias] != Get(baseline, alias)
    && (TwinOf(alias) in f ==> alias == Policy && f[PolicyEvaluation] == Get(baseline, PolicyEvaluation))
  }

  /** Neither name of the changed segment is listed exactly when only the second name was reported changed. */
  lemma SilentChangeIff(hash: Json -> string, decisionId: string, component: Component, s: Snapshot, f: Segments,
                        overrides: Segments, alias: Key)
    requires Succeeds(hash, decisionId, component, SegmentsOf(s), Object(f), overrides) && IsAlias(alias)
    ensures var listed := ListedBy(hash, component, SegmentsOf(s), Object(f), overrides);
            (ChangesUnlisted(hash, component, SegmentsOf(s), Object(f), overrides, alias) &&
             TwinOf(alias) !in listed) <==>
            IsSilent(component, SegmentsOf(s), f, overrides, alias)
  {
    hide Succeeds, RequestOk, ListedBy, SegmentsOf, OVERRIDABLE, ChangesUnlisted, AliasStays, IsSilent;
    InBaseline(s);
    SucceedsMeans(hash, decisionId, component, SegmentsOf(s), Object(f), overrides);
    UnlistedAliasIff(hash, decisionId, component, s, f, overrides, alias);
    TwinIsListedIff(hash, component, s, f, overrides, alias);
    if alias != Policy && !IsReplaced(component, alias) {
      TwinStays(hash, decisionId, component, s, f, overrides, alias);
    }
    SilentMeans(component, SegmentsOf(s), f, overrides, alias);
  }

  lemma SucceedsMeans(hash: Json -> string, decisionId: string, component: Component, baseline: Segments,
                      result: Json, overrides: Segments)
    requires Succeeds(hash, decisionId, component, baseline, result, overrides)
    ensures component == Overriding ==> forall key :: key in overrides ==> key in OVERRIDABLE
    ensures component == ThePolicy && result.Object? ==> HasPolicy(result.fields)
  {
    hide Success, KeepsFixed, Replayed, EchoAgrees, HashOf;
  }

  lemma SilentMeans(component: Component, baseline: Segments, f: Segments, overrides: Segments, alias: Key)
    requires IsAlias(alias) && Get(baseline, alias) == Get(baseline, TwinOf(alias))
    requires alias != Policy && !IsReplaced(component, alias) && TwinOf(alias) in f ==>
               f[TwinOf(alias)] == Get(baseline, TwinOf(alias))
    ensures IsSilent(component, baseline, f, overrides, alias) <==>
            && !(component == Overriding && alias in overrides)
            && !AliasStays(component, baseline, f, overrides, alias)
            && !(if IsReplaced(component, alias) then Get(overrides, alias) != Get(baseline, TwinOf(alias))
                 else TwinOf(alias) in f && f[TwinOf(alias)] != Get(baseline, TwinOf(alias)))
  {
  }

  /** The other name is listed exactly when its replacement, or what the result reports for it, differs. */
  lemma TwinIsListedIff(hash: Json -> string, component: Component, s: Snapshot, f: Segments, overrides: Segments,
                        alias: Key)
    requires IsAlias(alias)
    requires component == Overriding ==> forall key :: key in overrides ==> key in OVERRIDABLE
    ensures var recorded := Get(SegmentsOf(s), TwinOf(alias));
            TwinOf(alias) in ListedBy(hash, component, SegmentsOf(s), Object(f), overrides) <==>
            if IsReplaced(component, alias) then Get(overrides, alias) != recorded
            else TwinOf(alias) in f && f[TwinOf(alias)] != recorded
  {
    hide Replayed, ListedBy, COMPARED, SegmentsOf, OVERRIDABLE;
    InBaseline(s);
    IdentitiesAreCompared();
    ComparedIsListedIff(hash, component, SegmentsOf(s), f, overrides, TwinOf(alias));
    TwinReplayed(hash, component, SegmentsOf(s), f, overrides, alias);
  }

  lemma TwinReplayed(hash: Json -> string, component: Component, baseline: Segments, f: Segments, overrides: Segments,
                     alias: Key)
    requires IsAlias(alias)
    requires component == Overriding ==> forall key :: key in overrides ==> key in OVERRIDABLE
    ensures Get(Replayed(hash, component, baseline, Object(f), overrides), TwinOf(alias)) ==
            if IsReplaced(component, alias) then Get(overrides, alias)
            else if TwinOf(alias) in f then f[TwinOf(alias)] else Get(baseline, TwinOf(alias))
  {
    hide Applied, Replayed;
    NotOverridden(hash, component, baseline, f, overrides, TwinOf(alias));
    if alias == Policy {
      AppliedEvaluation(hash, component, baseline, f, WantedBy(component, overrides));
    } else {
      AppliedSettles(hash, component, baseline, f, WantedBy(component, overrides), TwinOf(alias));
    }
  }

  /** Another model answers completely, with the recorded policy, and reports a workflow. */
  function SampleResult(policy: Segments, workflow: Json): Segments {
    map[Proposal := Done(), PolicyEvaluation := Object(policy), Final := Done(), Workflow := workflow]
  }

  function Done(): Json { Object(map[Action := Text("HOLD")]) }

  /**
   * Whatever was recorded and whichever model is requested: the replay succeeds, and reporting another workflow changes
   * that segment while no name of the workflow is listed.
   */
  lemma SilentWorkflow(hash: Json -> string, decisionId: string, s: Snapshot, model: Json, workflow: Json)
    requires Text.Trim(decisionId) != "" && IsTruthy(Get(s.policy, PolicyVersion))
    requires workflow != Get(SegmentsOf(s), Workflow)
    ensures var f := SampleResult(s.policy, workflow);
            && Succeeds(hash, decisionId, TheModel, SegmentsOf(s), Object(f), map[Model := model])
            && ChangesUnlisted(hash, TheModel, SegmentsOf(s), Object(f), map[Model := model], Workflow)
            && WorkflowVersion !in ListedBy(hash, TheModel, SegmentsOf(s), Object(f), map[Model := model])
  {
    var f := SampleResult(s.policy, workflow);
    SampleFacts(s.policy, workflow);
    hide SampleResult, Done, ListedBy, ChangesUnlisted, Succeeds, SegmentsOf;
    SampleSucceeds(hash, decisionId, s, f, map[Model := model]);
    SilentChangeIff(hash, decisionId, TheModel, s, f, map[Model := model], Workflow);
  }

  lemma SampleFacts(policy: Segments, workflow: Json)
    ensures var f := SampleResult(policy, workflow);
            && Model !in f && ModelIdentity !in f && SkillIdentity !in f && WorkflowVersion !in f
            && PolicyVersion !in f && Policy !in f && PolicyEvaluation in f && Proposal in f && Final in f
            && f[PolicyEvaluation] == Object(policy) && f[Final] == f[Proposal] == Done() && IsFilledObject(Done())
            && Workflow in f && f[Workflow] == workflow
  {
    assert Action in Done().fields;
  }

  lemma SampleSucceeds(hash: Json -> string, decisionId: string, s: Snapshot, f: Segments, overrides: Segments)
    requires Text.Trim(decisionId) != "" && IsTruthy(Get(s.policy, PolicyVersion)) && overrides.Keys == {Model}
    requires Model !in f && ModelIdentity !in f && SkillIdentity !in f && WorkflowVersion !in f && PolicyVersion !in f
    requires Policy !in f && PolicyEvaluation in f && f[PolicyEvaluation] == Object(s.policy)
    requires Final in f && Proposal in f && IsFilledObject(f[Final]) && IsFilledObject(f[Proposal])
    ensures Succeeds(hash, decisionId, TheModel, SegmentsOf(s), Object(f), overrides)
  {
    hide Replayed, Success, KeepsFixed, HashOf, SegmentsOf, IsFilledObject, IsTruthy;
    var baseline := SegmentsOf(s);
    RecordedVersion(s);
    assert Accepts(hash, TheModel, Object(f), baseline, Get(overrides, Model));
    KeepsFixedIff(hash, TheModel, baseline, f, overrides);
    SuccessSucceeds(decisionId, baseline, Replayed(hash, TheModel, baseline, Object(f), overrides),
                    DeclaredBy(TheModel, overrides));
  }

  lemma RecordedVersion(s: Snapshot)
    ensures Get(SegmentsOf(s), PolicyVersion) == Get(s.policy, PolicyVersion)
  {
    assert PolicyVersion in IdentitiesOf(s) && PolicyVersion !in AliasesOf(s);
    hide InputsOf, OutcomesOf;
  }

  lemma SuccessSucceeds(decisionId: string, baseline: Segments, replayed: Segments, declared: seq<Key>)
    ensures Success(decisionId, TheModel, baseline, replayed, declared, FullReplay, false).succeeded
  {
  }
}
