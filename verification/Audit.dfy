/** The audit producer and the independent check every committed audit must pass.
    A finding id is modelled by the values it is derived from; payload lists keep the order of the drafts. */
module Audit {
  import opened Outcomes
  import opened Sequences
  import opened Sorting

  datatype Outcome = Passed | Failed | Unknown | Blocked | NotApplicable

  datatype Rule = Rule(id: string, version: string, always: bool, mandatory: bool, failedClass: Option<string>,
                       unknownClass: Option<string>, blockedClass: Option<string>)

  /** The sealed preview as the audit sees it, with the registry. */
  datatype Context = Context(workspace: string, preview: string, revision: nat, level: string,
                             relationshipKinds: set<string>, items: set<string>, evidence: set<string>,
                             rules: seq<Rule>, runtimeRules: set<string>)

  datatype EvaluationDraft = EvaluationDraft(rule: string, version: string, outcome: Outcome, rationale: string,
                                             findingRefs: seq<string>, evidenceRefs: seq<string>)

  datatype FindingDraft = FindingDraft(ref: string, rule: string, class_: string, severity: string, title: string,
                                       rationale: string, evidenceRefs: seq<string>, items: seq<string>,
                                       action: string, resolution: Option<string>)

  datatype FindingId = FindingId(workspace: string, preview: string, revision: nat, rule: string, version: string,
                                 outcome: Outcome, class_: string, severity: string, title: string, rationale: string,
                                 evidence: multiset<string>, items: multiset<string>, action: string,
                                 resolution: Option<string>)

  datatype Evaluation = Evaluation(rule: string, version: string, outcome: Outcome, rationale: string,
                                   findingRefs: seq<FindingId>, evidenceRefs: seq<string>)

  datatype Finding = Finding(id: FindingId, rule: string, version: string, outcome: Outcome, class_: string,
                             severity: string, title: string, rationale: string, evidenceRefs: seq<string>,
                             items: seq<string>, action: string, resolution: Option<string>)

  datatype AuditResult = AllPassed | ChangesRequired | NeedsInformation | AllBlocked

  datatype AuditRecord = AuditRecord(evaluations: seq<Evaluation>, findings: seq<Finding>, result: AuditResult)

  const SEVERITIES := {"Blocker", "High", "Medium", "Low"}

  /** `rule_is_applicable`. */
  predicate Applicable(c: Context, rule: Rule) {
    if rule.always then true
    else if rule.id == "SEM-PARENT-SUBISSUE" then
      "planned_parent" in c.relationshipKinds || "planned_parent_candidate" in c.relationshipKinds
    else if rule.id == "SEM-DEPENDENCY" then
      "planned_dependency" in c.relationshipKinds || "planned_dependency_candidate" in c.relationshipKinds
    else if rule.id == "SEM-DUPLICATE-OVERLAP" then c.level != "Conceptual"
    else false
  }

  function ExpectedClass(rule: Rule, outcome: Outcome): Option<string> {
    match outcome
    case Failed => rule.failedClass
    case Unknown => rule.unknownClass
    case Blocked => rule.blockedClass
    case _ => None
  }

  function RuleIds(c: Context): (ids: seq<string>)
    ensures |ids| == |c.rules| && forall i :: 0 <= i < |ids| ==> ids[i] == c.rules[i].id
  {
    seq(|c.rules|, i requires 0 <= i < |c.rules| => c.rules[i].id)
  }

  /** The registry names each rule once, and its texts and the evidence ids are not empty. */
  ghost predicate ContextValid(c: Context) {
    && NoDuplicates(RuleIds(c))
    && (forall i :: 0 <= i < |c.rules| ==> c.rules[i].id != "" && c.rules[i].version != "")
    && (forall i :: 0 <= i < |c.rules| ==>
          c.rules[i].failedClass != Some("") && c.rules[i].unknownClass != Some("") && c.rules[i].blockedClass != Some(""))
    && "" !in c.evidence
  }

  function RuleAt(c: Context, id: string): (i: nat)
    requires id in RuleIds(c)
    ensures i < |c.rules| && c.rules[i].id == id
  {
    FirstIndex(RuleIds(c), id)
  }

  function FirstIndex(s: seq<string>, x: string): (i: nat)
    requires x in s
    ensures i < |s| && s[i] == x
  {
    if s[0] == x then 0 else 1 + FirstIndex(s[1..], x)
  }

  // ---- what the producer accepts ----

  predicate Texts(s: seq<string>, known: set<string>) {
    forall i :: 0 <= i < |s| ==> s[i] in known
  }

  function DraftRules(es: seq<EvaluationDraft>): (ids: seq<string>)
    ensures |ids| == |es| && forall i :: 0 <= i < |ids| ==> ids[i] == es[i].rule
  {
    seq(|es|, i requires 0 <= i < |es| => es[i].rule)
  }

  function DraftRefs(fs: seq<FindingDraft>): (refs: seq<string>)
    ensures |refs| == |fs| && forall i :: 0 <= i < |refs| ==> refs[i] == fs[i].ref
  {
    seq(|fs|, i requires 0 <= i < |fs| => fs[i].ref)
  }

  predicate EvaluationAccepted(c: Context, e: EvaluationDraft) {
    && e.rule !in c.runtimeRules && e.rule in RuleIds(c)
    && e.outcome != NotApplicable
    && e.version == c.rules[RuleAt(c, e.rule)].version
    && Texts(e.evidenceRefs, c.evidence)
  }

  predicate RuleCovered(c: Context, rule: Rule, es: seq<EvaluationDraft>) {
    && (Applicable(c, rule) && rule.mandatory ==> rule.id in DraftRules(es))
    && (!Applicable(c, rule) ==> rule.id !in DraftRules(es))
  }

  /** The inputs from which `build_finding_id` makes an id rather than raising. */
  predicate IdentityValid(c: Context, f: FindingDraft) {
    && c.workspace != "" && c.preview != "" && c.revision >= 1
    && f.title != "" && f.rationale != "" && f.action != ""
    && NonEmptyTexts(f.evidenceRefs) && NonEmptyTexts(f.items)
    && NoDuplicates(f.evidenceRefs) && NoDuplicates(f.items)
  }

  function OutcomeOf(es: seq<EvaluationDraft>, rule: string): Outcome
    requires rule in DraftRules(es)
  {
    es[FirstIndex(DraftRules(es), rule)].outcome
  }

  predicate FindingAccepted(c: Context, es: seq<EvaluationDraft>, f: FindingDraft) {
    && f.rule in DraftRules(es) && f.rule in RuleIds(c)
    && Texts(f.items, c.items) && Texts(f.evidenceRefs, c.evidence)
    && ExpectedClass(c.rules[RuleAt(c, f.rule)], OutcomeOf(es, f.rule)) == Some(f.class_)
    && f.severity in SEVERITIES && IdentityValid(c, f)
  }

  function IdOf(c: Context, es: seq<EvaluationDraft>, f: FindingDraft): FindingId
    requires FindingAccepted(c, es, f)
  {
    FindingId(c.workspace, c.preview, c.revision, f.rule, c.rules[RuleAt(c, f.rule)].version, OutcomeOf(es, f.rule),
              f.class_, f.severity, f.title, f.rationale, multiset(f.evidenceRefs), multiset(f.items), f.action, f.resolution)
  }

  predicate AllFindingsAccepted(c: Context, es: seq<EvaluationDraft>, fs: seq<FindingDraft>) {
    forall i :: 0 <= i < |fs| ==> FindingAccepted(c, es, fs[i])
  }

  function Ids(c: Context, es: seq<EvaluationDraft>, fs: seq<FindingDraft>): (ids: seq<FindingId>)
    requires AllFindingsAccepted(c, es, fs)
    ensures |ids| == |fs| && forall i :: 0 <= i < |ids| ==> ids[i] == IdOf(c, es, fs[i])
  {
    seq(|fs|, i requires 0 <= i < |fs| => IdOf(c, es, fs[i]))
  }

  predicate RefsAccepted(e: EvaluationDraft, fs: seq<FindingDraft>) {
    && (e.outcome == Passed <==> e.findingRefs == [])
    && forall i :: 0 <= i < |e.findingRefs| ==>
         e.findingRefs[i] in DraftRefs(fs) && fs[FirstIndex(DraftRefs(fs), e.findingRefs[i])].rule == e.rule
  }

  predicate Referenced(es: seq<EvaluationDraft>, ref: string) {
    exists i :: 0 <= i < |es| && ref in es[i].findingRefs
  }

  /** What `_validate` accepts. */
  predicate DraftsAccepted(c: Context, es: seq<EvaluationDraft>, fs: seq<FindingDraft>) {
    && (forall i :: 0 <= i < |es| ==> EvaluationAccepted(c, es[i]))
    && NoDuplicates(DraftRules(es))
    && (forall i :: 0 <= i < |c.rules| ==> RuleCovered(c, c.rules[i], es))
    && NoDuplicates(DraftRefs(fs)) && AllFindingsAccepted(c, es, fs)
    && NoDuplicates(Ids(c, es, fs))
    && (forall i :: 0 <= i < |es| ==> RefsAccepted(es[i], fs))
    && (forall i :: 0 <= i < |fs| ==> Referenced(es, fs[i].ref))
  }

  // ---- the record it makes ----

  function MappedRefs(c: Context, es: seq<EvaluationDraft>, fs: seq<FindingDraft>,
                      refs: seq<string>): (ids: seq<FindingId>)
    requires AllFindingsAccepted(c, es, fs) && forall i :: 0 <= i < |refs| ==> refs[i] in DraftRefs(fs)
    ensures |ids| == |refs|
    ensures forall i :: 0 <= i < |ids| ==> ids[i] == Ids(c, es, fs)[FirstIndex(DraftRefs(fs), refs[i])]
  {
    seq(|refs|, i requires 0 <= i < |refs| => Ids(c, es, fs)[FirstIndex(DraftRefs(fs), refs[i])])
  }

  function EvaluationOf(c: Context, es: seq<EvaluationDraft>, fs: seq<FindingDraft>, e: EvaluationDraft): Evaluation
    requires AllFindingsAccepted(c, es, fs) && RefsAccepted(e, fs)
  {
    Evaluation(e.rule, e.version, e.outcome, e.rationale, MappedRefs(c, es, fs, e.findingRefs), e.evidenceRefs)
  }

  function Inapplicable(rule: Rule): Evaluation {
    Evaluation(rule.id, rule.version, NotApplicable, "no matching relationship or remote evidence", [], [])
  }

  function FindingOf(c: Context, es: seq<EvaluationDraft>, f: FindingDraft): Finding
    requires FindingAccepted(c, es, f)
  {
    Finding(IdOf(c, es, f), f.rule, c.rules[RuleAt(c, f.rule)].version, OutcomeOf(es, f.rule), f.class_, f.severity,
            f.title, f.rationale, f.evidenceRefs, f.items, f.action, f.resolution)
  }

  function InapplicableEvaluations(c: Context, rules: seq<Rule>): seq<Evaluation> {
    if rules == [] then []
    else (if Applicable(c, rules[0]) then [] else [Inapplicable(rules[0])]) + InapplicableEvaluations(c, rules[1..])
  }

  function Evaluations(c: Context, es: seq<EvaluationDraft>, fs: seq<FindingDraft>): seq<Evaluation>
    requires DraftsAccepted(c, es, fs)
  {
    seq(|es|, i requires 0 <= i < |es| => EvaluationOf(c, es, fs, es[i])) + InapplicableEvaluations(c, c.rules)
  }

  function Findings(c: Context, es: seq<EvaluationDraft>, fs: seq<FindingDraft>): (findings: seq<Finding>)
    requires DraftsAccepted(c, es, fs)
    ensures |findings| == |fs| && forall i :: 0 <= i < |fs| ==> findings[i] == FindingOf(c, es, fs[i])
  {
    seq(|fs|, i requires 0 <= i < |fs| => FindingOf(c, es, fs[i]))
  }

  predicate Occurs(evaluations: seq<Evaluation>, outcome: Outcome) {
    exists i :: 0 <= i < |evaluations| && evaluations[i].outcome == outcome
  }

  function ResultOf(evaluations: seq<Evaluation>): AuditResult {
    if Occurs(evaluations, Blocked) then AllBlocked
    else if Occurs(evaluations, Unknown) then NeedsInformation
    else if Occurs(evaluations, Failed) then ChangesRequired
    else AllPassed
  }

  /** The record that `record_audit` builds from accepted drafts and submits to the check. */
  function Recorded(c: Context, es: seq<EvaluationDraft>, fs: seq<FindingDraft>): AuditRecord
    requires DraftsAccepted(c, es, fs)
  {
    AuditRecord(Evaluations(c, es, fs), Findings(c, es, fs), ResultOf(Evaluations(c, es, fs)))
  }

  // ---- the producer as it runs ----

  /** What the checks on the evaluations raise, in their order. */
  function EvaluationRefusal(c: Context, es: seq<EvaluationDraft>): Option<string> {
    if exists i :: 0 <= i < |es| && es[i].rule in c.runtimeRules then Some("invalid_runtime_rule_submission")
    else if exists i :: 0 <= i < |es| && es[i].rule !in RuleIds(c) then Some("invalid_input")
    else if !NoDuplicates(DraftRules(es)) then Some("invalid_input")
    else if exists i :: 0 <= i < |es| && es[i].outcome == NotApplicable then Some("invalid_not_applicable_submission")
    else if exists i :: 0 <= i < |es| && !EvaluationAccepted(c, es[i]) then Some("invalid_input")
    else CoverageRefusal(c, c.rules, es)
  }

  /** The rules in order: a mandatory one that is missing, or an inapplicable one that was evaluated. */
  function CoverageRefusal(c: Context, rules: seq<Rule>, es: seq<EvaluationDraft>): Option<string> {
    if rules == [] then None
    else if RuleCovered(c, rules[0], es) then CoverageRefusal(c, rules[1..], es)
    else Some(if Applicable(c, rules[0]) then "audit_coverage_incomplete" else "invalid_input")
  }

  lemma {:induction false} CoverageComplete(c: Context, rules: seq<Rule>, es: seq<EvaluationDraft>)
    ensures CoverageRefusal(c, rules, es).None? <==> forall i :: 0 <= i < |rules| ==> RuleCovered(c, rules[i], es)
    decreases |rules|
  {
    hide RuleCovered, Applicable;
    if rules != [] {
      CoverageComplete(c, rules[1..], es);
      assert forall i :: 0 < i < |rules| ==> rules[i] == rules[1..][i - 1];
    }
  }

  lemma RefusalExact(c: Context, es: seq<EvaluationDraft>)
    ensures EvaluationRefusal(c, es).None? <==>
              && (forall i :: 0 <= i < |es| ==> EvaluationAccepted(c, es[i])) && NoDuplicates(DraftRules(es))
              && (forall i :: 0 <= i < |c.rules| ==> RuleCovered(c, c.rules[i], es))
  {
    hide NoDuplicates, RuleCovered, CoverageRefusal;
    CoverageComplete(c, c.rules, es);
  }

  method CheckCoverage(c: Context, es: seq<EvaluationDraft>) returns (refusal: Option<string>)
    ensures refusal == CoverageRefusal(c, c.rules, es)
  {
    hide RuleCovered;
    assert c.rules[0..] == c.rules;
    for i := 0 to |c.rules|
      invariant CoverageRefusal(c, c.rules, es) == CoverageRefusal(c, c.rules[i..], es)
    {
      assert c.rules[i..][1..] == c.rules[i + 1..];
      if !RuleCovered(c, c.rules[i], es) {
        return Some(if Applicable(c, c.rules[i]) then "audit_coverage_incomplete" else "invalid_input");
      }
    }
    assert c.rules[|c.rules|..] == [];
    return None;
  }

  method CheckEvaluations(c: Context, es: seq<EvaluationDraft>) returns (refusal: Option<string>)
    ensures refusal == EvaluationRefusal(c, es)
  {
    hide EvaluationAccepted, NoDuplicates, CoverageRefusal;
    if exists i :: 0 <= i < |es| && es[i].rule in c.runtimeRules {
      return Some("invalid_runtime_rule_submission");
    }
    if exists i :: 0 <= i < |es| && es[i].rule !in RuleIds(c) {
      return Some("invalid_input");
    }
    if !NoDuplicates(DraftRules(es)) {
      return Some("invalid_input");
    }
    if exists i :: 0 <= i < |es| && es[i].outcome == NotApplicable {
      return Some("invalid_not_applicable_submission");
    }
    for i := 0 to |es|
      invariant forall j :: 0 <= j < i ==> EvaluationAccepted(c, es[j])
    {
      if !EvaluationAccepted(c, es[i]) {
        return Some("invalid_input");
      }
    }
    refusal := CheckCoverage(c, es);
  }

  datatype Payload = Payload(evaluations: seq<Evaluation>, findings: seq<Finding>)

  /** `_validate`: the payloads of the drafts. */
  method Validate(c: Context, es: seq<EvaluationDraft>, fs: seq<FindingDraft>) returns (r: Result<Payload>)
    ensures r.Ok? <==> DraftsAccepted(c, es, fs)
    ensures r.Ok? ==> r.value == Payload(Evaluations(c, es, fs), Findings(c, es, fs))
    ensures r.Err? ==> r.error == ValueError(EvaluationRefusal(c, es).GetOr("invalid_input"))
  {
    hide EvaluationAccepted, RuleCovered, NoDuplicates, FindingAccepted, RefsAccepted, Referenced, EvaluationRefusal;
    RefusalExact(c, es);
    var refusal := CheckEvaluations(c, es);
    if refusal.Some? {
      return Err(ValueError(refusal.value));
    }
    if !NoDuplicates(DraftRefs(fs)) {
      return Err(ValueError("invalid_input"));
    }
    for i := 0 to |fs|
      invariant forall j :: 0 <= j < i ==> FindingAccepted(c, es, fs[j])
    {
      if !FindingAccepted(c, es, fs[i]) {
        return Err(ValueError("invalid_input"));
      }
    }
    if !NoDuplicates(Ids(c, es, fs)) {
      return Err(ValueError("invalid_input"));
    }
    for i := 0 to |es|
      invariant forall j :: 0 <= j < i ==> RefsAccepted(es[j], fs)
    {
      if !RefsAccepted(es[i], fs) {
        return Err(ValueError("invalid_input"));
      }
    }
    for i := 0 to |fs|
      invariant forall j :: 0 <= j < i ==> Referenced(es, fs[j].ref)
    {
      if !Referenced(es, fs[i].ref) {
        return Err(ValueError("invalid_input"));
      }
    }
    return Ok(Payload(Evaluations(c, es, fs), Findings(c, es, fs)));
  }

  // ---- the check on a committed audit ----

  predicate EvaluationShaped(e: Evaluation) {
    && e.rule != "" && e.version != "" && e.rationale != ""
    && NoDuplicates(e.findingRefs) && NonEmptyTexts(e.evidenceRefs) && NoDuplicates(e.evidenceRefs)
  }

  predicate FindingShaped(f: Finding) {
    && f.rule != "" && f.version != "" && f.class_ != "" && f.severity != "" && f.title != "" && f.rationale != ""
    && f.action != "" && NonEmptyTexts(f.evidenceRefs) && NoDuplicates(f.evidenceRefs)
    && NonEmptyTexts(f.items) && NoDuplicates(f.items)
  }

  function EvaluatedRules(evaluations: seq<Evaluation>): (ids: seq<string>)
    ensures |ids| == |evaluations| && forall i :: 0 <= i < |ids| ==> ids[i] == evaluations[i].rule
  {
    seq(|evaluations|, i requires 0 <= i < |evaluations| => evaluations[i].rule)
  }

  predicate EvaluationSound(c: Context, e: Evaluation) {
    && e.rule in RuleIds(c)
    && var rule := c.rules[RuleAt(c, e.rule)];
    && e.version == rule.version
    && (if Applicable(c, rule) then e.outcome != NotApplicable
        else e.outcome == NotApplicable && e.findingRefs == [] && e.evidenceRefs == [])
    && Texts(e.evidenceRefs, c.evidence)
  }

  function FindingIds(findings: seq<Finding>): (ids: seq<FindingId>)
    ensures |ids| == |findings| && forall i :: 0 <= i < |ids| ==> ids[i] == findings[i].id
  {
    seq(|findings|, i requires 0 <= i < |findings| => findings[i].id)
  }

  predicate RefsSound(e: Evaluation, findings: seq<Finding>) {
    && (e.findingRefs == [] <==> e.outcome in {Passed, NotApplicable})
    && forall i :: 0 <= i < |e.findingRefs| ==>
         RefersTo(e.findingRefs[i], e.rule, findings)
  }

  /** A finding of the rule has this id. */
  predicate RefersTo(id: FindingId, rule: string, findings: seq<Finding>) {
    exists j :: 0 <= j < |findings| && findings[j].id == id && findings[j].rule == rule
  }

  /** All references, in the order of the evaluations. */
  function AllRefs(evaluations: seq<Evaluation>): seq<FindingId> {
    if evaluations == [] then [] else evaluations[0].findingRefs + AllRefs(evaluations[1..])
  }

  predicate FindingSound(c: Context, evaluations: seq<Evaluation>, f: Finding) {
    && f.rule in RuleIds(c) && f.rule in EvaluatedRules(evaluations)
    && var rule, entry := c.rules[RuleAt(c, f.rule)], evaluations[FirstIndex(EvaluatedRules(evaluations), f.rule)];
    && f.version == rule.version && f.outcome == entry.outcome && f.severity in SEVERITIES
    && ExpectedClass(rule, entry.outcome) == Some(f.class_)
    && Texts(f.evidenceRefs, c.evidence) && Texts(f.items, c.items)
    && f.id == FindingId(c.workspace, c.preview, c.revision, f.rule, rule.version, entry.outcome, f.class_, f.severity,
                         f.title, f.rationale, multiset(f.evidenceRefs), multiset(f.items), f.action, f.resolution)
  }

  /** What `validate_committed_audit` accepts. */
  predicate Committed(c: Context, a: AuditRecord) {
    && (forall i :: 0 <= i < |a.evaluations| ==> EvaluationShaped(a.evaluations[i]))
    && (forall i :: 0 <= i < |a.findings| ==> FindingShaped(a.findings[i]))
    && NoDuplicates(EvaluatedRules(a.evaluations))
    && Members(EvaluatedRules(a.evaluations)) == Members(RuleIds(c))
    && (forall i :: 0 <= i < |a.evaluations| ==> EvaluationSound(c, a.evaluations[i]))
    && NoDuplicates(FindingIds(a.findings))
    && (forall i :: 0 <= i < |a.evaluations| ==> RefsSound(a.evaluations[i], a.findings))
    && multiset(AllRefs(a.evaluations)) == multiset(FindingIds(a.findings))
    && (forall i :: 0 <= i < |a.findings| ==> FindingSound(c, a.evaluations, a.findings[i]))
    && a.result == ResultOf(a.evaluations)
  }

  /** The result an audit must have: the worst outcome among its evaluations decides. */
  ghost predicate ResultFits(a: AuditRecord) {
    var some := (outcome: Outcome) => exists i :: 0 <= i < |a.evaluations| && a.evaluations[i].outcome == outcome;
    && (a.result == AllBlocked <==> some(Blocked))
    && (a.result == NeedsInformation <==> some(Unknown) && !some(Blocked))
    && (a.result == ChangesRequired <==> some(Failed) && !some(Unknown) && !some(Blocked))
    && (a.result == AllPassed <==> !some(Failed) && !some(Unknown) && !some(Blocked))
  }

  method ValidateCommitted(c: Context, a: AuditRecord) returns (ok: bool)
    ensures ok <==> Committed(c, a)
    ensures ok ==> ResultFits(a)
  {
    hide EvaluationShaped, FindingShaped, EvaluationSound, RefsSound, FindingSound, NoDuplicates, Members, AllRefs, ResultOf,
         ResultFits;
    ResultIsWorst(a);
    for i := 0 to |a.evaluations|
      invariant forall j :: 0 <= j < i ==> EvaluationShaped(a.evaluations[j])
      invariant forall j :: 0 <= j < i ==> EvaluationSound(c, a.evaluations[j])
    {
      if !EvaluationShaped(a.evaluations[i]) || !EvaluationSound(c, a.evaluations[i]) {
        return false;
      }
    }
    if !NoDuplicates(EvaluatedRules(a.evaluations)) || Members(EvaluatedRules(a.evaluations)) != Members(RuleIds(c))
    || !NoDuplicates(FindingIds(a.findings)) || a.result != ResultOf(a.evaluations) {
      return false;
    }
    var referenced: seq<FindingId> := [];
    assert [] + AllRefs(a.evaluations) == AllRefs(a.evaluations) && a.evaluations[0..] == a.evaluations;
    for i := 0 to |a.evaluations|
      invariant forall j :: 0 <= j < i ==> RefsSound(a.evaluations[j], a.findings)
      invariant referenced + AllRefs(a.evaluations[i..]) == AllRefs(a.evaluations)
    {
      if !RefsSound(a.evaluations[i], a.findings) {
        return false;
      }
      RefsFrom(a.evaluations, i, referenced);
      referenced := referenced + a.evaluations[i].findingRefs;
    }
    NoRefs(a.evaluations[|a.evaluations|..], referenced);
    if multiset(referenced) != multiset(FindingIds(a.findings)) {
      return false;
    }
    ok := CheckFindings(c, a);
  }

  /** The loop over the findings. */
  method CheckFindings(c: Context, a: AuditRecord) returns (ok: bool)
    ensures ok <==> forall j :: 0 <= j < |a.findings| ==>
                      FindingShaped(a.findings[j]) && FindingSound(c, a.evaluations, a.findings[j])
  {
    hide FindingShaped, FindingSound;
    for i := 0 to |a.findings|
      invariant forall j :: 0 <= j < i ==> FindingShaped(a.findings[j]) && FindingSound(c, a.evaluations, a.findings[j])
    {
      if !FindingShaped(a.findings[i]) || !FindingSound(c, a.evaluations, a.findings[i]) {
        return false;
      }
    }
    return true;
  }

  lemma ResultIsWorst(a: AuditRecord)
    ensures a.result == ResultOf(a.evaluations) <==> ResultFits(a)
  {
  }

  /** When a rule applies to the preview, by the rule's own name. */
  ghost predicate AppliesTo(c: Context, rule: Rule) {
    || rule.always
    || (rule.id == "SEM-PARENT-SUBISSUE"
        && !(c.relationshipKinds !! {"planned_parent", "planned_parent_candidate"}))
    || (rule.id == "SEM-DEPENDENCY"
        && !(c.relationshipKinds !! {"planned_dependency", "planned_dependency_candidate"}))
    || (rule.id == "SEM-DUPLICATE-OVERLAP" && c.level != "Conceptual")
  }

  lemma AppliesExactly(c: Context, rule: Rule)
    ensures Applicable(c, rule) <==> AppliesTo(c, rule)
  {
    if !(c.relationshipKinds !! {"planned_parent", "planned_parent_candidate"}) {
      var kind :| kind in c.relationshipKinds && kind in {"planned_parent", "planned_parent_candidate"};
    }
    if !(c.relationshipKinds !! {"planned_dependency", "planned_dependency_candidate"}) {
      var kind :| kind in c.relationshipKinds && kind in {"planned_dependency", "planned_dependency_candidate"};
    }
  }

  /** What a committed audit says of each rule and each finding: its result is decided by the worst outcome, a rule
      is marked not applicable exactly when it does not apply, and a finding has the class that its rule gives
      to the outcome it was found with. */
  lemma CommittedMeans(c: Context, a: AuditRecord)
    requires NoDuplicates(RuleIds(c)) && Committed(c, a)
    ensures ResultFits(a)
    ensures forall i, k :: 0 <= i < |a.evaluations| && 0 <= k < |c.rules| && c.rules[k].id == a.evaluations[i].rule ==>
              (a.evaluations[i].outcome == NotApplicable <==> !AppliesTo(c, c.rules[k]))
    ensures forall i, k :: 0 <= i < |a.findings| && 0 <= k < |c.rules| && c.rules[k].id == a.findings[i].rule ==>
              var f := a.findings[i];
              || (f.outcome == Failed && c.rules[k].failedClass == Some(f.class_))
              || (f.outcome == Unknown && c.rules[k].unknownClass == Some(f.class_))
              || (f.outcome == Blocked && c.rules[k].blockedClass == Some(f.class_))
  {
    hide Applicable, AppliesTo, ResultFits, ResultOf, Members, AllRefs, EvaluationShaped, FindingShaped, RefsSound;
    ResultIsWorst(a);
    forall i, k | 0 <= i < |a.evaluations| && 0 <= k < |c.rules| && c.rules[k].id == a.evaluations[i].rule
      ensures a.evaluations[i].outcome == NotApplicable <==> !AppliesTo(c, c.rules[k])
    {
      assert EvaluationSound(c, a.evaluations[i]);
      SameIdSameRule(c, k, RuleAt(c, a.evaluations[i].rule));
      AppliesExactly(c, c.rules[k]);
    }
    forall i, k | 0 <= i < |a.findings| && 0 <= k < |c.rules| && c.rules[k].id == a.findings[i].rule
      ensures ExpectedClass(c.rules[k], a.findings[i].outcome) == Some(a.findings[i].class_)
    {
      assert FindingSound(c, a.evaluations, a.findings[i]);
      SameIdSameRule(c, k, RuleAt(c, a.findings[i].rule));
    }
  }

  /** What a committed audit holds: every rule of the registry evaluated once, under its version and with a rationale;
      evidence and items that are known and listed once; references exactly on outcomes that need them; and findings
      that repeat the rule and the outcome they belong to, under an id made of what they say. */
  lemma CommittedHolds(c: Context, a: AuditRecord, i: nat, j: nat)
    requires Committed(c, a) && i < |a.evaluations| && j < |a.findings|
    ensures var e := a.evaluations[i];
      && e.rationale != "" && NoDuplicates(e.evidenceRefs) && NoDuplicates(e.findingRefs)
      && (forall k :: 0 <= k < |e.evidenceRefs| ==> e.evidenceRefs[k] in c.evidence && e.evidenceRefs[k] != "")
      && (exists k :: 0 <= k < |c.rules| && c.rules[k].id == e.rule && c.rules[k].version == e.version)
      && (e.findingRefs == [] <==> e.outcome == Passed || e.outcome == NotApplicable)
      && (forall k :: 0 <= k < |a.evaluations| && k != i ==> a.evaluations[k].rule != e.rule)
    ensures var f := a.findings[j];
      && f.title != "" && f.rationale != "" && f.action != ""
      && (f.severity == "Blocker" || f.severity == "High" || f.severity == "Medium" || f.severity == "Low")
      && NoDuplicates(f.items) && NoDuplicates(f.evidenceRefs)
      && (forall k :: 0 <= k < |f.items| ==> f.items[k] in c.items && f.items[k] != "")
      && (forall k :: 0 <= k < |f.evidenceRefs| ==> f.evidenceRefs[k] in c.evidence && f.evidenceRefs[k] != "")
      && (exists k :: 0 <= k < |a.evaluations| && a.evaluations[k].rule == f.rule && a.evaluations[k].outcome == f.outcome
                      && a.evaluations[k].version == f.version)
      && f.id.title == f.title && f.id.rationale == f.rationale && f.id.severity == f.severity && f.id.class_ == f.class_
  {
    hide Applicable, ResultOf, Members, AllRefs, NoDuplicates, RefersTo, ExpectedClass;
    var e, f := a.evaluations[i], a.findings[j];
    assert EvaluationShaped(e) && EvaluationSound(c, e) && RefsSound(e, a.findings);
    assert FindingShaped(f) && FindingSound(c, a.evaluations, f);
    var k := FirstIndex(EvaluatedRules(a.evaluations), f.rule);
    assert EvaluationSound(c, a.evaluations[k]);
    OtherRules(a.evaluations, i);
  }

  lemma OtherRules(evaluations: seq<Evaluation>, i: nat)
    requires NoDuplicates(EvaluatedRules(evaluations)) && i < |evaluations|
    ensures forall k :: 0 <= k < |evaluations| && k != i ==> evaluations[k].rule != evaluations[i].rule
  {
    forall k | 0 <= k < |evaluations| && k != i
      ensures evaluations[k].rule != evaluations[i].rule
    {
      assert EvaluatedRules(evaluations)[k] != EvaluatedRules(evaluations)[i];
    }
  }

  /** A finding is acceptable exactly when its rule was evaluated and belongs to the registry, its items and evidence are
      known and listed once, its class is the one of the rule for that outcome, its severity is one of four, and its
      texts are there. */
  lemma FindingAcceptedExactly(c: Context, es: seq<EvaluationDraft>, f: FindingDraft, i: nat, k: nat)
    requires NoDuplicates(DraftRules(es)) && NoDuplicates(RuleIds(c))
    requires i < |es| && es[i].rule == f.rule && k < |c.rules| && c.rules[k].id == f.rule
    ensures FindingAccepted(c, es, f) <==>
              && (forall j :: 0 <= j < |f.items| ==> f.items[j] in c.items && f.items[j] != "")
              && (forall j :: 0 <= j < |f.evidenceRefs| ==> f.evidenceRefs[j] in c.evidence && f.evidenceRefs[j] != "")
              && NoDuplicates(f.items) && NoDuplicates(f.evidenceRefs)
              && (|| (es[i].outcome == Failed && c.rules[k].failedClass == Some(f.class_))
                  || (es[i].outcome == Unknown && c.rules[k].unknownClass == Some(f.class_))
                  || (es[i].outcome == Blocked && c.rules[k].blockedClass == Some(f.class_)))
              && (f.severity == "Blocker" || f.severity == "High" || f.severity == "Medium" || f.severity == "Low")
              && f.title != "" && f.rationale != "" && f.action != ""
              && c.workspace != "" && c.preview != "" && c.revision >= 1
  {
    hide NoDuplicates;
    FirstIndexFirst(DraftRules(es), f.rule, i);
    FirstIndexFirst(RuleIds(c), f.rule, k);
    assert DraftRules(es)[i] == f.rule && RuleIds(c)[k] == f.rule;
  }

  /** The record keeps what was drafted, field by field and in order, and adds the rules that do not apply. */
  lemma RecordKeepsDrafts(c: Context, es: seq<EvaluationDraft>, fs: seq<FindingDraft>)
    requires DraftsAccepted(c, es, fs)
    ensures var r := Recorded(c, es, fs);
      && |r.evaluations| >= |es| && |r.findings| == |fs|
      && (forall i :: 0 <= i < |es| ==>
            && r.evaluations[i].rule == es[i].rule && r.evaluations[i].version == es[i].version
            && r.evaluations[i].outcome == es[i].outcome && r.evaluations[i].rationale == es[i].rationale
            && r.evaluations[i].evidenceRefs == es[i].evidenceRefs
            && |r.evaluations[i].findingRefs| == |es[i].findingRefs|)
      && (forall i :: |es| <= i < |r.evaluations| ==> r.evaluations[i].outcome == NotApplicable)
      && (forall i :: 0 <= i < |fs| ==>
            && r.findings[i].rule == fs[i].rule && r.findings[i].class_ == fs[i].class_
            && r.findings[i].severity == fs[i].severity && r.findings[i].title == fs[i].title
            && r.findings[i].rationale == fs[i].rationale && r.findings[i].evidenceRefs == fs[i].evidenceRefs
            && r.findings[i].items == fs[i].items && r.findings[i].action == fs[i].action
            && r.findings[i].resolution == fs[i].resolution)
  {
    hide NoDuplicates, RuleCovered, EvaluationAccepted, ResultOf, Referenced;
    AddedDoNotApply(c, c.rules);
  }

  lemma {:induction false} AddedDoNotApply(c: Context, rules: seq<Rule>)
    ensures forall i :: 0 <= i < |InapplicableEvaluations(c, rules)| ==>
              InapplicableEvaluations(c, rules)[i].outcome == NotApplicable
    decreases |rules|
  {
    hide Applicable;
    if rules != [] {
      AddedDoNotApply(c, rules[1..]);
    }
  }

  /** A reference of a draft becomes the id of the finding that it names. */
  lemma RecordKeepsReferences(c: Context, es: seq<EvaluationDraft>, fs: seq<FindingDraft>, i: nat, j: nat, k: nat)
    requires DraftsAccepted(c, es, fs) && i < |es| && j < |es[i].findingRefs| && k < |fs|
    requires fs[k].ref == es[i].findingRefs[j]
    ensures var r := Recorded(c, es, fs);
      && i < |r.evaluations| && j < |r.evaluations[i].findingRefs| && k < |r.findings|
      && r.evaluations[i].findingRefs[j] == r.findings[k].id
  {
    hide RuleCovered, EvaluationAccepted, ResultOf, Referenced, InapplicableEvaluations;
    assert RefsAccepted(es[i], fs);
    FirstIndexFirst(DraftRefs(fs), fs[k].ref, k);
  }

  lemma RefsFrom(evaluations: seq<Evaluation>, i: nat, before: seq<FindingId>)
    requires i < |evaluations|
    ensures before + AllRefs(evaluations[i..]) == (before + evaluations[i].findingRefs) + AllRefs(evaluations[i + 1..])
  {
    assert evaluations[i..][1..] == evaluations[i + 1..];
  }

  lemma NoRefs(evaluations: seq<Evaluation>, before: seq<FindingId>)
    requires evaluations == []
    ensures before + AllRefs(evaluations) == before
  {
  }

  // ---- what a committed audit says ----

  lemma {:induction false} NoReferences(evaluations: seq<Evaluation>)
    requires forall i :: 0 <= i < |evaluations| ==> evaluations[i].findingRefs == []
    ensures AllRefs(evaluations) == []
    decreases |evaluations|
  {
    if evaluations != [] {
      NoReferences(evaluations[1..]);
    }
  }

  /** A committed audit that passed has no findings, and every applicable rule passed. */
  lemma PassedAuditIsClean(c: Context, a: AuditRecord)
    requires NoDuplicates(RuleIds(c)) && Committed(c, a) && a.result == AllPassed
    ensures a.findings == []
    ensures forall i :: 0 <= i < |c.rules| && Applicable(c, c.rules[i]) ==>
              exists j :: 0 <= j < |a.evaluations| && a.evaluations[j].rule == c.rules[i].id && a.evaluations[j].outcome == Passed
  {
    forall j | 0 <= j < |a.evaluations|
      ensures a.evaluations[j].outcome in {Passed, NotApplicable} && a.evaluations[j].findingRefs == []
    {
      assert RefsSound(a.evaluations[j], a.findings);
      assert !Occurs(a.evaluations, Blocked) && !Occurs(a.evaluations, Unknown) && !Occurs(a.evaluations, Failed);
    }
    NoReferences(a.evaluations);
    assert |multiset(FindingIds(a.findings))| == |a.findings|;
    forall i | 0 <= i < |c.rules| && Applicable(c, c.rules[i])
      ensures exists j :: 0 <= j < |a.evaluations| && a.evaluations[j].rule == c.rules[i].id && a.evaluations[j].outcome == Passed
    {
      assert RuleIds(c)[i] in Members(EvaluatedRules(a.evaluations));
      var j :| 0 <= j < |a.evaluations| && EvaluatedRules(a.evaluations)[j] == c.rules[i].id;
      assert EvaluationSound(c, a.evaluations[j]);
      assert RuleIds(c)[RuleAt(c, c.rules[i].id)] == RuleIds(c)[i];
      assert RuleAt(c, c.rules[i].id) == i;
    }
  }

  // ---- the producer meets the check ----

  /** The texts the producer does not look at, and the lists it takes as sets. */
  predicate DraftClean(e: EvaluationDraft) {
    e.rationale != "" && NoDuplicates(e.findingRefs) && NoDuplicates(e.evidenceRefs)
  }

  /** Every applicable rule was evaluated, mandatory or not. */
  predicate AllApplicableEvaluated(c: Context, es: seq<EvaluationDraft>) {
    forall i :: 0 <= i < |c.rules| && Applicable(c, c.rules[i]) ==> c.rules[i].id in DraftRules(es)
  }

  lemma {:induction false} FirstIndexFirst(s: seq<string>, x: string, i: nat)
    requires i < |s| && s[i] == x && NoDuplicates(s)
    ensures FirstIndex(s, x) == i
  {
    assert x in s;
  }

  lemma {:induction false} FirstIndexFront(s: seq<string>, t: seq<string>, x: string)
    requires x in s
    ensures FirstIndex(s + t, x) == FirstIndex(s, x)
    decreases |s|
  {
    assert (s + t)[0] == s[0];
    if s[0] != x {
      assert (s + t)[1..] == s[1..] + t;
      FirstIndexFront(s[1..], t, x);
    }
  }

  lemma {:induction false} InapplicableAre(c: Context, rules: seq<Rule>)
    ensures var s := InapplicableEvaluations(c, rules);
      && (forall k :: 0 <= k < |s| ==> exists i :: 0 <= i < |rules| && !Applicable(c, rules[i]) && s[k] == Inapplicable(rules[i]))
      && (forall i :: 0 <= i < |rules| && !Applicable(c, rules[i]) ==> Inapplicable(rules[i]) in s)
    decreases |rules|
  {
    hide Applicable, Inapplicable;
    if rules != [] {
      var rest := rules[1..];
      InapplicableAre(c, rest);
      var s, more := InapplicableEvaluations(c, rules), InapplicableEvaluations(c, rest);
      forall k | 0 <= k < |s|
        ensures exists i :: 0 <= i < |rules| && !Applicable(c, rules[i]) && s[k] == Inapplicable(rules[i])
      {
        if Applicable(c, rules[0]) || k > 0 {
          var m := if Applicable(c, rules[0]) then k else k - 1;
          assert s[k] == more[m];
          var i :| 0 <= i < |rest| && !Applicable(c, rest[i]) && more[m] == Inapplicable(rest[i]);
          assert rules[i + 1] == rest[i];
        }
      }
      forall i | 0 <= i < |rules| && !Applicable(c, rules[i])
        ensures Inapplicable(rules[i]) in s
      {
        assert i > 0 ==> rules[i] == rest[i - 1];
      }
    }
  }

  function InapplicableIds(c: Context, rules: seq<Rule>): seq<string> {
    EvaluatedRules(InapplicableEvaluations(c, rules))
  }

  lemma NothingRepeats()
    ensures NoDuplicates<string>([])
  {
  }

  lemma ConsDistinct(x: string, s: seq<string>)
    requires NoDuplicates(s) && forall k :: 0 <= k < |s| ==> s[k] != x
    ensures NoDuplicates([x] + s)
  {
  }

  lemma {:induction false} InapplicableDistinct(c: Context, rules: seq<Rule>)
    requires forall i, j :: 0 <= i < j < |rules| ==> rules[i].id != rules[j].id
    ensures NoDuplicates(InapplicableIds(c, rules))
    decreases |rules|
  {
    hide Applicable, NoDuplicates;
    NothingRepeats();
    if rules != [] {
      var rest := rules[1..];
      InapplicableDistinct(c, rest);
      InapplicableAre(c, rest);
      var ids, more := InapplicableIds(c, rules), InapplicableIds(c, rest);
      if !Applicable(c, rules[0]) {
        assert ids == [rules[0].id] + more;
        forall k | 0 <= k < |more|
          ensures more[k] != rules[0].id
        {
          var i :| 0 <= i < |rest| && !Applicable(c, rest[i]) && InapplicableEvaluations(c, rest)[k] == Inapplicable(rest[i]);
          assert rules[i + 1] == rest[i] && rules[0].id != rules[i + 1].id;
        }
        ConsDistinct(rules[0].id, more);
      } else {
        assert ids == more;
      }
    }
  }

  lemma RecordedRules(c: Context, es: seq<EvaluationDraft>, fs: seq<FindingDraft>)
    requires DraftsAccepted(c, es, fs)
    ensures EvaluatedRules(Evaluations(c, es, fs)) == DraftRules(es) + InapplicableIds(c, c.rules)
  {
    hide Applicable, EvaluationAccepted, RuleCovered, FindingAccepted, NoDuplicates;
  }

  lemma InapplicableId(c: Context, x: string)
    ensures x in InapplicableIds(c, c.rules) <==>
              exists i :: 0 <= i < |c.rules| && !Applicable(c, c.rules[i]) && c.rules[i].id == x
  {
    hide Applicable;
    InapplicableAre(c, c.rules);
    var s, ids := InapplicableEvaluations(c, c.rules), InapplicableIds(c, c.rules);
    if x in ids {
      var k :| 0 <= k < |ids| && ids[k] == x;
      var i :| 0 <= i < |c.rules| && !Applicable(c, c.rules[i]) && s[k] == Inapplicable(c.rules[i]);
    }
    if i :| 0 <= i < |c.rules| && !Applicable(c, c.rules[i]) && c.rules[i].id == x {
      var k :| 0 <= k < |s| && s[k] == Inapplicable(c.rules[i]);
      assert ids[k] == x;
    }
  }

  /** The evaluated rules are distinct, and they are all the rules exactly when every applicable rule was evaluated. */
  lemma RulesEvaluated(c: Context, es: seq<EvaluationDraft>, fs: seq<FindingDraft>)
    requires ContextValid(c) && DraftsAccepted(c, es, fs)
    ensures var ids := EvaluatedRules(Evaluations(c, es, fs));
      && NoDuplicates(ids)
      && (Members(ids) == Members(RuleIds(c)) <==> AllApplicableEvaluated(c, es))
  {
    hide Applicable, FindingAccepted, Evaluations;
    RecordedRules(c, es, fs);
    var drafts, others := DraftRules(es), InapplicableIds(c, c.rules);
    var ids := drafts + others;
    assert forall i, j :: 0 <= i < j < |c.rules| ==> RuleIds(c)[i] != RuleIds(c)[j];
    InapplicableDistinct(c, c.rules);
    forall x ensures x in others <==> exists i :: 0 <= i < |c.rules| && !Applicable(c, c.rules[i]) && c.rules[i].id == x {
      InapplicableId(c, x);
    }
    forall i, j | 0 <= i < |drafts| && 0 <= j < |others|
      ensures drafts[i] != others[j]
    {
      assert others[j] in others;
      var k :| 0 <= k < |c.rules| && !Applicable(c, c.rules[k]) && c.rules[k].id == others[j];
      assert RuleCovered(c, c.rules[k], es);
      assert drafts[i] in drafts;
    }
    RuleMembership(c, es, others);
  }

  lemma SameIdSameRule(c: Context, i: nat, j: nat)
    requires NoDuplicates(RuleIds(c)) && i < |c.rules| && j < |c.rules| && c.rules[i].id == c.rules[j].id
    ensures i == j
  {
    assert RuleIds(c)[i] == RuleIds(c)[j];
  }

  lemma ApplicableIsNotOther(c: Context, i: nat, others: seq<string>)
    requires forall x :: x in others <==> exists i :: 0 <= i < |c.rules| && !Applicable(c, c.rules[i]) && c.rules[i].id == x
    requires NoDuplicates(RuleIds(c)) && i < |c.rules| && Applicable(c, c.rules[i])
    ensures c.rules[i].id !in others
  {
    hide Applicable, NoDuplicates;
    if c.rules[i].id in others {
      var j :| 0 <= j < |c.rules| && !Applicable(c, c.rules[j]) && c.rules[j].id == c.rules[i].id;
      SameIdSameRule(c, i, j);
    }
  }

  lemma RuleMembership(c: Context, es: seq<EvaluationDraft>, others: seq<string>)
    requires forall i :: 0 <= i < |es| ==> EvaluationAccepted(c, es[i])
    requires forall x :: x in others <==> exists i :: 0 <= i < |c.rules| && !Applicable(c, c.rules[i]) && c.rules[i].id == x
    requires NoDuplicates(RuleIds(c))
    ensures Members(DraftRules(es) + others) == Members(RuleIds(c)) <==> AllApplicableEvaluated(c, es)
  {
    hide Applicable;
    var ids := DraftRules(es) + others;
    forall x | x in Members(ids)
      ensures x in Members(RuleIds(c))
    {
      var k :| 0 <= k < |ids| && ids[k] == x;
      if k < |es| {
        assert EvaluationAccepted(c, es[k]);
      } else {
        assert others[k - |es|] in others;
        var i :| 0 <= i < |c.rules| && !Applicable(c, c.rules[i]) && c.rules[i].id == x;
        assert RuleIds(c)[i] == x;
      }
    }
    if AllApplicableEvaluated(c, es) {
      forall x | x in Members(RuleIds(c))
        ensures x in Members(ids)
      {
        var i :| 0 <= i < |c.rules| && RuleIds(c)[i] == x;
        assert x in (if Applicable(c, c.rules[i]) then DraftRules(es) else others);
        assert x in ids;
      }
    }
    if Members(ids) == Members(RuleIds(c)) {
      forall i | 0 <= i < |c.rules| && Applicable(c, c.rules[i])
        ensures c.rules[i].id in DraftRules(es)
      {
        assert RuleIds(c)[i] in Members(RuleIds(c));
        assert c.rules[i].id in ids;
        assert c.rules[i].id in DraftRules(es) || c.rules[i].id in others;
        ApplicableIsNotOther(c, i, others);
      }
    }
  }

  lemma MappedDistinct(c: Context, es: seq<EvaluationDraft>, fs: seq<FindingDraft>, e: EvaluationDraft)
    requires AllFindingsAccepted(c, es, fs) && NoDuplicates(Ids(c, es, fs)) && RefsAccepted(e, fs)
    ensures NoDuplicates(MappedRefs(c, es, fs, e.findingRefs)) <==> NoDuplicates(e.findingRefs)
  {
    hide FindingAccepted;
    var refs, ids := e.findingRefs, MappedRefs(c, es, fs, e.findingRefs);
    forall i, j | 0 <= i < j < |refs|
      ensures ids[i] == ids[j] <==> refs[i] == refs[j]
    {
      var m, n := FirstIndex(DraftRefs(fs), refs[i]), FirstIndex(DraftRefs(fs), refs[j]);
      assert DraftRefs(fs)[m] == refs[i] && DraftRefs(fs)[n] == refs[j];
      assert m != n ==> Ids(c, es, fs)[m] != Ids(c, es, fs)[n];
    }
  }

  lemma KnownTexts(s: seq<string>, known: set<string>)
    requires Texts(s, known) && "" !in known
    ensures NonEmptyTexts(s)
  {
  }

  lemma DraftShaped(c: Context, es: seq<EvaluationDraft>, fs: seq<FindingDraft>, i: nat)
    requires ContextValid(c) && DraftsAccepted(c, es, fs) && i < |es|
    ensures EvaluationShaped(EvaluationOf(c, es, fs, es[i])) <==> DraftClean(es[i])
  {
    hide FindingAccepted, RuleCovered, MappedRefs, NoDuplicates;
    assert EvaluationAccepted(c, es[i]);
    KnownTexts(es[i].evidenceRefs, c.evidence);
    MappedDistinct(c, es, fs, es[i]);
    assert c.rules[RuleAt(c, es[i].rule)].id == es[i].rule;
  }

  lemma DraftSound(c: Context, es: seq<EvaluationDraft>, fs: seq<FindingDraft>, i: nat)
    requires ContextValid(c) && DraftsAccepted(c, es, fs) && i < |es|
    ensures EvaluationSound(c, EvaluationOf(c, es, fs, es[i]))
  {
    hide Applicable, FindingAccepted, NoDuplicates, RefsAccepted, Referenced, MappedRefs;
    var e := es[i];
    assert EvaluationAccepted(c, e);
    assert RuleCovered(c, c.rules[RuleAt(c, e.rule)], es);
    assert DraftRules(es)[i] == e.rule;
  }

  lemma DraftRefsSound(c: Context, es: seq<EvaluationDraft>, fs: seq<FindingDraft>, i: nat)
    requires ContextValid(c) && DraftsAccepted(c, es, fs) && i < |es|
    ensures RefsSound(EvaluationOf(c, es, fs, es[i]), Findings(c, es, fs))
  {
    hide Applicable, FindingAccepted, NoDuplicates, RuleCovered, Referenced, MappedRefs;
    var e, entry := es[i], EvaluationOf(c, es, fs, es[i]);
    assert EvaluationAccepted(c, e);
    assert RefsAccepted(e, fs);
    assert entry.findingRefs == MappedRefs(c, es, fs, e.findingRefs);
    assert e.findingRefs == [] <==> entry.findingRefs == [];
    var findings := Findings(c, es, fs);
    forall k | 0 <= k < |entry.findingRefs|
      ensures RefersTo(entry.findingRefs[k], entry.rule, findings)
    {
      var j := FirstIndex(DraftRefs(fs), e.findingRefs[k]);
      assert findings[j] == FindingOf(c, es, fs[j]);
      assert entry.findingRefs[k] == Ids(c, es, fs)[j];
      assert findings[j].id == entry.findingRefs[k] && findings[j].rule == entry.rule;
    }
    assert entry.outcome in {Passed, NotApplicable} <==> e.outcome == Passed;
    assert entry.rule == e.rule;
  }

  lemma InapplicableSound(c: Context, i: nat, findings: seq<Finding>)
    requires ContextValid(c) && i < |c.rules| && !Applicable(c, c.rules[i])
    ensures EvaluationShaped(Inapplicable(c.rules[i])) && EvaluationSound(c, Inapplicable(c.rules[i]))
    ensures RefsSound(Inapplicable(c.rules[i]), findings)
  {
    hide Applicable;
    assert RuleIds(c)[i] == c.rules[i].id;
    FirstIndexFirst(RuleIds(c), c.rules[i].id, i);
  }

  lemma FindingMeetsCheck(c: Context, es: seq<EvaluationDraft>, fs: seq<FindingDraft>, i: nat)
    requires ContextValid(c) && DraftsAccepted(c, es, fs) && i < |fs|
    ensures FindingShaped(FindingOf(c, es, fs[i]))
    ensures FindingSound(c, Evaluations(c, es, fs), FindingOf(c, es, fs[i]))
  {
    hide Applicable, EvaluationAccepted, RuleCovered, NoDuplicates, RefsAccepted, Referenced;
    var f := fs[i];
    assert FindingAccepted(c, es, f);
    RecordedRules(c, es, fs);
    var ids := EvaluatedRules(Evaluations(c, es, fs));
    FirstIndexFront(DraftRules(es), InapplicableIds(c, c.rules), f.rule);
    var k := FirstIndex(DraftRules(es), f.rule);
    assert f.rule in ids;
    assert Evaluations(c, es, fs)[k] == EvaluationOf(c, es, fs, es[k]);
    assert c.rules[RuleAt(c, f.rule)].id == f.rule;
  }

  // ---- each finding is referenced exactly once ----

  lemma {:induction false} AllRefsFound(evaluations: seq<Evaluation>, id: FindingId)
    ensures id in AllRefs(evaluations) <==> exists i :: 0 <= i < |evaluations| && id in evaluations[i].findingRefs
    decreases |evaluations|
  {
    if evaluations != [] {
      AllRefsFound(evaluations[1..], id);
      if i :| 0 <= i < |evaluations| && id in evaluations[i].findingRefs {
        assert i > 0 ==> id in evaluations[1..][i - 1].findingRefs;
      }
    }
  }

  lemma {:induction false} AllRefsDistinct(evaluations: seq<Evaluation>)
    requires forall i :: 0 <= i < |evaluations| ==> NoDuplicates(evaluations[i].findingRefs)
    requires forall i, j, id :: 0 <= i < j < |evaluations| && id in evaluations[i].findingRefs ==> id !in evaluations[j].findingRefs
    ensures NoDuplicates(AllRefs(evaluations))
    decreases |evaluations|
  {
    if evaluations != [] {
      var first, rest := evaluations[0].findingRefs, AllRefs(evaluations[1..]);
      AllRefsDistinct(evaluations[1..]);
      forall i, j | 0 <= i < |first| && 0 <= j < |rest|
        ensures first[i] != rest[j]
      {
        assert first[i] in evaluations[0].findingRefs;
        AllRefsFound(evaluations[1..], rest[j]);
        assert rest[j] in rest;
        var k :| 0 <= k < |evaluations[1..]| && rest[j] in evaluations[1..][k].findingRefs;
        assert evaluations[k + 1] == evaluations[1..][k];
      }
    }
  }

  lemma {:induction false} DistinctSameMembers<T>(s: seq<T>, t: seq<T>)
    requires NoDuplicates(s) && NoDuplicates(t) && forall x :: x in s <==> x in t
    ensures multiset(s) == multiset(t)
  {
    forall x
      ensures multiset(s)[x] == multiset(t)[x]
    {
      CountDistinct(s, x);
      CountDistinct(t, x);
    }
  }

  lemma {:induction false} CountDistinct<T>(s: seq<T>, x: T)
    requires NoDuplicates(s)
    ensures multiset(s)[x] == if x in s then 1 else 0
    decreases |s|
  {
    if s != [] {
      assert s == [s[0]] + s[1..];
      CountDistinct(s[1..], x);
    }
  }

  lemma NoRefsInapplicable(c: Context, es: seq<EvaluationDraft>, fs: seq<FindingDraft>, k: nat)
    requires DraftsAccepted(c, es, fs) && |es| <= k < |Evaluations(c, es, fs)|
    ensures Evaluations(c, es, fs)[k].findingRefs == []
  {
    hide Applicable, NoDuplicates, FindingAccepted, EvaluationAccepted, RuleCovered, Referenced;
    InapplicableAre(c, c.rules);
    assert Evaluations(c, es, fs)[k] == InapplicableEvaluations(c, c.rules)[k - |es|];
  }

  lemma RefsBelong(c: Context, es: seq<EvaluationDraft>, fs: seq<FindingDraft>, k: nat, id: FindingId)
    requires ContextValid(c) && DraftsAccepted(c, es, fs) && k < |Evaluations(c, es, fs)|
    requires id in Evaluations(c, es, fs)[k].findingRefs
    ensures k < |es| && id in Ids(c, es, fs) && id.rule == es[k].rule
  {
    hide Applicable, NoDuplicates, FindingAccepted, EvaluationAccepted, RuleCovered, Referenced;
    if k >= |es| {
      NoRefsInapplicable(c, es, fs, k);
    } else {
      assert RefsAccepted(es[k], fs);
      var ids := MappedRefs(c, es, fs, es[k].findingRefs);
      var m :| 0 <= m < |ids| && ids[m] == id;
      var j := FirstIndex(DraftRefs(fs), es[k].findingRefs[m]);
      assert id == Ids(c, es, fs)[j];
    }
  }

  lemma FindingReferenced(c: Context, es: seq<EvaluationDraft>, fs: seq<FindingDraft>, j: nat)
    requires ContextValid(c) && DraftsAccepted(c, es, fs) && j < |fs|
    ensures Ids(c, es, fs)[j] in AllRefs(Evaluations(c, es, fs))
  {
    hide Applicable, FindingAccepted, EvaluationAccepted, RuleCovered, IdOf;
    assert Referenced(es, fs[j].ref);
    var k :| 0 <= k < |es| && fs[j].ref in es[k].findingRefs;
    var m :| 0 <= m < |es[k].findingRefs| && es[k].findingRefs[m] == fs[j].ref;
    FirstIndexFirst(DraftRefs(fs), fs[j].ref, j);
    assert RefsAccepted(es[k], fs);
    assert Evaluations(c, es, fs)[k].findingRefs[m] == Ids(c, es, fs)[j];
    AllRefsFound(Evaluations(c, es, fs), Ids(c, es, fs)[j]);
  }

  lemma ReferencedOnce(c: Context, es: seq<EvaluationDraft>, fs: seq<FindingDraft>)
    requires ContextValid(c) && DraftsAccepted(c, es, fs)
    requires forall i :: 0 <= i < |Evaluations(c, es, fs)| ==> NoDuplicates(Evaluations(c, es, fs)[i].findingRefs)
    ensures multiset(AllRefs(Evaluations(c, es, fs))) == multiset(FindingIds(Findings(c, es, fs)))
  {
    hide NoDuplicates, EvaluationAccepted, RuleCovered, FindingAccepted, RefsAccepted, Referenced, Evaluations;
    var evaluations, ids := Evaluations(c, es, fs), Ids(c, es, fs);
    assert FindingIds(Findings(c, es, fs)) == ids;
    forall i, j, id | 0 <= i < j < |evaluations| && id in evaluations[i].findingRefs
      ensures id !in evaluations[j].findingRefs
    {
      RefsBelong(c, es, fs, i, id);
      if id in evaluations[j].findingRefs {
        RefsBelong(c, es, fs, j, id);
        SameRuleSameDraft(es, i, j);
      }
    }
    AllRefsDistinct(evaluations);
    forall id
      ensures id in AllRefs(evaluations) <==> id in ids
    {
      AllRefsFound(evaluations, id);
      if id in AllRefs(evaluations) {
        var i :| 0 <= i < |evaluations| && id in evaluations[i].findingRefs;
        RefsBelong(c, es, fs, i, id);
      }
      if id in ids {
        var j :| 0 <= j < |ids| && ids[j] == id;
        FindingReferenced(c, es, fs, j);
      }
    }
    DistinctSameMembers(AllRefs(evaluations), ids);
  }

  lemma SameRuleSameDraft(es: seq<EvaluationDraft>, i: nat, j: nat)
    requires NoDuplicates(DraftRules(es)) && i < |es| && j < |es| && es[i].rule == es[j].rule
    ensures i == j
  {
    assert DraftRules(es)[i] == DraftRules(es)[j];
  }

  lemma EvaluationsMeetCheck(c: Context, es: seq<EvaluationDraft>, fs: seq<FindingDraft>)
    requires ContextValid(c) && DraftsAccepted(c, es, fs)
    ensures var evaluations := Evaluations(c, es, fs);
      && (forall i :: 0 <= i < |evaluations| ==>
            EvaluationSound(c, evaluations[i]) && RefsSound(evaluations[i], Findings(c, es, fs)))
      && ((forall i :: 0 <= i < |evaluations| ==> EvaluationShaped(evaluations[i])) <==>
          forall i :: 0 <= i < |es| ==> DraftClean(es[i]))
  {
    hide Applicable, NoDuplicates, EvaluationAccepted, RuleCovered, FindingAccepted, RefsAccepted, Referenced,
         EvaluationSound, EvaluationShaped, RefsSound, DraftClean, EvaluationOf, Findings, Inapplicable;
    var evaluations := Evaluations(c, es, fs);
    InapplicableAre(c, c.rules);
    forall i | 0 <= i < |evaluations|
      ensures EvaluationSound(c, evaluations[i]) && RefsSound(evaluations[i], Findings(c, es, fs))
      ensures i < |es| ==> (EvaluationShaped(evaluations[i]) <==> DraftClean(es[i]))
      ensures i >= |es| ==> EvaluationShaped(evaluations[i])
    {
      if i < |es| {
        assert evaluations[i] == EvaluationOf(c, es, fs, es[i]);
        DraftShaped(c, es, fs, i);
        DraftSound(c, es, fs, i);
        DraftRefsSound(c, es, fs, i);
      } else {
        var k :| 0 <= k < |c.rules| && !Applicable(c, c.rules[k])
              && InapplicableEvaluations(c, c.rules)[i - |es|] == Inapplicable(c.rules[k]);
        InapplicableSound(c, k, Findings(c, es, fs));
      }
    }
  }

  /** What `_validate` accepts passes the check on committed audits exactly when the evaluations give their
      rationale and list each reference once, and every applicable rule was evaluated.  Only a rule that is
      applicable but not mandatory can be left out. */
  lemma ProducerMeetsCheck(c: Context, es: seq<EvaluationDraft>, fs: seq<FindingDraft>)
    requires ContextValid(c) && DraftsAccepted(c, es, fs)
    ensures Committed(c, Recorded(c, es, fs)) <==>
              (forall i :: 0 <= i < |es| ==> DraftClean(es[i])) && AllApplicableEvaluated(c, es)
  {
    hide DraftsAccepted, Evaluations, NoDuplicates, EvaluationSound, EvaluationShaped, RefsSound, FindingSound, FindingShaped,
         DraftClean, AllApplicableEvaluated, Members, ContextValid;
    EvaluationsMeetCheck(c, es, fs);
    RulesEvaluated(c, es, fs);
    var a := Recorded(c, es, fs);
    FindingsMeetCheck(c, es, fs);
    if forall i :: 0 <= i < |a.evaluations| ==> EvaluationShaped(a.evaluations[i]) {
      forall i | 0 <= i < |a.evaluations|
        ensures NoDuplicates(a.evaluations[i].findingRefs)
      {
        ShapedRefs(a.evaluations[i]);
      }
      ReferencedOnce(c, es, fs);
    }
  }

  lemma ShapedRefs(e: Evaluation)
    requires EvaluationShaped(e)
    ensures NoDuplicates(e.findingRefs)
  {
  }

  lemma FindingsMeetCheck(c: Context, es: seq<EvaluationDraft>, fs: seq<FindingDraft>)
    requires ContextValid(c) && DraftsAccepted(c, es, fs)
    ensures var findings := Findings(c, es, fs);
      && NoDuplicates(FindingIds(findings))
      && forall i :: 0 <= i < |findings| ==>
           FindingShaped(findings[i]) && FindingSound(c, Evaluations(c, es, fs), findings[i])
  {
    hide NoDuplicates, EvaluationAccepted, RuleCovered, FindingAccepted, RefsAccepted, Referenced, Evaluations, FindingSound,
         FindingShaped, FindingOf;
    assert FindingIds(Findings(c, es, fs)) == Ids(c, es, fs) by { IdsOfFindings(c, es, fs); }
    forall i | 0 <= i < |fs|
      ensures FindingShaped(Findings(c, es, fs)[i]) && FindingSound(c, Evaluations(c, es, fs), Findings(c, es, fs)[i])
    {
      FindingMeetsCheck(c, es, fs, i);
    }
  }

  lemma IdsOfFindings(c: Context, es: seq<EvaluationDraft>, fs: seq<FindingDraft>)
    requires DraftsAccepted(c, es, fs)
    ensures FindingIds(Findings(c, es, fs)) == Ids(c, es, fs)
  {
    hide NoDuplicates, EvaluationAccepted, RuleCovered, FindingAccepted, RefsAccepted, Referenced;
  }

  // ---- recording ----

  const BOUNDARY := "audit_commit_boundary_required"

  /** The drafts that `record_audit` hands on for commit. */
  predicate DraftsCommittable(c: Context, es: seq<EvaluationDraft>, fs: seq<FindingDraft>) {
    && DraftsAccepted(c, es, fs) && (forall i :: 0 <= i < |es| ==> DraftClean(es[i]))
    && AllApplicableEvaluated(c, es)
  }

  /** `record_audit`: the drafts are validated, the record is built, and the record is then put to the same check
      that the store makes before it is handed on.  `early` is what the guards on revision and context digest
      raised before. */
  method RecordAudit(c: Context, early: Option<string>, es: seq<EvaluationDraft>, fs: seq<FindingDraft>)
    returns (r: Result<AuditRecord>)
    requires ContextValid(c)
    ensures r.Ok? <==> early.None? && DraftsCommittable(c, es, fs)
    ensures r.Ok? ==> r.value == Recorded(c, es, fs) && Committed(c, r.value) && ResultFits(r.value)
    ensures r.Err? ==>
              r.error == ValueError(if early.Some? then early.value
                                    else if DraftsAccepted(c, es, fs) then BOUNDARY
                                    else EvaluationRefusal(c, es).GetOr("invalid_input"))
  {
    hide ContextValid, DraftsAccepted, Evaluations, Findings, EvaluationRefusal, DraftClean, AllApplicableEvaluated,
         Committed, Recorded, ResultFits;
    if early.Some? {
      return Err(ValueError(early.value));
    }
    var payload := Validate(c, es, fs);
    if payload.Err? {
      return Err(payload.error);
    }
    var a := AuditRecord(payload.value.evaluations, payload.value.findings, ResultOf(payload.value.evaluations));
    RecordedIs(c, es, fs);
    ProducerMeetsCheck(c, es, fs);
    var ok := ValidateCommitted(c, a);
    if !ok {
      return Err(ValueError(BOUNDARY));
    }
    return Ok(a);
  }

  lemma RecordedIs(c: Context, es: seq<EvaluationDraft>, fs: seq<FindingDraft>)
    requires DraftsAccepted(c, es, fs)
    ensures Recorded(c, es, fs) ==
              AuditRecord(Evaluations(c, es, fs), Findings(c, es, fs), ResultOf(Evaluations(c, es, fs)))
  {
  }

  const PLAIN_RULE := Rule("R", "1", true, true, None, None, None)
  const PLAIN_CONTEXT := Context("w", "p", 1, "Conceptual", {}, {}, {"e"}, [PLAIN_RULE], {})

  /** `_validate` alone is too wide.  It accepts an evaluation without a rationale, one that lists its evidence
      twice, and drafts that leave out a rule that is not mandatory; `record_audit` refuses all three. */
  lemma AcceptedButRefused() returns (silent: EvaluationDraft, twice: EvaluationDraft, lenient: Context)
    ensures ContextValid(PLAIN_CONTEXT) && ContextValid(lenient)
    ensures silent.rationale == "" && !NoDuplicates(twice.evidenceRefs) && !AllApplicableEvaluated(lenient, [])
    ensures DraftsAccepted(PLAIN_CONTEXT, [silent], []) && !DraftsCommittable(PLAIN_CONTEXT, [silent], [])
    ensures DraftsAccepted(PLAIN_CONTEXT, [twice], []) && !DraftsCommittable(PLAIN_CONTEXT, [twice], [])
    ensures DraftsAccepted(lenient, [], []) && !DraftsCommittable(lenient, [], [])
  {
    hide ContextValid, DraftsAccepted, AllApplicableEvaluated, RuleCovered;
    silent := EvaluationDraft("R", "1", Passed, "", [], []);
    twice := EvaluationDraft("R", "1", Passed, "because", [], ["e", "e"]);
    var free := PLAIN_RULE.(mandatory := false);
    lenient := PLAIN_CONTEXT.(rules := [free]);
    assert twice.evidenceRefs[0] == twice.evidenceRefs[1];
    assert !DraftClean([silent][0]) && !DraftClean([twice][0]);
    OneRule(PLAIN_CONTEXT, PLAIN_RULE, silent);
    OneRule(PLAIN_CONTEXT, PLAIN_RULE, twice);
    NothingSubmitted(lenient, free);
  }

  lemma OneRule(c: Context, rule: Rule, e: EvaluationDraft)
    requires c.rules == [rule] && rule.id == "R" && rule.version == "1" && rule.always
    requires rule.failedClass.None? && rule.unknownClass.None? && rule.blockedClass.None?
    requires c.evidence == {"e"} && c.runtimeRules == {}
    requires e.rule == "R" && e.version == "1" && e.outcome == Passed && e.findingRefs == [] && Texts(e.evidenceRefs, c.evidence)
    ensures ContextValid(c) && DraftsAccepted(c, [e], [])
  {
    assert RuleIds(c) == ["R"] && DraftRules([e]) == ["R"];
    assert c.rules[RuleAt(c, "R")] == rule;
    assert "R" in RuleIds(c) && "R" in DraftRules([e]);
  }

  lemma NothingSubmitted(c: Context, rule: Rule)
    requires c.rules == [rule] && rule.id == "R" && rule.version == "1" && rule.always && !rule.mandatory
    requires rule.failedClass.None? && rule.unknownClass.None? && rule.blockedClass.None?
    requires c.evidence == {"e"}
    ensures ContextValid(c) && DraftsAccepted(c, [], []) && !AllApplicableEvaluated(c, [])
  {
    assert RuleIds(c) == ["R"];
    assert Applicable(c, c.rules[0]) && c.rules[0].id !in DraftRules([]);
  }
}
