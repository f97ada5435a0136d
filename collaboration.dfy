/**
 * Escalation routing (services/collaborationService.ts): the default escalation
 * rules, the choice of the primary rule among the custom and default rules that
 * fire, and the decision built from it. The AI hand-off packet is a parameter.
 */
module Collaboration {
  import opened Wrappers
  import opened Text

  datatype EscalationContext = EscalationContext(
    prospectId: string,
    threadId: string,
    messageContent: string,
    prospectTitle: string,
    companyName: string,
    intent: Option<string>,
    sentimentScore: Option<real>)

  datatype Level = L4Urgent | L3Handoff | L2Review

  /** A rule's `conditions`: one of the five default tests, or a caller's own predicate. */
  datatype Condition =
    | LegalRisk
    | HostileSentiment
    | HumanRequest
    | CSuiteEngaged
    | ComplexPricing
    | Custom(test: EscalationContext -> bool)

  datatype EscalationRule = EscalationRule(
    id: string,
    name: string,
    priority: real,
    level: Level,
    reason: string,
    sla: string,
    pauseAutonomous: bool,
    conditions: Condition)

  /** The AI hand-off packet (`HandoffContext`). */
  datatype HandoffContext = HandoffContext(
    escalationId: string,
    urgency: string,
    reason: string,
    sla: string,
    contextSummary: string,
    painPoints: seq<string>,
    stakeholdersIdentified: seq<string>,
    recommendedApproach: string,
    prepMaterials: map<string, string>,
    suggestedResponseDraft: string)

  datatype EscalationDecision = EscalationDecision(
    shouldEscalate: bool,
    level: Option<Level>,
    reason: Option<string>,
    assignee: Option<string>,
    escalationId: Option<string>,
    package: Option<HandoffContext>,
    sla: Option<string>,
    continueAutonomous: bool,
    actionsPaused: bool)

  // ---------------------------------------------------------------------------
  // The default rules
  // ---------------------------------------------------------------------------

  /** `s.includes(t)` for one of `ts`. */
  predicate ContainsAny(s: string, ts: seq<string>) {
    exists k :: 0 <= k < |ts| && Contains(s, ts[k])
  }

  const LegalTerms: seq<string> := ["lawyer", "sue", "cease and desist", "gdpr violation"]
  const HumanTerms: seq<string> := ["speak to a human", "real person", "representative"]
  const CSuiteTerms: seq<string> := ["ceo", "cto", "cfo", "founder", "vp"]
  const EngagedIntents: seq<string> := ["positive_interest", "meeting_request", "question"]
  const PricingTerms: seq<string> := ["enterprise license", "volume discount", "procurement"]

  /** Whether a rule's conditions hold for the context. */
  predicate Holds(c: Condition, ctx: EscalationContext) {
    match c
    case LegalRisk => ContainsAny(Lower(ctx.messageContent), LegalTerms)
    case HostileSentiment => ctx.sentimentScore.Some? && ctx.sentimentScore.value < -0.7
    case HumanRequest => ContainsAny(Lower(ctx.messageContent), HumanTerms)
    case CSuiteEngaged =>
      ContainsAny(Lower(ctx.prospectTitle), CSuiteTerms) && ctx.intent.Some? && ctx.intent.value in EngagedIntents
    case ComplexPricing => ContainsAny(Lower(ctx.messageContent), PricingTerms)
    case Custom(test) => test(ctx)
  }

  predicate Fires(r: EscalationRule, ctx: EscalationContext) {
    Holds(r.conditions, ctx)
  }

  const DefaultEscalationRules: seq<EscalationRule> := [
    EscalationRule("legal_risk", "Legal/Compliance Risk", 100.0, L4Urgent,
      "Legal threat or compliance inquiry detected", "15m", true, LegalRisk),
    EscalationRule("hostile_response", "Hostile Sentiment", 95.0, L4Urgent,
      "Hostile or abusive response detected", "30m", true, HostileSentiment),
    EscalationRule("human_request", "Explicit Human Request", 90.0, L3Handoff,
      "Prospect asked for a human", "1h", true, HumanRequest),
    EscalationRule("c_suite_positive", "C-Suite Engagement", 80.0, L3Handoff,
      "C-Level Executive engaged", "2h", true, CSuiteEngaged),
    EscalationRule("complex_pricing", "Complex Pricing Inquiry", 70.0, L2Review,
      "Enterprise pricing discussion", "4h", true, ComplexPricing)
  ]

  // ---------------------------------------------------------------------------
  // Choosing the primary rule
  // ---------------------------------------------------------------------------

  /** The indices of the rules that fire, in increasing order (`rules.filter(...)`). */
  function Matching(rules: seq<EscalationRule>, ctx: EscalationContext): (ix: seq<nat>)
    ensures forall k :: 0 <= k < |ix| ==> ix[k] < |rules| && Fires(rules[ix[k]], ctx)
    ensures forall k, l :: 0 <= k < l < |ix| ==> ix[k] < ix[l]
    ensures forall i :: 0 <= i < |rules| && Fires(rules[i], ctx) ==> i in ix
  {
    if rules == [] then []
    else
      var n := |rules| - 1;
      Matching(rules[..n], ctx) + (if Fires(rules[n], ctx) then [n] else [])
  }

  /**
   * `reduce((prev, current) => current.priority > prev.priority ? current : prev)` over
   * the rules at the indices `ix`: the first index whose priority is the highest.
   */
  function Reduce(rules: seq<EscalationRule>, ix: seq<nat>): (p: nat)
    requires |ix| > 0
    requires forall k :: 0 <= k < |ix| ==> ix[k] < |rules|
    requires forall k, l :: 0 <= k < l < |ix| ==> ix[k] < ix[l]
    ensures p in ix
    ensures forall k :: 0 <= k < |ix| ==> rules[ix[k]].priority <= rules[p].priority
    ensures forall k :: 0 <= k < |ix| && ix[k] < p ==> rules[ix[k]].priority < rules[p].priority
  {
    if |ix| == 1 then ix[0]
    else
      var n := |ix| - 1;
      var prev := Reduce(rules, ix[..n]);
      if rules[ix[n]].priority > rules[prev].priority then ix[n] else prev
  }

  /** `[...customRules, ...DEFAULT_ESCALATION_RULES]`. */
  function AllRules(customRules: seq<EscalationRule>): seq<EscalationRule> {
    customRules + DefaultEscalationRules
  }

  /** A rule fires. */
  predicate AnyFires(rules: seq<EscalationRule>, ctx: EscalationContext) {
    exists i :: 0 <= i < |rules| && Fires(rules[i], ctx)
  }

  /**
   * The primary rule's index: it fires, no firing rule has a higher priority, and
   * every firing rule before it has a lower one.
   */
  function PrimaryIndex(rules: seq<EscalationRule>, ctx: EscalationContext): (p: nat)
    requires AnyFires(rules, ctx)
    ensures p < |rules| && Fires(rules[p], ctx)
    ensures forall i :: 0 <= i < |rules| && Fires(rules[i], ctx) ==> rules[i].priority <= rules[p].priority
    ensures forall i :: 0 <= i < p && Fires(rules[i], ctx) ==> rules[i].priority < rules[p].priority
  {
    var ix := Matching(rules, ctx);
    var i :| 0 <= i < |rules| && Fires(rules[i], ctx);
    assert i in ix;
    var p := Reduce(rules, ix);
    forall j | 0 <= j < |rules| && Fires(rules[j], ctx)
      ensures rules[j].priority <= rules[p].priority
      ensures j < p ==> rules[j].priority < rules[p].priority
    {
      assert j in ix;
      var k :| 0 <= k < |ix| && ix[k] == j;
    }
    p
  }

  // ---------------------------------------------------------------------------
  // The decision
  // ---------------------------------------------------------------------------

  function Assignee(level: Level): string {
    match level
    case L4Urgent => "Sales Director"
    case L3Handoff => "Senior AE"
    case L2Review => "SDR Team Lead"
  }

  function Urgency(level: Level): string {
    match level
    case L4Urgent => "critical"
    case L3Handoff => "high"
    case L2Review => "medium"
  }

  const NoEscalation := EscalationDecision(false, None, None, None, None, None, None, true, false)

  /**
   * `intelligentEscalationRouter(context, prospect, customRules)`. `handoff` stands for
   * the AI packet generated for the primary rule's reason, and `nowMs` for `Date.now()`.
   */
  function IntelligentEscalationRouter(
    ctx: EscalationContext,
    customRules: seq<EscalationRule>,
    handoff: string -> HandoffContext,
    nowMs: nat): (d: EscalationDecision)
    ensures d.shouldEscalate <==> AnyFires(AllRules(customRules), ctx)
    ensures !d.shouldEscalate ==> d == NoEscalation
    ensures d.shouldEscalate ==>
      var r := AllRules(customRules)[PrimaryIndex(AllRules(customRules), ctx)];
      && d.level == Some(r.level) && d.reason == Some(r.reason) && d.sla == Some(r.sla)
      && d.actionsPaused == r.pauseAutonomous && d.continueAutonomous == !r.pauseAutonomous
  {
    var rules := AllRules(customRules);
    if !AnyFires(rules, ctx) then NoEscalation
    else
      var rule := rules[PrimaryIndex(rules, ctx)];
      var packet := handoff(rule.reason);
      EscalationDecision(
        true,
        Some(rule.level),
        Some(rule.reason),
        Some(Assignee(rule.level)),
        Some("esc_" + NatToString(nowMs)),
        Some(packet.(urgency := Urgency(rule.level), sla := rule.sla)),
        Some(rule.sla),
        !rule.pauseAutonomous,
        rule.pauseAutonomous)
  }

  /** The assignee and the package's urgency and SLA follow the primary rule's level and SLA. */
  lemma RouterRoutesByLevel(ctx: EscalationContext, customRules: seq<EscalationRule>, handoff: string -> HandoffContext, nowMs: nat)
    requires AnyFires(AllRules(customRules), ctx)
    ensures var d := IntelligentEscalationRouter(ctx, customRules, handoff, nowMs);
      var r := AllRules(customRules)[PrimaryIndex(AllRules(customRules), ctx)];
      && d.assignee == Some(if r.level == L4Urgent then "Sales Director" else if r.level == L3Handoff then "Senior AE" else "SDR Team Lead")
      && d.package.Some? && d.package.value.sla == r.sla
      && d.package.value.urgency == (if r.level == L4Urgent then "critical" else if r.level == L3Handoff then "high" else "medium")
      && d.package.value.contextSummary == handoff(r.reason).contextSummary
  {
  }

  /**
   * Custom rules come first: a firing custom rule whose priority no firing default rule
   * exceeds is chosen over every default rule.
   */
  lemma {:induction false} CustomRuleWinsTies(ctx: EscalationContext, customRules: seq<EscalationRule>, c: nat)
    requires c < |customRules| && Fires(customRules[c], ctx)
    requires forall j :: 0 <= j < |DefaultEscalationRules| && Fires(DefaultEscalationRules[j], ctx) ==>
      DefaultEscalationRules[j].priority <= customRules[c].priority
    ensures AnyFires(AllRules(customRules), ctx)
    ensures PrimaryIndex(AllRules(customRules), ctx) < |customRules|
  {
    var rules := AllRules(customRules);
    assert rules[c] == customRules[c];
  }

  /** With no custom rule firing, a legal risk is always the primary rule. */
  lemma LegalRiskOutranksDefaults(ctx: EscalationContext, customRules: seq<EscalationRule>)
    requires forall j :: 0 <= j < |customRules| ==> !Fires(customRules[j], ctx)
    requires Holds(LegalRisk, ctx)
    ensures AnyFires(AllRules(customRules), ctx)
    ensures AllRules(customRules)[PrimaryIndex(AllRules(customRules), ctx)].id == "legal_risk"
  {
    var rules := AllRules(customRules);
    var n := |customRules|;
    assert rules[n] == DefaultEscalationRules[0];
    var p := PrimaryIndex(rules, ctx);
    assert p >= n;
    assert rules[p] == DefaultEscalationRules[p - n];
    DefaultPriorities();
  }

  /** The legal rule alone has the top default priority, 100. */
  lemma DefaultPriorities()
    ensures DefaultEscalationRules[0].priority == 100.0
    ensures forall j :: 0 < j < |DefaultEscalationRules| ==> DefaultEscalationRules[j].priority < 100.0
  {
    var priorities := seq(|DefaultEscalationRules|, i requires 0 <= i < |DefaultEscalationRules| => DefaultEscalationRules[i].priority);
    assert priorities == [100.0, 95.0, 90.0, 80.0, 70.0];
    forall j | 0 < j < |DefaultEscalationRules| ensures DefaultEscalationRules[j].priority < 100.0 {
      assert DefaultEscalationRules[j].priority == priorities[j];
    }
  }

  /** A keyword is found in any letter case: it need only appear lowercased in the message. */
  lemma {:induction false} KeywordFoundIgnoringCase(msg: string, terms: seq<string>, k: nat, at: nat)
    requires k < |terms| && at + |terms[k]| <= |msg|
    requires Lower(msg[at..at + |terms[k]|]) == terms[k]
    ensures ContainsAny(Lower(msg), terms)
  {
    var t := terms[k];
    var lm := Lower(msg);
    assert lm[at..at + |t|] == t by {
      forall j | 0 <= j < |t| ensures lm[at + j] == t[j] {
        assert Lower(msg[at..at + |t|])[j] == LowerChar(msg[at + j]);
      }
    }
    assert t <= lm[at..];
  }

  /** The C-suite rule needs both an executive title and one of the three engaged intents. */
  lemma CSuiteNeedsTitleAndIntent(ctx: EscalationContext)
    ensures Holds(CSuiteEngaged, ctx) <==>
      && ContainsAny(Lower(ctx.prospectTitle), CSuiteTerms)
      && (ctx.intent == Some("positive_interest") || ctx.intent == Some("meeting_request") || ctx.intent == Some("question"))
  {
  }
}
