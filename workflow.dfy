/**
 * The event/trigger rule engine (services/workflowService.ts).
 *
 * An event carries a free-form payload; each trigger rule names an event type,
 * a condition object and an action. The processor selects the rules whose type
 * and condition match, runs their actions in rule order, and, when at least one
 * rule matched, prepends one automation log entry to a store capped at the 50
 * newest entries and notifies the subscribed listeners.
 *
 * Payload values are modelled as `Val`, which keeps JavaScript's `undefined`
 * (a missing field) apart from `null`, and compares objects and arrays by
 * identity (`Ref`).
 */
module Workflow {
  import opened Wrappers
  import opened Text
  import opened Domain
  import Memory
  import opened Numbers
  import opened Listeners

  // ---------------------------------------------------------------------------
  // Payload values and JavaScript comparison
  // ---------------------------------------------------------------------------

  datatype Val = Undefined | Null | Bool(b: bool) | Num(n: real) | Str(s: string) | Ref(id: nat)

  type Payload = map<string, Val>

  /** `data[key]`: a missing field reads as `undefined`. */
  function Get(data: Payload, key: string): (v: Val)
    ensures key !in data ==> v == Undefined
    ensures key in data ==> v == data[key]
  {
    if key in data then data[key] else Undefined
  }

  /** JavaScript truthiness. */
  predicate Truthy(v: Val) {
    match v
    case Undefined => false
    case Null => false
    case Bool(b) => b
    case Num(n) => n != 0.0
    case Str(s) => s != ""
    case Ref(_) => true
  }

  /** The property key (or template-literal text) a value turns into. */
  function KeyString(v: Val): string {
    match v
    case Undefined => "undefined"
    case Null => "null"
    case Bool(b) => if b then "true" else "false"
    case Num(n) => NumberText(n)
    case Str(s) => s
    case Ref(_) => "[object Object]"
  }

  /** `Number(v)`: text goes through `StringToNumber`, an object is NaN. */
  function ToNumber(v: Val): Number {
    match v
    case Undefined => NaN
    case Null => Finite(0.0)
    case Bool(b) => Finite(if b then 1.0 else 0.0)
    case Num(n) => Finite(n)
    case Str(s) => StringToNumber(s)
    case Ref(_) => NaN
  }

  /** The outcome of JavaScript's abstract relational comparison; `Unordered` when NaN is involved. */
  datatype Order = Less | Same | Greater | Unordered

  /** Two strings compare by their UTF-16 code units, as JavaScript's `<` does. */
  function StrCompare(a: string, b: string): (r: Order)
    ensures r != Unordered
    ensures r == Same <==> a == b
  {
    var u, v := CodeUnits(a), CodeUnits(b);
    UnitsTrichotomy(u, v);
    CodeUnitsRoundTrip(a);
    CodeUnitsRoundTrip(b);
    assert a == b <== CodePoints(a) == CodePoints(b) by {
      if CodePoints(a) == CodePoints(b) {
        assert forall k :: 0 <= k < |a| ==> a[k] as int == b[k] as int;
      }
    }
    if UnitsBefore(u, v) then Less else if UnitsBefore(v, u) then Greater else Same
  }

  /** Two texts compare as text; any other pair compares as numbers. */
  function Compare(a: Val, b: Val): Order {
    if a.Str? && b.Str? then StrCompare(a.s, b.s)
    else
      var x, y := ToNumber(a), ToNumber(b);
      if x.NaN? || y.NaN? then Unordered
      else if NumLess(x, y) then Less
      else if NumLess(y, x) then Greater
      else Same
  }

  // ---------------------------------------------------------------------------
  // Conditions
  // ---------------------------------------------------------------------------

  /** The operand of `$in`: an array literal, or any other value (which always fails). */
  datatype InOperand = InList(items: seq<Val>) | NotAList(v: Val)

  /**
   * The expected value of one condition key. A plain (non-array, non-null) object
   * is an operator object; `None` marks an operator key it does not hold. Every
   * other value, an array literal included (as a `Ref`), is compared with `===`.
   */
  datatype Expected =
    | Literal(v: Val)
    | Operators(gte: Option<Val>, gt: Option<Val>, lt: Option<Val>, isIn: Option<InOperand>)

  datatype Clause = Clause(key: string, expected: Expected)

  /** One key of a condition object checked against the payload. */
  predicate ClauseHolds(data: Payload, c: Clause) {
    var actual := Get(data, c.key);
    match c.expected
    case Literal(v) => actual == v
    case Operators(gte, gt, lt, isIn) =>
      && (gte.Some? ==> Compare(actual, gte.value) != Less)
      && (gt.Some? ==> Compare(actual, gt.value) != Less && Compare(actual, gt.value) != Same)
      && (lt.Some? ==> Compare(actual, lt.value) != Greater && Compare(actual, lt.value) != Same)
      && (isIn.Some? ==> isIn.value.InList? && actual in isIn.value.items)
  }

  /**
   * `evaluateCondition` as a predicate: an empty condition matches anything; otherwise
   * the payload must be present and every clause must hold. A missing condition object
   * is represented by the empty clause list, which the source treats the same way.
   */
  predicate Matches(data: Option<Payload>, cond: seq<Clause>) {
    |cond| == 0 || (data.Some? && forall i :: 0 <= i < |cond| ==> ClauseHolds(data.value, cond[i]))
  }

  /** `evaluateCondition`: the key loop with its early returns. */
  method EvaluateCondition(data: Option<Payload>, cond: seq<Clause>) returns (r: bool)
    ensures r == Matches(data, cond)
    ensures |cond| == 0 ==> r
    ensures data.None? && |cond| > 0 ==> !r
    ensures r && data.Some? ==> forall c :: c in cond ==> ClauseHolds(data.value, c)
  {
    if |cond| == 0 {
      return true;
    }
    if data.None? {
      return false;
    }
    var payload := data.value;
    var i := 0;
    while i < |cond|
      invariant 0 <= i <= |cond|
      invariant forall j :: 0 <= j < i ==> ClauseHolds(payload, cond[j])
    {
      var expected := cond[i].expected;
      var actual := Get(payload, cond[i].key);
      match expected {
        case Operators(gte, gt, lt, isIn) =>
          if gte.Some? && Compare(actual, gte.value) == Less {
            return false;
          }
          if gt.Some? && (Compare(actual, gt.value) == Less || Compare(actual, gt.value) == Same) {
            return false;
          }
          if lt.Some? && (Compare(actual, lt.value) == Greater || Compare(actual, lt.value) == Same) {
            return false;
          }
          if isIn.Some? && (!isIn.value.InList? || actual !in isIn.value.items) {
            return false;
          }
        case Literal(v) =>
          if actual != v {
            return false;
          }
      }
      i := i + 1;
    }
    return true;
  }

  /** The clauses of a condition are AND-ed: a condition made of two parts matches iff both do. */
  lemma MatchesConjunction(data: Option<Payload>, a: seq<Clause>, b: seq<Clause>)
    ensures Matches(data, a + b) <==> Matches(data, a) && Matches(data, b)
  {
    if data.Some? && |a + b| > 0 {
      if Matches(data, a) && Matches(data, b) {
        forall i | 0 <= i < |a + b| ensures ClauseHolds(data.value, (a + b)[i]) {
          if i >= |a| {
            assert (a + b)[i] == b[i - |a|];
          }
        }
      }
      if Matches(data, a + b) {
        forall i | 0 <= i < |a| ensures ClauseHolds(data.value, a[i]) {
          assert (a + b)[i] == a[i];
        }
        forall i | 0 <= i < |b| ensures ClauseHolds(data.value, b[i]) {
          assert (a + b)[|a| + i] == b[i];
        }
      }
    }
  }

  /** `$gte`, `$gt` and `$lt` on numbers fail exactly when `actual < exp`, `actual <= exp`, `actual >= exp`. */
  lemma NumericOperators(key: string, a: real, b: real)
    ensures ClauseHolds(map[key := Num(a)], Clause(key, Operators(Some(Num(b)), None, None, None))) <==> a >= b
    ensures ClauseHolds(map[key := Num(a)], Clause(key, Operators(None, Some(Num(b)), None, None))) <==> a > b
    ensures ClauseHolds(map[key := Num(a)], Clause(key, Operators(None, None, Some(Num(b)), None))) <==> a < b
  {
  }

  /** A text field against a number threshold is compared by the text's `Number()` value. */
  lemma TextAgainstThreshold(key: string, t: string, x: real, b: real)
    requires StringToNumber(t) == Finite(x)
    ensures ClauseHolds(map[key := Str(t)], Clause(key, Operators(Some(Num(b)), None, None, None))) <==> x >= b
  {
  }

  /** A decimal text `"<whole>.<fraction>"` passes `$gte` exactly when the value it reads as does. */
  lemma DecimalTextAgainstThreshold(key: string, whole: string, fraction: string, b: real)
    requires Digits(whole) && Digits(fraction) && whole + fraction != []
    ensures var x := Scale(DecimalValue(whole + fraction) as real, -|fraction|);
      ClauseHolds(map[key := Str(whole + "." + fraction)], Clause(key, Operators(Some(Num(b)), None, None, None))) <==> x >= b
  {
    var t := whole + "." + fraction;
    var x := Scale(DecimalValue(whole + fraction) as real, -|fraction|);
    PointTextReads(whole, fraction);
    TextAgainstThreshold(key, t, x, b);
  }

  /** `{open_count: "2.5"}` does not pass `{open_count: {$gte: 3}}`: the text reads as 2.5. */
  lemma FractionalCountFallsShort(whole: string, fraction: string)
    requires whole == "2" && fraction == "5"
    ensures !ClauseHolds(map["open_count" := Str(whole + "." + fraction)], Clause("open_count", Operators(Some(Num(3.0)), None, None, None)))
  {
    var digits := whole + fraction;
    assert whole[..0] == [];
    assert DecimalValue(whole) == 2;
    assert digits[..1] == whole && digits[1] == '5';
    assert DecimalValue(digits) == 25;
    assert Scale(25.0, 0) == 25.0;
    assert Scale(25.0, -1) == 2.5;
    DecimalTextAgainstThreshold("open_count", whole, fraction, 3.0);
  }

  /** A text that is not a number never fails a comparison (NaN compares false both ways). */
  lemma NonNumericTextPassesComparisons(key: string, s: string, b: real)
    requires StringToNumber(s).NaN?
    ensures ClauseHolds(map[key := Str(s)], Clause(key, Operators(Some(Num(b)), Some(Num(b)), Some(Num(b)), None)))
  {
  }

  /** `$in` holds iff its operand is an array that contains the actual value. */
  lemma InOperator(data: Payload, key: string, operand: InOperand)
    ensures ClauseHolds(data, Clause(key, Operators(None, None, None, Some(operand))))
      <==> operand.InList? && Get(data, key) in operand.items
  {
  }

  /** A comparison on a field the payload lacks never fails (`undefined < x` is false). */
  lemma AbsentFieldPassesComparisons(data: Payload, key: string, gte: Option<Val>, gt: Option<Val>, lt: Option<Val>)
    requires key !in data
    ensures ClauseHolds(data, Clause(key, Operators(gte, gt, lt, None)))
  {
  }

  /**
   * Strings order by UTF-16 code unit: U+1F600 is stored as the surrogate pair
   * 0xD83D 0xDE00, and 0xD83D is below the full-width exclamation mark U+FF01, so the
   * clause `{$lt: "\U{FF01}"}` holds although the code point U+1F600 is the larger.
   */
  lemma AstralTextBelowFullwidth(data: Payload, key: string)
    requires key in data && data[key] == Str("\U{1F600}")
    ensures ClauseHolds(data, Clause(key, Operators(None, None, Some(Str("\U{FF01}")), None)))
    ensures '\U{1F600}' as int > '\U{FF01}' as int
  {
    assert CodeUnits("\U{1F600}") == [0xD83D, 0xDE00];
    assert CodeUnits("\U{FF01}") == [0xFF01];
  }

  // ---------------------------------------------------------------------------
  // Rules, events and the action executor
  // ---------------------------------------------------------------------------

  datatype Event = Event(eventType: string, entityId: string, entityName: string, timestamp: string, data: Option<Payload>)

  datatype TriggerRule = TriggerRule(name: string, eventType: string, conditions: seq<Clause>, action: string, parameters: Payload)

  /** The result object an action returns; its `status` text is `StatusText`. */
  datatype ActionResult =
    | Completed
    | SequenceBranched(nextChannel: Channel)
    | Escalated(priority: PriorityOverride)
    | Enrolled
    | Accelerated
    | AddedToSequence(sequenceId: Val)
    | DraftCreated(draft: string)
    | DraftFailed
    | UnknownAction

  function StatusText(r: ActionResult): string {
    match r
    case Completed => "completed"
    case SequenceBranched(_) => "sequence_branched"
    case Escalated(_) => "escalated"
    case Enrolled => "enrolled"
    case Accelerated => "accelerated"
    case AddedToSequence(_) => "success"
    case DraftCreated(_) => "draft_created"
    case DraftFailed => "failed"
    case UnknownAction => "unknown_action"
  }

  /** What the AI draft call for a job-change campaign gives back: a draft, or a thrown error. */
  datatype DraftOutcome = Drafted(draft: string) | DraftError

  datatype ActionOutcome = ActionOutcome(action: string, result: ActionResult)

  /** One action's outcome and the sequence adaptation it asks the memory store to merge, if any. */
  datatype Execution = Execution(outcome: ActionOutcome, write: Option<(string, SequenceAdaptation)>)

  const KnownActions: set<string> := {
    "switch_channel_linkedin", "escalate_intent", "enrich_and_sequence", "accelerate_sequence",
    "priority_outreach", "post_booking_workflow", "funding_campaign", "add_to_apollo_sequence",
    "job_change_campaign"}

  /** `event.data?.prospectId || event.entityId`. */
  function ProspectIdOf(event: Event): string {
    if event.data.Some? && Truthy(Get(event.data.value, "prospectId"))
    then KeyString(Get(event.data.value, "prospectId"))
    else event.entityId
  }

  /** The string parameter `key`, or `fallback` when it is missing or falsy. */
  function ParamOr(params: Payload, key: string, fallback: string): string {
    if Truthy(Get(params, key)) then KeyString(Get(params, key)) else fallback
  }

  predicate HasJobChangeData(event: Event) {
    event.data.Some?
    && Truthy(Get(event.data.value, "prospectName")) && Truthy(Get(event.data.value, "oldCompany"))
    && Truthy(Get(event.data.value, "newCompany")) && Truthy(Get(event.data.value, "newTitle"))
  }

  /**
   * `executeTriggerAction`: a dispatch on the action name. The two adaptation actions ask
   * for a memory write when there is a prospect id; the job-change action consults the
   * draft oracle only when the payload carries all four job-change fields.
   */
  function ExecuteTriggerAction(action: string, event: Event, params: Payload, draft: DraftOutcome): Execution
  {
    var pid := ProspectIdOf(event);
    var result: (ActionResult, Option<(string, SequenceAdaptation)>) :=
      if action == "switch_channel_linkedin" then
        if pid != "" then
          (SequenceBranched(LinkedIn),
           Some((pid, SequenceAdaptation(Some(LinkedIn), None, ParamOr(params, "reason", "Engagement Based Switch"), None))))
        else (Completed, None)
      else if action == "escalate_intent" then
        if pid != "" then
          (Escalated(Urgent), Some((pid, SequenceAdaptation(None, Some(Urgent), "High Intent Signal (Pricing Page)", None))))
        else (Completed, None)
      else if action == "enrich_and_sequence" then (Enrolled, None)
      else if action == "accelerate_sequence" then (Accelerated, None)
      else if action == "priority_outreach" || action == "post_booking_workflow" || action == "funding_campaign" then
        (Completed, None)
      else if action == "add_to_apollo_sequence" then (AddedToSequence(Get(params, "apolloSequenceId")), None)
      else if action == "job_change_campaign" then
        if HasJobChangeData(event) then
          (match draft case Drafted(d) => DraftCreated(d) case DraftError => DraftFailed, None)
        else (Completed, None)
      else (UnknownAction, None);
    Execution(ActionOutcome(action, result.0), result.1)
  }

  /**
   * What the dispatch does: an unknown action reports itself; only the channel switch and
   * the escalation write memory, for the event's prospect; only a job change with its data
   * consults the draft oracle.
   */
  lemma ActionDispatch(action: string, event: Event, params: Payload, draft: DraftOutcome)
    ensures var r := ExecuteTriggerAction(action, event, params, draft);
      && r.outcome.action == action
      && (action !in KnownActions <==> r.outcome.result == UnknownAction)
      && (r.write.Some? <==> (action == "switch_channel_linkedin" || action == "escalate_intent") && ProspectIdOf(event) != "")
      && (r.write.Some? ==> r.write.value.0 == ProspectIdOf(event))
      && (action == "switch_channel_linkedin" && r.write.Some? ==>
            r.write.value.1.overrideNextChannel == Some(LinkedIn) && r.outcome.result == SequenceBranched(LinkedIn))
      && (action == "escalate_intent" && r.write.Some? ==>
            r.write.value.1.overridePriority == Some(Urgent) && r.outcome.result == Escalated(Urgent))
      && (r.outcome.result.DraftCreated? || r.outcome.result == DraftFailed ==>
            action == "job_change_campaign" && HasJobChangeData(event))
  {
  }

  // ---------------------------------------------------------------------------
  // Rule selection
  // ---------------------------------------------------------------------------

  predicate Selected(rule: TriggerRule, event: Event) {
    rule.eventType == event.eventType && Matches(event.data, rule.conditions)
  }

  /** `rules.filter(...)`: the rules whose event type and condition match, in registry order. */
  function MatchingRules(rules: seq<TriggerRule>, event: Event): seq<TriggerRule>
    decreases |rules|
  {
    if rules == [] then []
    else (if Selected(rules[0], event) then [rules[0]] else []) + MatchingRules(rules[1..], event)
  }

  /** A rule is selected iff it is registered and its type and condition match. */
  lemma {:induction false} MatchingRulesMembers(rules: seq<TriggerRule>, event: Event, rule: TriggerRule)
    ensures rule in MatchingRules(rules, event) <==> rule in rules && Selected(rule, event)
    decreases |rules|
  {
    if rules != [] {
      MatchingRulesMembers(rules[1..], event, rule);
      assert rules == [rules[0]] + rules[1..];
    }
  }

  /** Selection keeps registry order: filtering a concatenation concatenates the filtered parts. */
  lemma {:induction false} MatchingRulesAppend(a: seq<TriggerRule>, b: seq<TriggerRule>, event: Event)
    ensures MatchingRules(a + b, event) == MatchingRules(a, event) + MatchingRules(b, event)
    decreases |a|
  {
    if a != [] {
      assert (a + b)[1..] == a[1..] + b;
      MatchingRulesAppend(a[1..], b, event);
    } else {
      assert a + b == b;
    }
  }

  /** A rule for another event type never fires. */
  lemma RuleIsolation(rules: seq<TriggerRule>, event: Event, rule: TriggerRule)
    requires rule.eventType != event.eventType
    ensures rule !in MatchingRules(rules, event)
  {
    MatchingRulesMembers(rules, event, rule);
  }

  /** The rules a call uses: the supplied list, or the default registry. */
  function RulesFor(rules: Option<seq<TriggerRule>>): seq<TriggerRule> {
    rules.GetOr(DefaultTriggerRules)
  }

  const DefaultTriggerRules: seq<TriggerRule> := [
    TriggerRule("channel_switch_on_engagement", "email_opened",
      [Clause("open_count", Operators(Some(Num(3.0)), None, None, None)), Clause("replied", Literal(Bool(false)))],
      "switch_channel_linkedin",
      map["reason" := Str("High interest signal (opens) but no reply. Pattern interrupt required.")]),
    TriggerRule("high_intent_pricing_visit", "website_visit",
      [Clause("page", Literal(Str("/pricing")))],
      "escalate_intent",
      map["priority" := Str("urgent"), "tag" := Str("high_intent")]),
    TriggerRule("new_lead_enrichment", "prospect_added",
      [Clause("source", Operators(None, None, None, Some(InList([Str("inbound"), Str("import"), Str("api")]))))],
      "enrich_and_sequence",
      map["enrichment_depth" := Str("comprehensive"), "auto_sequence" := Bool(true), "sequence_selection" := Str("auto")]),
    TriggerRule("meeting_booked_workflow", "meeting_booked",
      [],
      "post_booking_workflow",
      map["stop_sequence" := Bool(true), "create_deal" := Bool(true), "send_confirmation" := Bool(true),
          "schedule_reminders" := Bool(true), "generate_prep_doc" := Bool(true)]),
    TriggerRule("job_change_outreach", "prospect_job_changed",
      [Clause("new_company_icp_fit", Literal(Bool(true)))],
      "job_change_campaign",
      map["delay_days" := Num(7.0), "personalization" := Str("job_change_specific")]),
    TriggerRule("funding_triggered_campaign", "company_funding",
      [Clause("amount", Operators(Some(Num(5000000.0)), None, None, None))],
      "funding_campaign",
      map["priority" := Str("high"), "reference_funding" := Bool(true)]),
    TriggerRule("no_reply_escalation", "email_sent",
      [Clause("days_since_sent", Operators(Some(Num(3.0)), None, None, None)), Clause("replied", Literal(Bool(false)))],
      "add_to_apollo_sequence",
      map["apolloSequenceId" := Str("seq_linkedin_bump_v2"), "reason" := Str("No reply to email channel.")])
  ]

  /** An email opened three times without a reply selects exactly the channel-switch rule. */
  lemma EmailOpenedScenario(entityId: string, entityName: string, timestamp: string)
    ensures MatchingRules(DefaultTriggerRules, Event("email_opened", entityId, entityName, timestamp,
                          Some(map["open_count" := Num(3.0), "replied" := Bool(false)]))) == [DefaultTriggerRules[0]]
  {
    var e := Event("email_opened", entityId, entityName, timestamp,
                   Some(map["open_count" := Num(3.0), "replied" := Bool(false)]));
    var rs := DefaultTriggerRules;
    var head, tail := rs[..1], rs[1..];
    assert rs == head + tail;
    MatchingRulesAppend(head, tail, e);
    assert Selected(rs[0], e) by {
      assert ClauseHolds(e.data.value, rs[0].conditions[0]);
      assert ClauseHolds(e.data.value, rs[0].conditions[1]);
    }
    assert MatchingRules(head, e) == [rs[0]] + MatchingRules(head[1..], e);
    assert head[1..] == [];
  }

  /** The channel-switch rule's action marks the event's prospect for LinkedIn, when there is one. */
  lemma ChannelSwitchOutcome(event: Event, draft: DraftOutcome)
    ensures var x := ExecuteTriggerAction(DefaultTriggerRules[0].action, event, DefaultTriggerRules[0].parameters, draft);
      && x.outcome.result == (if ProspectIdOf(event) != "" then SequenceBranched(LinkedIn) else Completed)
      && (ProspectIdOf(event) != "" ==> x.write == Some((ProspectIdOf(event),
            SequenceAdaptation(Some(LinkedIn), None, "High interest signal (opens) but no reply. Pattern interrupt required.", None))))
  {
    var p := DefaultTriggerRules[0].parameters;
    assert Get(p, "reason") == Str("High interest signal (opens) but no reply. Pattern interrupt required.");
  }

  // ---------------------------------------------------------------------------
  // Log records and the bounded log
  // ---------------------------------------------------------------------------

  datatype SignalDecision = Accelerate | Pause | Pivot | Maintain

  function DecisionText(d: SignalDecision): string {
    match d
    case Accelerate => "ACCELERATE"
    case Pause => "PAUSE"
    case Pivot => "PIVOT"
    case Maintain => "MAINTAIN"
  }

  /** The AI signal-analysis verdict: a decision plus the rest of the returned object, kept as text. */
  datatype SignalAnalysis = SignalAnalysis(decision: SignalDecision, detail: string)

  datatype Metadata = ActionData(result: ActionResult) | SignalData(analysis: SignalAnalysis)

  /** A `WorkflowAction`; its `Date.now()`-based id is not modelled. */
  datatype WorkflowAction = WorkflowAction(kind: string, description: string, status: string, timestamp: string, metadata: Metadata)

  /** An `AutomationLog`; its `Date.now()`-based id is not modelled. */
  datatype AutomationLog = AutomationLog(triggerType: string, entityName: string, timestamp: string, status: string, actions: seq<WorkflowAction>)

  datatype TriggerResult = TriggerResult(event: Event, actionsExecuted: seq<ActionOutcome>)

  /** One call of a subscribed listener, with the copy of the log list it receives. */
  type LogDelivery = Delivery<seq<AutomationLog>>

  const LogCap: nat := 50

  function Min(a: int, b: int): int { if a <= b then a else b }

  /** `[entry, ...logs].slice(0, 50)`. */
  function PushLog(entry: AutomationLog, logs: seq<AutomationLog>): (r: seq<AutomationLog>)
    ensures |r| == Min(|logs| + 1, LogCap)
    ensures r[0] == entry && r[1..] == logs[..|r| - 1]
  {
    ([entry] + logs)[..Min(|logs| + 1, LogCap)]
  }

  /** The workflow action recorded for a matched rule. */
  function ActionRecord(rule: TriggerRule, result: ActionResult, now: string): (a: WorkflowAction)
    ensures a.status == "completed" && a.metadata == ActionData(result) && a.kind == Upper(rule.action)
  {
    WorkflowAction(Upper(rule.action), "Rule '" + rule.name + "': " + ReplaceChar(rule.action, '_', ' '),
                   "completed", now, ActionData(result))
  }

  /**
   * The executions of the matched rules' actions, in rule order; `drafts(i)` is what
   * the AI draft call gives back if the `i`-th action makes one.
   */
  function Executions(matched: seq<TriggerRule>, event: Event, drafts: nat -> DraftOutcome): (r: seq<Execution>)
    ensures |r| == |matched|
    ensures forall i :: 0 <= i < |matched| ==>
      r[i] == ExecuteTriggerAction(matched[i].action, event, matched[i].parameters, drafts(i))
  {
    seq(|matched|, i requires 0 <= i < |matched| =>
      ExecuteTriggerAction(matched[i].action, event, matched[i].parameters, drafts(i)))
  }

  /** The stored memories after the executions' adaptation writes, applied in order. */
  function ApplyWrites(saved: Option<Memory.Memories>, execs: seq<Execution>): Option<Memory.Memories>
    decreases |execs|
  {
    if execs == [] then saved
    else
      var last := execs[|execs| - 1];
      var before := ApplyWrites(saved, execs[..|execs| - 1]);
      if last.write.Some? then Memory.AdaptationUpdated(before, last.write.value.0, last.write.value.1) else before
  }

  /** Logs pushed one after another, oldest entry first. */
  function PushAll(logs: seq<AutomationLog>, entries: seq<AutomationLog>): seq<AutomationLog>
    decreases |entries|
  {
    if entries == [] then logs else PushAll(PushLog(entries[0], logs), entries[1..])
  }

  function Reverse<T>(s: seq<T>): (r: seq<T>)
    ensures |r| == |s|
    ensures forall i :: 0 <= i < |s| ==> r[i] == s[|s| - 1 - i]
    decreases |s|
  {
    if s == [] then [] else Reverse(s[1..]) + [s[0]]
  }

  function Take<T>(s: seq<T>, n: nat): seq<T> {
    s[..Min(|s|, n)]
  }

  lemma TakeOfTake<T>(a: seq<T>, b: seq<T>, n: nat)
    ensures Take(a + Take(b, n), n) == Take(a + b, n)
  {
    var lhs := Take(a + Take(b, n), n);
    var rhs := Take(a + b, n);
    assert |lhs| == |rhs|;
    forall i | 0 <= i < |lhs| ensures lhs[i] == rhs[i] {
      if i >= |a| {
        assert lhs[i] == Take(b, n)[i - |a|];
      }
    }
  }


  /** Starting from a store within the cap, successive pushes keep the 50 newest entries, newest first. */
  lemma {:induction false} PushAllKeepsNewest(logs: seq<AutomationLog>, entries: seq<AutomationLog>)
    requires |logs| <= LogCap
    ensures PushAll(logs, entries) == Take(Reverse(entries) + logs, LogCap)
    decreases |entries|
  {
    if entries == [] {
      assert Reverse(entries) + logs == logs;
    } else {
      var e, rest := entries[0], entries[1..];
      var pushed := PushLog(e, logs);
      assert pushed == Take([e] + logs, LogCap);
      PushAllKeepsNewest(pushed, rest);
      TakeOfTake(Reverse(rest), [e] + logs, LogCap);
      assert Reverse(entries) == Reverse(rest) + [e];
      assert Reverse(rest) + ([e] + logs) == Reverse(entries) + logs;
    }
  }

  /** The 51st entry pushed onto an empty store evicts the first one. */
  lemma FiftyOneEvictOldest(entries: seq<AutomationLog>)
    requires |entries| == LogCap + 1
    ensures PushAll([], entries) == Reverse(entries[1..])
    ensures entries[0] !in entries[1..] ==> entries[0] !in PushAll([], entries)
  {
    var newest := Reverse(entries[1..]);
    PushAllKeepsNewest([], entries);
    assert Reverse(entries) + [] == newest + [entries[0]];
    assert (newest + [entries[0]])[..LogCap] == newest;
  }

  /** The actions-executed list: one outcome per execution, in order. */
  function Outcomes(execs: seq<Execution>): (r: seq<ActionOutcome>)
    ensures |r| == |execs| && forall i :: 0 <= i < |execs| ==> r[i] == execs[i].outcome
  {
    seq(|execs|, i requires 0 <= i < |execs| => execs[i].outcome)
  }

  /** The log's workflow actions: one record per matched rule, in order. */
  function Records(matched: seq<TriggerRule>, execs: seq<Execution>, now: string): (r: seq<WorkflowAction>)
    requires |execs| == |matched|
    ensures |r| == |matched|
    ensures forall i :: 0 <= i < |matched| ==> r[i] == ActionRecord(matched[i], execs[i].outcome.result, now)
  {
    seq(|matched|, i requires 0 <= i < |matched| => ActionRecord(matched[i], execs[i].outcome.result, now))
  }

  /** One more execution extends the outcomes, the records and the applied writes by one step. */
  lemma ExtendPrefix(matched: seq<TriggerRule>, execs: seq<Execution>, i: nat, now: string, saved: Option<Memory.Memories>)
    requires |execs| == |matched| && i < |matched|
    ensures Outcomes(execs[..i + 1]) == Outcomes(execs[..i]) + [execs[i].outcome]
    ensures Records(matched[..i + 1], execs[..i + 1], now)
         == Records(matched[..i], execs[..i], now) + [ActionRecord(matched[i], execs[i].outcome.result, now)]
    ensures ApplyWrites(saved, execs[..i + 1])
         == (var before := ApplyWrites(saved, execs[..i]);
             if execs[i].write.Some? then Memory.AdaptationUpdated(before, execs[i].write.value.0, execs[i].write.value.1)
             else before)
  {
    assert execs[..i + 1][..i] == execs[..i];
    assert execs[..i + 1][i] == execs[i];
  }

  /** The event the legacy `trigger` entry point builds; `stamp` stands for `Date.now()`. */
  function LegacyEvent(triggerType: string, entityName: string, context: Payload, stamp: string, now: string): (e: Event)
    ensures e.eventType == triggerType && e.entityName == entityName && e.timestamp == now
    ensures e.entityId == (if Truthy(Get(context, "prospectId")) then KeyString(Get(context, "prospectId")) else "legacy_" + stamp)
    ensures triggerType == "NEW_LEAD" ==>
      e.data.Some? && Get(e.data.value, "source") == (if "source" in context then context["source"] else Str("inbound"))
      && forall k :: k in context ==> Get(e.data.value, k) == context[k]
    ensures triggerType != "NEW_LEAD" ==> e.data == Some(context)
  {
    var id := if Truthy(Get(context, "prospectId")) then KeyString(Get(context, "prospectId")) else "legacy_" + stamp;
    var data := if triggerType == "NEW_LEAD" then map["source" := Str("inbound")] + context else context;
    Event(triggerType, id, entityName, now, Some(data))
  }

  const DefaultEventTypes: set<string> := {
    "email_opened", "website_visit", "prospect_added", "meeting_booked",
    "prospect_job_changed", "company_funding", "email_sent"}

  /** An event whose type no default rule names selects nothing: so the upper-case legacy types never fire. */
  lemma NoDefaultRuleForOtherTypes(event: Event)
    requires event.eventType !in DefaultEventTypes
    ensures MatchingRules(DefaultTriggerRules, event) == []
  {
    var types := seq(|DefaultTriggerRules|, i requires 0 <= i < |DefaultTriggerRules| => DefaultTriggerRules[i].eventType);
    assert types == ["email_opened", "website_visit", "prospect_added", "meeting_booked",
                     "prospect_job_changed", "company_funding", "email_sent"];
    forall r | r in DefaultTriggerRules ensures !Selected(r, event) {
      var i :| 0 <= i < |DefaultTriggerRules| && DefaultTriggerRules[i] == r;
      assert r.eventType == types[i];
    }
    if MatchingRules(DefaultTriggerRules, event) != [] {
      var r := MatchingRules(DefaultTriggerRules, event)[0];
      MatchingRulesMembers(DefaultTriggerRules, event, r);
      assert false;
    }
  }

  /** One matched rule: its action is executed and its memory write, if any, applied. */
  method RunAction(rule: TriggerRule, event: Event, draft: DraftOutcome, store: Memory.MemoryStore)
    returns (exec: Execution)
    modifies store
    ensures exec == ExecuteTriggerAction(rule.action, event, rule.parameters, draft)
    ensures store.saved == if exec.write.Some? then Memory.AdaptationUpdated(old(store.saved), exec.write.value.0, exec.write.value.1)
                           else old(store.saved)
  {
    exec := ExecuteTriggerAction(rule.action, event, rule.parameters, draft);
    if exec.write.Some? {
      store.UpdateAdaptation(exec.write.value.0, exec.write.value.1);
    }
  }

  /** The loop of `eventTriggerProcessor`: the matched rules' actions, executed in order. */
  method ExecuteMatched(matched: seq<TriggerRule>, event: Event, drafts: nat -> DraftOutcome,
                        store: Memory.MemoryStore, now: string)
    returns (actionsExecuted: seq<ActionOutcome>, workflowActions: seq<WorkflowAction>)
    modifies store
    ensures var execs := Executions(matched, event, drafts);
      && actionsExecuted == Outcomes(execs)
      && workflowActions == Records(matched, execs, now)
      && store.saved == ApplyWrites(old(store.saved), execs)
  {
    ghost var execs := Executions(matched, event, drafts);
    actionsExecuted := [];
    workflowActions := [];
    var i := 0;
    while i < |matched|
      invariant 0 <= i <= |matched|
      invariant actionsExecuted == Outcomes(execs[..i])
      invariant workflowActions == Records(matched[..i], execs[..i], now)
      invariant store.saved == ApplyWrites(old(store.saved), execs[..i])
    {
      var rule := matched[i];
      var exec := RunAction(rule, event, drafts(i), store);
      assert exec == execs[i];
      ExtendPrefix(matched, execs, i, now, old(store.saved));
      actionsExecuted := actionsExecuted + [exec.outcome];
      workflowActions := workflowActions + [ActionRecord(rule, exec.outcome.result, now)];
      i := i + 1;
    }
    assert execs[..i] == execs && matched[..i] == matched;
  }

  // ---------------------------------------------------------------------------
  // The engine: the module-level log store and listener list
  // ---------------------------------------------------------------------------

  class WorkflowEngine {
    var logs: seq<AutomationLog>
    var listeners: seq<nat>
    var delivered: seq<LogDelivery>

    constructor()
      ensures logs == [] && listeners == [] && delivered == []
    {
      logs := [];
      listeners := [];
      delivered := [];
    }

    /** `getLogs`. */
    method GetLogs() returns (r: seq<AutomationLog>)
      ensures r == logs
    {
      r := logs;
    }

    /** `subscribe`: the listener is appended; it is not called until the next notification. */
    method Subscribe(listener: nat)
      modifies this
      ensures listeners == old(listeners) + [listener]
      ensures logs == old(logs) && delivered == old(delivered)
    {
      listeners := listeners + [listener];
    }

    /** The unsubscribe function `subscribe` returns. */
    method Unsubscribe(listener: nat)
      modifies this
      ensures listeners == Without(old(listeners), listener)
      ensures logs == old(logs) && delivered == old(delivered)
    {
      listeners := Without(listeners, listener);
    }

    /** `notifyListeners`: every listener, in subscription order, receives a copy of the logs. */
    method Notify()
      modifies this
      ensures delivered == old(delivered) + Notifications(listeners, logs)
      ensures logs == old(logs) && listeners == old(listeners)
    {
      delivered := delivered + Notifications(listeners, logs);
    }

    /** Prepends one entry to the capped log and notifies. */
    method AppendLog(entry: AutomationLog)
      modifies this
      ensures logs == PushLog(entry, old(logs)) && listeners == old(listeners)
      ensures delivered == old(delivered) + Notifications(listeners, logs)
    {
      logs := PushLog(entry, logs);
      Notify();
    }

    /**
     * `eventTriggerProcessor`: selects the matching rules (the defaults when `rules` is
     * `None`), executes their actions in order, applies their memory writes, and logs
     * and notifies only when something matched.
     */
    method ProcessEvent(event: Event, rules: Option<seq<TriggerRule>>, drafts: nat -> DraftOutcome,
                        store: Memory.MemoryStore, now: string) returns (result: TriggerResult)
      modifies this, store
      ensures var matched := MatchingRules(RulesFor(rules), event);
        var execs := Executions(matched, event, drafts);
        && result == TriggerResult(event, Outcomes(execs))
        && store.saved == ApplyWrites(old(store.saved), execs)
        && listeners == old(listeners)
        && (|matched| == 0 ==> logs == old(logs) && delivered == old(delivered))
        && (|matched| > 0 ==>
              && logs == PushLog(AutomationLog(event.eventType, event.entityName, now, "completed",
                                               Records(matched, execs, now)), old(logs))
              && delivered == old(delivered) + Notifications(listeners, logs))
    {
      var matched := MatchingRules(RulesFor(rules), event);
      var actionsExecuted, workflowActions := ExecuteMatched(matched, event, drafts, store, now);
      ghost var written := store.saved;
      if |matched| > 0 {
        AppendLog(AutomationLog(event.eventType, event.entityName, now, "completed", workflowActions));
      }
      assert store.saved == written;
      result := TriggerResult(event, actionsExecuted);
    }

    /** The legacy `trigger` entry point: builds the event and runs it against the default rules. */
    method Trigger(triggerType: string, entityName: string, context: Payload, stamp: string, now: string,
                   drafts: nat -> DraftOutcome, store: Memory.MemoryStore)
      modifies this, store
      ensures var event := LegacyEvent(triggerType, entityName, context, stamp, now);
        var matched := MatchingRules(DefaultTriggerRules, event);
        var execs := Executions(matched, event, drafts);
        && store.saved == ApplyWrites(old(store.saved), execs)
        && listeners == old(listeners)
        && (|matched| == 0 ==> logs == old(logs) && delivered == old(delivered))
        && (|matched| > 0 ==>
              && logs == PushLog(AutomationLog(triggerType, entityName, now, "completed",
                                               Records(matched, execs, now)), old(logs))
              && delivered == old(delivered) + Notifications(listeners, logs))
    {
      var event := LegacyEvent(triggerType, entityName, context, stamp, now);
      var _ := ProcessEvent(event, None, drafts, store, now);
    }

    /**
     * `processSignalAutonomous`: `analysis` is the AI verdict. ACCELERATE marks the
     * prospect urgent; every decision is logged as one SIGNAL_ANALYSIS action under the
     * same 50-entry cap, and listeners are notified.
     */
    method ProcessSignalAutonomous(prospect: Prospect, signalType: string, analysis: SignalAnalysis,
                                   store: Memory.MemoryStore, now: string)
      modifies this, store
      ensures analysis.decision == Accelerate ==>
        store.saved == Memory.AdaptationUpdated(old(store.saved), prospect.id,
                                                SequenceAdaptation(None, Some(Urgent), "Signal: " + signalType, None))
      ensures analysis.decision != Accelerate ==> store.saved == old(store.saved)
      ensures logs == PushLog(AutomationLog("SIGNAL_DETECTED", prospect.name, now, "completed",
        [WorkflowAction("SIGNAL_ANALYSIS", "Decision: " + DecisionText(analysis.decision), "completed", now,
                        SignalData(analysis))]), old(logs))
      ensures listeners == old(listeners)
      ensures delivered == old(delivered) + Notifications(listeners, logs)
    {
      if analysis.decision == Accelerate {
        store.UpdateAdaptation(prospect.id, SequenceAdaptation(None, Some(Urgent), "Signal: " + signalType, None));
      }
      var action := WorkflowAction("SIGNAL_ANALYSIS", "Decision: " + DecisionText(analysis.decision), "completed", now,
                                   SignalData(analysis));
      AppendLog(AutomationLog("SIGNAL_DETECTED", prospect.name, now, "completed", [action]));
    }
  }
}
