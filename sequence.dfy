/**
 * The next-step decision of the outreach sequence (services/sequenceService.ts):
 * a priority-ordered choice of channel and step from the prospect's attributes,
 * the workflow adaptations stored in its memory, and its interaction history.
 */
module Sequence {
  import opened Wrappers
  import opened Text
  import opened Domain

  /** The steps `getNextStep` can recommend, in the order it tests them. */
  datatype Step =
    | UrgentFollowUp
    | LinkedInSwitch
    | LinkedInRecovery
    | ExecutiveSoftTouch
    | PatternInterrupt
    | ValueBump
    | PostConnection
    | InitialValueDrop

  function StepName(s: Step): string {
    match s
    case UrgentFollowUp => "Urgent Intent Follow-up"
    case LinkedInSwitch => "Engagement Branch: LinkedIn Switch"
    case LinkedInRecovery => "LinkedIn Recovery"
    case ExecutiveSoftTouch => "Executive Soft Touch"
    case PatternInterrupt => "Cross-Channel Pattern Interrupt"
    case ValueBump => "Value Bump"
    case PostConnection => "Post-Connection Context"
    case InitialValueDrop => "Initial Value Drop"
  }

  datatype Recommendation = Recommendation(
    nextChannel: Channel,
    step: Step,
    reasoning: string,
    adjustments: seq<string>)

  const ExecutiveRoles: seq<string> := ["ceo", "cto", "vp", "founder", "president"]

  /** The title names one of the executive roles, ignoring case. */
  predicate IsExecutive(p: Prospect) {
    exists i :: 0 <= i < |ExecutiveRoles| && Contains(Lower(p.title), ExecutiveRoles[i])
  }

  predicate HasLinkedIn(p: Prospect) {
    p.linkedinUrl != ""
  }

  predicate IsEmailRisky(p: Prospect) {
    p.emailStatus == Some(EmailInvalid) || p.emailStatus == Some(EmailRisky)
  }

  /** `memory?.interaction_history || []`. */
  function History(memory: Option<ProspectMemory>): seq<InteractionEvent> {
    if memory.Some? then memory.value.interactionHistory else []
  }

  /** The number of outbound interactions on a channel. */
  function OutboundCount(history: seq<InteractionEvent>, channel: string): (n: nat)
    ensures n <= |history|
    ensures n == 0 <==> forall i :: 0 <= i < |history| ==> !(history[i].channel == channel && history[i].direction == Outbound)
  {
    if history == [] then 0
    else
      var last := history[|history| - 1];
      OutboundCount(history[..|history| - 1], channel) + (if last.channel == channel && last.direction == Outbound then 1 else 0)
  }

  function Adaptation(memory: Option<ProspectMemory>): Option<SequenceAdaptation> {
    if memory.Some? then memory.value.sequenceAdaptations else None
  }

  predicate UrgentOverride(memory: Option<ProspectMemory>) {
    Adaptation(memory).Some? && Adaptation(memory).value.overridePriority == Some(Urgent)
  }

  predicate LinkedInOverride(memory: Option<ProspectMemory>) {
    Adaptation(memory).Some? && Adaptation(memory).value.overrideNextChannel == Some(LinkedIn)
  }

  /** The last interaction is an email that was not replied to. */
  predicate UnrepliedEmailLast(history: seq<InteractionEvent>) {
    |history| > 0 && history[|history| - 1].channel == "email" && history[|history| - 1].outcome != "replied"
  }

  /** The last interaction is a LinkedIn message whose content mentions "Connection". */
  predicate ConnectionLast(history: seq<InteractionEvent>) {
    && |history| > 0
    && history[|history| - 1].channel == "linkedin"
    && history[|history| - 1].content.Some?
    && Contains(history[|history| - 1].content.value, "Connection")
  }

  /** The branch of `getNextStep` that fires, tested in the source's order. */
  function Decide(p: Prospect, memory: Option<ProspectMemory>): Step {
    var history := History(memory);
    var linkedinCount := OutboundCount(history, "linkedin");
    if UrgentOverride(memory) then UrgentFollowUp
    else if LinkedInOverride(memory) then LinkedInSwitch
    else if IsEmailRisky(p) && HasLinkedIn(p) then LinkedInRecovery
    else if ExecutiveTouch(p, memory) then ExecutiveSoftTouch
    else if UnrepliedEmailLast(history) then
      (if OutboundCount(history, "email") >= 2 && HasLinkedIn(p) && linkedinCount == 0 then PatternInterrupt else ValueBump)
    else if ConnectionLast(history) then PostConnection
    else InitialValueDrop
  }

  /** The channel each step sends on. */
  function StepChannel(s: Step): Channel {
    match s
    case LinkedInSwitch | LinkedInRecovery | ExecutiveSoftTouch | PatternInterrupt => LinkedIn
    case _ => Email
  }

  /** The `reasoning` text of each step; `reason` is the adaptation's reason. */
  function Reasoning(s: Step, reason: string): string {
    match s
    case UrgentFollowUp => "Dynamic Adaptation Triggered: " + reason + ". Escalating priority immediately."
    case LinkedInSwitch => "Dynamic Adaptation Triggered: " + reason + ". Switching channel to capture engagement."
    case LinkedInRecovery => "Email channel compromised (Risky/Invalid). Shift to LinkedIn."
    case ExecutiveSoftTouch => "C-Suite prospect detected. LinkedIn connection request is less intrusive than cold email."
    case PatternInterrupt => "No response to emails. Switching channel to pattern interrupt."
    case ValueBump => "Follow up on previous email with new value add."
    case PostConnection => "Leverage new LinkedIn connection to send detailed context via email."
    case InitialValueDrop => "Standard high-deliverability entry point."
  }

  /** The `adjustments` list of each step. */
  function Adjustments(s: Step): seq<string> {
    match s
    case UrgentFollowUp => ["Manual Review Required", "Highly Personalized", "Speed to Lead"]
    case LinkedInSwitch => ["Cross-channel persistence"]
    case LinkedInRecovery => ["Channel switch due to deliverability"]
    case ExecutiveSoftTouch => ["Lead with LinkedIn for executive presence"]
    case PatternInterrupt => ["Omnichannel escalation"]
    case ValueBump => []
    case PostConnection => ["Capitalizing on social proof"]
    case InitialValueDrop => []
  }

  /** `getNextStep(prospect, memory)`. */
  function GetNextStep(p: Prospect, memory: Option<ProspectMemory>): (r: Recommendation)
    ensures r.step == Decide(p, memory) && r.nextChannel == StepChannel(r.step)
    ensures r.nextChannel == LinkedIn ==> HasLinkedIn(p) || LinkedInOverride(memory)
  {
    var reason := if Adaptation(memory).Some? then Adaptation(memory).value.reason else "";
    var step := Decide(p, memory);
    Recommendation(StepChannel(step), step, Reasoning(step, reason), Adjustments(step))
  }

  /** Neither adaptation override is set. */
  predicate NoOverride(memory: Option<ProspectMemory>) {
    !UrgentOverride(memory) && !LinkedInOverride(memory)
  }

  /** The executive branch's test: an executive title, a URL and no outbound LinkedIn message. */
  predicate ExecutiveTouch(p: Prospect, memory: Option<ProspectMemory>) {
    IsExecutive(p) && OutboundCount(History(memory), "linkedin") == 0 && HasLinkedIn(p)
  }

  /** Neither of the prospect-attribute branches (recovery, executive touch) fires. */
  predicate NoProfileBranch(p: Prospect, memory: Option<ProspectMemory>) {
    && !(IsEmailRisky(p) && HasLinkedIn(p))
    && !ExecutiveTouch(p, memory)
  }

  /** An urgent adaptation wins over everything else. */
  lemma UrgentWins(p: Prospect, memory: Option<ProspectMemory>)
    ensures Decide(p, memory) == UrgentFollowUp <==> UrgentOverride(memory)
    ensures UrgentOverride(memory) ==> StepChannel(Decide(p, memory)) == Email
  {
  }

  /** Otherwise a LinkedIn channel override wins. */
  lemma OverrideSwitchesToLinkedIn(p: Prospect, memory: Option<ProspectMemory>)
    ensures Decide(p, memory) == LinkedInSwitch <==> !UrgentOverride(memory) && LinkedInOverride(memory)
  {
  }

  /** Without overrides, a risky or invalid address with a LinkedIn URL moves to LinkedIn. */
  lemma RiskyEmailRecovers(p: Prospect, memory: Option<ProspectMemory>)
    ensures Decide(p, memory) == LinkedInRecovery <==> NoOverride(memory) && IsEmailRisky(p) && HasLinkedIn(p)
  {
  }

  /** Then an executive with a URL and no outbound LinkedIn message gets a LinkedIn soft touch. */
  lemma ExecutiveGetsSoftTouch(p: Prospect, memory: Option<ProspectMemory>)
    ensures Decide(p, memory) == ExecutiveSoftTouch <==>
      NoOverride(memory) && !(IsEmailRisky(p) && HasLinkedIn(p)) && ExecutiveTouch(p, memory)
  {
  }

  /**
   * Then an un-replied last email leads to LinkedIn after two outbound emails (with a
   * URL and no outbound LinkedIn message), and to a value bump otherwise.
   */
  lemma UnrepliedEmailBumps(p: Prospect, memory: Option<ProspectMemory>)
    requires NoOverride(memory) && NoProfileBranch(p, memory)
    requires UnrepliedEmailLast(History(memory))
    ensures var h := History(memory);
      Decide(p, memory) ==
        if OutboundCount(h, "email") >= 2 && HasLinkedIn(p) && OutboundCount(h, "linkedin") == 0 then PatternInterrupt else ValueBump
  {
  }

  /** A last LinkedIn message about a connection leads to a context email, when nothing earlier fired. */
  lemma ConnectionLeadsToEmail(p: Prospect, memory: Option<ProspectMemory>)
    ensures Decide(p, memory) == PostConnection <==>
      NoOverride(memory) && NoProfileBranch(p, memory) && !UnrepliedEmailLast(History(memory)) && ConnectionLast(History(memory))
  {
  }

  /** The first email is the fallback when no other branch fires. */
  lemma FallbackIsFirstEmail(p: Prospect, memory: Option<ProspectMemory>)
    ensures Decide(p, memory) == InitialValueDrop <==>
      NoOverride(memory) && NoProfileBranch(p, memory) && !UnrepliedEmailLast(History(memory)) && !ConnectionLast(History(memory))
  {
  }

  /** With no memory and a plain prospect the first email is recommended. */
  lemma FreshProspectGetsFirstEmail(p: Prospect)
    requires !(IsEmailRisky(p) && HasLinkedIn(p)) && !(IsExecutive(p) && HasLinkedIn(p))
    ensures Decide(p, None) == InitialValueDrop && StepChannel(Decide(p, None)) == Email
  {
  }

  /** An executive title is recognised in any letter case. */
  lemma {:induction false} ExecutiveByTitle(p: Prospect, role: nat, at: nat)
    requires role < |ExecutiveRoles|
    requires at + |ExecutiveRoles[role]| <= |p.title|
    requires Lower(p.title[at..at + |ExecutiveRoles[role]|]) == ExecutiveRoles[role]
    ensures IsExecutive(p)
  {
    var t := ExecutiveRoles[role];
    var lt := Lower(p.title);
    assert lt[at..at + |t|] == t by {
      forall k | 0 <= k < |t| ensures lt[at + k] == t[k] {
        assert Lower(p.title[at..at + |t|])[k] == LowerChar(p.title[at + k]);
      }
    }
    assert t <= lt[at..];
  }
}
