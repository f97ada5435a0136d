/**
 * The records the services share: a prospect and the memory kept about it
 * (types.ts). Optional members of the TypeScript interfaces are `Option`s;
 * string unions are datatypes; numbers are integers.
 */
module Domain {
  import opened Wrappers

  datatype Channel = Email | LinkedIn | Sms | Call

  datatype EmailStatus = EmailVerified | EmailInvalid | EmailRisky

  /** `Prospect.status`. */
  datatype LeadStatus = Cold | Engaged | Booked | Lost

  function LeadStatusName(s: LeadStatus): string {
    match s
    case Cold => "cold"
    case Engaged => "engaged"
    case Booked => "booked"
    case Lost => "lost"
  }

  /** The members of `Prospect` that the modelled services read. */
  datatype Prospect = Prospect(
    id: string,
    name: string,
    title: string,
    company: string,
    email: string,
    linkedinUrl: string,
    industry: string,
    status: LeadStatus,
    lastActivity: string,
    engagement: Option<int>,          // bantData?.engagement
    technologies: Option<seq<string>>,
    funding: Option<string>,
    recentNews: Option<string>,
    emailStatus: Option<EmailStatus>,
    companySize: Option<string>)

  datatype Direction = Inbound | Outbound

  datatype InteractionEvent = InteractionEvent(
    date: string,
    channel: string,
    direction: Direction,
    contentSummary: string,
    outcome: string,
    content: Option<string>)

  datatype ExtractedIntelligence = ExtractedIntelligence(
    statedPainPoints: seq<string>,
    statedPriorities: seq<string>,
    mentionedCompetitors: seq<string>,
    budgetIndicators: seq<string>,
    timelineIndicators: seq<string>,
    decisionMakersMentioned: seq<string>,
    objectionsRaised: seq<string>,
    questionsAsked: seq<string>)

  datatype BehavioralProfile = BehavioralProfile(
    discType: string,
    communicationPreference: string,
    decisionStyle: string)

  datatype EpisodicLesson = EpisodicLesson(
    prospectId: string,
    outcome: string,
    keyLearning: string,
    timestamp: string)

  datatype PriorityOverride = Urgent | Normal

  datatype SequenceAdaptation = SequenceAdaptation(
    overrideNextChannel: Option<Channel>,
    overridePriority: Option<PriorityOverride>,
    reason: string,
    activeUntil: Option<string>)

  datatype BasicInfo = BasicInfo(name: string, email: string, title: string, company: string, linkedin: string)

  datatype EnrichmentData = EnrichmentData(technologies: seq<string>, funding: string, recentNews: string)

  datatype ProspectMemory = ProspectMemory(
    prospectId: string,
    basicInfo: BasicInfo,
    enrichmentData: EnrichmentData,
    behavioralProfile: BehavioralProfile,
    interactionHistory: seq<InteractionEvent>,
    extractedIntelligence: ExtractedIntelligence,
    engagementScore: int,
    leadStatus: string,
    nextAction: string,
    topicsToAvoid: seq<string>,
    topicsThatResonated: seq<string>,
    episodicLessons: seq<EpisodicLesson>,
    sequenceAdaptations: Option<SequenceAdaptation>)
}
