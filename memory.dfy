/**
 * The prospect memory store (services/memoryService.ts): one map from prospect id
 * to `ProspectMemory`, kept under a single storage key. Every operation reads the
 * whole map, changes one entry and writes the whole map back.
 *
 * The store is a class whose field `saved` is what the storage key holds:
 * `None` when the key is missing or its text does not parse, which every
 * reader treats as the empty map.
 */
module Memory {
  import opened Wrappers
  import opened Domain

  type Memories = map<string, ProspectMemory>

  /** What `getAllMemories` returns for a given stored value. */
  function All(saved: Option<Memories>): (m: Memories)
    ensures saved.None? ==> m == map[]
    ensures saved.Some? ==> m == saved.value
  {
    saved.GetOr(map[])
  }

  /** `x || fallback` for an optional string: both a missing and an empty string fall back. */
  function OrDefault(x: Option<string>, fallback: string): (r: string)
    ensures x.Some? && x.value != "" ==> r == x.value
    ensures x.None? || x.value == "" ==> r == fallback
  {
    if x.Some? && x.value != "" then x.value else fallback
  }

  /** The memory `initializeMemory` creates for a prospect seen for the first time. */
  function NewMemory(p: Prospect): (r: ProspectMemory)
    ensures r.prospectId == p.id && r.leadStatus == LeadStatusName(p.status)
    ensures r.engagementScore == (if p.engagement.Some? then p.engagement.value else 0)
    ensures r.interactionHistory == [] && r.episodicLessons == []
    ensures r.topicsToAvoid == [] && r.topicsThatResonated == []
    ensures r.extractedIntelligence == ExtractedIntelligence([], [], [], [], [], [], [], [])
    ensures r.sequenceAdaptations == Some(SequenceAdaptation(None, None, "Initial State", None))
  {
    ProspectMemory(
      p.id,
      BasicInfo(p.name, p.email, p.title, p.company, p.linkedinUrl),
      EnrichmentData(p.technologies.GetOr([]), p.funding.GetOr(""), p.recentNews.GetOr("")),
      BehavioralProfile("Unknown", "Unknown", "Unknown"),
      [],
      ExtractedIntelligence([], [], [], [], [], [], [], []),
      p.engagement.GetOr(0),
      LeadStatusName(p.status),
      "Initial Outreach",
      [], [], [],
      Some(SequenceAdaptation(None, None, "Initial State", None)))
  }

  /** The store contents after `saveMemory(mem)`. */
  function Saved(m: Memories, mem: ProspectMemory): (r: Memories)
    ensures r.Keys == m.Keys + {mem.prospectId}
    ensures r[mem.prospectId] == mem
    ensures forall k :: k in m && k != mem.prospectId ==> r[k] == m[k]
  {
    m[mem.prospectId := mem]
  }

  /** The store contents and the result of `initializeMemory(p)`. */
  function Initialized(m: Memories, p: Prospect): (r: (Memories, ProspectMemory))
    ensures p.id in m ==> r == (m, m[p.id])
    ensures p.id !in m ==> r.1 == NewMemory(p) && r.0 == Saved(m, NewMemory(p))
  {
    if p.id in m then (m, m[p.id]) else (Saved(m, NewMemory(p)), NewMemory(p))
  }

  /** Initialising twice is initialising once: same store, same memory returned. */
  lemma InitializeIdempotent(m: Memories, p: Prospect)
    ensures Initialized(Initialized(m, p).0, p) == Initialized(m, p)
  {
    if p.id !in m {
      var m1 := Initialized(m, p).0;
      assert p.id in m1 && m1[p.id] == NewMemory(p);
      assert Saved(m1, NewMemory(p)) == m1;
    }
  }

  /** Shallow `{ ...base, ...patch }` of two sequence adaptations; `reason` is always supplied. */
  function MergeAdaptation(base: Option<SequenceAdaptation>, patch: SequenceAdaptation): (r: SequenceAdaptation)
    ensures r.reason == patch.reason
    ensures patch.overrideNextChannel.Some? ==> r.overrideNextChannel == patch.overrideNextChannel
    ensures patch.overridePriority.Some? ==> r.overridePriority == patch.overridePriority
    ensures patch.activeUntil.Some? ==> r.activeUntil == patch.activeUntil
    ensures patch.overrideNextChannel.None? ==>
      r.overrideNextChannel == (if base.Some? then base.value.overrideNextChannel else None)
    ensures patch.overridePriority.None? ==>
      r.overridePriority == (if base.Some? then base.value.overridePriority else None)
    ensures patch.activeUntil.None? ==>
      r.activeUntil == (if base.Some? then base.value.activeUntil else None)
  {
    var b := base.GetOr(SequenceAdaptation(None, None, "", None));
    SequenceAdaptation(
      if patch.overrideNextChannel.Some? then patch.overrideNextChannel else b.overrideNextChannel,
      if patch.overridePriority.Some? then patch.overridePriority else b.overridePriority,
      patch.reason,
      if patch.activeUntil.Some? then patch.activeUntil else b.activeUntil)
  }

  /** Two successive shallow merges equal one merge with the combined patch. */
  lemma MergeAdaptationComposes(base: Option<SequenceAdaptation>, p: SequenceAdaptation, q: SequenceAdaptation)
    ensures MergeAdaptation(Some(MergeAdaptation(base, p)), q) == MergeAdaptation(base, MergeAdaptation(Some(p), q))
  {
  }

  /** A `Partial<ExtractedIntelligence>`: `None` marks a member the update leaves out. */
  datatype IntelligencePatch = IntelligencePatch(
    statedPainPoints: Option<seq<string>>,
    statedPriorities: Option<seq<string>>,
    mentionedCompetitors: Option<seq<string>>,
    budgetIndicators: Option<seq<string>>,
    timelineIndicators: Option<seq<string>>,
    decisionMakersMentioned: Option<seq<string>>,
    objectionsRaised: Option<seq<string>>,
    questionsAsked: Option<seq<string>>)

  /** Shallow `{ ...base, ...patch }`: supplied members overwrite, the others are kept. */
  function MergeIntelligence(base: ExtractedIntelligence, patch: IntelligencePatch): (r: ExtractedIntelligence)
    ensures r.statedPainPoints == patch.statedPainPoints.GetOr(base.statedPainPoints)
    ensures r.statedPriorities == patch.statedPriorities.GetOr(base.statedPriorities)
    ensures r.mentionedCompetitors == patch.mentionedCompetitors.GetOr(base.mentionedCompetitors)
    ensures r.budgetIndicators == patch.budgetIndicators.GetOr(base.budgetIndicators)
    ensures r.timelineIndicators == patch.timelineIndicators.GetOr(base.timelineIndicators)
    ensures r.decisionMakersMentioned == patch.decisionMakersMentioned.GetOr(base.decisionMakersMentioned)
    ensures r.objectionsRaised == patch.objectionsRaised.GetOr(base.objectionsRaised)
    ensures r.questionsAsked == patch.questionsAsked.GetOr(base.questionsAsked)
  {
    ExtractedIntelligence(
      patch.statedPainPoints.GetOr(base.statedPainPoints),
      patch.statedPriorities.GetOr(base.statedPriorities),
      patch.mentionedCompetitors.GetOr(base.mentionedCompetitors),
      patch.budgetIndicators.GetOr(base.budgetIndicators),
      patch.timelineIndicators.GetOr(base.timelineIndicators),
      patch.decisionMakersMentioned.GetOr(base.decisionMakersMentioned),
      patch.objectionsRaised.GetOr(base.objectionsRaised),
      patch.questionsAsked.GetOr(base.questionsAsked))
  }

  /** A `Partial<BehavioralProfile>`. */
  datatype BehaviorPatch = BehaviorPatch(
    discType: Option<string>,
    communicationPreference: Option<string>,
    decisionStyle: Option<string>)

  function MergeBehavior(base: BehavioralProfile, patch: BehaviorPatch): (r: BehavioralProfile)
    ensures r.discType == patch.discType.GetOr(base.discType)
    ensures r.communicationPreference == patch.communicationPreference.GetOr(base.communicationPreference)
    ensures r.decisionStyle == patch.decisionStyle.GetOr(base.decisionStyle)
  {
    BehavioralProfile(
      patch.discType.GetOr(base.discType),
      patch.communicationPreference.GetOr(base.communicationPreference),
      patch.decisionStyle.GetOr(base.decisionStyle))
  }

  /** A `Partial<EpisodicLesson>` as `addEpisodicLesson` reads it. */
  datatype LessonPatch = LessonPatch(outcome: Option<string>, keyLearning: Option<string>)

  function NewLesson(prospectId: string, lesson: LessonPatch, now: string): (r: EpisodicLesson)
    ensures r.prospectId == prospectId && r.timestamp == now
    ensures r.outcome == OrDefault(lesson.outcome, "won")
    ensures r.keyLearning == OrDefault(lesson.keyLearning, "Observation")
  {
    EpisodicLesson(prospectId, OrDefault(lesson.outcome, "won"), OrDefault(lesson.keyLearning, "Observation"), now)
  }

  /** Every memory is stored under its own `prospectId`, as `saveMemory` keeps it. */
  predicate WellKeyed(m: Memories) {
    forall k :: k in m ==> m[k].prospectId == k
  }

  class MemoryStore {
    var saved: Option<Memories>

    constructor(initial: Option<Memories>)
      ensures saved == initial
    {
      saved := initial;
    }

    function Memories(): Memories
      reads this
    {
      All(saved)
    }

    /** `getMemory`: the stored memory, or `None` for an unknown id or an unreadable store. */
    method GetMemory(prospectId: string) returns (r: Option<ProspectMemory>)
      ensures saved.None? ==> r.None?
      ensures r.Some? <==> saved.Some? && prospectId in saved.value
      ensures r.Some? ==> r.value == saved.value[prospectId]
    {
      var all := All(saved);
      r := if prospectId in all then Some(all[prospectId]) else None;
    }

    /** `saveMemory`: writes the memory under its own id; every other entry is kept. */
    method SaveMemory(mem: ProspectMemory)
      modifies this
      ensures saved == Some(Saved(old(Memories()), mem))
    {
      saved := Some(Saved(All(saved), mem));
    }

    /** `initializeMemory`: returns an existing memory untouched, otherwise creates and saves one. */
    method InitializeMemory(p: Prospect) returns (r: ProspectMemory)
      modifies this
      ensures p.id in old(Memories()) ==> r == old(Memories())[p.id] && saved == old(saved)
      ensures p.id !in old(Memories()) ==> r == NewMemory(p) && saved == Some(Saved(old(Memories()), r))
    {
      var existing := GetMemory(p.id);
      if existing.Some? {
        return existing.value;
      }
      r := NewMemory(p);
      SaveMemory(r);
    }

    /** `addInteraction`: appends to the end of the history; nothing happens for an unknown id. */
    method AddInteraction(prospectId: string, event: InteractionEvent)
      modifies this
      ensures prospectId !in old(Memories()) ==> saved == old(saved)
      ensures prospectId in old(Memories()) ==>
        var m := old(Memories())[prospectId];
        saved == Some(Saved(old(Memories()), m.(interactionHistory := m.interactionHistory + [event])))
    {
      var memory := GetMemory(prospectId);
      if memory.None? {
        return;
      }
      var m := memory.value;
      SaveMemory(m.(interactionHistory := m.interactionHistory + [event]));
    }

    /** `addEpisodicLesson`: appends a lesson with the documented defaults. */
    method AddEpisodicLesson(prospectId: string, lesson: LessonPatch, now: string)
      modifies this
      ensures prospectId !in old(Memories()) ==> saved == old(saved)
      ensures prospectId in old(Memories()) ==>
        var m := old(Memories())[prospectId];
        saved == Some(Saved(old(Memories()),
          m.(episodicLessons := m.episodicLessons + [NewLesson(prospectId, lesson, now)])))
    {
      var memory := GetMemory(prospectId);
      if memory.None? {
        return;
      }
      var m := memory.value;
      SaveMemory(m.(episodicLessons := m.episodicLessons + [NewLesson(prospectId, lesson, now)]));
    }

    /** `updateIntelligence`: shallow merge of the extracted intelligence. */
    method UpdateIntelligence(prospectId: string, patch: IntelligencePatch)
      modifies this
      ensures prospectId !in old(Memories()) ==> saved == old(saved)
      ensures prospectId in old(Memories()) ==>
        var m := old(Memories())[prospectId];
        saved == Some(Saved(old(Memories()),
          m.(extractedIntelligence := MergeIntelligence(m.extractedIntelligence, patch))))
    {
      var memory := GetMemory(prospectId);
      if memory.None? {
        return;
      }
      var m := memory.value;
      SaveMemory(m.(extractedIntelligence := MergeIntelligence(m.extractedIntelligence, patch)));
    }

    /** `updateBehavior`: shallow merge of the behavioural profile. */
    method UpdateBehavior(prospectId: string, patch: BehaviorPatch)
      modifies this
      ensures prospectId !in old(Memories()) ==> saved == old(saved)
      ensures prospectId in old(Memories()) ==>
        var m := old(Memories())[prospectId];
        saved == Some(Saved(old(Memories()),
          m.(behavioralProfile := MergeBehavior(m.behavioralProfile, patch))))
    {
      var memory := GetMemory(prospectId);
      if memory.None? {
        return;
      }
      var m := memory.value;
      SaveMemory(m.(behavioralProfile := MergeBehavior(m.behavioralProfile, patch)));
    }

    /** `updateAdaptation`: shallow merge of the sequence adaptation. */
    method UpdateAdaptation(prospectId: string, patch: SequenceAdaptation)
      modifies this
      ensures saved == AdaptationUpdated(old(saved), prospectId, patch)
    {
      var memory := GetMemory(prospectId);
      if memory.None? {
        return;
      }
      var m := memory.value;
      SaveMemory(m.(sequenceAdaptations := Some(MergeAdaptation(m.sequenceAdaptations, patch))));
    }
  }

  /**
   * The stored value after `updateAdaptation(id, patch)`. The changed memory is written
   * back under its own `prospectId`, which is `id` in a well-keyed store.
   */
  function AdaptationUpdated(saved: Option<Memories>, id: string, patch: SequenceAdaptation): (r: Option<Memories>)
    ensures id !in All(saved) ==> r == saved
    ensures id in All(saved) && WellKeyed(All(saved)) ==>
      && r.Some? && r.value.Keys == All(saved).Keys && WellKeyed(r.value)
      && r.value[id] == All(saved)[id].(sequenceAdaptations := Some(MergeAdaptation(All(saved)[id].sequenceAdaptations, patch)))
      && forall k :: k in All(saved) && k != id ==> r.value[k] == All(saved)[k]
  {
    if id in All(saved) then
      var m := All(saved)[id];
      Some(Saved(All(saved), m.(sequenceAdaptations := Some(MergeAdaptation(m.sequenceAdaptations, patch)))))
    else saved
  }
}
