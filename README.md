# NexusSDR-AI service core in Dafny

This project models the decision logic of the NexusSDR-AI sales-development assistant's
service layer, and proves properties of that model. NexusSDR-AI is a browser app that
researches prospects, drafts outreach and schedules follow-ups. The model covers these
services:

- **Memory.** The prospect memory store: one `ProspectMemory` per prospect id, kept under
  a single storage key.
- **Workflow.** The workflow engine. Its parts are:
  - the trigger-condition evaluator;
  - the trigger actions;
  - the event processor, with its automation log capped at fifty entries;
  - listener notification;
  - the legacy `trigger` entry point;
  - the autonomous signal handler.
- **Temporal.** The temporal intelligence service. Its parts are:
  - the hourly slot search;
  - the priority scheduler;
  - the timing analysis that decides whether an outreach is sent now, scheduled or held.
- **Sequence.** The multi-channel sequence planner (the next email or LinkedIn step).
- **Collaboration.** The escalation router, which picks the highest-priority matching
  rule among custom and default rules.
- **Approval.** The approval gate: keyword and role checks, an AI check, and the request
  store with its listeners.
- **Learning.** The outreach attempt log and the insight filter.
- **ABTesting.** A/B experiments: the significance tiers, variant assignment and the
  send and reply counters.
- **Account.** Account grouping of prospects and the aggregation of account signals.
- **Meeting.** The meeting-conversion status and the nudge strategy.
- **Verification.** The e-mail verification heuristic.
- **Persona.** Persona segment matching.

Design choices that apply across the model:

- Storage-backed services are classes whose fields hold the stored value. The value is
  `None` when the key is missing or unparsable.
- Several things the services do not control become parameters of the operations:
  - the clock;
  - the generated ids;
  - the random draw;
  - date parsing;
  - the AI calls.
- Case-insensitive matching, substring tests, `split` and `trim` follow JavaScript string
  semantics (module `Text`).
- A string's `length` and the order `<` puts two strings in are taken over its UTF-16
  code units, as JavaScript stores strings: a character above U+FFFF is a surrogate pair
  (`Text.CodeUnits`).
- Payload fields are compared the way JavaScript's `<` compares them: two texts as text,
  anything else as numbers, with text read by `Number()` (module `Numbers`, after the
  StringToNumber grammar of section 7.1.4.1.1 of ECMA-262). Numbers are exact reals.
- The workflow engine and the approval store keep their listener lists the same way
  (module `Listeners`).

Modules, one file each:

| module | file |
|---|---|
| `Wrappers` | `wrappers.dfy` |
| `Text` | `text.dfy` |
| `Numbers` | `numbers.dfy` |
| `Listeners` | `listeners.dfy` |
| `Domain` | `domain.dfy` |
| `Memory` | `memory.dfy` |
| `Workflow` | `workflow.dfy` |
| `Temporal` | `temporal.dfy` |
| `ABTesting` | `ab_testing.dfy` |
| `Sequence` | `sequence.dfy` |
| `Collaboration` | `collaboration.dfy` |
| `Approval` | `approval.dfy` |
| `Learning` | `learning.dfy` |
| `Account` | `account.dfy` |
| `Meeting` | `meeting.dfy` |
| `Verification` | `verification.dfy` |
| `Persona` | `persona.dfy` |

## Model

| member | source | states |
|---|---|---|
| Text.Lower | services/verificationService.ts:12 | `toLowerCase`: same length, each character mapped by the ASCII lower-case map |
| Text.TrimIsSlice | services/accountService.ts:10 | `trim` returns a contiguous slice of its input with only white space cut on both sides, and the slice neither starts nor ends with white space |
| Text.SplitPieces | services/learningService.ts:40 | `split(sep)` yields one more piece than there are separators, and no piece contains the separator |
| Text.CharUnits | services/learningService.ts:39 | a character up to U+FFFF is one code unit equal to itself; a character above is a high surrogate followed by a low one |
| Text.CodeUnits | services/learningService.ts:39 | a string has at least as many code units as characters and at most twice as many, and exactly as many when every character is at most U+FFFF |
| Text.CodeUnitsRoundTrip | services/learningService.ts:39 | decoding a string's UTF-16 code units gives back its code points, so the encoding loses nothing |
| Text.UnitsTrichotomy | services/workflowService.ts:101-109 | the code-unit order is strict and total: two sequences are equal exactly when neither comes first, and never does each come before the other |
| Numbers.MantissaWithPoint | services/workflowService.ts:101-112 | digits around one decimal point read as the value of all the digits, with as many fractional places as digits after the point |
| Numbers.WithoutExponent | services/workflowService.ts:101-112 | a literal without an exponent marker reads as its mantissa scaled down by its fractional places, and a malformed mantissa as no number |
| Numbers.WithExponent | services/workflowService.ts:101-112 | a literal whose first exponent marker is at `k` reads as its mantissa times ten to the exponent after the marker, less its fractional places |
| Numbers.PointTextReads | services/workflowService.ts:101-112 | `Number("<whole>.<fraction>")` is the digits' value divided by ten once per fraction digit, so `"2.5"` is 2.5 |
| Numbers.ExponentTextReads | services/workflowService.ts:101-112 | `Number("<digits>e<exponent>")` is the digits' value times ten to the exponent |
| Numbers.HexTextReads | services/workflowService.ts:101-112 | `Number("0x<digits>")` is the digits' hexadecimal value |
| Numbers.IntegerTextRoundTrip | services/workflowService.ts:101-112 | an integer's text reads back as that integer, negative ones included |
| Listeners.Notifications | services/workflowService.ts:263-265 | one notification calls every listener once, in subscription order, with the same data; the approval store notifies the same way (services/approvalService.ts:55-57) |
| Listeners.Without | services/workflowService.ts:273-278 | unsubscribing removes every occurrence of the callback and keeps every other listener |
| Listeners.WithoutAppend | services/workflowService.ts:273-278 | unsubscribing keeps the other listeners in subscription order |
| Listeners.WithoutAbsent | services/workflowService.ts:273-278 | unsubscribing a callback that is not subscribed changes nothing |
| Memory.All | services/memoryService.ts:7-14 | a missing or unparsable store reads as the empty map, otherwise as the stored map |
| Memory.NewMemory | services/memoryService.ts:31-68 | a new memory carries the prospect's id, status and engagement score, empty history, lessons, topics and intelligence, and the "Initial State" adaptation |
| Memory.Saved | services/memoryService.ts:21-25 | saving a memory writes its own key and leaves every other prospect's memory as it was |
| Memory.InitializeIdempotent | services/memoryService.ts:27-72 | initialising a prospect a second time changes nothing and returns the same memory |
| Memory.MergeAdaptation | services/memoryService.ts:108-113 | each field present in the patch wins, each absent field keeps the stored value, and the reason is always the patch's |
| Memory.MergeAdaptationComposes | services/memoryService.ts:108-113 | two successive adaptation updates equal one update with the merged patch |
| Memory.MergeIntelligence | services/memoryService.ts:94-99 | each intelligence list given in the patch replaces the stored one, and the others are kept |
| Memory.MergeBehavior | services/memoryService.ts:101-106 | each behavioural field given in the patch replaces the stored one, and the others are kept |
| Memory.NewLesson | services/memoryService.ts:81-92 | a lesson gets the prospect id and the clock, with the outcome defaulting to "won" and the learning to "Observation" when missing or empty |
| Memory.MemoryStore.GetMemory | services/memoryService.ts:16-19 | a memory is returned exactly when the store holds one for the id, and it is that memory |
| Memory.MemoryStore.SaveMemory | services/memoryService.ts:21-25 | the store afterwards holds the old map with the memory saved under its prospect id |
| Memory.MemoryStore.InitializeMemory | services/memoryService.ts:27-72 | an existing memory is returned with the store untouched; otherwise the new default memory is returned and saved |
| Memory.MemoryStore.AddInteraction | services/memoryService.ts:74-79 | an unknown prospect leaves the store unchanged; a known one gets the event appended to its history and nothing else changes |
| Memory.MemoryStore.AddEpisodicLesson | services/memoryService.ts:81-92 | an unknown prospect leaves the store unchanged; a known one gets the new lesson appended |
| Memory.MemoryStore.UpdateIntelligence | services/memoryService.ts:94-99 | an unknown prospect leaves the store unchanged; a known one gets the merged intelligence |
| Memory.MemoryStore.UpdateBehavior | services/memoryService.ts:101-106 | an unknown prospect leaves the store unchanged; a known one gets the merged behavioural profile |
| Memory.MemoryStore.UpdateAdaptation | services/memoryService.ts:108-113 | the store becomes the adaptation-updated store: unknown prospects leave it unchanged |
| Memory.AdaptationUpdated | services/memoryService.ts:108-113 | for a known prospect only its sequence adaptation changes, to the merge of the old one and the patch |
| Workflow.StrCompare | services/workflowService.ts:101-109 | two strings compare by their UTF-16 code units; they compare as the same exactly when they are equal, and never as unordered |
| Workflow.AstralTextBelowFullwidth | services/workflowService.ts:107-109 | the text U+1F600 passes `$lt` against U+FF01: its first code unit 0xD83D is the smaller, though its code point is the larger |
| Workflow.Get | services/workflowService.ts:93 | reading an absent field gives `undefined`, a present one its value |
| Workflow.EvaluateCondition | services/workflowService.ts:91-119 | the loop's answer is the conjunction of every clause; an empty condition passes; a condition on an event without data fails; two strings are ordered by their UTF-16 code units |
| Workflow.MatchesConjunction | services/workflowService.ts:91-119 | a condition made of two parts holds exactly when both parts hold |
| Workflow.NumericOperators | services/workflowService.ts:101-112 | `gte`, `gt` and `lt` on numbers are the comparisons `>=`, `>` and `<` |
| Workflow.TextAgainstThreshold | services/workflowService.ts:101-103 | a text field passes a number threshold exactly when the number the text reads as reaches it |
| Workflow.DecimalTextAgainstThreshold | services/workflowService.ts:101-103 | a decimal text passes `gte` exactly when its decimal value, fraction included, reaches the threshold |
| Workflow.FractionalCountFallsShort | services/workflowService.ts:12-16 | an `open_count` of `"2.5"` does not pass the default rule's threshold of 3 |
| Workflow.NonNumericTextPassesComparisons | services/workflowService.ts:101-112 | a text that reads as no number fails none of `gte`, `gt` and `lt`, since NaN compares false both ways |
| Workflow.InOperator | services/workflowService.ts:101-112 | the `in` operator holds exactly when the field's value is one of the listed values |
| Workflow.AbsentFieldPassesComparisons | services/workflowService.ts:93-112 | a missing field fails none of the comparison operators, because comparisons with `undefined` are false and so never reject |
| Workflow.ActionDispatch | services/workflowService.ts:122-205 | unknown actions report themselves as unknown; memory is written exactly for the channel switch and the escalation of an event naming a prospect, under that prospect, with the LinkedIn override or the urgent priority; a draft is attempted only for a job change with data |
| Workflow.MatchingRulesMembers | services/workflowService.ts:218-221 | a rule is selected exactly when it listens to the event's type and its condition holds on the event's data |
| Workflow.MatchingRulesAppend | services/workflowService.ts:218-221 | selecting from two rule lists in turn equals selecting from their concatenation, in order |
| Workflow.RuleIsolation | services/workflowService.ts:218-221 | a rule for another event type is never selected |
| Workflow.EmailOpenedScenario | services/workflowService.ts:12-88 | an `email_opened` event selects exactly the default channel-switch rule |
| Workflow.ChannelSwitchOutcome | services/workflowService.ts:132-140 | the default channel-switch rule overrides the next channel to LinkedIn for the event's prospect |
| Workflow.NoDefaultRuleForOtherTypes | services/workflowService.ts:12-88 | an event type no default rule listens to selects no default rule |
| Workflow.PushLog | services/workflowService.ts:242-254 | a new log entry goes first and the log keeps at most fifty entries, dropping the oldest |
| Workflow.PushAllKeepsNewest | services/workflowService.ts:242-254 | after any number of pushes, the log is the newest entries first followed by the old log, cut at fifty |
| Workflow.FiftyOneEvictOldest | services/workflowService.ts:242-254 | fifty-one pushes into an empty log evict the first entry |
| Workflow.ActionRecord | services/workflowService.ts:227-239 | each executed action is recorded as completed under its upper-case action name, with its result as metadata |
| Workflow.Executions | services/workflowService.ts:227-239 | one execution per selected rule, in rule order, the `i`-th with its own AI draft outcome |
| Workflow.ExecuteMatched | services/workflowService.ts:227-239 | the loop executes every selected rule once, in order, collects their outcomes and records, and applies their memory writes in the same order |
| Workflow.LegacyEvent | services/workflowService.ts:285-298 | the legacy trigger builds an event of the given type, with the context's prospect id or a generated one, and for `NEW_LEAD` with the lead data |
| Workflow.WorkflowEngine.Subscribe | services/workflowService.ts:273-278 | the listener is appended and is not called at once |
| Workflow.WorkflowEngine.Unsubscribe | services/workflowService.ts:273-278 | the listener is removed and every other listener is kept |
| Workflow.WorkflowEngine.Notify | services/workflowService.ts:280-282 | every listener is called with the log, and nothing else changes |
| Workflow.WorkflowEngine.GetLogs | services/workflowService.ts:269-271 | the current log is returned |
| Workflow.WorkflowEngine.AppendLog | services/workflowService.ts:242-254 | the log gains the entry under the fifty-entry cap, and listeners are notified |
| Workflow.WorkflowEngine.ProcessEvent | services/workflowService.ts:208-261 | every selected rule is executed in order, its memory writes are applied, one log entry summarises the outcomes, and listeners are notified |
| Workflow.WorkflowEngine.Trigger | services/workflowService.ts:285-303 | the legacy trigger processes the event built by `LegacyEvent` against the default rules (`DefaultTriggerRules`): the memory writes of the matched actions, listeners unchanged, and, exactly when a rule matches, one log entry pushed under the cap and every listener notified with the new log |
| Workflow.WorkflowEngine.ProcessSignalAutonomous | services/workflowService.ts:306-348 | only an `accelerate` decision writes the urgent adaptation; a signal log entry is always pushed under the cap, and listeners are notified |
| Temporal.Weekday | services/temporalService.ts:20 | the day of the week of an hour is in 0..6 |
| Temporal.HourOfDay | services/temporalService.ts:27-28 | the hour of the day is in 0..23 |
| Temporal.StartHour | services/temporalService.ts:11-14 | the search starts at the first whole hour after the start minute |
| Temporal.SearchFinds | services/temporalService.ts:16-57 | the slot found is the first acceptable hour within the attempt budget, and none means no hour in the budget is acceptable |
| Temporal.SearchSkip | services/temporalService.ts:16-57 | an unacceptable hour moves the search to the next hour with one attempt fewer |
| Temporal.CalculateOptimalSlot | services/temporalService.ts:4-58 | the loop returns the first acceptable hour from the start hour within 168 attempts, or none |
| Temporal.RunSlotsAllowed | services/temporalService.ts:207-229 | every slot the scheduler assigns lies within the 168 hours from the start hour, on an allowed day and, when asked for, in business hours |
| Temporal.RunTrackers | services/temporalService.ts:207-229 | the usage counts and the last-contact map always agree with the slots assigned so far |
| Temporal.RunPrefix | services/temporalService.ts:207-229 | scheduling a longer queue does not change the slots of the earlier activities |
| Temporal.RunCapacity | services/temporalService.ts:34-38 | no hour gets more activities than the per-hour maximum |
| Temporal.RunSpacing | services/temporalService.ts:44-51 | two slots for the same prospect are at least the minimum spacing apart |
| Temporal.NoneScheduled | services/temporalService.ts:238 | the scheduled total is zero exactly when no activity got a slot |
| Temporal.EarliestIsMin | services/temporalService.ts:239-242 | the span's start is the earliest assigned slot |
| Temporal.LatestIsMax | services/temporalService.ts:239-242 | the span's end is the latest assigned slot |
| Temporal.SortSorted | services/temporalService.ts:197 | the priority sort yields activities in non-increasing priority |
| Temporal.SortByPriority | services/temporalService.ts:197 | the priority sort is a permutation of its input |
| Temporal.SortStable | services/temporalService.ts:197 | activities of equal priority keep their relative order |
| Temporal.ScheduleQueue | services/temporalService.ts:207-229 | each activity's scheduled time is set to the slot the reference run assigns, and the notes, count and span agree with those slots |
| Temporal.SmartScheduler | services/temporalService.ts:192-246 | the result is the sorted permutation of the activities, each with its assigned slot recorded, with the scheduled count, the span and the notes |
| Temporal.CeilDays | services/temporalService.ts:113-134 | whole days since the last outreach, rounded up |
| Temporal.LastOutboundIsLatest | services/temporalService.ts:113-134 | the spacing check uses the latest outbound interaction, and none exists exactly when no interaction is outbound |
| Temporal.Clamp | services/temporalService.ts:165 | the score is kept within 0..100 and left alone inside it |
| Temporal.TimingScore | services/temporalService.ts:61-168 | before clamping, the score is 50 plus each rule's adjustment, and the factors list the rules that fired, in rule order |
| Temporal.TimingFactors | services/temporalService.ts:61-168 | the weekend, holiday, rapid follow-up, funding and fresh-lead factors appear exactly when their conditions hold |
| Temporal.MentionsHoliday | services/temporalService.ts:104-153 | among all reasons, only the holiday reason mentions "Holiday" |
| Temporal.EarlyAction | services/temporalService.ts:75-134 | after the day, hour, holiday and spacing rules, too-soon follow-ups and the holiday season hold; weekends, late Fridays and off-hours schedule later; otherwise send now |
| Temporal.NewsAction | services/temporalService.ts:138-153 | funding news lifts exactly the holds whose reason is not the holiday one |
| Temporal.TimingAction | services/temporalService.ts:61-168 | the final action is the decision table `ActionOf` |
| Temporal.AnalyzeTimingDecides | services/temporalService.ts:61-168 | `analyzeTiming` acts by the decision table and scores by the clamped adjustment table |
| Temporal.FundingLiftsHolidayHold | services/temporalService.ts:104-153 | as written, in the holiday season a too-soon follow-up with funding news is sent at once |
| Temporal.HolidayHoldLiftedOnChristmasEve | services/temporalService.ts:104-153 | on 24 December, with an unanswered e-mail a day old and news of a raise, the send goes out now |
| Temporal.CorrectedHolidayHolds | services/temporalService.ts:104-110 | with the override keyed to the season, the holiday season always holds |
| Temporal.CorrectedAgreesOutsideHolidays | services/temporalService.ts:138-153 | outside the holiday season the corrected rules equal the original ones |
| ABTesting.Diff | services/abTestingService.ts:6-17 | the reply-rate difference is non-negative |
| ABTesting.Significance | services/abTestingService.ts:6-17 | a variant with fewer than 30 sends gives 0; any other result is 99, 95 or between 0 and 80 |
| ABTesting.SignificanceTiers | services/abTestingService.ts:13-16 | by the z-score: above 2.58 gives 99, above 1.96 gives 95, otherwise `floor(z / 1.96 * 95)` capped at 80 |
| ABTesting.TierMonotone | services/abTestingService.ts:13-16 | a larger z-score never gives a lower tier |
| ABTesting.TierByZ | services/abTestingService.ts:13-16 | the tiering of a difference and a variance by the z-score they determine |
| ABTesting.LowTier | services/abTestingService.ts:16 | the low tier is the largest admissible value up to the cap |
| ABTesting.LowTierFloor | services/abTestingService.ts:16 | the low tier is the floor of `z / 1.96 * 95`, capped at 80 |
| ABTesting.RunningOnly | services/abTestingService.ts:33-35 | exactly the running experiments are kept |
| ABTesting.RunningOnlyAppend | services/abTestingService.ts:33-35 | filtering keeps stored order: the filter of a concatenation is the concatenation of the filters |
| ABTesting.RunningOnlySingle | services/abTestingService.ts:33-35 | a single experiment is kept exactly when it is running |
| ABTesting.ExperimentIndex | services/abTestingService.ts:37-68 | the first experiment with the id, or none when no experiment has it |
| ABTesting.VariantIndex | services/abTestingService.ts:40-68 | the first variant with the id, or none when no variant has it |
| ABTesting.Assign | services/abTestingService.ts:37-46 | no variant exactly when no experiment has the id; a picked variant belongs to that experiment |
| ABTesting.AssignWinner | services/abTestingService.ts:40-43 | a completed experiment with a winner always gives the first variant carrying the winner's id |
| ABTesting.AssignWinnerMissing | services/abTestingService.ts:41-42 | a completed experiment whose winner names no variant gives the first variant, or `undefined` when it has none |
| ABTesting.AssignByDraw | services/abTestingService.ts:44-45 | an undecided experiment throws with no variants, gives the first variant exactly when the draw is at most its allocation, else the second, which is `undefined` when missing |
| ABTesting.TrackIgnored | services/abTestingService.ts:48-68 | a count is ignored exactly when the experiment or the variant is unknown |
| ABTesting.TrackBumpsOne | services/abTestingService.ts:48-68 | a count bumps one counter of one variant by one, recomputes that experiment's significance, and changes nothing else |
| ABTesting.ExperimentStore.ActiveExperiments | services/abTestingService.ts:33-35 | the running filter of the stored list: exactly the stored running experiments, in stored order |
| ABTesting.ExperimentStore.AssignVariant | services/abTestingService.ts:37-46 | the assignment on the stored list; no variant exactly when no stored experiment has the id |
| ABTesting.ExperimentStore.TrackCounter | services/abTestingService.ts:48-68 | the store is rewritten only when a count was made |
| ABTesting.ExperimentStore.TrackSend | services/abTestingService.ts:48-57 | a send is counted for a known variant and saved; otherwise nothing is written |
| ABTesting.ExperimentStore.TrackReply | services/abTestingService.ts:59-68 | a reply is counted for a known variant and saved; otherwise nothing is written |
| Sequence.OutboundCount | services/sequenceService.ts:42-43 | the count of outbound touches on a channel is zero exactly when there is none |
| Sequence.GetNextStep | services/sequenceService.ts:5-104 | the recommendation follows the decision tree, and a LinkedIn step needs a LinkedIn profile or a LinkedIn override |
| Sequence.UrgentWins | services/sequenceService.ts:13-20 | the urgent follow-up is chosen exactly when the adaptation's priority is urgent, and it goes by e-mail |
| Sequence.OverrideSwitchesToLinkedIn | services/sequenceService.ts:23-30 | the LinkedIn switch is chosen exactly when a LinkedIn override is set and the priority is not urgent |
| Sequence.RiskyEmailRecovers | services/sequenceService.ts:38-55 | the LinkedIn recovery step is chosen exactly when there is no override, the address is invalid or risky, and a profile exists |
| Sequence.ExecutiveGetsSoftTouch | services/sequenceService.ts:34-65 | the executive soft touch is chosen exactly when no earlier branch applies and an executive has a profile with no LinkedIn touch yet |
| Sequence.UnrepliedEmailBumps | services/sequenceService.ts:68-85 | after an unanswered outbound e-mail, a LinkedIn pattern interrupt follows two or more e-mails when a profile exists and LinkedIn is untouched, and a value bump otherwise |
| Sequence.ConnectionLeadsToEmail | services/sequenceService.ts:89-96 | an accepted LinkedIn connection leads to a follow-up e-mail exactly when no earlier branch applies |
| Sequence.FallbackIsFirstEmail | services/sequenceService.ts:99-104 | the initial value e-mail is the step taken exactly when no branch applies |
| Sequence.FreshProspectGetsFirstEmail | services/sequenceService.ts:99-104 | a prospect with no memory and no LinkedIn-specific case gets the first e-mail |
| Sequence.ExecutiveByTitle | services/sequenceService.ts:34-36 | a title containing an executive role, in any letter case, marks an executive |
| Collaboration.Matching | services/collaborationService.ts:90-91 | the matching rules are exactly the rules whose conditions fire, in list order |
| Collaboration.Reduce | services/collaborationService.ts:102-104 | the reduction keeps a rule of maximal priority, the first such rule |
| Collaboration.PrimaryIndex | services/collaborationService.ts:90-104 | the primary rule fires, has the highest priority of all firing rules, and no earlier firing rule ties it |
| Collaboration.IntelligentEscalationRouter | services/collaborationService.ts:83-140 | escalation happens exactly when some rule fires; it carries the primary rule's level, reason and SLA, with autonomy paused as that rule says |
| Collaboration.RouterRoutesByLevel | services/collaborationService.ts:119-133 | urgent levels go to the Sales Director as critical, handoffs to a Senior AE as high, everything else to the SDR Team Lead as medium |
| Collaboration.CustomRuleWinsTies | services/collaborationService.ts:90-104 | a firing custom rule at least as high as every firing default rule is the primary one |
| Collaboration.LegalRiskOutranksDefaults | services/collaborationService.ts:18-21 | with no custom rule firing, legal risk is always the primary rule |
| Collaboration.DefaultPriorities | services/collaborationService.ts:8-79 | legal risk has priority 100, above every other default rule |
| Collaboration.KeywordFoundIgnoringCase | services/collaborationService.ts:18-77 | a keyword occurring in the message in any letter case is found |
| Collaboration.CSuiteNeedsTitleAndIntent | services/collaborationService.ts:59-64 | the C-suite rule fires exactly for an executive title together with buying intent |
| Approval.Find | services/approvalService.ts:64-68 | the first listed term occurring in the text, and none exactly when no term occurs |
| Approval.KeywordTakesPrecedence | services/approvalService.ts:73-79 | a sensitive keyword flags the action whatever the role and the AI say |
| Approval.AiOnlyWhenNoRule | services/approvalService.ts:82-100 | the AI is consulted only when no keyword or role matched |
| Approval.AiFailureKeepsDecision | services/approvalService.ts:91-99 | a failing AI check counts as "no approval needed" |
| Approval.RoleFoundIgnoringCase | services/approvalService.ts:67-79 | a restricted role in the title, in any letter case, flags the action for its role |
| Approval.NewRequest | services/approvalService.ts:113-130 | the request is pending, high risk for a keyword and medium otherwise, with the action's body, the given subject or "Pending Review", and the flag's reason |
| Approval.PendingOnly | services/approvalService.ts:29-31 | exactly the pending requests are kept |
| Approval.PendingOnlyAppend | services/approvalService.ts:29-31 | filtering keeps stored order: the filter of a concatenation is the concatenation of the filters |
| Approval.PendingOnlySingle | services/approvalService.ts:29-31 | a single request is kept exactly when it is pending |
| Approval.StatusUpdated | services/approvalService.ts:39-45 | every request with the id gets the new status, and every other request is unchanged |
| Approval.UpdateStatusSettles | services/approvalService.ts:29-45 | after a decision the request leaves the pending list, and every other pending request stays in it |
| Approval.ApprovalStore.GetPendingRequests | services/approvalService.ts:29-31 | the pending filter of the stored list: exactly the stored pending requests, in stored order |
| Approval.ApprovalStore.SaveRequests | services/approvalService.ts:24-27 | the store holds the list and every listener is notified with it |
| Approval.ApprovalStore.AddRequest | services/approvalService.ts:33-37 | the request is put first and listeners are notified |
| Approval.ApprovalStore.UpdateStatus | services/approvalService.ts:39-45 | the status is updated, saved, and listeners are notified |
| Approval.ApprovalStore.Subscribe | services/approvalService.ts:47-53 | the listener is added and is called at once with the current requests |
| Approval.ApprovalStore.Unsubscribe | services/approvalService.ts:47-53 | the listener is removed and every other listener is kept |
| Approval.ApprovalStore.ApprovalWorkflowManager | services/approvalService.ts:59-142 | an unflagged action is auto-approved with the store untouched; a flagged one adds a pending request first in the store |
| Approval.FlaggedRequestIsPending | services/approvalService.ts:113-132 | the request a flagged action adds is among the pending requests |
| Learning.SetOutcome | services/learningService.ts:62-73 | setting an outcome sets that field, and a reply or a booking also marks the e-mail opened |
| Learning.LastIndexOf | services/learningService.ts:62-73 | the latest attempt for the prospect, or none when it has no attempt |
| Learning.NewAttempt | services/learningService.ts:30-60 | a new attempt has the prospect's id and the content, no outcome yet, the subject's length in UTF-16 code units, and one word more than there are spaces |
| Learning.AstralSubjectCountsTwice | services/learningService.ts:39 | the subject "U+1F680 Launch" has 8 characters but length 9, because the rocket counts as two code units |
| Learning.RelevantOnly | services/learningService.ts:75-85 | exactly the insights with no segment, or whose segment occurs in the title or industry ignoring case |
| Learning.RelevantOnlyAppend | services/learningService.ts:75-85 | filtering keeps stored order: the filter of a concatenation is the concatenation of the filters |
| Learning.RelevantOnlySingle | services/learningService.ts:75-85 | a single insight is kept exactly when it is relevant to the prospect |
| Learning.UnsegmentedAlwaysRelevant | services/learningService.ts:75-85 | an insight with no segment is relevant to every prospect |
| Learning.LearningStore.RecordAttempt | services/learningService.ts:30-60 | the new attempt is appended to the stored attempts and returned |
| Learning.LearningStore.UpdateOutcome | services/learningService.ts:62-73 | only the prospect's latest attempt gets the new outcome; a prospect without attempts writes nothing |
| Learning.LearningStore.GetRelevantInsights | services/learningService.ts:75-85 | the relevance filter of the stored list: exactly the stored insights relevant to the prospect, in stored order |
| Learning.OutcomeUpdateIsLocal | services/learningService.ts:62-73 | an outcome update touches only the latest attempt for the prospect, and only its outcomes |
| Account.KeyIsNormal | services/accountService.ts:10 | the account key is already normal: normalising it again changes nothing |
| Account.Members | services/accountService.ts:8-15 | a prospect belongs to a group exactly when its company normalises to the group's key |
| Account.GroupedIsFilter | services/accountService.ts:8-15 | the reduction makes a group exactly for each key some prospect has, holding those prospects in input order |
| Account.KeysNameGroups | services/accountService.ts:8-15 | the keys in first-appearance order are distinct and name exactly the groups |
| Account.GroupSizesSum | services/accountService.ts:8-15 | the group sizes add up to the number of prospects |
| Account.GroupsPartition | services/accountService.ts:8-15 | every prospect is in its own account's group and in no other group |
| Account.GroupProspectsByAccount | services/accountService.ts:8-15 | the loop builds the group of each account key, in input order; every prospect lands in exactly one group |
| Account.LastTimelineIndex | services/accountService.ts:36-44 | the last prospect with a timeline indicator, or none |
| Account.Timeline | services/accountService.ts:40 | the timeline is absent exactly when no prospect's memory has one, else it is the last such prospect's first indicator |
| Account.CompanyName | services/accountService.ts:61 | the first prospect's company when it is non-empty, else the account name |
| Account.SignalsSnoc | services/accountService.ts:36-44 | one more prospect adds its budget, evaluation and timeline signals to the aggregate |
| Account.AggregateSignals | services/accountService.ts:30-44 | the loop finds budget confirmed when some memory has a budget indicator, active evaluation when some memory is engaged, booked or scores above 5, and the last timeline |
| Account.AnalyzeAccount | services/accountService.ts:18-69 | the intelligence has the normalised account id, one summary per contact, multiple stakeholders exactly when more than one contact, the aggregated signals, and the strategy and committee from the AI given those signals |
| Meeting.GetConversionStatus | services/meetingService.ts:6-14 | risk after more than 48 hours, a nudge after more than 24, on track otherwise or for an unparsable date |
| Meeting.GetNudgeStrategy | services/meetingService.ts:16-21 | the async alternative exactly for risk, the time-slot bump exactly for a nudge |
| Verification.PatternIsShape | services/verificationService.ts:15-16 | the address pattern holds exactly when the address has one `@` after a non-empty name, a dot inside the domain, and no white space |
| Verification.VerifyEmail | services/verificationService.ts:2-26 | a malformed address is invalid; a well-formed one without the invalid markers (`invalid`, a `.con` ending, a `test` start) is risky exactly at a free provider and verified exactly otherwise |
| Verification.TestAccountBeatsFreeProvider | services/verificationService.ts:19-23 | a test address at a free provider is invalid, not risky |
| Verification.VerdictIgnoresCase | services/verificationService.ts:12 | the verdict does not depend on letter case |
| Verification.VerdictIgnoresLeadingSpace | services/verificationService.ts:12 | the verdict does not depend on leading white space |
| Verification.ShapedHasOneAt | services/verificationService.ts:15-16 | an address that passes the pattern has exactly one `@` |
| Persona.GetSegmentForProspect | services/personaOptimizationService.ts:16-27 | a returned profile is stored and matches; none exactly when no stored profile matches |
| Persona.NoStoreNoSegment | services/personaOptimizationService.ts:7-14 | missing or unreadable storage gives no segment |
| Persona.EarlierProfileWins | services/personaOptimizationService.ts:22-25 | the first matching profile is returned, ahead of every later one |
| Persona.TitleMatchIgnoresCase | services/personaOptimizationService.ts:18-24 | a segment word occurring in the title in any letter case matches |
| Persona.SplitTrailingSeparator | services/personaOptimizationService.ts:24 | splitting a segment with a trailing space adds one empty word |
| Persona.TrailingSpaceMatchesEveryone | services/personaOptimizationService.ts:24 | as written, a segment ending in a space matches every prospect |
| Persona.GetSegmentForProspectCorrected | services/personaOptimizationService.ts:16-27 | with empty words skipped, a returned profile is stored and matches on a real word; none exactly when none does |
| Persona.CorrectedIgnoresTrailingSpace | services/personaOptimizationService.ts:24 | with the correction, a trailing space changes nothing, and a prospect with no title and no industry matches nothing |

## Left out

- Storage. Browser `localStorage` and JSON parsing are a field of type `Option<...>`: `None` means missing or unparsable. Quota errors on writes are not modelled.
- AI calls. Every call to the Gemini service is an input to the operation, whether it is a function parameter or a given outcome. Their latency, rate limits and rejection are not modelled, except where the code catches a failure: the approval AI check is `AiFailed`, and the workflow draft is `DraftFailed`.
- Clock and ids. The clock (`Date.now()`, `new Date()`), the ids built from it and `Math.random()` are parameters.
- Dates. The calendar fields of the current time and the parsing of stored date strings are parameters: `Clock` and `parseDate`. The Temporal model works on whole hours and uses UTC day and hour arithmetic, not the browser's local time zone. An unparsable `start_date` is not modelled: `Constraints.startMinute` is `None` only when the date is absent, whereas the source builds an Invalid Date from the text and runs the slot search on it.
- Async code. Artificial delays (`setTimeout`), `console` logging and the interleaving of concurrent `async` calls are not modelled. Each operation runs as one atomic step.
- Letter case. It is ASCII only. JavaScript's full Unicode case mapping is not modelled.
- `getTemporalContextString`: the prompt text for the language model is not part of this model.
- Escalation handoff. `generateHandoffContext` and the `memoryService.getMemory` lookup that feeds it are one handoff parameter of the router.
- ABTesting.Significance: computed on exact reals, not IEEE doubles. A zero variance with a non-zero difference makes z infinite, which gives 99; the only non-finite value that reaches storage is `NaN`, which `JSON.stringify` writes as `null` (`Stored`).
- Account.GroupProspectsByAccount: the accumulator is a map. Keys that collide with `Object.prototype` members in the source (such as `constructor` or `__proto__`) are not modelled.
- Temporal.SmartScheduler: requires the activities to be distinct objects. Aliasing one activity object twice in the input is not modelled.
- Temporal.ScheduleQueue: the same requirement of distinct activities applies.
- Untyped fields. Fields typed `any` (the trigger parameters, event payloads) are a small value type: `undefined`, `null`, booleans, numbers, strings, and objects or arrays as references compared by identity. The contents of nested objects are not modelled, and a payload number is finite: `NaN` and the infinities can arise from text but cannot be stored in a field.
- Floating point. Numbers are exact reals: rounding to 53-bit doubles, overflow to `Infinity`, underflow to 0 and the sign of zero are not modelled, so a literal with more digits than a double holds keeps its exact value.
- Numbers.NumberText: a number prints as its digits, a point and at most 20 fraction digits; JavaScript's shortest round-trip digits and its exponent form (`1e21`, `1e-7`) are not modelled.
- Object comparisons. An object or array compared with `<` or `>=` is NaN here, so it never fails a comparison. JavaScript first turns it into text (`[object Object]`, or the array's elements joined by commas) and compares that as text with a string, or as its number with anything else.
- Log and action ids. The `wf_` and `act_` ids built from `Date.now()` and the result's `processing_time` are not modelled. All the timestamps of one event are the one `now` parameter, where the source reads the clock again for each action.
- Trigger condition operators. Only the operators the code evaluates are modelled: `gte`, `gt`, `lt` and `in`, plus equality.
- Meeting.GetConversionStatus: takes the parsed timestamps. An unparsable date is `None`, which the source sees as `NaN` and reports as on track.
- Escalation priorities. A custom rule's `priority` is an exact real, so fractional priorities are modelled; the IEEE rounding of a double is not.
- Lone surrogates. A Dafny string holds Unicode scalar values, so a JavaScript string with an unpaired surrogate code unit has no counterpart in the model.
- Regular expressions. The pattern's `\s` class is the set of white-space characters that `Text.IsSpace` lists.
- Workflow subscriptions. Workflow listeners are not called when they subscribe, while approval listeners are; the model follows each service's code.

## Findings

| source | as written | input that shows it | evidently intended | confidence | as-written member | corrected member |
|---|---|---|---|---|---|---|
| services/temporalService.ts:144 | funding news lifts any hold whose reason text lacks "Holiday"; the spacing rule (123-128) has already replaced the holiday reason set at 104-110 | 24 December, an unanswered outbound e-mail one day old, news "Raised a Series B": the send goes out now | the holiday-season hold is never lifted by funding news | not executed | Temporal.HolidayHoldLiftedOnChristmasEve | Temporal.CorrectedHolidayHolds |
| services/personaOptimizationService.ts:24 | `seg.split(' ')` keeps empty words, and every text includes the empty string | segment "VP Sales " with title "Engineer" and industry "Retail" matches | only real words of the segment match | not executed | Persona.TrailingSpaceMatchesEveryone | Persona.CorrectedIgnoresTrailingSpace |
