/**
 * Meeting conversion status (services/meetingService.ts): how long ago the last
 * message was sent decides whether a nudge is due. The clock is a parameter.
 */
module Meeting {
  import opened Wrappers

  datatype ConversionStatus = OnTrack | NeedsNudge | Risk

  /** One hour in milliseconds. */
  const HourMs: int := 1000 * 60 * 60

  /**
   * `getConversionStatus`: `nowMs` is the current time and `lastMessageMs` the parsed
   * message date, `None` when the text is not a date (the elapsed time is then NaN,
   * every comparison is false and the status stays on track).
   */
  function GetConversionStatus(nowMs: int, lastMessageMs: Option<int>): (r: ConversionStatus)
    ensures r == Risk <==> lastMessageMs.Some? && nowMs - lastMessageMs.value > 48 * HourMs
    ensures r == NeedsNudge <==> lastMessageMs.Some? && 24 * HourMs < nowMs - lastMessageMs.value <= 48 * HourMs
    ensures r == OnTrack <==> lastMessageMs.None? || nowMs - lastMessageMs.value <= 24 * HourMs
  {
    if lastMessageMs.None? then OnTrack
    else
      var hoursElapsed := (nowMs - lastMessageMs.value) as real / HourMs as real;
      if hoursElapsed > 48.0 then Risk
      else if hoursElapsed > 24.0 then NeedsNudge
      else OnTrack
  }

  function Rank(s: ConversionStatus): nat {
    match s
    case OnTrack => 0
    case NeedsNudge => 1
    case Risk => 2
  }

  /** As time passes the status only gets worse. */
  lemma StatusWorsensOverTime(earlier: int, later: int, lastMessageMs: Option<int>)
    requires earlier <= later
    ensures Rank(GetConversionStatus(earlier, lastMessageMs)) <= Rank(GetConversionStatus(later, lastMessageMs))
  {
  }

  /** A message dated in the future is on track. */
  lemma FutureMessageOnTrack(nowMs: int, lastMessageMs: int)
    requires lastMessageMs >= nowMs
    ensures GetConversionStatus(nowMs, Some(lastMessageMs)) == OnTrack
  {
  }

  const AsyncAlternative: string := "Offer async alternative (Loom/Docs) or switch channel."
  const TimeSlotBump: string := "Send gentle bump with 2 specific time slots."

  /** The statuses a nudge strategy is asked for. */
  type NudgeStatus = s: ConversionStatus | s != OnTrack witness Risk

  /** `getNudgeStrategy`. */
  function GetNudgeStrategy(status: NudgeStatus): (r: string)
    ensures r == AsyncAlternative <==> status == Risk
    ensures r == TimeSlotBump <==> status == NeedsNudge
  {
    if status == Risk then AsyncAlternative else TimeSlotBump
  }
}
