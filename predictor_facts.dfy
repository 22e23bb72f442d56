/**
 * What the cascade of predictAvailability (app/lib/activityUtils.ts) implies: which inputs reach
 * which answer, the branches that can never be reached, and that every answer is filled in.
 */
module PredictorFacts {
  import opened Wrappers
  import opened Activity
  import opened Text
  import opened Predictor

  /** Without a classified activity the answer is "有点懵", whatever the heart rate, the idle time
      and the clock. */
  lemma NoActivityIsDazed(hr: Option<HeartRate>, seconds: int, now: int, hours: int, day: int)
    ensures Availability(hr, None, seconds, now, hours, day).status == "有点懵"
  {
  }

  /** A fresh heart rate under 60 with the mouse idle for 20 minutes or more is sleep at night, a
      nap at lunch (unless the activity is work) and rest otherwise, whatever the activity. */
  lemma SleepByHour(hr: Option<HeartRate>, d: ActivityDetails, seconds: int, now: int, hours: int, day: int)
    requires IsHeartRateDataFresh(hr, now, DefaultStalenessMinutes) && 0 < hr.value.lastNonZeroHr < 60
    requires seconds >= 20 * 60
    ensures var r := Availability(hr, Some(d), seconds, now, hours, day);
      && (hours >= 22 || hours < 7 ==> r.status == "睡着了")
      && (12 <= hours < 14 && d.activityType != Working ==> r.status == "午休中")
      && (7 <= hours < 22 && !(12 <= hours < 14 && d.activityType != Working) ==> r.status == "在休息")
  {
  }

  /** A fresh heart rate of 110 or more with the mouse idle for 15 minutes or more is exercise:
      running fast from 140, running from 120, out and about below that. */
  lemma ExerciseBands(hr: Option<HeartRate>, d: ActivityDetails, seconds: int, now: int, hours: int, day: int)
    requires IsHeartRateDataFresh(hr, now, DefaultStalenessMinutes) && hr.value.lastNonZeroHr >= 110
    requires seconds >= 15 * 60
    ensures var r := Availability(hr, Some(d), seconds, now, hours, day);
      var v := hr.value.lastNonZeroHr;
      && (v >= 140 ==> r.status == "运动中")
      && (120 <= v < 140 ==> r.status == "在跑步")
      && (v < 120 ==> r.status == "可能出去了")
  {
  }

  /** A fresh heart rate of 80 to 109 with the mouse idle for 20 minutes or more is a walk. */
  lemma WalkingOutBand(hr: Option<HeartRate>, d: ActivityDetails, seconds: int, now: int, hours: int, day: int)
    requires IsHeartRateDataFresh(hr, now, DefaultStalenessMinutes) && 80 <= hr.value.lastNonZeroHr < 110
    requires seconds >= 20 * 60
    ensures Availability(hr, Some(d), seconds, now, hours, day).status == "可能外出了"
  {
  }

  /** When no heart-rate branch applied, more than 45 idle minutes is "似乎出门了" and 21 to 45
      is "可能离开了" (or "可能在小憩" for a fresh rate under 65), except that a compile or a render
      is "电脑工作中" in both bands. */
  lemma AwayBands(hr: Option<HeartRate>, d: ActivityDetails, seconds: int, now: int, hours: int, day: int)
    requires !HeartRateBranch(IsHeartRateDataFresh(hr, now, DefaultStalenessMinutes), HrValue(hr), IdleMinutes(seconds))
    ensures var r := Availability(hr, Some(d), seconds, now, hours, day);
      var napping := IsHeartRateDataFresh(hr, now, DefaultStalenessMinutes) && HrValue(hr).Some? && HrValue(hr).value < 65;
      && (seconds >= 46 * 60 ==> r.status == (if ComputerBusy(d) then "电脑工作中" else "似乎出门了"))
      && (21 * 60 <= seconds < 46 * 60 ==>
            r.status == (if ComputerBusy(d) then "电脑工作中" else if napping then "可能在小憩" else "可能离开了"))
  {
    if seconds >= 46 * 60 {
      LongAwayPhase(hr, d, seconds, now, hours, day);
    } else if seconds >= 21 * 60 {
      ShortAwayPhase(hr, d, seconds, now, hours, day);
    }
  }

  /** "可能在小憩" comes exactly from a fresh heart rate of 60 to 64 and 21 to 45 idle minutes,
      with the computer not compiling or rendering: the check in the original asks only for a
      rate under 65, but rates under 60 were already taken by the sleep branch. */
  lemma NapOnlyInBand(hr: Option<HeartRate>, activity: Option<ActivityDetails>, seconds: int, now: int, hours: int, day: int)
    ensures Availability(hr, activity, seconds, now, hours, day).status == "可能在小憩" <==>
      && activity.Some? && !ComputerBusy(activity.value)
      && IsHeartRateDataFresh(hr, now, DefaultStalenessMinutes) && 60 <= hr.value.lastNonZeroHr < 65
      && 21 * 60 <= seconds < 46 * 60
  {
    if activity.Some? {
      Phases(hr, activity.value, seconds, now, hours, day);
    }
  }

  /** The idle branch's "非常无聊" (over 40 minutes) and "好无聊" (over 30) are never answered:
      every idle time over 20 minutes has already been answered by the away checks. */
  lemma BoredomIsUnreachable(hr: Option<HeartRate>, activity: Option<ActivityDetails>, seconds: int, now: int, hours: int, day: int)
    ensures var r := Availability(hr, activity, seconds, now, hours, day);
      r.status != "非常无聊" && r.status != "好无聊"
  {
    if activity.Some? {
      Phases(hr, activity.value, seconds, now, hours, day);
    }
  }

  /** Every answer has a status, a color and a suggestion; the reason is empty only when the
      activity's own description is. */
  lemma EveryAnswerFilled(hr: Option<HeartRate>, activity: Option<ActivityDetails>, seconds: int, now: int, hours: int, day: int)
    ensures var r := Availability(hr, activity, seconds, now, hours, day);
      && r.status != [] && r.color != [] && r.suggestion.Some? && r.suggestion.value != []
      && (activity.None? || activity.value.description != [] ==> r.reason != [])
  {
    if activity.Some? {
      Phases(hr, activity.value, seconds, now, hours, day);
    }
  }

  /** An intense game with the mouse moved in the last 15 minutes is "沉浸游戏中", whatever the
      heart rate: no earlier branch applies before 15 idle minutes. */
  lemma ActiveIntenseGaming(hr: Option<HeartRate>, d: ActivityDetails, seconds: int, now: int, hours: int, day: int)
    requires d.activityType == Gaming && (d.intensity == Some(High) || d.subType == Some(GamingIntense))
    requires seconds < 15 * 60
    ensures Availability(hr, Some(d), seconds, now, hours, day).status == "沉浸游戏中"
  {
  }

  predicate EndsWith(s: string, suffix: string) {
    |suffix| <= |s| && s[|s| - |suffix|..] == suffix
  }

  /** A chat with the mouse moved in the last 15 seconds is still a chat, and its reason ends with
      the typing hint. */
  lemma TypingHint(hr: Option<HeartRate>, d: ActivityDetails, seconds: int, now: int, hours: int, day: int)
    requires d.activityType == Social && 0 < seconds <= 15
    ensures var r := Availability(hr, Some(d), seconds, now, hours, day);
      && (r.status == "在聊天" || r.status == "逛动态")
      && EndsWith(r.reason, TypingSuffix)
  {
  }

  /** The day of the week changes nothing: `isWeekend` and `isTypicalWorkTime` are computed and
      never read. */
  lemma DayIsIgnored(hr: Option<HeartRate>, activity: Option<ActivityDetails>, seconds: int, now: int, hours: int,
                     day1: int, day2: int)
    ensures Availability(hr, activity, seconds, now, hours, day1) == Availability(hr, activity, seconds, now, hours, day2)
  {
  }

  /** A record fresh at some moment was fresh at every earlier moment, and stays fresh under a
      looser bound. */
  lemma FreshnessIsMonotone(hr: Option<HeartRate>, now1: int, now2: int, max1: int, max2: int)
    requires now1 <= now2 && max2 <= max1
    ensures IsHeartRateDataFresh(hr, now2, max2) ==> IsHeartRateDataFresh(hr, now1, max1)
  {
  }

  /** With the default bound a record is fresh for 300000 milliseconds, and a zero timestamp is
      never fresh. */
  lemma DefaultFreshness(hr: Option<HeartRate>, now: int)
    ensures IsHeartRateDataFresh(hr, now, DefaultStalenessMinutes) <==>
      hr.Some? && hr.value.timestamp != 0 && now - hr.value.timestamp <= 300000
  {
  }

  // ---------------------------------------------------------------------------------------------
  // The answers phase by phase

  /** Status, color and suggestion are present, and the reason is when the description is. */
  predicate Filled(r: AvailabilityStatus, desc: string) {
    && r.status != [] && r.color != [] && r.suggestion.Some? && r.suggestion.value != []
    && (desc != [] ==> r.reason != [])
  }

  /** What the three universal lemmas need of each phase of the cascade. */
  predicate Plain(r: AvailabilityStatus, desc: string) {
    Filled(r, desc) && r.status != "可能在小憩" && r.status != "非常无聊" && r.status != "好无聊"
  }

  /** One of the three heart-rate branches applies. */
  predicate HeartRateBranch(hrFresh: bool, v: Option<int>, minutes: int) {
    && hrFresh && v.Some?
    && ((v.value < 60 && minutes >= 20) || (v.value >= 110 && minutes >= 15) || (80 <= v.value < 110 && minutes >= 20))
  }

  /** The answer of a present activity, phase by phase. */
  lemma Phases(hr: Option<HeartRate>, d: ActivityDetails, seconds: int, now: int, hours: int, day: int)
    ensures var r := Availability(hr, Some(d), seconds, now, hours, day);
      var minutes := IdleMinutes(seconds);
      var hrFresh := IsHeartRateDataFresh(hr, now, DefaultStalenessMinutes);
      var v := HrValue(hr);
      && Filled(r, d.description) && r.status != "非常无聊" && r.status != "好无聊"
      && (r.status == "可能在小憩" <==>
            !HeartRateBranch(hrFresh, v, minutes) && 20 < minutes <= 45
            && !ComputerBusy(d) && hrFresh && v.Some? && v.value < 65)
  {
    var minutes := IdleMinutes(seconds);
    var hrFresh := IsHeartRateDataFresh(hr, now, DefaultStalenessMinutes);
    var v := HrValue(hr);
    if HeartRateBranch(hrFresh, v, minutes) {
      HeartRatePhase(hr, d, seconds, now, hours, day);
    } else if minutes > 45 {
      LongAwayPhase(hr, d, seconds, now, hours, day);
    } else if minutes > 20 {
      ShortAwayPhase(hr, d, seconds, now, hours, day);
      ShortAwayAnswers(d, minutes, hrFresh, v);
    } else {
      ActivityPhase(hr, d, seconds, now, hours, day);
      ActivityAnswers(d, minutes, seconds);
    }
  }

  lemma HeartRatePhase(hr: Option<HeartRate>, d: ActivityDetails, seconds: int, now: int, hours: int, day: int)
    requires HeartRateBranch(IsHeartRateDataFresh(hr, now, DefaultStalenessMinutes), HrValue(hr), IdleMinutes(seconds))
    ensures Plain(Availability(hr, Some(d), seconds, now, hours, day), d.description)
  {
    var v, minutes := HrValue(hr).value, IdleMinutes(seconds);
    if v < 60 && minutes >= 20 {
      RestingAnswers(v, minutes, CurrentTimeInfo(hours, day), d);
    } else if v >= 110 && minutes >= 15 {
      ExercisingAnswers(v, minutes, d.description);
    } else {
      WalkingOutAnswers(v, minutes, d.description);
    }
  }

  lemma LongAwayPhase(hr: Option<HeartRate>, d: ActivityDetails, seconds: int, now: int, hours: int, day: int)
    requires !HeartRateBranch(IsHeartRateDataFresh(hr, now, DefaultStalenessMinutes), HrValue(hr), IdleMinutes(seconds))
    requires IdleMinutes(seconds) > 45
    ensures Plain(Availability(hr, Some(d), seconds, now, hours, day), d.description)
  {
    LongAwayAnswers(d, IdleMinutes(seconds));
  }

  lemma ShortAwayPhase(hr: Option<HeartRate>, d: ActivityDetails, seconds: int, now: int, hours: int, day: int)
    requires !HeartRateBranch(IsHeartRateDataFresh(hr, now, DefaultStalenessMinutes), HrValue(hr), IdleMinutes(seconds))
    requires 20 < IdleMinutes(seconds) <= 45
    ensures Availability(hr, Some(d), seconds, now, hours, day) ==
      ShortAway(d, IdleMinutes(seconds), IsHeartRateDataFresh(hr, now, DefaultStalenessMinutes), HrValue(hr))
  {
  }

  lemma ActivityPhase(hr: Option<HeartRate>, d: ActivityDetails, seconds: int, now: int, hours: int, day: int)
    requires !HeartRateBranch(IsHeartRateDataFresh(hr, now, DefaultStalenessMinutes), HrValue(hr), IdleMinutes(seconds))
    requires IdleMinutes(seconds) <= 20
    ensures Availability(hr, Some(d), seconds, now, hours, day) == ByActivity(d, IdleMinutes(seconds), seconds)
  {
  }

  lemma RestingAnswers(v: int, minutes: int, time: TimeInfo, d: ActivityDetails)
    ensures Plain(Resting(v, minutes, time, d.activityType), d.description)
  {
  }

  lemma ExercisingAnswers(v: int, minutes: int, desc: string)
    ensures Plain(Exercising(v, minutes), desc)
  {
  }

  lemma WalkingOutAnswers(v: int, minutes: int, desc: string)
    ensures Plain(WalkingOut(v, minutes), desc)
  {
  }

  lemma LongAwayAnswers(d: ActivityDetails, minutes: int)
    ensures Plain(LongAway(d, minutes), d.description)
  {
  }

  lemma ShortAwayAnswers(d: ActivityDetails, minutes: int, hrFresh: bool, v: Option<int>)
    ensures var r := ShortAway(d, minutes, hrFresh, v);
      && Filled(r, d.description) && r.status != "非常无聊" && r.status != "好无聊"
      && (r.status == "可能在小憩" <==> !ComputerBusy(d) && hrFresh && v.Some? && v.value < 65)
  {
  }

  lemma ActivityAnswers(d: ActivityDetails, minutes: int, seconds: int)
    requires minutes <= 20
    ensures Plain(ByActivity(d, minutes, seconds), d.description)
  {
    var r := ByActivity(d, minutes, seconds);
    match d.activityType
    case Gaming => GamingAnswers(d); assert r == GamingOutcome(d);
    case Working => WorkingAnswers(d, minutes); assert r == WorkingOutcome(d, minutes);
    case Learning => LearningAnswers(d, minutes); assert r == LearningOutcome(d, minutes);
    case Meeting => MeetingAnswers(d); assert r == MeetingOutcome(d);
    case Entertainment => EntertainmentAnswers(d, minutes); assert r == EntertainmentOutcome(d, minutes);
    case Social => SocialAnswers(d, seconds); assert r == SocialOutcome(d, seconds);
    case AiInteraction => AiAnswers(d); assert r == AiOutcome(d);
    case Browsing => BrowsingAnswers(d, minutes); assert r == BrowsingOutcome(d, minutes);
    case NoteTaking | Planning => ThinkingAnswers(d); assert r == ThinkingOutcome(d);
    case SystemTask => ComputerBusyAnswers(d); assert r == ComputerBusyOutcome(d);
    case Idle => IdleAnswers(minutes, d.description); assert r == IdleOutcome(minutes);
    case Unknown => UnclearAnswers(d.description); assert r == Unclear;
  }

  lemma GamingAnswers(d: ActivityDetails) ensures Plain(GamingOutcome(d), d.description) {}
  lemma WorkingAnswers(d: ActivityDetails, minutes: int) ensures Plain(WorkingOutcome(d, minutes), d.description) {}
  lemma LearningAnswers(d: ActivityDetails, minutes: int) ensures Plain(LearningOutcome(d, minutes), d.description) {}
  lemma MeetingAnswers(d: ActivityDetails) ensures Plain(MeetingOutcome(d), d.description) {}
  lemma EntertainmentAnswers(d: ActivityDetails, minutes: int) ensures Plain(EntertainmentOutcome(d, minutes), d.description) {}
  lemma SocialAnswers(d: ActivityDetails, seconds: int) ensures Plain(SocialOutcome(d, seconds), d.description) {}
  lemma AiAnswers(d: ActivityDetails) ensures Plain(AiOutcome(d), d.description) {}
  lemma BrowsingAnswers(d: ActivityDetails, minutes: int) ensures Plain(BrowsingOutcome(d, minutes), d.description) {}
  lemma ThinkingAnswers(d: ActivityDetails) ensures Plain(ThinkingOutcome(d), d.description) {}
  lemma ComputerBusyAnswers(d: ActivityDetails) ensures Plain(ComputerBusyOutcome(d), d.description) {}
  lemma IdleAnswers(minutes: int, desc: string) requires minutes <= 20 ensures Plain(IdleOutcome(minutes), desc) {}
  lemma UnclearAnswers(desc: string) ensures Plain(Unclear, desc) {}
}
