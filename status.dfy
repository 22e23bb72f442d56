/**
 * getAliveStatus (app/lib/statusUtils.ts): a one-line verdict on a heart-rate record. The caller
 * decides whether the record is recent and passes that in as `isRecentHR`.
 */
module Status {
  import opened Wrappers
  import opened Activity

  /** `{ text, color }`. */
  datatype AliveStatus = AliveStatus(text: string, color: string)

  const Neutral := "text-neutral-500 dark:text-neutral-400"
  const Red := "text-red-500 dark:text-red-400"

  function GetAliveStatus(heartRate: Option<HeartRate>, isRecentHR: bool): (r: AliveStatus)
    ensures r.text == "未知" <==> heartRate.None?
    ensures !isRecentHR ==> r.text in {"未知", "可能挂了", "掉线了"}
    ensures r.color in {Neutral, Red, "text-orange-500 dark:text-orange-400", "text-black dark:text-white",
                        "text-blue-500 dark:text-blue-400"}
  {
    if heartRate.None? then AliveStatus("未知", Neutral)
    else
      var hr := heartRate.value.lastNonZeroHr;
      if hr == 0 || heartRate.value.isWatchOff then AliveStatus("可能挂了", Red)
      else if !isRecentHR then AliveStatus("掉线了", Neutral)
      else if hr >= 150 then AliveStatus("快死了", Red)
      else if hr >= 100 then AliveStatus("在运动", "text-orange-500 dark:text-orange-400")
      else if hr >= 60 then AliveStatus("还没死", "text-black dark:text-white")
      else if hr >= 40 then AliveStatus("在睡觉", "text-blue-500 dark:text-blue-400")
      else AliveStatus("可能快死了？", Red)
  }

  // ---------------------------------------------------------------------------------------------
  // The rate bands, each given by both of its bounds

  datatype Band = Racing | Exercising | Awake | Asleep | Faint

  predicate InBand(hr: int, b: Band) {
    match b
    case Racing => 150 <= hr
    case Exercising => 100 <= hr < 150
    case Awake => 60 <= hr < 100
    case Asleep => 40 <= hr < 60
    case Faint => hr < 40
  }

  function BandText(b: Band): string {
    match b
    case Racing => "快死了"
    case Exercising => "在运动"
    case Awake => "还没死"
    case Asleep => "在睡觉"
    case Faint => "可能快死了？"
  }

  /** Every rate lies in exactly one band. */
  lemma BandsPartition(hr: int)
    ensures exists b :: InBand(hr, b)
    ensures forall b1, b2 :: InBand(hr, b1) && InBand(hr, b2) ==> b1 == b2
  {
    if hr >= 150 { assert InBand(hr, Racing); }
    else if hr >= 100 { assert InBand(hr, Exercising); }
    else if hr >= 60 { assert InBand(hr, Awake); }
    else if hr >= 40 { assert InBand(hr, Asleep); }
    else { assert InBand(hr, Faint); }
  }

  /** A live record: present, with a non-zero rate and the watch worn. */
  predicate Live(heartRate: Option<HeartRate>) {
    heartRate.Some? && heartRate.value.lastNonZeroHr != 0 && !heartRate.value.isWatchOff
  }

  // ---------------------------------------------------------------------------------------------
  // What each answer means

  /** No record: "未知". */
  lemma MissingRecordIsUnknown(isRecentHR: bool)
    ensures GetAliveStatus(None, isRecentHR) == AliveStatus("未知", Neutral)
  {
  }

  /** "可能挂了" exactly for a record with a zero rate or the watch off, recent or not: that check
      comes before the recency check. */
  lemma DeadBeforeOffline(heartRate: Option<HeartRate>, isRecentHR: bool)
    ensures GetAliveStatus(heartRate, isRecentHR).text == "可能挂了" <==> heartRate.Some? && !Live(heartRate)
    ensures heartRate.Some? && !Live(heartRate) ==> GetAliveStatus(heartRate, isRecentHR).color == Red
  {
  }

  /** "掉线了" exactly for a live record the caller does not consider recent. */
  lemma OfflineIff(heartRate: Option<HeartRate>, isRecentHR: bool)
    ensures GetAliveStatus(heartRate, isRecentHR).text == "掉线了" <==> Live(heartRate) && !isRecentHR
  {
  }

  /** For a live, recent record the text is the text of the rate's band, and no other band's. */
  lemma RecentByBand(heartRate: Option<HeartRate>, b: Band)
    requires Live(heartRate)
    ensures GetAliveStatus(heartRate, true).text == BandText(b) <==> InBand(heartRate.value.lastNonZeroHr, b)
  {
    BandsPartition(heartRate.value.lastNonZeroHr);
  }

  /** A band's text is answered only for a live, recent record in that band. */
  lemma BandTextOnlyWhenRecent(heartRate: Option<HeartRate>, isRecentHR: bool, b: Band)
    requires GetAliveStatus(heartRate, isRecentHR).text == BandText(b)
    ensures Live(heartRate) && isRecentHR && InBand(heartRate.value.lastNonZeroHr, b)
  {
    if Live(heartRate) && isRecentHR {
      RecentByBand(heartRate, b);
    }
  }

  /** Only the presence of a record, its rate, the watch flag and the caller's recency flag
      matter: the timestamp is never read. */
  lemma OnlyRateAndWatchMatter(r1: HeartRate, r2: HeartRate, isRecentHR: bool)
    requires r1.lastNonZeroHr == r2.lastNonZeroHr && r1.isWatchOff == r2.isWatchOff
    ensures GetAliveStatus(Some(r1), isRecentHR) == GetAliveStatus(Some(r2), isRecentHR)
  {
  }

  /** The red answers are the alarming ones: a record with no rate or no watch, a racing rate and a
      faint one. */
  lemma RedIsAlarming(heartRate: Option<HeartRate>, isRecentHR: bool)
    ensures GetAliveStatus(heartRate, isRecentHR).color == Red <==>
      heartRate.Some? &&
      (!Live(heartRate) ||
       (isRecentHR && (InBand(heartRate.value.lastNonZeroHr, Racing) || InBand(heartRate.value.lastNonZeroHr, Faint))))
  {
  }
}
