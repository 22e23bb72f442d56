/**
 * predictAvailability (app/lib/activityUtils.ts): from the heart rate, the classified activity and
 * how long the mouse has been idle, a guess at whether the person can be reached.
 *
 * The clock is a parameter: `now` stands for `Date.now()`, and `hours` and `day` for the local
 * `getHours()` and `getDay()` of `new Date()`.
 *
 * The early cascade returns literal records and is written as functions. The branches for the
 * activity types start from default status, reason and suggestion strings and overwrite them
 * step by step; each is a method proved equal to a function written in the other direction, where
 * the last assignment that applies comes first. `PredictAvailability` is the method the original
 * is, proved to return `Availability`.
 */
module Predictor {
  import opened Wrappers
  import opened Activity
  import opened Text
  import opened Matching

  // ---------------------------------------------------------------------------------------------
  // getCurrentTimeInfo and isHeartRateDataFresh

  datatype TimeInfo = TimeInfo(
    hours: int,
    isWeekend: bool,
    isTypicalSleepTime: bool,
    isTypicalWorkTime: bool,
    isLunchBreakTime: bool)

  /** The calendar facts of an hour of the day (0..23) and a day of the week (0 is Sunday). */
  function CurrentTimeInfo(hours: int, day: int): (t: TimeInfo)
    ensures t.hours == hours
    ensures t.isTypicalSleepTime ==> !t.isLunchBreakTime && !t.isTypicalWorkTime
    ensures t.isTypicalWorkTime ==> !t.isWeekend
  {
    TimeInfo(
      hours,
      day == 0 || day == 6,
      hours >= 22 || hours < 7,
      hours >= 9 && hours < 18 && day >= 1 && day <= 5,
      hours >= 12 && hours < 14)
  }

  /** The default staleness bound of isHeartRateDataFresh, in minutes. */
  const DefaultStalenessMinutes := 5

  /** A record is fresh when it has a non-zero timestamp at most `maxStalenessMinutes` minutes
      before `now` (both in milliseconds). */
  predicate IsHeartRateDataFresh(hr: Option<HeartRate>, now: int, maxStalenessMinutes: int)
    ensures IsHeartRateDataFresh(hr, now, maxStalenessMinutes) ==> hr.Some? && hr.value.timestamp != 0
    ensures hr.Some? && hr.value.timestamp != 0 && now <= hr.value.timestamp && maxStalenessMinutes >= 0 ==>
      IsHeartRateDataFresh(hr, now, maxStalenessMinutes)
  {
    hr.Some? && hr.value.timestamp != 0 && now - hr.value.timestamp <= maxStalenessMinutes * 60 * 1000
  }

  /** `Math.floor(mouseIdleSeconds / 60)`. */
  function IdleMinutes(seconds: int): (m: int)
    ensures 60 * m <= seconds < 60 * m + 60
  {
    seconds / 60
  }

  /** `last_non_zero_hr` when there is a record and its rate is positive. */
  function HrValue(hr: Option<HeartRate>): (v: Option<int>)
    ensures v.Some? <==> hr.Some? && hr.value.lastNonZeroHr > 0
    ensures v.Some? ==> v.value == hr.value.lastNonZeroHr && v.value > 0
  {
    if hr.Some? && hr.value.lastNonZeroHr > 0 then Some(hr.value.lastNonZeroHr) else None
  }

  /** Every branch fills in a suggestion. */
  function Answer(status: string, reason: string, color: string, suggestion: string): AvailabilityStatus {
    AvailabilityStatus(status, reason, color, Some(suggestion))
  }

  // ---------------------------------------------------------------------------------------------
  // The early cascade

  /** With no classified activity. */
  const NoActivity := Answer("有点懵", "暂时看不清你在做什么", "text-neutral-500 dark:text-neutral-400", "也许稍后信息会更明朗")

  /** A slow fresh heart rate and a long-idle mouse. */
  function Resting(hr: int, minutes: int, time: TimeInfo, activityType: ActivityType): AvailabilityStatus {
    if time.isTypicalSleepTime then
      Answer("睡着了", "心率" + IntToString(hr) + "...", "text-purple-500 dark:text-purple-400", "嘘，让她/他好好休息吧")
    else if time.isLunchBreakTime && activityType != Working then
      Answer("午休中", "心率" + IntToString(hr) + "，可能是午后小憩？", "text-purple-500 dark:text-purple-400",
             "让她/他安静地休息一会儿吧")
    else
      Answer("在休息", "心率" + IntToString(hr) + "，鼠标" + IntToString(minutes) + "分钟没动，可能在小憩？",
             "text-indigo-500 dark:text-indigo-400", "看起来在休息，不急的话晚点再联系")
  }

  /** A high fresh heart rate (110 or more) and a mouse idle for at least 15 minutes. */
  function Exercising(hr: int, minutes: int): AvailabilityStatus {
    if hr >= 140 then
      Answer("运动中", "心率" + IntToString(hr) + "，估计跑得很快", "text-emerald-600 dark:text-emerald-500",
             "运动时不便回复，稍后再联系")
    else if hr >= 120 then
      Answer("在跑步", "心率" + IntToString(hr) + "，估计在跑步？", "text-emerald-500 dark:text-emerald-400",
             "运动时不便回复，稍后再试")
    else
      Answer("可能出去了", "心率" + IntToString(hr) + "偏高，鼠标" + IntToString(minutes) + "分钟没动，可能在外活动",
             "text-teal-600 dark:text-teal-500", "试试其他联系方式？")
  }

  /** A fresh heart rate of 80 to 109 and a mouse idle for at least 20 minutes. */
  function WalkingOut(hr: int, minutes: int): AvailabilityStatus {
    Answer("可能外出了", "心率" + IntToString(hr) + "，鼠标" + IntToString(minutes) + "分钟没动，可能出去散步",
           "text-blue-500 dark:text-blue-400", "暂时不在电脑前，晚点再联系")
  }

  /** The computer itself is busy: a compile or a render. */
  predicate ComputerBusy(d: ActivityDetails) {
    d.activityType == SystemTask && (d.subType == Some(SystemCompiling) || d.subType == Some(SystemRendering))
  }

  /** More than 45 idle minutes. */
  function LongAway(d: ActivityDetails, minutes: int): AvailabilityStatus {
    if ComputerBusy(d) then
      Answer("电脑工作中", "电脑正在 " + d.description + "，可能在等结果", "text-teal-500 dark:text-teal-400",
             "如果不急，可以稍等一下")
    else
      Answer("似乎出门了", "鼠标" + IntToString(minutes) + "分钟没动，大概率不在电脑前", "text-blue-600 dark:text-blue-500",
             "晚点再找或试试其他联系方式")
  }

  /** 21 to 45 idle minutes. */
  function ShortAway(d: ActivityDetails, minutes: int, hrFresh: bool, hrValue: Option<int>): AvailabilityStatus {
    if ComputerBusy(d) then
      Answer("电脑工作中", "电脑正在 " + d.description + "，人可能在旁边等", "text-teal-500 dark:text-teal-400",
             "可以先留个言")
    else if hrFresh && hrValue.Some? && hrValue.value < 65 then
      Answer("可能在小憩", "鼠标" + IntToString(minutes) + "分钟没动，心率" + IntToString(hrValue.value) + "较平缓",
             "text-indigo-500 dark:text-indigo-400", "也许在闭目养神，稍等一下")
    else
      Answer("可能离开了", "鼠标" + IntToString(minutes) + "分钟没动，可能暂时不在", "text-sky-500 dark:text-sky-400",
             "可以留个言或稍后再看")
  }

  // ---------------------------------------------------------------------------------------------
  // Titles shown in the narrative

  /** Where `split(/[-–|—]|steam/i)` (with `steam`) or `split(/[-–|—]/)` (without) cuts `s`. */
  predicate CutsAt(s: string, i: int, steam: bool)
    requires 0 <= i < |s|
  {
    s[i] == '-' || s[i] == '–' || s[i] == '|' || s[i] == '—' || (steam && OccursAt("steam", ToLower(s), i))
  }

  /** The first cut at or after `i`, or the end of `s`. */
  function NextCut(s: string, i: nat, steam: bool): (j: nat)
    requires i <= |s|
    ensures i <= j <= |s|
    ensures j == |s| || CutsAt(s, j, steam)
    ensures forall k :: i <= k < j ==> !CutsAt(s, k, steam)
    decreases |s| - i
  {
    if i == |s| || CutsAt(s, i, steam) then i else NextCut(s, i + 1, steam)
  }

  /** `split(...)[0]`: the text before the first cut, all of `s` when nothing cuts it. */
  function FirstPiece(s: string, steam: bool): (r: string)
    ensures |r| <= |s| && r == s[..|r|]
    ensures forall k :: 0 <= k < |r| ==> !CutsAt(s, k, steam)
    ensures |r| == |s| || CutsAt(s, |r|, steam)
  {
    s[..NextCut(s, 0, steam)]
  }

  /** The game's name as the gaming branch shows it: the trimmed first piece of the title, or
      "某个游戏" when that is longer than 30 characters or mentions "exe". */
  function GameName(rawTitle: string): (r: string)
    ensures |r| <= 30 && !Contains(ToLower(r), "exe")
    ensures r == "某个游戏" || r == Trim(FirstPiece(rawTitle, true))
    ensures var name := Trim(FirstPiece(rawTitle, true));
      |name| <= 30 && !Contains(ToLower(name), "exe") ==> r == name
  {
    var name := Trim(FirstPiece(rawTitle, true));
    if |name| > 30 || Contains(ToLower(name), "exe") then
      MissingFirstCharacter(ToLower("某个游戏"), "exe");
      "某个游戏"
    else
      name
  }

  /** The film's title as the entertainment branch shows it: the trimmed first piece of the title,
      or "一部影片" when that is longer than 30 characters or names the player. */
  function FilmTitle(rawTitle: string): (r: string)
    ensures |r| <= 30 && !Contains(ToLower(r), "potplayer") && !Contains(ToLower(r), "vlc")
    ensures r == "一部影片" || r == Trim(FirstPiece(rawTitle, false))
    ensures var title := Trim(FirstPiece(rawTitle, false));
      |title| <= 30 && !Contains(ToLower(title), "potplayer") && !Contains(ToLower(title), "vlc") ==> r == title
  {
    var title := Trim(FirstPiece(rawTitle, false));
    if |title| > 30 || Contains(ToLower(title), "potplayer") || Contains(ToLower(title), "vlc") then
      MissingFirstCharacter(ToLower("一部影片"), "potplayer");
      MissingFirstCharacter(ToLower("一部影片"), "vlc");
      "一部影片"
    else
      title
  }

  /** A page title longer than 40 characters is cut to its first 37 and "...". */
  function Truncated(rawTitle: string): (r: string)
    ensures |r| <= 40
    ensures |rawTitle| <= 40 ==> r == rawTitle
    ensures |rawTitle| > 40 ==> r == rawTitle[..37] + "..."
  {
    if |rawTitle| > 40 then rawTitle[..37] + "..." else rawTitle
  }

  /** `/\b(new tab|新标签页)\b/i`. */
  const NewTabWords: seq<Matcher> := Words(["new tab", "新标签页"])

  /** The page as the browsing branch names it. */
  function PageShown(rawTitle: string): (r: string)
    ensures |r| <= 40
    ensures AnyTest(NewTabWords, Truncated(rawTitle)) ==> r == "一个网页"
    ensures !AnyTest(NewTabWords, Truncated(rawTitle)) ==> r == Truncated(rawTitle)
  {
    var partial := Truncated(rawTitle);
    if AnyTest(NewTabWords, partial) then "一个网页" else partial
  }

  // ---------------------------------------------------------------------------------------------
  // The per-type branches, as what their last applicable assignment decides

  function GamingOutcome(d: ActivityDetails): AvailabilityStatus {
    var playDesc := if StartsWith(d.description, "玩") then d.description else "在玩《" + GameName(d.rawTitle) + "》";
    if d.intensity == Some(High) || d.subType == Some(GamingIntense) then
      Answer("沉浸游戏中", playDesc + "，看起来很投入", "text-red-600 dark:text-red-500", "现在打扰可能会打断精彩操作")
    else
      Answer("在玩游戏", playDesc, "text-red-500 dark:text-red-400", "游戏时间，回复可能会慢")
  }

  function WorkingOutcome(d: ActivityDetails, minutes: int): AvailabilityStatus {
    var desc := d.description;
    if 5 < minutes <= 15 then
      Answer("工作中", "正在" + desc + "，但已有" + IntToString(minutes) + "分钟没动，可能在思考",
             "text-orange-500 dark:text-orange-400", "可以发消息，但请耐心等待回复")
    else if d.subType == Some(CodingDebugging) then
      Answer("在调试", "似乎聚精会神地改Bug", "text-orange-500 dark:text-orange-400", "调试时不可打断，建议稍后再联系")
    else if d.focusLevel == Some(High) then
      Answer("写代码", "都在" + desc + "了还能在干啥", "text-orange-500 dark:text-orange-400",
             "她/他需要集中精神，晚点联系更好")
    else
      Answer("在忙碌", "正在" + desc, "text-orange-500 dark:text-orange-400", "如果不急，可以留言")
  }

  predicate ImmersedInLearning(d: ActivityDetails) {
    d.focusLevel == Some(High) || d.subType == Some(LearningReadingDocs) || d.subType == Some(LearningVideoCourse)
  }

  function LearningOutcome(d: ActivityDetails, minutes: int): AvailabilityStatus {
    var desc := d.description;
    var immersed := ImmersedInLearning(d);
    var reason :=
      if 8 < minutes <= 20 && d.subType == Some(LearningVideoCourse) then
        "正在" + desc + "，鼠标" + IntToString(minutes) + "分钟没动，可能在认真观看或做笔记"
      else if 5 < minutes <= 10 then
        "正在" + desc + "，有" + IntToString(minutes) + "分钟没操作，可能在消化"
      else if immersed then
        "正在" + desc + "，看起来很认真"
      else
        "正在" + desc;
    Answer(if immersed then "沉浸学习" else "学习中", reason, "text-green-600 dark:text-green-500",
           if immersed then "让她/他安静学习一会儿" else "她/他在学习，尽量别打扰")
  }

  function MeetingOutcome(d: ActivityDetails): AvailabilityStatus {
    if d.subType == Some(MeetingPresenting) then
      Answer("可能在演示", "专心演示中", "text-cyan-500 dark:text-cyan-400", "可以留言")
    else
      Answer("大概在开会？", d.description, "text-cyan-500 dark:text-cyan-400", "可以留言")
  }

  function EntertainmentOutcome(d: ActivityDetails, minutes: int): AvailabilityStatus {
    var (status, reason) :=
      if d.subType == Some(WatchingMovieSeries) then
        var lead := "正在看《" + FilmTitle(d.rawTitle) + "》";
        ("看剧/电影", if 5 < minutes <= 15 then lead + "，看得很专心" else lead)
      else if d.subType == Some(ListeningMusic) then
        ("听音乐", "在听音乐放松")
      else if d.subType == Some(WatchingShortVideo) then
        ("刷短视频", "在看有趣的短视频")
      else
        ("放松中", d.description);
    Answer(status, reason, "text-lime-500 dark:text-lime-400", "休息一下吧")
  }

  const TypingSuffix := "，可能在打字或看消息"

  function SocialOutcome(d: ActivityDetails, seconds: int): AvailabilityStatus {
    var desc := d.description;
    var reason :=
      if d.subType == Some(ChattingIm) then "正在" + desc
      else if d.subType == Some(BrowsingSocialMedia) then "在" + desc
      else desc;
    Answer(if d.subType == Some(BrowsingSocialMedia) then "逛动态" else "在聊天",
           if 0 < seconds <= 15 then reason + TypingSuffix else reason,
           "text-pink-500 dark:text-pink-400", "可以发消息看看")
  }

  function AiOutcome(d: ActivityDetails): AvailabilityStatus {
    var desc := d.description;
    Answer("与 AI 对话",
           if Contains(ToLower(desc), "studio") then "在 " + desc + " 中尝试新功能"
           else "正在用 " + ReplaceFirst(ReplaceFirst(desc, "与 ", ""), "对话", ""),
           "text-violet-500 dark:text-violet-400", "她/他可能在思考，稍等一下")
  }

  /** What the sub-category alone says about the page: the status and the reason before the idle
      time is taken into account. */
  function PageNarrative(subType: Option<ActivitySubType>, partial: string, minutes: int): (string, string) {
    if subType == Some(BrowsingResearch) then
      var lead := "在网上查 \"" + partial + "\" 相关资料";
      ("查资料", if 5 < minutes <= 15 then lead + "，似乎稍作停顿" else lead)
    else if subType == Some(BrowsingNews) then
      ("看新闻", "正在阅读 \"" + partial + "\" 的新闻")
    else if subType == Some(BrowsingGeneral) then
      ("浏览网页", "随便看看 " + partial)
    else
      ("浏览网页", "正在看 " + partial)
  }

  function BrowsingOutcome(d: ActivityDetails, minutes: int): AvailabilityStatus {
    var partial := PageShown(d.rawTitle);
    if minutes > 8 && d.subType != Some(BrowsingResearch) then
      Answer("可能走神", "浏览器开着 \"" + partial + "\"，鼠标" + IntToString(minutes) + "分钟没动",
             "text-sky-500 dark:text-sky-400", "可能暂时离开或走神")
    else
      var (status, reason) := PageNarrative(d.subType, partial, minutes);
      Answer(status, if minutes > 3 then reason + "，也许在认真看" else reason,
             "text-sky-500 dark:text-sky-400", "可以试着联系，但回复可能慢")
  }

  function ThinkingOutcome(d: ActivityDetails): AvailabilityStatus {
    Answer(if d.activityType == NoteTaking then "整理思绪" else "规划事情", "正在 " + d.description,
           "text-gray-500 dark:text-gray-400", "可能在安静思考")
  }

  function ComputerBusyOutcome(d: ActivityDetails): AvailabilityStatus {
    Answer("电脑在忙", "电脑正在 " + d.description, "text-teal-500 dark:text-teal-400", "可以先留个言")
  }

  function IdleOutcome(minutes: int): AvailabilityStatus {
    if minutes > 40 then
      Answer("非常无聊", "鼠标" + IntToString(minutes) + "分钟没动", "text-yellow-500 dark:text-yellow-400", "或许可以聊天")
    else if minutes > 30 then
      Answer("好无聊", "鼠标" + IntToString(minutes) + "分钟没动", "text-yellow-500 dark:text-yellow-400", "或许可以聊聊")
    else if minutes > 15 then
      Answer("发呆中", "鼠标" + IntToString(minutes) + "分钟没动", "text-yellow-500 dark:text-yellow-400", "也许可以打个招呼")
    else if minutes > 5 then
      Answer("摸鱼", "闲置 " + IntToString(minutes) + "分钟", "text-yellow-400 dark:text-yellow-300", "大概率有空")
    else
      Answer("小憩片刻", "暂无特别活动", "text-gray-400 dark:text-gray-500", "可以试着联系")
  }

  const Unclear := Answer("未知", "进行未知活动", "text-neutral-400 dark:text-neutral-500", "可以尝试联系")

  /** The switch on the activity type. */
  function ByActivity(d: ActivityDetails, minutes: int, seconds: int): AvailabilityStatus {
    match d.activityType
    case Gaming => GamingOutcome(d)
    case Working => WorkingOutcome(d, minutes)
    case Learning => LearningOutcome(d, minutes)
    case Meeting => MeetingOutcome(d)
    case Entertainment => EntertainmentOutcome(d, minutes)
    case Social => SocialOutcome(d, seconds)
    case AiInteraction => AiOutcome(d)
    case Browsing => BrowsingOutcome(d, minutes)
    case NoteTaking | Planning => ThinkingOutcome(d)
    case SystemTask => ComputerBusyOutcome(d)
    case Idle => IdleOutcome(minutes)
    case Unknown => Unclear
  }

  /** What predictAvailability answers. */
  function Availability(heartRate: Option<HeartRate>, activity: Option<ActivityDetails>, mouseIdleSeconds: int,
                        now: int, hours: int, day: int): AvailabilityStatus
  {
    var time := CurrentTimeInfo(hours, day);
    var minutes := IdleMinutes(mouseIdleSeconds);
    if activity.None? then NoActivity
    else
      var d := activity.value;
      var hrFresh := IsHeartRateDataFresh(heartRate, now, DefaultStalenessMinutes);
      var hr := HrValue(heartRate);
      if hr.Some? && hr.value < 60 && hrFresh && minutes >= 20 then Resting(hr.value, minutes, time, d.activityType)
      else if hrFresh && hr.Some? && hr.value >= 110 && minutes >= 15 then Exercising(hr.value, minutes)
      else if hrFresh && hr.Some? && 80 <= hr.value < 110 && minutes >= 20 then WalkingOut(hr.value, minutes)
      else if minutes > 45 then LongAway(d, minutes)
      else if minutes > 20 then ShortAway(d, minutes, hrFresh, hr)
      else ByActivity(d, minutes, mouseIdleSeconds)
  }

  // ---------------------------------------------------------------------------------------------
  // The per-type branches as the original writes them: defaults first, then overwrites

  method GamingBranch(d: ActivityDetails) returns (r: AvailabilityStatus)
    ensures r == GamingOutcome(d)
  {
    var name := Trim(FirstPiece(d.rawTitle, true));
    if |name| > 30 || Contains(ToLower(name), "exe") {
      name := "某个游戏";
    }
    assert name == GameName(d.rawTitle);
    var playDesc := if StartsWith(d.description, "玩") then d.description else "在玩《" + name + "》";
    if d.intensity == Some(High) || d.subType == Some(GamingIntense) {
      return Answer("沉浸游戏中", playDesc + "，看起来很投入", "text-red-600 dark:text-red-500", "现在打扰可能会打断精彩操作");
    }
    return Answer("在玩游戏", playDesc, "text-red-500 dark:text-red-400", "游戏时间，回复可能会慢");
  }

  method WorkingBranch(d: ActivityDetails, mouseIdleMinutes: int) returns (r: AvailabilityStatus)
    ensures r == WorkingOutcome(d, mouseIdleMinutes)
  {
    var desc := d.description;
    var workStatus := "在忙碌";
    var workReason := "正在" + desc;
    var workSug := "如果不急，可以留言";
    if d.focusLevel == Some(High) {
      workStatus := "写代码";
      workReason := "都在" + desc + "了还能在干啥";
      workSug := "她/他需要集中精神，晚点联系更好";
    }
    if d.subType == Some(CodingDebugging) {
      workStatus := "在调试";
      workReason := "似乎聚精会神地改Bug";
      workSug := "调试时不可打断，建议稍后再联系";
    }
    if mouseIdleMinutes > 5 && mouseIdleMinutes <= 15 {
      workStatus := "工作中";
      workReason := "正在" + desc + "，但已有" + IntToString(mouseIdleMinutes) + "分钟没动，可能在思考";
      workSug := "可以发消息，但请耐心等待回复";
    }
    r := Answer(workStatus, workReason, "text-orange-500 dark:text-orange-400", workSug);
  }

  method LearningBranch(d: ActivityDetails, mouseIdleMinutes: int) returns (r: AvailabilityStatus)
    ensures r == LearningOutcome(d, mouseIdleMinutes)
  {
    var desc := d.description;
    var learnStatus := "学习中";
    var learnReason := "正在" + desc;
    var learnSug := "她/他在学习，尽量别打扰";
    if d.focusLevel == Some(High) || d.subType == Some(LearningReadingDocs) || d.subType == Some(LearningVideoCourse) {
      learnStatus := "沉浸学习";
      learnReason := "正在" + desc + "，看起来很认真";
      learnSug := "让她/他安静学习一会儿";
    }
    if mouseIdleMinutes > 8 && mouseIdleMinutes <= 20 && d.subType == Some(LearningVideoCourse) {
      learnReason := "正在" + desc + "，鼠标" + IntToString(mouseIdleMinutes) + "分钟没动，可能在认真观看或做笔记";
    } else if mouseIdleMinutes > 5 && mouseIdleMinutes <= 10 {
      learnReason := "正在" + desc + "，有" + IntToString(mouseIdleMinutes) + "分钟没操作，可能在消化";
    }
    r := Answer(learnStatus, learnReason, "text-green-600 dark:text-green-500", learnSug);
  }

  method MeetingBranch(d: ActivityDetails) returns (r: AvailabilityStatus)
    ensures r == MeetingOutcome(d)
  {
    var meetStatus := "大概在开会？";
    var meetReason := d.description;
    var meetSug := "可以留言";
    if d.subType == Some(MeetingPresenting) {
      meetStatus := "可能在演示";
      meetReason := "专心演示中";
    }
    r := Answer(meetStatus, meetReason, "text-cyan-500 dark:text-cyan-400", meetSug);
  }

  method EntertainmentBranch(d: ActivityDetails, mouseIdleMinutes: int) returns (r: AvailabilityStatus)
    ensures r == EntertainmentOutcome(d, mouseIdleMinutes)
  {
    var entStatus := "放松中";
    var entReason := d.description;
    var entSug := "休息一下吧";
    if d.subType == Some(WatchingMovieSeries) {
      entStatus := "看剧/电影";
      var title := Trim(FirstPiece(d.rawTitle, false));
      if |title| > 30 || Contains(ToLower(title), "potplayer") || Contains(ToLower(title), "vlc") {
        title := "一部影片";
      }
      assert title == FilmTitle(d.rawTitle);
      entReason := "正在看《" + title + "》";
      if mouseIdleMinutes > 5 && mouseIdleMinutes <= 15 {
        entReason := entReason + "，看得很专心";
      }
    } else if d.subType == Some(ListeningMusic) {
      entStatus := "听音乐";
      entReason := "在听音乐放松";
    } else if d.subType == Some(WatchingShortVideo) {
      entStatus := "刷短视频";
      entReason := "在看有趣的短视频";
    }
    r := Answer(entStatus, entReason, "text-lime-500 dark:text-lime-400", entSug);
  }

  method SocialBranch(d: ActivityDetails, mouseIdleSeconds: int) returns (r: AvailabilityStatus)
    ensures r == SocialOutcome(d, mouseIdleSeconds)
  {
    var desc := d.description;
    var socStatus := "在聊天";
    var socReason := desc;
    var socSug := "可以发消息看看";
    if d.subType == Some(ChattingIm) {
      socReason := "正在" + desc;
    } else if d.subType == Some(BrowsingSocialMedia) {
      socStatus := "逛动态";
      socReason := "在" + desc;
    }
    if mouseIdleSeconds > 0 && mouseIdleSeconds <= 15 {
      socReason := socReason + TypingSuffix;
    }
    r := Answer(socStatus, socReason, "text-pink-500 dark:text-pink-400", socSug);
  }

  method AiInteractionBranch(d: ActivityDetails) returns (r: AvailabilityStatus)
    ensures r == AiOutcome(d)
  {
    var desc := d.description;
    var aiStatus := "与 AI 对话";
    var aiReason := "正在用 " + ReplaceFirst(ReplaceFirst(desc, "与 ", ""), "对话", "");
    if Contains(ToLower(desc), "studio") {
      aiReason := "在 " + desc + " 中尝试新功能";
    }
    r := Answer(aiStatus, aiReason, "text-violet-500 dark:text-violet-400", "她/他可能在思考，稍等一下");
  }

  method BrowsingBranch(d: ActivityDetails, mouseIdleMinutes: int) returns (r: AvailabilityStatus)
    ensures r == BrowsingOutcome(d, mouseIdleMinutes)
  {
    var browseStatus := "浏览网页";
    var partial := if |d.rawTitle| > 40 then d.rawTitle[..37] + "..." else d.rawTitle;
    if AnyTest(NewTabWords, partial) {
      partial := "一个网页";
    }
    assert partial == PageShown(d.rawTitle);
    var browseReason := "正在看 " + partial;
    var browseSug := "可以试着联系，但回复可能慢";
    if d.subType == Some(BrowsingResearch) {
      browseStatus := "查资料";
      browseReason := "在网上查 \"" + partial + "\" 相关资料";
      if mouseIdleMinutes > 5 && mouseIdleMinutes <= 15 {
        browseReason := browseReason + "，似乎稍作停顿";
      }
    } else if d.subType == Some(BrowsingNews) {
      browseStatus := "看新闻";
      browseReason := "正在阅读 \"" + partial + "\" 的新闻";
    } else if d.subType == Some(BrowsingGeneral) {
      browseReason := "随便看看 " + partial;
    }
    assert (browseStatus, browseReason) == PageNarrative(d.subType, partial, mouseIdleMinutes);
    if mouseIdleMinutes > 8 && d.subType != Some(BrowsingResearch) {
      browseStatus := "可能走神";
      browseReason := "浏览器开着 \"" + partial + "\"，鼠标" + IntToString(mouseIdleMinutes) + "分钟没动";
      browseSug := "可能暂时离开或走神";
    } else if mouseIdleMinutes > 3 {
      browseReason := browseReason + "，也许在认真看";
    }
    r := Answer(browseStatus, browseReason, "text-sky-500 dark:text-sky-400", browseSug);
  }

  /** The switch on the activity type. */
  method RespondToActivity(d: ActivityDetails, mouseIdleMinutes: int, mouseIdleSeconds: int) returns (r: AvailabilityStatus)
    ensures r == ByActivity(d, mouseIdleMinutes, mouseIdleSeconds)
  {
    match d.activityType {
      case Gaming => r := GamingBranch(d);
      case Working => r := WorkingBranch(d, mouseIdleMinutes);
      case Learning => r := LearningBranch(d, mouseIdleMinutes);
      case Meeting => r := MeetingBranch(d);
      case Entertainment => r := EntertainmentBranch(d, mouseIdleMinutes);
      case Social => r := SocialBranch(d, mouseIdleSeconds);
      case AiInteraction => r := AiInteractionBranch(d);
      case Browsing => r := BrowsingBranch(d, mouseIdleMinutes);
      case NoteTaking => r := ThinkingOutcome(d);
      case Planning => r := ThinkingOutcome(d);
      case SystemTask => r := ComputerBusyOutcome(d);
      case Idle => r := IdleOutcome(mouseIdleMinutes);
      case Unknown => r := Unclear;
    }
  }

  // ---------------------------------------------------------------------------------------------
  // The original's step-by-step form

  method PredictAvailability(heartRate: Option<HeartRate>, activity: Option<ActivityDetails>, mouseIdleSeconds: int,
                             now: int, hours: int, day: int) returns (r: AvailabilityStatus)
    ensures r == Availability(heartRate, activity, mouseIdleSeconds, now, hours, day)
  {
    var timeInfo := CurrentTimeInfo(hours, day);
    var mouseIdleMinutes := IdleMinutes(mouseIdleSeconds);
    if activity.None? {
      return NoActivity;
    }
    var d := activity.value;
    var hrFresh := IsHeartRateDataFresh(heartRate, now, DefaultStalenessMinutes);
    var hrValue := HrValue(heartRate);
    if hrValue.Some? && hrValue.value < 60 && hrFresh && mouseIdleMinutes >= 20 {
      return Resting(hrValue.value, mouseIdleMinutes, timeInfo, d.activityType);
    }
    if hrFresh && hrValue.Some? {
      if hrValue.value >= 110 && mouseIdleMinutes >= 15 {
        return Exercising(hrValue.value, mouseIdleMinutes);
      }
      if hrValue.value >= 80 && hrValue.value < 110 && mouseIdleMinutes >= 20 {
        return WalkingOut(hrValue.value, mouseIdleMinutes);
      }
    }
    if mouseIdleMinutes > 45 {
      return LongAway(d, mouseIdleMinutes);
    }
    if mouseIdleMinutes > 20 {
      return ShortAway(d, mouseIdleMinutes, hrFresh, hrValue);
    }
    r := RespondToActivity(d, mouseIdleMinutes, mouseIdleSeconds);
  }
}
