/**
 * The records and enumerations of app/lib/activityUtils.ts: activity categories and
 * sub-categories, the classifier's result, the predictor's result and the heart-rate snapshot.
 */
module Activity {
  import opened Wrappers

  datatype ActivityType =
    | Gaming
    | Working
    | Learning
    | Entertainment
    | Social
    | AiInteraction
    | Browsing
    | Meeting
    | NoteTaking
    | Planning
    | SystemTask
    | Idle
    | Unknown

  datatype ActivitySubType =
    | GamingIntense | GamingCasual | GamingStrategy
    | CodingActive | CodingDebugging | WritingDocs | DesigningUiux | ProjectManagement
    | AndroidDevelopment | WebDevelopment
    | LearningVideoCourse | LearningReadingDocs | LearningCodingPractice
    | WatchingMovieSeries | WatchingShortVideo | ListeningMusic | ReadingNovelComic
    | ChattingIm | BrowsingSocialMedia | VoiceVideoCall
    | AiChattingAssistant | AiCodeGeneration | AiImageGeneration
    | BrowsingNews | BrowsingForum | BrowsingShopping | BrowsingResearch | BrowsingGeneral
    | MeetingOnlineConference | MeetingPresenting
    | NoteTakingQuick | NoteTakingOrganizing
    | PlanningTaskManagement | PlanningBrainstorming
    | SystemCompiling | SystemRendering | SystemUpdating

  /** The "high" | "medium" | "low" hints of focus and intensity. */
  datatype Level = High | Medium | Low

  /** The classifier's result. `rawTitle` and `rawProcess` are the arguments as given. */
  datatype ActivityDetails = ActivityDetails(
    activityType: ActivityType,
    subType: Option<ActivitySubType>,
    description: string,
    rawTitle: string,
    rawProcess: string,
    focusLevel: Option<Level>,
    intensity: Option<Level>)

  /** The predictor's result; every branch of the original fills in a suggestion. */
  datatype AvailabilityStatus = AvailabilityStatus(
    status: string,
    reason: string,
    color: string,
    suggestion: Option<string>)

  /** The fields of a heart-rate record that the core reads: `last_non_zero_hr`, `timestamp`
      (epoch milliseconds) and `is_watch_off`. */
  datatype HeartRate = HeartRate(lastNonZeroHr: int, timestamp: int, isWatchOff: bool)
}
