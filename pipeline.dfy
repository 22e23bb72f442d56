/**
 * The two halves of the status page chained together: the window is classified by
 * getActivityDetails, and the result is handed to predictAvailability (app/lib/activityUtils.ts).
 */
module Pipeline {
  import opened Wrappers
  import opened Activity
  import opened Classifier
  import opened ClassifierFacts
  import opened Predictor
  import opened PredictorFacts

  /** Whatever the window, the heart rate, the idle time and the clock, the answer for a
      classified window has a status, a reason, a color and a suggestion: the classifier always
      gives a non-empty description, and every branch of the predictor fills its reason from that
      description or from its own text. */
  lemma ClassifiedAnswerFilled(windowTitle: string, processName: string, hr: Option<HeartRate>, seconds: int,
                               now: int, hours: int, day: int)
    ensures var r := Availability(hr, Some(Classify(windowTitle, processName)), seconds, now, hours, day);
      && r.status != [] && r.reason != [] && r.color != []
      && r.suggestion.Some? && r.suggestion.value != []
  {
    var d := Classify(windowTitle, processName);
    ClassifyNeverUnknown(windowTitle, processName);
    EveryAnswerFilled(hr, Some(d), seconds, now, hours, day);
  }
}
