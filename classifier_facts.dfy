/**
 * What the rule table of app/lib/activityUtils.ts implies for getActivityDetails as a whole.
 */
module ClassifierFacts {
  import opened Wrappers
  import opened Activity
  import opened Text
  import opened Matching
  import opened Rules
  import opened Refine
  import opened Classifier

  /** The sub-categories that no rule and no refinement assigns. */
  predicate NeverAssigned(s: ActivitySubType) {
    match s
    case GamingStrategy | CodingDebugging | ProjectManagement | WebDevelopment | LearningCodingPractice
       | ReadingNovelComic | AiCodeGeneration | AiImageGeneration | BrowsingForum | BrowsingResearch
       | MeetingPresenting | PlanningBrainstorming | SystemRendering | SystemUpdating => true
    case _ => false
  }

  /** A table entry names a real category, one of the assigned sub-categories, and a non-empty
      description that does not open with a placeholder; only games, development tools and
      technical reading rank 78 or higher. */
  predicate WellFormed(r: Rule) {
    && r.activityType != Idle && r.activityType != Unknown
    && r.activitySubType.Some? && !NeverAssigned(r.activitySubType.value)
    && r.descriptionTemplate != [] && r.descriptionTemplate[0] != '{'
    && (r.priority >= 78 ==> r.activityType in {Gaming, Working, Learning})
  }

  predicate AllWellFormed(rs: seq<Rule>) {
    forall k :: 0 <= k < |rs| ==> WellFormed(rs[k])
  }

  predicate AllAtMost(rs: seq<Rule>, top: int) {
    forall k :: 0 <= k < |rs| ==> rs[k].priority <= top
  }

  /** Well-formedness survives concatenation. */
  lemma JoinWellFormed(a: seq<Rule>, b: seq<Rule>)
    requires AllWellFormed(a) && AllWellFormed(b)
    ensures AllWellFormed(a + b)
  {
    forall k | 0 <= k < |a + b| ensures WellFormed((a + b)[k]) {
      if k >= |a| {
        assert (a + b)[k] == b[k - |a|];
      }
    }
  }

  /** Every entry of the table is well formed. */
  lemma TableIsWellFormed()
    ensures AllWellFormed(ActivityRules)
  {
    GamesAreWellFormed();
    DevelopmentIsWellFormed();
    BrowsersAreWellFormed();
    MessagingIsWellFormed();
    MediaIsWellFormed();
    NotesAreWellFormed();
    SystemIsWellFormed();
    JoinWellFormed(GameRules, DevelopmentRules);
    JoinWellFormed(GameRules + DevelopmentRules, BrowserRules);
    JoinWellFormed(GameRules + DevelopmentRules + BrowserRules, MessagingRules);
    JoinWellFormed(GameRules + DevelopmentRules + BrowserRules + MessagingRules, MediaRules);
    JoinWellFormed(GameRules + DevelopmentRules + BrowserRules + MessagingRules + MediaRules, NoteRules);
    JoinWellFormed(GameRules + DevelopmentRules + BrowserRules + MessagingRules + MediaRules + NoteRules,
                   SystemRules);
  }

  lemma GamesAreWellFormed() ensures AllWellFormed(GameRules) {}
  lemma DevelopmentIsWellFormed() ensures AllWellFormed(DevelopmentRules) {}
  lemma BrowsersAreWellFormed() ensures AllWellFormed(BrowserRules) {}
  lemma MessagingIsWellFormed() ensures AllWellFormed(MessagingRules) {}
  lemma MediaIsWellFormed() ensures AllWellFormed(MediaRules) {}
  lemma NotesAreWellFormed() ensures AllWellFormed(NoteRules) {}
  lemma SystemIsWellFormed() ensures AllWellFormed(SystemRules) {}

  /** Where the rules the lemmas single out sit in the table. */
  lemma CompilingPosition()
    ensures |ActivityRules| == 56 && ActivityRules[CompilingIndex] == Compiling
  {
    assert |SystemRules| == 3;
  }

  lemma TechReadingPosition()
    ensures 0 <= TechReadingIndex < |ActivityRules| && ActivityRules[TechReadingIndex] == TechReading
  {
    assert ActivityRules[TechReadingIndex] == (GameRules + DevelopmentRules + BrowserRules)[TechReadingIndex];
  }

  // ---------------------------------------------------------------------------------------------
  // Consequences for getActivityDetails

  /** The compile rule's process pattern accepts every process, so it matches every input. */
  lemma CompilingMatchesEverything(t: string, p: string)
    ensures Matches(Compiling, t, p)
  {
    assert Test(Compiling.processMatchers[0], p);
  }

  /** Some rule always matches, so the best one exists. */
  lemma SomeRuleAlwaysWins(t: string, p: string)
    ensures BestAmong(ActivityRules, t, p, |ActivityRules|).Some?
  {
    CompilingMatchesEverything(t, p);
    CompilingPosition();
  }

  /** The winner ranks at least as high as the compile rule (30), so the Steam rule (10), the
      browser catch-all (5) and the file explorer (20) never win. */
  lemma WinnerRanksAtLeast30(t: string, p: string, b: int)
    requires IsBest(ActivityRules, t, p, b, |ActivityRules|)
    ensures ActivityRules[b].priority >= 30
    ensures b != SteamGameIndex && b != AnyPageIndex && b != ExplorerIndex
  {
    CompilingMatchesEverything(t, p);
    CompilingPosition();
    LowRanks();
  }

  lemma LowRanks()
    ensures |ActivityRules| == 56
    ensures ActivityRules[SteamGameIndex].priority == 10
    ensures ActivityRules[AnyPageIndex].priority == 5
    ensures ActivityRules[ExplorerIndex].priority == 20
  {
    assert |SystemRules| == 3;
    assert ActivityRules[AnyPageIndex] == (GameRules + DevelopmentRules + BrowserRules)[AnyPageIndex];
  }

  /** The best rule is what getActivityDetails describes. */
  lemma ClassifyPicksBest(decl: seq<Rule>, w: string, p: string, b: int)
    requires IsBest(decl, Normalize(w), ExtractProcessName(p), b, |decl|)
    ensures ClassifyWith(decl, w, p) == Describe(decl[b], Normalize(w), w, p)
  {
    var t, q := Normalize(w), ExtractProcessName(p);
    var best := BestAmong(decl, t, q, |decl|);
    BestIsUnique(decl, t, q, best.value, b, |decl|);
  }

  /** getActivityDetails never answers UNKNOWN or IDLE; it always names a sub-category, one
      that some rule or refinement assigns, gives a non-empty description, and hands back the raw
      arguments. */
  lemma ClassifyNeverUnknown(windowTitle: string, processName: string)
    ensures var d := Classify(windowTitle, processName);
      && d.activityType != Unknown && d.activityType != Idle
      && d.subType.Some? && !NeverAssigned(d.subType.value)
      && d.description != []
      && d.rawTitle == windowTitle && d.rawProcess == processName
  {
    var t, p := Normalize(windowTitle), ExtractProcessName(processName);
    SomeRuleAlwaysWins(t, p);
    var b := BestAmong(ActivityRules, t, p, |ActivityRules|).value;
    TableIsWellFormed();
    DescribeWellFormed(ActivityRules[b], t, windowTitle, processName);
  }

  /** Describing a well-formed rule gives a real category, an assigned sub-category and a
      non-empty description, whether or not the keywords refine it. */
  lemma DescribeWellFormed(rule: Rule, t: string, windowTitle: string, processName: string)
    requires WellFormed(rule)
    ensures var d := Describe(rule, t, windowTitle, processName);
      && d.activityType != Unknown && d.activityType != Idle
      && d.subType.Some? && !NeverAssigned(d.subType.value)
      && d.description != []
  {
    RefinementKinds(rule.activityType, rule.activitySubType, t);
    DescriptionNotEmpty(rule, t, windowTitle, processName);
  }

  /** A template that does not open with a placeholder keeps its first character through both
      `replace` calls, and so do the refinements' descriptions. */
  lemma DescriptionNotEmpty(rule: Rule, t: string, windowTitle: string, processName: string)
    requires rule.descriptionTemplate != [] && rule.descriptionTemplate[0] != '{'
    ensures Describe(rule, t, windowTitle, processName).description != []
  {
    var f := RefineByKeywords(rule.activityType, rule.activitySubType, t);
    var template := if f.description != "" then f.description else rule.descriptionTemplate;
    assert template != [] && template[0] != '{';
    ReplaceFirstKeepsHead(template, "{title}", windowTitle);
    ReplaceFirstKeepsHead(ReplaceFirst(template, "{title}", windowTitle), "{process}", processName);
  }

  /** A well-formed rule ranked 78 or more is a game, a development tool or technical reading,
      none of which the keywords refine, so the description keeps that category. */
  lemma HighRankKeepsCategory(rule: Rule, t: string, windowTitle: string, processName: string)
    requires WellFormed(rule) && rule.priority >= 78
    ensures Describe(rule, t, windowTitle, processName).activityType in {Gaming, Working, Learning}
  {
  }

  /** The compile rule's description. */
  lemma CompilingDescribed(t: string, windowTitle: string, processName: string)
    ensures Describe(Compiling, t, windowTitle, processName) ==
      ActivityDetails(SystemTask, Some(SystemCompiling), "程序编译中", windowTitle, processName, Some(Low), None)
  {
    MissingFirstCharacter("程序编译中", "{title}");
    MissingFirstCharacter("程序编译中", "{process}");
    ReplaceFirstSpec("程序编译中", "{title}", windowTitle);
    ReplaceFirstSpec("程序编译中", "{process}", processName);
  }

  /** When no rule ranked 30 or more other than the compile rule matches, the activity is the
      compile rule's SYSTEM_TASK / "程序编译中". */
  lemma CompileFallback(windowTitle: string, processName: string)
    requires forall j :: 0 <= j < |ActivityRules| && j != CompilingIndex && ActivityRules[j].priority >= 30 ==>
      !Matches(ActivityRules[j], Normalize(windowTitle), ExtractProcessName(processName))
    ensures Classify(windowTitle, processName) ==
      ActivityDetails(SystemTask, Some(SystemCompiling), "程序编译中", windowTitle, processName, Some(Low), None)
  {
    var t, p := Normalize(windowTitle), ExtractProcessName(processName);
    CompilingMatchesEverything(t, p);
    CompilingPosition();
    assert IsBest(ActivityRules, t, p, CompilingIndex, |ActivityRules|);
    ClassifyPicksBest(ActivityRules, windowTitle, processName, CompilingIndex);
    CompilingDescribed(t, windowTitle, processName);
  }

  /** A browser process matches every browser rule through its process pattern alone, and the
      highest of them, technical reading (78), outranks every title-only browser rule. So a
      browser window is always gaming, working or learning: the AI, video, course, social,
      shopping, catch-all and Google Meet rules never win for a browser. */
  lemma BrowserWindowsAreGamingWorkingOrLearning(windowTitle: string, processName: string)
    requires AnyTest(Browsers, ExtractProcessName(processName))
    ensures var best := BestAmong(ActivityRules, Normalize(windowTitle), ExtractProcessName(processName), |ActivityRules|);
      best.Some? && ActivityRules[best.value].priority >= 78
    ensures Classify(windowTitle, processName).activityType in {Gaming, Working, Learning}
  {
    var t, p := Normalize(windowTitle), ExtractProcessName(processName);
    TechReadingPosition();
    assert Matches(TechReading, t, p);
    SomeRuleAlwaysWins(t, p);
    var b := BestAmong(ActivityRules, t, p, |ActivityRules|).value;
    TableIsWellFormed();
    ClassifyPicksBest(ActivityRules, windowTitle, processName, b);
    HighRankKeepsCategory(ActivityRules[b], t, windowTitle, processName);
  }
}
