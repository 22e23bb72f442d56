/**
 * A worked input for getActivityDetails: the rule declared first ranks as high as any rule, so
 * whenever it matches it wins outright.
 */
module Scenarios {
  import opened Wrappers
  import opened Activity
  import opened Text
  import opened Matching
  import opened Rules
  import opened Classifier
  import opened ClassifierFacts

  // ---------------------------------------------------------------------------------------------
  // The top of the table

  /** A bound on priorities survives concatenation. */
  lemma JoinAtMost(a: seq<Rule>, b: seq<Rule>, top: int)
    requires AllAtMost(a, top) && AllAtMost(b, top)
    ensures AllAtMost(a + b, top)
  {
    forall k | 0 <= k < |a + b| ensures (a + b)[k].priority <= top {
      if k >= |a| {
        assert (a + b)[k] == b[k - |a|];
      }
    }
  }

  lemma GroupRanks()
    ensures AllAtMost(GameRules, 100) && AllAtMost(DevelopmentRules, 95) && AllAtMost(BrowserRules, 78)
    ensures AllAtMost(MessagingRules, 77) && AllAtMost(MediaRules, 62) && AllAtMost(NoteRules, 71)
    ensures AllAtMost(SystemRules, 85)
  {
  }

  /** No rule ranks above 100. */
  lemma TopRank()
    ensures AllAtMost(ActivityRules, 100)
  {
    GroupRanks();
    var s := GameRules + DevelopmentRules;
    JoinAtMost(GameRules, DevelopmentRules, 100);
    JoinAtMost(s, BrowserRules, 100);
    JoinAtMost(s + BrowserRules, MessagingRules, 100);
    JoinAtMost(s + BrowserRules + MessagingRules, MediaRules, 100);
    JoinAtMost(s + BrowserRules + MessagingRules + MediaRules, NoteRules, 100);
    JoinAtMost(s + BrowserRules + MessagingRules + MediaRules + NoteRules, SystemRules, 100);
  }

  /** The table opens with Wuthering Waves. */
  lemma HeadOfTable()
    ensures |ActivityRules| == 56 && ActivityRules[0] == WutheringWaves
  {
  }

  // ---------------------------------------------------------------------------------------------
  // Wuthering Waves

  /** Wuthering Waves' description: a game is never refined by keywords, and "玩鸣潮" holds no
      placeholder. */
  lemma WutheringWavesDescribed(t: string, windowTitle: string, processName: string)
    ensures Describe(WutheringWaves, t, windowTitle, processName) ==
      ActivityDetails(Gaming, Some(GamingIntense), "玩鸣潮", windowTitle, processName, None, Some(High))
  {
    MissingFirstCharacter("玩鸣潮", "{title}");
    MissingFirstCharacter("玩鸣潮", "{process}");
    ReplaceFirstSpec("玩鸣潮", "{title}", windowTitle);
    ReplaceFirstSpec("玩鸣潮", "{process}", processName);
  }

  /** Whatever the window title, the Wuthering Waves process is GAMING / GAMING_INTENSE,
      "玩鸣潮": its rule is declared first and ranks 100, which no rule exceeds. */
  lemma WutheringWavesWins(windowTitle: string, processName: string)
    requires ExtractProcessName(processName) == "wutheringwaves.exe"
    ensures Classify(windowTitle, processName) ==
      ActivityDetails(Gaming, Some(GamingIntense), "玩鸣潮", windowTitle, processName, None, Some(High))
  {
    var t, p := Normalize(windowTitle), ExtractProcessName(processName);
    HeadOfTable();
    TopRank();
    assert OccursAt("wutheringwaves.exe", ToLower(p), 0);
    assert Test(WutheringWaves.processMatchers[0], p);
    assert IsBest(ActivityRules, t, p, 0, |ActivityRules|);
    ClassifyPicksBest(ActivityRules, windowTitle, processName, 0);
    WutheringWavesDescribed(t, windowTitle, processName);
  }
}
