# Activity and availability model

A Dafny model of the decision logic of a personal status page: `app/lib/activityUtils.ts` and
`app/lib/statusUtils.ts`.

- **getActivityDetails** classifies the foreground window by its title and process name. The
  title and the process name are cleaned first. A static table of 56 rules is sorted once, in
  place, by descending priority. The first rule whose process patterns or title patterns match
  wins. A keyword pass (`refineByKeywords`) may then reclassify browsing pages, short videos and
  films.
- **predictAvailability** turns the heart rate, the classified activity and the mouse idle time
  into a status, a reason, a color and a suggestion. It is an early-return cascade (sleep,
  exercise, away), then a switch on the activity type.
- **getAliveStatus** gives a one-line verdict on a heart-rate record.

Files, one module each:

- `wrappers.dfy`: `Option`.
- `activity.dfy`: the enumerations and records.
- `text.dfy`: cleaning (`normalizeText`, `extractProcessName`) and the string operations the
  narratives use.
- `matching.dfy`: the regular expressions, as a small matcher datatype.
- `rules.dfy`: the rule table, copied entry by entry, and `matches`.
- `refine.dfy`: `refineByKeywords`.
- `sorting.dfy`: the in-place stable sort of the table.
- `classifier.dfy`: `getActivityDetails`. This covers the class that holds the sorted array and
  the specification of its result over the table in declaration order.
- `classifier_facts.dfy`, `scenarios.dfy`: what the table implies for classification.
- `predictor.dfy`, `predictor_facts.dfy`: `predictAvailability` and its properties.
- `pipeline.dfy`: the classifier's result handed to the predictor.
- `status.dfy`: `getAliveStatus`.

How the classification is specified:

- `Classifier.Classify` describes the best matching rule of the declaration order. That rule has
  the highest priority, and is the earliest declared among equal priorities.
- `Sorting.SortByPriority` is an insertion sort by adjacent swaps. It is proved to be a stable
  sort.
- `Classifier.FirstMatchIsBest` proves that the first match in any stable sort is that rule.
- The scanning loop of `GetActivityDetails` is proved to return `Classify`.

How the predictor is modelled:

- The per-type branches overwrite `let` variables step by step. Each is a method proved equal to a
  function in which the last assignment that applies comes first.
- `PredictAvailability` is the cascade as statements, proved equal to the function
  `Availability`. The lemmas about the cascade are stated on `Availability`.

Consequences of the table and the cascade, proved below:

- **Fallback rule.** The compile rule's process pattern is `/.*/`, so every input matches a rule
  of priority 30 or more. The UNKNOWN result is unreachable. So are the file explorer (20), Steam
  (10) and browser catch-all (5) rules.
- **Browser windows.** Every browser rule matches a browser process through its process patterns
  alone, and technical reading (78) is the highest of them. So a browser window is always
  classified as gaming, working or learning. The AI, video, course, social, shopping, catch-all
  and Google Meet rules never win for a browser process.
- **Chinese keywords.** The keyword groups use JavaScript's ASCII `\b`. A Chinese keyword
  therefore refines a title only when ASCII word characters touch both of its ends: "rust教程2024"
  is a tutorial, "教程" alone is not.
- **Nap band.** "可能在小憩" is answered only for fresh rates of 60 to 64, though the check
  reads `< 65`. Lower fresh rates with the same idle time were already answered by the sleep
  branch.
- **Bored idling.** The idle branch's "非常无聊" (over 40 minutes) and "好无聊" (over 30) are
  never answered, because every idle time over 20 minutes has already been answered.
- **Filled answers.** Every classified window gets a non-empty description, because no template
  opens with a placeholder. So whatever the heart rate, idle time and clock, the predicted answer
  for it has a status, a reason, a color and a suggestion.
- **Day of the week.** It changes nothing: `isWeekend` and `isTypicalWorkTime` are computed and
  never read.
- **Genshin rule.** It carries the description "玩鸣潮", the Wuthering Waves description, and
  also matches "鸣潮" in a title. The table keeps both as written.

## Model

| member | source | states |
|---|---|---|
| Text.Normalize | app/lib/activityUtils.ts:107-110 | the cleaned text holds no zero-width character (U+200B..U+200D, U+FEFF), no upper-case ASCII letter, no full-width ASCII form and no ideographic space |
| Text.NormalizeIdempotent | app/lib/activityUtils.ts:107-110 | cleaning twice is cleaning once |
| Text.NormalIsFixed | app/lib/activityUtils.ts:107-110 | a string that is already clean comes back unchanged |
| Text.ExtractProcessName | app/lib/activityUtils.ts:112-116 | the process base name is clean and holds no '/' or '\\' |
| Text.LastSegment | app/lib/activityUtils.ts:114-115 | the last piece is a suffix without separators, preceded by a separator unless it is the whole string |
| Text.LastSegmentAfter | app/lib/activityUtils.ts:114-115 | the last piece is exactly the text after the last separator (possibly empty) |
| Text.LastSegmentWhole | app/lib/activityUtils.ts:114-115 | with no separator the last piece is the whole string |
| Text.IndexFrom | app/lib/activityUtils.ts:816 | `indexOf`: the first occurrence at or after the start, or -1 when there is none |
| Text.ReplaceFirst | app/lib/activityUtils.ts:816 | `replace` with a string pattern leaves a string without an occurrence unchanged, and otherwise changes its length by the replacement's length less the pattern's |
| Text.ReplaceFirstKeepsHead | app/lib/activityUtils.ts:816 | when the string does not start with the pattern's first character, `replace` keeps that first character, so the result is not empty |
| Text.ReplaceFirstSpec | app/lib/activityUtils.ts:816 | `replace` with a string pattern: unchanged without an occurrence, otherwise only the first occurrence replaced and the text around it kept |
| Text.Trim | app/lib/activityUtils.ts:978 | the trimmed text is a slice of the input with only whitespace cut off before and after it, and has no whitespace at either end |
| Text.NatToString | app/lib/activityUtils.ts:866 | a number renders as a non-empty string of decimal digits |
| Text.NatToStringRoundTrip | app/lib/activityUtils.ts:866 | the decimal rendering used in `${...}` reads back as the number rendered |
| Matching.AnyTestIsSome | app/lib/activityUtils.ts:120-121 | `some` over a matcher list accepts exactly when one matcher accepts |
| Matching.TestIgnoresCase | app/lib/activityUtils.ts:192-193 | an `/i` pattern accepts a string and its lower-cased form alike |
| Matching.EverythingAcceptsAll | app/lib/activityUtils.ts:744 | `/.*/` accepts every string |
| Rules.Matches | app/lib/activityUtils.ts:119-123 | a rule with no process and no title patterns never matches |
| Rules.MatchesIsOr | app/lib/activityUtils.ts:119-123 | a rule matches exactly when some process matcher accepts the process base name or some title matcher accepts the cleaned title |
| Refine.RefineByKeywords | app/lib/activityUtils.ts:129-142 | a category other than browsing, short video or film comes back unchanged with an empty description; an empty description always keeps the base category |
| Refine.LearningComesFirst | app/lib/activityUtils.ts:144-153 | a refinable title with a learning keyword is "在学习" whatever else it mentions |
| Refine.FirstGroupDecides | app/lib/activityUtils.ts:155-186 | without a learning keyword, news is tried before shopping and shopping before films (films only on entertainment), the first group that fires gives the result, and with none the base category stays unrefined |
| Refine.RefinedIff | app/lib/activityUtils.ts:129-187 | a refinement happens exactly when the category is refinable and the learning, news or shopping group fires, or the film group on entertainment |
| Refine.RefinementKinds | app/lib/activityUtils.ts:144-183 | a refinement lands in learning, browsing or entertainment with one of four sub-categories |
| Refine.RefinedCategory | app/lib/activityUtils.ts:155-183 | only entertainment becomes a film; news keeps the base category |
| Refine.ChineseKeywordBetweenAsciiFires | app/lib/activityUtils.ts:145 | "rust教程2024" refines to "在学习" |
| Refine.ChineseKeywordAloneIsMissed | app/lib/activityUtils.ts:145 | "教程" alone does not refine: ASCII `\b` finds no boundary around it |
| Sorting.Insert | app/lib/activityUtils.ts:766 | one insertion step extends the stably sorted prefix of the array by one element |
| Sorting.SortByPriority | app/lib/activityUtils.ts:766 | the array is reordered in place into a stable sort of its old contents by descending priority |
| Classifier.BestAmong | app/lib/activityUtils.ts:766-800 | the best match among the first n declarations: none exactly when no rule matches, otherwise a matching rule that no matching rule outranks or precedes at equal priority |
| Classifier.BestIsUnique | app/lib/activityUtils.ts:766-800 | the best matching rule is unique |
| Classifier.FirstMatchIsBest | app/lib/activityUtils.ts:766-800 | in any stable sort by descending priority, the first matching rule is the best matching rule of the declaration order, so a matching higher-priority rule is never skipped |
| Classifier.NoMatchInSortedTable | app/lib/activityUtils.ts:799-835 | when no sorted rule matches, no declared rule matches |
| Classifier.Describe | app/lib/activityUtils.ts:803-826 | the result carries the raw arguments; its category and sub-category are the refinement's when the refinement has a description and the rule's otherwise; focus and intensity come from the rule even after a refinement |
| Classifier.DescribeDescription | app/lib/activityUtils.ts:808-816 | a refinement's description is the result's description as is; without one, a template with no placeholder is the description as is |
| Classifier.FirstMatchClassifies | app/lib/activityUtils.ts:799-826 | the first match of the sorted table is what the declaration order classifies as |
| Classifier.NoMatchClassifies | app/lib/activityUtils.ts:829-835 | with no match in the sorted table the result is UNKNOWN / "进行未知活动" |
| Classifier.ActivityClassifier.constructor | app/lib/activityUtils.ts:189-766 | the table is loaded in declaration order and sorted in place, and the sort is a stable sort of the declared table |
| Classifier.ActivityClassifier.GetActivityDetails | app/lib/activityUtils.ts:790-836 | the scan of the sorted table returns the description of the best matching declared rule, or UNKNOWN when none matches |
| ClassifierFacts.TableIsWellFormed | app/lib/activityUtils.ts:189-763 | every entry names a real category, an assigned sub-category and a non-empty description that does not open with a placeholder, and only games, development tools and technical reading rank 78 or more |
| ClassifierFacts.CompilingMatchesEverything | app/lib/activityUtils.ts:743-752 | the compile rule matches every input |
| ClassifierFacts.SomeRuleAlwaysWins | app/lib/activityUtils.ts:743-752 | some rule always matches, so a best rule always exists |
| ClassifierFacts.WinnerRanksAtLeast30 | app/lib/activityUtils.ts:301-310 | the winning rule ranks 30 or more, so the Steam (10), browser catch-all (5) and explorer (20) rules never win |
| ClassifierFacts.ClassifyPicksBest | app/lib/activityUtils.ts:799-826 | the best matching rule is the one described |
| ClassifierFacts.ClassifyNeverUnknown | app/lib/activityUtils.ts:829-835 | the result is never UNKNOWN or IDLE, always names an assigned sub-category, has a non-empty description, and hands back the raw arguments |
| ClassifierFacts.DescribeWellFormed | app/lib/activityUtils.ts:808-826 | describing a well-formed rule gives a real category, an assigned sub-category and a non-empty description, refined or not |
| ClassifierFacts.DescriptionNotEmpty | app/lib/activityUtils.ts:808-816 | a template that does not open with a placeholder, or a refinement's description, leaves a non-empty description after both `replace` calls |
| ClassifierFacts.HighRankKeepsCategory | app/lib/activityUtils.ts:808-814 | a rule ranked 78 or more keeps its gaming, working or learning category, since the keywords do not refine it |
| ClassifierFacts.LowRanks | app/lib/activityUtils.ts:301-310 | the Steam rule ranks 10, the browser catch-all 5 and the file explorer 20 |
| ClassifierFacts.CompilingDescribed | app/lib/activityUtils.ts:743-752 | the compile rule's description is SYSTEM_TASK / SYSTEM_COMPILING / "程序编译中" with low focus |
| ClassifierFacts.CompileFallback | app/lib/activityUtils.ts:743-752 | when no other rule of priority 30 or more matches, the result is SYSTEM_TASK / SYSTEM_COMPILING / "程序编译中" |
| ClassifierFacts.BrowserWindowsAreGamingWorkingOrLearning | app/lib/activityUtils.ts:486-494 | for a browser process the winning rule ranks 78 or more, so every browser rule below technical reading (AI, video, course, social, shopping, catch-all, Google Meet) loses, and the window is classified as gaming, working or learning |
| Scenarios.TopRank | app/lib/activityUtils.ts:189-763 | no rule ranks above 100 |
| Scenarios.HeadOfTable | app/lib/activityUtils.ts:189-200 | the table has 56 rules and opens with Wuthering Waves |
| Scenarios.WutheringWavesDescribed | app/lib/activityUtils.ts:190-200 | the Wuthering Waves description, with no placeholder to fill |
| Scenarios.WutheringWavesWins | app/lib/activityUtils.ts:190-200 | the Wuthering Waves process is GAMING / GAMING_INTENSE / "玩鸣潮" with high intensity, whatever the title |
| Predictor.CurrentTimeInfo | app/lib/activityUtils.ts:768-779 | sleep time excludes lunch and work time, and work time excludes the weekend |
| Predictor.IdleMinutes | app/lib/activityUtils.ts:847 | idle minutes are the floor of seconds over 60 |
| Predictor.HrValue | app/lib/activityUtils.ts:859 | a rate is present exactly when there is a record with a positive rate |
| Predictor.FirstPiece | app/lib/activityUtils.ts:978 | `split(...)[0]`: the prefix before the first separator, or the whole title |
| Predictor.GameName | app/lib/activityUtils.ts:978-981 | the game name shown is at most 30 characters and never mentions "exe"; it is the trimmed first piece of the title whenever that piece is at most 30 characters without "exe", and "某个游戏" otherwise |
| Predictor.FilmTitle | app/lib/activityUtils.ts:1085-1093 | the film title shown is at most 30 characters and never names PotPlayer or VLC; it is the trimmed first piece of the title whenever that piece is at most 30 characters and names neither player, and "一部影片" otherwise |
| Predictor.Truncated | app/lib/activityUtils.ts:1152-1154 | a page title is at most 40 characters; short titles are kept; long ones are their first 37 characters and "..." |
| Predictor.PageShown | app/lib/activityUtils.ts:1152-1157 | the page named is at most 40 characters: "一个网页" exactly when the new-tab pattern fires on the truncated title, the truncated title otherwise |
| Predictor.GamingBranch | app/lib/activityUtils.ts:976-1000 | the gaming narrative equals its precedence-form specification |
| Predictor.WorkingBranch | app/lib/activityUtils.ts:1002-1028 | the step-by-step overwrites give idle 6-15 minutes precedence over debugging, and debugging over high focus |
| Predictor.LearningBranch | app/lib/activityUtils.ts:1030-1059 | the learning narrative equals its precedence-form specification |
| Predictor.MeetingBranch | app/lib/activityUtils.ts:1061-1076 | presenting overrides the meeting defaults |
| Predictor.EntertainmentBranch | app/lib/activityUtils.ts:1078-1110 | the entertainment narrative equals its precedence-form specification |
| Predictor.SocialBranch | app/lib/activityUtils.ts:1112-1132 | the social narrative, with the typing hint appended for 1 to 15 idle seconds |
| Predictor.AiInteractionBranch | app/lib/activityUtils.ts:1134-1147 | a "studio" description overrides the default AI narrative |
| Predictor.BrowsingBranch | app/lib/activityUtils.ts:1149-1187 | more than 8 idle minutes overrides every sub-category except research |
| Predictor.RespondToActivity | app/lib/activityUtils.ts:975-1260 | the switch on the activity type answers as its specification |
| Predictor.PredictAvailability | app/lib/activityUtils.ts:841-1261 | the early-return cascade returns `Availability` |
| PredictorFacts.NoActivityIsDazed | app/lib/activityUtils.ts:849-856 | no activity gives "有点懵" whatever the other inputs |
| PredictorFacts.SleepByHour | app/lib/activityUtils.ts:863-886 | a fresh rate under 60 with 20 or more idle minutes gives "睡着了" from 22:00 to 07:00, "午休中" from 12:00 to 14:00 unless working, and "在休息" otherwise |
| PredictorFacts.ExerciseBands | app/lib/activityUtils.ts:889-915 | a fresh rate of 110 or more with 15 or more idle minutes gives "运动中" from 140, "在跑步" from 120, "可能出去了" below |
| PredictorFacts.WalkingOutBand | app/lib/activityUtils.ts:916-923 | a fresh rate of 80 to 109 with 20 or more idle minutes gives "可能外出了" |
| PredictorFacts.AwayBands | app/lib/activityUtils.ts:925-972 | when no heart-rate branch applied, more than 45 idle minutes gives "似乎出门了" and 21 to 45 "可能离开了" ("可能在小憩" for a fresh rate under 65), with "电脑工作中" instead for a compile or render in both bands |
| PredictorFacts.NapOnlyInBand | app/lib/activityUtils.ts:955-962 | "可能在小憩" exactly for a fresh rate of 60 to 64, 21 to 45 idle minutes, and no compile or render |
| PredictorFacts.BoredomIsUnreachable | app/lib/activityUtils.ts:1210-1228 | "非常无聊" and "好无聊" are never answered |
| PredictorFacts.EveryAnswerFilled | app/lib/activityUtils.ts:841-1261 | every answer has a status, a color and a suggestion, and a reason unless the activity's description is empty |
| Pipeline.ClassifiedAnswerFilled | app/lib/activityUtils.ts:790-1261 | for any classified window, heart rate, idle time and clock, the answer has a non-empty status, reason, color and suggestion |
| PredictorFacts.ActiveIntenseGaming | app/lib/activityUtils.ts:982-991 | an intense game with under 15 idle minutes gives "沉浸游戏中" whatever the heart rate |
| PredictorFacts.TypingHint | app/lib/activityUtils.ts:1123-1125 | a chat with 1 to 15 idle seconds stays a chat and its reason ends with the typing hint |
| PredictorFacts.DayIsIgnored | app/lib/activityUtils.ts:768-779 | the answer does not depend on the day of the week |
| Predictor.IsHeartRateDataFresh | app/lib/activityUtils.ts:781-785 | a fresh record exists and has a non-zero timestamp; a record stamped at or after the current time is fresh under any non-negative bound |
| PredictorFacts.FreshnessIsMonotone | app/lib/activityUtils.ts:781-785 | a record fresh now was fresh earlier and stays fresh under a looser bound |
| PredictorFacts.DefaultFreshness | app/lib/activityUtils.ts:781-785 | with the default bound a record is fresh for 300000 ms after a non-zero timestamp |
| Status.GetAliveStatus | app/lib/statusUtils.ts:3-27 | "未知" exactly when there is no record; a record that is not recent only ever gets "未知", "可能挂了" or "掉线了"; the color is one of the five the source uses |
| Status.BandsPartition | app/lib/statusUtils.ts:16-26 | every rate lies in exactly one band |
| Status.MissingRecordIsUnknown | app/lib/statusUtils.ts:4 | no record gives "未知" |
| Status.DeadBeforeOffline | app/lib/statusUtils.ts:8-10 | "可能挂了" exactly for a record with a zero rate or the watch off, recent or not |
| Status.OfflineIff | app/lib/statusUtils.ts:12-14 | "掉线了" exactly for a live record that is not recent |
| Status.RecentByBand | app/lib/statusUtils.ts:16-26 | a live recent record gets its band's text and no other band's |
| Status.BandTextOnlyWhenRecent | app/lib/statusUtils.ts:3-26 | a band's text is only answered for a live recent record in that band |
| Status.OnlyRateAndWatchMatter | app/lib/statusUtils.ts:3-26 | only presence, rate, watch flag and recency matter |
| Status.RedIsAlarming | app/lib/statusUtils.ts:3-26 | red exactly for a record with no rate or no watch, or a recent racing or faint rate |

## Left out

- Unicode tables: NFKC is modelled only as the folding of the full-width ASCII forms and the ideographic space. Lower-casing is modelled on ASCII letters only. Every other character is kept as it is.
- Regular expressions are a matcher datatype (substring, `\b`-bounded word, `a.*b`, `a.b`, everything). An alternation is expanded into one matcher per alternative.
- String lengths count code points; JavaScript counts UTF-16 code units. Titles with characters outside the Basic Multilingual Plane are cut or rejected at different places.
- Text.ReplaceFirst: `$` patterns in the replacement string are not interpreted.
- The clock: `Date.now()`, `getHours()` and `getDay()` are parameters.
- Numbers are integers: fractional idle seconds, fractional heart rates and NaN are not modelled.
- The callers of getAliveStatus and their freshness arithmetic on `last_timestamp` are not part of this model; `isRecentHR` is an input.
- Cursor example: "cursor.exe" with "main.ts - myproject" as WORKING / CODING_ACTIVE / "用 Cursor" is not proved as a concrete case. Excluding the thirteen rules ranked at or above it one by one is too costly for the verifier. The general first-match property (Classifier.FirstMatchIsBest) and the Wuthering Waves case are proved instead.
- The rule templates are proved only not to open with a placeholder, which keeps the description non-empty. No lemma states that they hold no `{title}` or `{process}` placeholder at all.
