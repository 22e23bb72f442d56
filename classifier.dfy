/**
 * getActivityDetails (app/lib/activityUtils.ts): clean the title and the process name, walk the
 * sorted rule table, and describe the first rule that matches; with no match the activity is
 * UNKNOWN.
 *
 * `Classify` states the result without the sorted table: the winner is the best matching rule of
 * the declaration order (highest priority, earliest declared among equals). The class
 * `ActivityClassifier` holds the table as the original keeps it, sorted in place once, and its
 * `GetActivityDetails` loop is proved to return `Classify`.
 */
module Classifier {
  import opened Wrappers
  import opened Activity
  import opened Text
  import opened Matching
  import opened Rules
  import opened Refine
  import opened Sorting

  // ---------------------------------------------------------------------------------------------
  // The winning rule

  /** Rule `b` matches, and no matching rule among the first `n` beats it: none has a higher
      priority and none of equal priority is declared before it. */
  predicate IsBest(decl: seq<Rule>, t: string, p: string, b: int, n: int)
    requires n <= |decl|
  {
    && 0 <= b < n && Matches(decl[b], t, p)
    && forall j :: 0 <= j < n && Matches(decl[j], t, p) ==>
         decl[j].priority < decl[b].priority || (decl[j].priority == decl[b].priority && b <= j)
  }

  /** The best matching rule among the first `n` declarations, or None when none matches. */
  function BestAmong(decl: seq<Rule>, t: string, p: string, n: nat): (r: Option<nat>)
    requires n <= |decl|
    ensures r.None? <==> forall j :: 0 <= j < n ==> !Matches(decl[j], t, p)
    ensures r.Some? ==> IsBest(decl, t, p, r.value, n)
  {
    if n == 0 then None
    else
      var prev := BestAmong(decl, t, p, n - 1);
      if !Matches(decl[n - 1], t, p) then prev
      else if prev.None? || decl[prev.value].priority < decl[n - 1].priority then Some(n - 1)
      else prev
  }

  /** There is only one best rule. */
  lemma BestIsUnique(decl: seq<Rule>, t: string, p: string, b1: int, b2: int, n: int)
    requires n <= |decl|
    requires IsBest(decl, t, p, b1, n) && IsBest(decl, t, p, b2, n)
    ensures b1 == b2
  {
  }

  /** In a stable sort by descending priority, the first rule that matches is the best matching
      rule of the declaration order. */
  lemma FirstMatchIsBest(sorted: seq<Rule>, decl: seq<Rule>, perm: seq<nat>, t: string, p: string, k: int)
    requires StableSortOf(sorted, decl, perm)
    requires 0 <= k < |sorted| && Matches(sorted[k], t, p)
    requires forall j :: 0 <= j < k ==> !Matches(sorted[j], t, p)
    ensures IsBest(decl, t, p, perm[k], |decl|)
  {
    forall j | 0 <= j < |decl| && Matches(decl[j], t, p)
      ensures decl[j].priority < decl[perm[k]].priority || (decl[j].priority == decl[perm[k]].priority && perm[k] <= j)
    {
      assert j in perm;
      var m :| 0 <= m < |perm| && perm[m] == j;
      assert sorted[m] == decl[j];
      if m != k {
        assert k < m;
      }
    }
  }

  /** When no rule of a stable sort matches, no declared rule does. */
  lemma NoMatchInSortedTable(sorted: seq<Rule>, decl: seq<Rule>, perm: seq<nat>, t: string, p: string)
    requires StableSortOf(sorted, decl, perm)
    requires forall j :: 0 <= j < |sorted| ==> !Matches(sorted[j], t, p)
    ensures forall j :: 0 <= j < |decl| ==> !Matches(decl[j], t, p)
  {
    forall j | 0 <= j < |decl| ensures !Matches(decl[j], t, p) {
      assert j in perm;
      var m :| 0 <= m < |perm| && perm[m] == j;
      assert sorted[m] == decl[j];
    }
  }

  // ---------------------------------------------------------------------------------------------
  // The result

  /** The result when no rule matches. */
  function Unclassified(rawTitle: string, rawProcess: string): ActivityDetails {
    ActivityDetails(Unknown, None, "进行未知活动", rawTitle, rawProcess, None, None)
  }

  /** The matched rule's result: its category and template, or the keyword refinement when that
      has a description; the placeholders `{title}` and `{process}` replaced by the raw
      arguments; focus and intensity hints always from the rule. */
  function Describe(rule: Rule, titleClean: string, rawTitle: string, rawProcess: string): (d: ActivityDetails)
    ensures d.rawTitle == rawTitle && d.rawProcess == rawProcess
    ensures d.focusLevel == rule.focusLevel && d.intensity == rule.intensity
    ensures var f := RefineByKeywords(rule.activityType, rule.activitySubType, titleClean);
      && (f.description == "" ==> d.activityType == rule.activityType && d.subType == rule.activitySubType)
      && (f.description != "" ==> d.activityType == f.activityType && d.subType == f.subType)
  {
    var refined := RefineByKeywords(rule.activityType, rule.activitySubType, titleClean);
    var activityType := if refined.description != "" then refined.activityType else rule.activityType;
    var subType := if refined.description != "" then refined.subType else rule.activitySubType;
    var template := if refined.description != "" then refined.description else rule.descriptionTemplate;
    var description := ReplaceFirst(ReplaceFirst(template, "{title}", rawTitle), "{process}", rawProcess);
    ActivityDetails(activityType, subType, description, rawTitle, rawProcess, rule.focusLevel, rule.intensity)
  }

  /** A refinement's description has no placeholder, so it is the description of the result;
      without a refinement, the rule's template with its placeholders filled in. */
  lemma DescribeDescription(rule: Rule, titleClean: string, rawTitle: string, rawProcess: string)
    ensures var f := RefineByKeywords(rule.activityType, rule.activitySubType, titleClean);
      var d := Describe(rule, titleClean, rawTitle, rawProcess);
      && (f.description != "" ==> d.description == f.description)
      && (f.description == "" && !Contains(rule.descriptionTemplate, "{title}") && !Contains(rule.descriptionTemplate, "{process}") ==>
            d.description == rule.descriptionTemplate)
  {
    var f := RefineByKeywords(rule.activityType, rule.activitySubType, titleClean);
    var template := if f.description != "" then f.description else rule.descriptionTemplate;
    if f.description != "" {
      assert f.description in {"在学习", "阅读新闻资讯", "网上购物", "看电影/追剧"};
      MissingFirstCharacter(template, "{title}");
      MissingFirstCharacter(template, "{process}");
    }
    ReplaceFirstSpec(template, "{title}", rawTitle);
    ReplaceFirstSpec(template, "{process}", rawProcess);
  }

  /** What getActivityDetails returns over a rule table given in declaration order. */
  function ClassifyWith(decl: seq<Rule>, windowTitle: string, processName: string): ActivityDetails {
    var titleClean := Normalize(windowTitle);
    var processBase := ExtractProcessName(processName);
    match BestAmong(decl, titleClean, processBase, |decl|)
    case None => Unclassified(windowTitle, processName)
    case Some(b) => Describe(decl[b], titleClean, windowTitle, processName)
  }

  /** What getActivityDetails returns for a window title and a process name. */
  function Classify(windowTitle: string, processName: string): ActivityDetails {
    ClassifyWith(ActivityRules, windowTitle, processName)
  }

  /** One more rule that does not match. */
  lemma NoMatchSoFar(rs: seq<Rule>, t: string, p: string, k: int)
    requires 0 <= k < |rs| && !Matches(rs[k], t, p)
    requires forall j :: 0 <= j < k ==> !Matches(rs[j], t, p)
    ensures forall j :: 0 <= j < k + 1 ==> !Matches(rs[j], t, p)
  {
  }

  /** The first match of a stable sort is what the declaration order classifies as. */
  lemma FirstMatchClassifies(sorted: seq<Rule>, decl: seq<Rule>, perm: seq<nat>, w: string, p: string, k: int)
    requires StableSortOf(sorted, decl, perm)
    requires 0 <= k < |sorted| && Matches(sorted[k], Normalize(w), ExtractProcessName(p))
    requires forall j :: 0 <= j < k ==> !Matches(sorted[j], Normalize(w), ExtractProcessName(p))
    ensures ClassifyWith(decl, w, p) == Describe(sorted[k], Normalize(w), w, p)
  {
    var t, b := Normalize(w), ExtractProcessName(p);
    FirstMatchIsBest(sorted, decl, perm, t, b, k);
    var best := BestAmong(decl, t, b, |decl|);
    BestIsUnique(decl, t, b, best.value, perm[k], |decl|);
  }

  /** With no match in a stable sort, the declaration order classifies as UNKNOWN. */
  lemma NoMatchClassifies(sorted: seq<Rule>, decl: seq<Rule>, perm: seq<nat>, w: string, p: string)
    requires StableSortOf(sorted, decl, perm)
    requires forall j :: 0 <= j < |sorted| ==> !Matches(sorted[j], Normalize(w), ExtractProcessName(p))
    ensures ClassifyWith(decl, w, p) == Unclassified(w, p)
  {
    NoMatchInSortedTable(sorted, decl, perm, Normalize(w), ExtractProcessName(p));
  }

  // ---------------------------------------------------------------------------------------------
  // The table as the original keeps it

  class ActivityClassifier {
    /** ACTIVITY_RULES after the sort at load time. */
    const rules: array<Rule>
    /** The table in declaration order. */
    ghost const declared: seq<Rule>
    /** Where each sorted rule was declared. */
    ghost var perm: seq<nat>

    ghost predicate Valid()
      reads this, rules
    {
      StableSortOf(rules[..], declared, perm)
    }

    /** Loading the module: the table in declaration order, then the in-place sort. */
    constructor ()
      ensures Valid() && declared == ActivityRules
    {
      declared := ActivityRules;
      rules := new Rule[|ActivityRules|](i requires 0 <= i < |ActivityRules| => ActivityRules[i]);
      new;
      assert rules[..] == ActivityRules;
      perm := SortByPriority(rules);
    }

    /** getActivityDetails: the first rule of the sorted table that matches is described. */
    method GetActivityDetails(windowTitle: string, processName: string) returns (d: ActivityDetails)
      requires Valid()
      ensures d == ClassifyWith(declared, windowTitle, processName)
    {
      var titleClean := Normalize(windowTitle);
      var processBase := ExtractProcessName(processName);
      var k := 0;
      while k < rules.Length
        invariant 0 <= k <= rules.Length
        invariant forall j :: 0 <= j < k ==> !Matches(rules[..][j], titleClean, processBase)
      {
        var rule := rules[k];
        if Matches(rule, titleClean, processBase) {
          FirstMatchClassifies(rules[..], declared, perm, windowTitle, processName, k);
          return Describe(rule, titleClean, windowTitle, processName);
        }
        NoMatchSoFar(rules[..], titleClean, processBase, k);
        k := k + 1;
      }
      NoMatchClassifies(rules[..], declared, perm, windowTitle, processName);
      d := Unclassified(windowTitle, processName);
    }
  }
}
