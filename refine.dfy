/**
 * refineByKeywords (app/lib/activityUtils.ts): for browsing pages, short videos and films, a
 * second look at the cleaned title for keywords of learning, news, shopping and films.
 *
 * The keyword groups are `\b(...)\b` alternations. JavaScript's `\b` only knows ASCII word
 * characters, so a Chinese keyword fires only when ASCII letters, digits or `_` sit right
 * against both of its ends (see ChineseKeywordAloneIsMissed).
 */
module Refine {
  import opened Wrappers
  import opened Activity
  import opened Text
  import opened Matching

  /** `{ type, subType, description }`; an empty description means "not refined". */
  datatype Refinement = Refinement(activityType: ActivityType, subType: Option<ActivitySubType>, description: string)

  const LearningKeywords: seq<Matcher> :=
    Words(["教程", "课程", "学习", "指南", "tutorial", "course", "docs", "lecture", "how to",
           "可汗学院", "khan academy"])

  const NewsKeywords: seq<Matcher> := Words(["新闻", "资讯", "报道", "news", "report"])

  const ShoppingKeywords: seq<Matcher> := Words(["购物", "商城", "淘宝", "京东", "amazon", "ebay"])

  const FilmKeywords: seq<Matcher> := Words(["电影", "剧集", "番剧", "movie", "series", "episode", "anime"])

  /** Only browsing, and entertainment that is a short video or a film, is looked at again. */
  predicate Refinable(baseType: ActivityType, baseSub: Option<ActivitySubType>) {
    || baseType == Browsing
    || (baseType == Entertainment && (baseSub == Some(WatchingShortVideo) || baseSub == Some(WatchingMovieSeries)))
  }

  function RefineByKeywords(baseType: ActivityType, baseSub: Option<ActivitySubType>, cleanedTitle: string): (r: Refinement)
    ensures !Refinable(baseType, baseSub) ==> r == Refinement(baseType, baseSub, "")
    ensures r.description == "" ==> r.activityType == baseType && r.subType == baseSub
  {
    if !Refinable(baseType, baseSub) then
      Refinement(baseType, baseSub, "")
    else if AnyTest(LearningKeywords, cleanedTitle) then
      Refinement(Learning, Some(LearningVideoCourse), "在学习")
    else if AnyTest(NewsKeywords, cleanedTitle) then
      Refinement(baseType, Some(BrowsingNews), "阅读新闻资讯")
    else if AnyTest(ShoppingKeywords, cleanedTitle) then
      Refinement(Browsing, Some(BrowsingShopping), "网上购物")
    else if AnyTest(FilmKeywords, cleanedTitle) && baseType == Entertainment then
      Refinement(Entertainment, Some(WatchingMovieSeries), "看电影/追剧")
    else
      Refinement(baseType, baseSub, "")
  }

  /** The groups are tried in a fixed order, so a title with a learning keyword is "在学习"
      whatever else it mentions. */
  lemma LearningComesFirst(baseType: ActivityType, baseSub: Option<ActivitySubType>, t: string)
    requires Refinable(baseType, baseSub)
    requires exists k :: 0 <= k < |LearningKeywords| && Test(LearningKeywords[k], t)
    ensures RefineByKeywords(baseType, baseSub, t) == Refinement(Learning, Some(LearningVideoCourse), "在学习")
  {
    AnyTestIsSome(LearningKeywords, t);
  }

  /** After learning, the groups are tried news, then shopping, then films (films only on
      entertainment), and the first that fires decides the result. */
  lemma FirstGroupDecides(baseType: ActivityType, baseSub: Option<ActivitySubType>, t: string)
    requires Refinable(baseType, baseSub) && !AnyTest(LearningKeywords, t)
    ensures var r := RefineByKeywords(baseType, baseSub, t);
      && (AnyTest(NewsKeywords, t) ==> r == Refinement(baseType, Some(BrowsingNews), "阅读新闻资讯"))
      && (!AnyTest(NewsKeywords, t) && AnyTest(ShoppingKeywords, t) ==>
            r == Refinement(Browsing, Some(BrowsingShopping), "网上购物"))
      && (!AnyTest(NewsKeywords, t) && !AnyTest(ShoppingKeywords, t) && AnyTest(FilmKeywords, t) && baseType == Entertainment ==>
            r == Refinement(Entertainment, Some(WatchingMovieSeries), "看电影/追剧"))
      && (!AnyTest(NewsKeywords, t) && !AnyTest(ShoppingKeywords, t) && !(AnyTest(FilmKeywords, t) && baseType == Entertainment) ==>
            r == Refinement(baseType, baseSub, ""))
  {
  }

  /** A refinement happens exactly when the base category is refinable and one keyword group
      fires (the film group only on entertainment). */
  lemma RefinedIff(baseType: ActivityType, baseSub: Option<ActivitySubType>, t: string)
    ensures var r := RefineByKeywords(baseType, baseSub, t);
      r.description != "" <==>
        Refinable(baseType, baseSub) &&
        (|| AnyTest(LearningKeywords, t) || AnyTest(NewsKeywords, t) || AnyTest(ShoppingKeywords, t)
         || (AnyTest(FilmKeywords, t) && baseType == Entertainment))
  {
  }

  /** A refinement always lands in learning, browsing or entertainment, with one of four
      sub-categories. */
  lemma RefinementKinds(baseType: ActivityType, baseSub: Option<ActivitySubType>, t: string)
    ensures var r := RefineByKeywords(baseType, baseSub, t);
      r.description != "" ==>
        && r.activityType in {Learning, Browsing, Entertainment}
        && r.subType.Some?
        && r.subType.value in {LearningVideoCourse, BrowsingNews, BrowsingShopping, WatchingMovieSeries}
  {
  }

  /** The film group never turns a browsing page into a film: only entertainment can become
      "看电影/追剧". A news page keeps its base category. */
  lemma RefinedCategory(baseType: ActivityType, baseSub: Option<ActivitySubType>, t: string)
    ensures var r := RefineByKeywords(baseType, baseSub, t);
      && (r.subType == Some(WatchingMovieSeries) && r.description != "" ==> baseType == Entertainment)
      && (r.subType == Some(BrowsingNews) ==> r.activityType == baseType)
  {
  }

  /** "rust教程2024" is a tutorial: ASCII characters on both sides of "教程" give `\b` its two
      boundaries. */
  lemma ChineseKeywordBetweenAsciiFires()
    ensures RefineByKeywords(Browsing, Some(BrowsingGeneral), "rust教程2024").description == "在学习"
  {
    var hit := "rust教程2024";
    NormalIsLower(hit);
    assert LearningKeywords[0] == Bounded("教程", true, true);
    assert OccursAt("教程", hit, 4) && BoundaryAt(hit, 4) && BoundaryAt(hit, 6);
    assert Test(LearningKeywords[0], hit);
  }

  /** ... but "教程" alone is not: at the start and the end of the title, with no ASCII word
      character on either side of "教程", `\b` finds no boundary, and the page stays an unrefined
      browsing page. */
  lemma ChineseKeywordAloneIsMissed()
    ensures RefineByKeywords(Browsing, Some(BrowsingGeneral), "教程") == Refinement(Browsing, Some(BrowsingGeneral), "")
  {
    var alone := "教程";
    assert IsNormal(alone);
    BareKeywordHasNoBoundary(alone);
    NoNewsKeywordIn(alone);
    NoShoppingKeywordIn(alone);
  }
  lemma NoNewsKeywordIn(alone: string)
    requires alone == "教程"
    ensures !AnyTest(NewsKeywords, alone)
  {
    assert IsNormal(alone);
    ExcludedListFails(NewsKeywords, alone, "新资报nr");
  }
  lemma NoShoppingKeywordIn(alone: string)
    requires alone == "教程"
    ensures !AnyTest(ShoppingKeywords, alone)
  {
    assert IsNormal(alone);
    ExcludedListFails(ShoppingKeywords, alone, "购商淘京ae");
  }

  lemma BareKeywordHasNoBoundary(alone: string)
    requires alone == "教程"
    ensures !AnyTest(LearningKeywords, alone)
  {
    assert IsNormal(alone);
    NormalIsLower(alone);
    var first := LearningKeywords[0];
    assert first == Bounded("教程", true, true);
    assert !Fires(first, alone) by {
      forall i | 0 <= i <= |alone| && OccursAt("教程", alone, i) ensures !BoundaryAt(alone, i) {
        assert i == 0;
      }
    }
    OtherLearningKeywordsMiss(alone);
    assert LearningKeywords == [first] + LearningKeywords[1..];
  }

  lemma OtherLearningKeywordsMiss(alone: string)
    requires alone == "教程"
    ensures !AnyTest(LearningKeywords[1..], alone)
  {
    assert IsNormal(alone);
    ExcludedListFails(LearningKeywords[1..], alone, "课学指tcdlh可k");
  }
}
