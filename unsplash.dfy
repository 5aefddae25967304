/**
  The stock-photo search: a page of provider results is scored by a fixed
  set of keyword rules, filtered (excluded ids and non-positive scores go),
  stably sorted by descending score and cut to the requested count. The
  provider request is an input; any failure yields no hits.
*/
module Unsplash {
  import opened Wrappers
  import opened Text

  /** One provider result: its id, the two descriptions, the tag titles and the regular-size URL. */
  datatype Candidate = Candidate(
    id: string,
    altDescription: Option<string>,
    description: Option<string>,
    tagTitles: seq<string>,
    regularUrl: string)

  datatype Hit = Hit(url: string, id: string)

  /** A result with its position on the page and its score. */
  datatype Scored = Scored(img: Candidate, rank: nat, score: int)

  /** The provider's answer: a failed request (or a non-ok status), or a page whose `results` may be missing. */
  datatype SearchReply = SearchFailed | SearchOk(results: Option<seq<Candidate>>)

  const PageSize := 25
  const TopOfPage := 8
  const ActionKeywords: seq<string> := ["work", "technician", "tools", "repair", "service", "contractor", "crew", "project"]
  const GraphicKeywords: seq<string> := ["illustration", "vector", "3d render", "drawing", "graphic", "logo"]
  const OffTopicKeywords: seq<string> := ["office", "laptop", "meeting", "suit", "fashion", "nature"]

  // ---------------------------------------------------------------------------
  // Scoring

  /**
    The description text the rules search. `||` binds looser than `+`, so a
    truthy alt description is used alone, and otherwise the text is a space
    followed by the description (or nothing).
  */
  function MetaText(img: Candidate): (r: string)
    ensures NoUpper(r)
    ensures Truthy(img.altDescription) ==> r == Lower(img.altDescription.value)
    ensures !Truthy(img.altDescription) ==>
      |r| > 0 && r[0] == ' ' && r[1..] == Lower(OrElse(img.description, ""))
  {
    if Truthy(img.altDescription) then Lower(img.altDescription.value)
    else
      var d := OrElse(img.description, "");
      LowerAfterSpace(d);
      Lower(" " + d)
  }

  /** Lower-casing a text behind a space keeps the space and lower-cases the rest. */
  lemma LowerAfterSpace(d: string)
    ensures var r := Lower(" " + d);
      |r| > 0 && r[0] == ' ' && r[1..] == Lower(d)
  {
    var r := Lower(" " + d);
    assert forall i :: 0 <= i < |d| ==> r[1..][i] == Lower(d)[i];
  }

  function LowerAll(parts: seq<string>): (r: seq<string>)
    ensures |r| == |parts| && forall i :: 0 <= i < |parts| ==> r[i] == Lower(parts[i])
  {
    seq(|parts|, i requires 0 <= i < |parts| => Lower(parts[i]))
  }

  /** The lower-cased tag titles joined by single spaces. */
  function TagText(img: Candidate): (r: string)
    ensures img.tagTitles == [] ==> r == ""
    ensures forall k :: 0 <= k < |img.tagTitles| ==> Includes(r, Lower(img.tagTitles[k]))
  {
    var parts := LowerAll(img.tagTitles);
    forall k | 0 <= k < |parts| ensures Includes(Join(parts, " "), parts[k]) {
      JoinHoldsParts(parts, " ", k);
    }
    Join(parts, " ")
  }

  /** `query.split(" ")[0].toLowerCase()`: the text before the first space, lower-cased. */
  function PrimaryTerm(query: string): (r: string)
    ensures !Includes(query, " ") ==> r == Lower(query)
    ensures Includes(query, " ") ==> r == Lower(query[..IndexOf(query, " ").value])
  {
    match IndexOf(query, " ")
    case None => Lower(query)
    case Some(i) => Lower(query[..i])
  }

  predicate Mentions(img: Candidate, k: string) {
    Includes(MetaText(img), k) || Includes(TagText(img), k)
  }

  predicate MentionsAny(img: Candidate, keywords: seq<string>) {
    exists i :: 0 <= i < |keywords| && Mentions(img, keywords[i])
  }

  function Weight(b: bool, w: int): int { if b then w else 0 }

  /** A scoring rule: a condition on the result and the amount it adds to the score. */
  datatype Rule = TopOfPageRule | PrimaryRule | KeywordRule(keywords: seq<string>, weight: int)

  /** The rules in the order the callback applies them. */
  const Rules: seq<Rule> := [TopOfPageRule, PrimaryRule, KeywordRule(ActionKeywords, 3),
                             KeywordRule(GraphicKeywords, -20), KeywordRule(OffTopicKeywords, -5)]

  /** What one rule adds for the result at `index`, with `primary` the primary search term. */
  function RuleWeight(rule: Rule, img: Candidate, index: nat, primary: string): int {
    match rule
    case TopOfPageRule => Weight(index < TopOfPage, 10)
    case PrimaryRule => Weight(Mentions(img, primary), 5)
    case KeywordRule(keywords, weight) => Weight(MentionsAny(img, keywords), weight)
  }

  /** The score from 0 once each of the rules has added its amount. */
  function RulesScore(rules: seq<Rule>, img: Candidate, index: nat, primary: string): int {
    if rules == [] then 0
    else RuleWeight(rules[0], img, index, primary) + RulesScore(rules[1..], img, index, primary)
  }

  /** The five rules add up to the five weights. */
  lemma RulesScoreSum(img: Candidate, index: nat, primary: string)
    ensures RulesScore(Rules, img, index, primary)
         == Weight(index < TopOfPage, 10) + Weight(Mentions(img, primary), 5)
            + Weight(MentionsAny(img, ActionKeywords), 3) + Weight(MentionsAny(img, GraphicKeywords), -20)
            + Weight(MentionsAny(img, OffTopicKeywords), -5)
  {
    var e := [KeywordRule(OffTopicKeywords, -5)];
    var d := [KeywordRule(GraphicKeywords, -20)] + e;
    var c := [KeywordRule(ActionKeywords, 3)] + d;
    var b := [PrimaryRule] + c;
    assert Rules == [TopOfPageRule] + b;
    assert e == e + [];
    RulesScoreCons(KeywordRule(OffTopicKeywords, -5), [], img, index, primary);
    RulesScoreCons(KeywordRule(GraphicKeywords, -20), e, img, index, primary);
    RulesScoreCons(KeywordRule(ActionKeywords, 3), d, img, index, primary);
    RulesScoreCons(PrimaryRule, c, img, index, primary);
    RulesScoreCons(TopOfPageRule, b, img, index, primary);
  }

  lemma RulesScoreCons(rule: Rule, rest: seq<Rule>, img: Candidate, index: nat, primary: string)
    ensures RulesScore([rule] + rest, img, index, primary)
         == RuleWeight(rule, img, index, primary) + RulesScore(rest, img, index, primary)
  {
    assert ([rule] + rest)[1..] == rest;
  }

  /** The score of the result at position `index` of the page: the sum of the five rule weights. */
  function Score(img: Candidate, index: nat, query: string): (r: int)
    ensures -25 <= r <= 18
  {
    RulesScoreSum(img, index, PrimaryTerm(query));
    RulesScore(Rules, img, index, PrimaryTerm(query))
  }

  /** The scoring callback: a running score that each rule adjusts in turn. */
  method ScoreCandidate(img: Candidate, index: nat, query: string) returns (score: int)
    ensures score == Score(img, index, query)
    ensures -25 <= score <= 18
  {
    score := 0;
    if index < TopOfPage { score := score + 10; }
    var primaryQuery := PrimaryTerm(query);
    if Includes(MetaText(img), primaryQuery) || Includes(TagText(img), primaryQuery) { score := score + 5; }
    if MentionsAny(img, ActionKeywords) { score := score + 3; }
    if MentionsAny(img, GraphicKeywords) { score := score - 20; }
    if MentionsAny(img, OffTopicKeywords) { score := score - 5; }
    RulesScoreSum(img, index, primaryQuery);
  }

  /** An illustration or graphic never reaches a positive score, wherever it sits on the page. */
  lemma GraphicsScoreBelowZero(img: Candidate, index: nat, query: string)
    requires MentionsAny(img, GraphicKeywords)
    ensures Score(img, index, query) <= -2
  {
    RulesScoreSum(img, index, PrimaryTerm(query));
  }

  /** A result among the first eight that is not a graphic always scores above zero. */
  lemma TopOfPageNonGraphicsScorePositive(img: Candidate, index: nat, query: string)
    requires index < TopOfPage && !MentionsAny(img, GraphicKeywords)
    ensures Score(img, index, query) >= 5
  {
    RulesScoreSum(img, index, PrimaryTerm(query));
  }

  /** An empty query has the empty primary term, which every text includes. */
  lemma EmptyQueryMatchesEverything(img: Candidate)
    ensures Mentions(img, PrimaryTerm(""))
  {
    assert OccursAt(MetaText(img), "", 0);
  }

  /** `results.map((img, index) => ({img, score}))`. */
  function ScoredList(results: seq<Candidate>, query: string): (r: seq<Scored>)
    ensures |r| == |results|
    ensures forall k :: 0 <= k < |r| ==> r[k] == Scored(results[k], k, Score(results[k], k, query))
  {
    seq(|results|, k requires 0 <= k < |results| => Scored(results[k], k, Score(results[k], k, query)))
  }

  method ScoreAll(results: seq<Candidate>, query: string) returns (scored: seq<Scored>)
    ensures scored == ScoredList(results, query)
  {
    scored := [];
    var i := 0;
    while i < |results|
      invariant 0 <= i <= |results|
      invariant |scored| == i
      invariant forall k :: 0 <= k < i ==> scored[k] == Scored(results[k], k, Score(results[k], k, query))
    {
      var s := ScoreCandidate(results[i], i, query);
      var before := scored;
      scored := scored + [Scored(results[i], i, s)];
      assert forall k :: 0 <= k < i ==> scored[k] == before[k];
      i := i + 1;
    }
  }

  // ---------------------------------------------------------------------------
  // Selection

  predicate Selected(e: Scored, excludeIds: seq<string>) { e.img.id !in excludeIds && e.score > 0 }

  /** `filter(item => !excludeIds.includes(item.img.id) && item.score > 0)`. */
  function Keep(s: seq<Scored>, excludeIds: seq<string>): (r: seq<Scored>)
    ensures |r| <= |s|
    ensures forall e :: e in r <==> e in s && Selected(e, excludeIds)
  {
    if s == [] then []
    else if Selected(s[0], excludeIds) then [s[0]] + Keep(s[1..], excludeIds)
    else Keep(s[1..], excludeIds)
  }

  predicate RanksIncrease(s: seq<Scored>) {
    forall i, j :: 0 <= i < j < |s| ==> s[i].rank < s[j].rank
  }

  lemma {:induction false} KeepRanksIncrease(s: seq<Scored>, excludeIds: seq<string>)
    requires RanksIncrease(s)
    ensures RanksIncrease(Keep(s, excludeIds))
  {
    if s != [] {
      KeepRanksIncrease(s[1..], excludeIds);
      var t := Keep(s[1..], excludeIds);
      forall e | e in t ensures s[0].rank < e.rank {
        var j :| 0 <= j < |s[1..]| && s[1..][j] == e;
        assert s[j + 1] == e;
      }
    }
  }

  /** `a` comes first in a stable sort by descending score: a higher score, or the same score and an earlier position. */
  predicate Before(a: Scored, b: Scored) {
    a.score > b.score || (a.score == b.score && a.rank < b.rank)
  }

  predicate Ordered(s: seq<Scored>) {
    forall i, j :: 0 <= i < j < |s| ==> Before(s[i], s[j])
  }

  /** Places `x` ahead of the first element with a score no higher than its own. */
  function Insert(x: Scored, s: seq<Scored>): (r: seq<Scored>)
    ensures multiset(r) == multiset{x} + multiset(s)
  {
    if s == [] || x.score >= s[0].score then [x] + s
    else assert s == [s[0]] + s[1..]; [s[0]] + Insert(x, s[1..])
  }

  /** `sort((a, b) => b.score - a.score)`, which is stable. */
  function SortByScore(s: seq<Scored>): (r: seq<Scored>)
    ensures multiset(r) == multiset(s)
  {
    if s == [] then [] else assert s == [s[0]] + s[1..]; Insert(s[0], SortByScore(s[1..]))
  }

  lemma {:induction false} InsertOrdered(x: Scored, s: seq<Scored>)
    requires Ordered(s)
    requires forall e :: e in s ==> x.rank < e.rank
    ensures Ordered(Insert(x, s))
  {
    if s == [] || x.score >= s[0].score {
      var r := [x] + s;
      forall j | 0 < j < |r| ensures Before(r[0], r[j]) {
        assert r[j] in s;
        if j > 1 { assert Before(s[0], s[j - 1]); }
      }
    } else {
      InsertOrdered(x, s[1..]);
      var t := Insert(x, s[1..]);
      var r := [s[0]] + t;
      forall j | 0 < j < |r| ensures Before(r[0], r[j]) {
        assert r[j] in multiset(t);
        assert r[j] == x || r[j] in s[1..];
        if r[j] != x {
          var k :| 0 <= k < |s[1..]| && s[1..][k] == r[j];
          assert Before(s[0], s[k + 1]);
        }
      }
    }
  }

  /** Sorting a list whose positions increase yields the stable descending order. */
  lemma {:induction false} SortOrdered(s: seq<Scored>)
    requires RanksIncrease(s)
    ensures Ordered(SortByScore(s))
  {
    if s != [] {
      SortOrdered(s[1..]);
      var t := SortByScore(s[1..]);
      forall e | e in t ensures s[0].rank < e.rank {
        assert e in multiset(s[1..]);
        var j :| 0 <= j < |s[1..]| && s[1..][j] == e;
        assert s[j + 1] == e;
      }
      InsertOrdered(s[0], t);
    }
  }

  /** The selected results of a page, best first: in stable descending-score order. */
  function Ranked(results: seq<Candidate>, query: string, excludeIds: seq<string>): (r: seq<Scored>)
    ensures Ordered(r)
  {
    var s := ScoredList(results, query);
    assert RanksIncrease(s);
    KeepRanksIncrease(s, excludeIds);
    SortOrdered(Keep(s, excludeIds));
    SortByScore(Keep(s, excludeIds))
  }

  /** Sorting the kept entries of a list indexed by position keeps each entry at hand by its position. */
  lemma KeptEntries(s: seq<Scored>, excludeIds: seq<string>)
    requires forall k :: 0 <= k < |s| ==> s[k].rank == k
    ensures forall e :: e in SortByScore(Keep(s, excludeIds)) ==>
      e.rank < |s| && e == s[e.rank] && Selected(e, excludeIds)
  {
    forall e | e in SortByScore(Keep(s, excludeIds))
      ensures e.rank < |s| && e == s[e.rank] && Selected(e, excludeIds)
    {
      assert e in multiset(Keep(s, excludeIds));
      assert e in Keep(s, excludeIds);
      assert e in s;
      var k :| 0 <= k < |s| && s[k] == e;
    }
  }

  /** The selection's entries are page results with their true scores, positive and not excluded. */
  lemma RankedEntries(results: seq<Candidate>, query: string, excludeIds: seq<string>)
    ensures forall e :: e in Ranked(results, query, excludeIds) ==>
      && e.rank < |results| && e == ScoredList(results, query)[e.rank]
      && e.score > 0 && e.img.id !in excludeIds
  {
    KeptEntries(ScoredList(results, query), excludeIds);
  }

  /** No page result that is positive and not excluded is missing from the selection. */
  lemma RankedComplete(results: seq<Candidate>, query: string, excludeIds: seq<string>)
    ensures forall k :: 0 <= k < |results| && Selected(ScoredList(results, query)[k], excludeIds) ==>
      ScoredList(results, query)[k] in Ranked(results, query, excludeIds)
  {
    var s := ScoredList(results, query);
    forall k | 0 <= k < |results| && Selected(s[k], excludeIds)
      ensures s[k] in Ranked(results, query, excludeIds)
    {
      assert s[k] in s;
      assert s[k] in multiset(Keep(s, excludeIds));
    }
  }

  /** `slice(0, count)`, with JavaScript's reading of a negative count as counting from the end. */
  function SliceTo<T>(s: seq<T>, count: int): (r: seq<T>)
    ensures 0 <= count ==> |r| == if count <= |s| then count else |s|
    ensures |r| <= |s| && r == s[..|r|]
  {
    if count >= 0 then (if count <= |s| then s[..count] else s)
    else if |s| + count >= 0 then s[..|s| + count]
    else []
  }

  function HitsOf(s: seq<Scored>): (r: seq<Hit>)
    ensures |r| == |s| && forall i :: 0 <= i < |s| ==> r[i] == Hit(s[i].img.regularUrl, s[i].img.id)
  {
    seq(|s|, i requires 0 <= i < |s| => Hit(s[i].img.regularUrl, s[i].img.id))
  }

  /** The hits for a reply, as the search computes them. */
  function SearchResult(query: string, count: int, excludeIds: seq<string>, reply: SearchReply): (r: seq<Hit>)
    ensures reply.SearchFailed? || reply == SearchOk(None) || reply == SearchOk(Some([])) ==> r == []
    ensures 0 <= count ==> |r| <= count
    ensures forall i :: 0 <= i < |r| ==> r[i].id !in excludeIds
    ensures reply.SearchOk? ==>
      var ranked := Ranked(reply.results.GetOr([]), query, excludeIds);
      && (0 <= count ==> |r| == if count <= |ranked| then count else |ranked|)
      && |r| <= |ranked|
      && forall i :: 0 <= i < |r| ==> r[i] == Hit(ranked[i].img.regularUrl, ranked[i].img.id)
  {
    match reply
    case SearchFailed => []
    case SearchOk(results) =>
      var ranked := Ranked(results.GetOr([]), query, excludeIds);
      RankedEntries(results.GetOr([]), query, excludeIds);
      TopHits(ranked, count);
      HitsOf(SliceTo(ranked, count))
  }

  /** The hits of the first `count` entries are those entries' URLs and ids, in order. */
  lemma TopHits(ranked: seq<Scored>, count: int)
    ensures var r := HitsOf(SliceTo(ranked, count));
      && (0 <= count ==> |r| == if count <= |ranked| then count else |ranked|)
      && |r| <= |ranked|
      && forall i :: 0 <= i < |r| ==> r[i] == Hit(ranked[i].img.regularUrl, ranked[i].img.id) && ranked[i] in ranked
  {
    var top := SliceTo(ranked, count);
    assert forall i :: 0 <= i < |top| ==> top[i] == ranked[i];
  }

  /** `searchUnsplashImages(query, orientation, count, excludeIds)`. */
  method SearchUnsplashImages(query: string, count: int, excludeIds: seq<string>, reply: SearchReply)
    returns (hits: seq<Hit>)
    ensures hits == SearchResult(query, count, excludeIds, reply)
    ensures reply.SearchFailed? || reply == SearchOk(None) || reply == SearchOk(Some([])) ==> hits == []
    ensures 0 <= count ==> |hits| <= count
    ensures forall h :: h in hits ==> h.id !in excludeIds
  {
    if reply.SearchFailed? {
      return [];
    }
    var results := reply.results.GetOr([]);
    if |results| == 0 {
      return [];
    }
    var scored := ScoreAll(results, query);
    var filtered := SortByScore(Keep(scored, excludeIds));
    RankedEntries(results, query, excludeIds);
    TopHits(filtered, count);
    hits := HitsOf(SliceTo(filtered, count));
  }

  /**
    The hits are the best-scoring selected results: each one comes from the
    page with a positive score, and no selected result left out scores higher
    than one that was taken.
  */
  lemma SearchResultIsBest(query: string, count: int, excludeIds: seq<string>, results: seq<Candidate>)
    ensures var r := Ranked(results, query, excludeIds);
      var n := |SearchResult(query, count, excludeIds, SearchOk(Some(results)))|;
      && n <= |r|
      && (0 <= count ==> n == if count <= |r| then count else |r|)
      && (forall i :: 0 <= i < n ==>
            SearchResult(query, count, excludeIds, SearchOk(Some(results)))[i] == Hit(r[i].img.regularUrl, r[i].img.id))
      && (forall i, j :: 0 <= i < n <= j < |r| ==> r[i].score >= r[j].score)
  {
  }

  /** `searchUnsplashImage(query)`: the URL of the single best hit, or the empty string. */
  method SearchUnsplashImage(query: string, reply: SearchReply) returns (url: string)
    ensures reply.SearchOk? && |Ranked(reply.results.GetOr([]), query, [])| > 0 ==>
      url == Ranked(reply.results.GetOr([]), query, [])[0].img.regularUrl
    ensures !(reply.SearchOk? && |Ranked(reply.results.GetOr([]), query, [])| > 0) ==> url == ""
  {
    var results := SearchUnsplashImages(query, 1, [], reply);
    url := if |results| > 0 then results[0].url else "";
  }
}
