/** The recommendation scorer and ranker: the fixed candidate pool, the
    additive per-item score, the cap at 100, the stable descending sort and
    the `slice(0, limit)` that ends the pipeline. */
module Recommendations {
  import opened Wrappers
  import opened Text
  import opened Users

  datatype RecommendationType = Product | Service | Content | Financial | Experience

  /** A candidate, or a scored result. `kind` is the source's `type` field. */
  datatype Recommendation = Recommendation(
    id: string,
    title: string,
    description: string,
    kind: RecommendationType,
    category: InterestCategory,
    imageUrl: string,
    relevanceScore: real,
    callToAction: string,
    url: string)

  /** The fifteen candidates of the base recommendations pool. */
  const Rec1 := Recommendation("rec1", "First-Time Home Buyer Program",
    "Special rates and assistance for first-time home buyers in metropolitan areas.",
    RecommendationType.Financial, InterestCategory.Financial, "/rec-home-loan.jpg", 95.0, "Learn More", "#")
  const Rec2 := Recommendation("rec2", "High-Yield Retirement Account",
    "Start building your retirement wealth early with our high-yield retirement accounts designed for young professionals.",
    RecommendationType.Financial, InterestCategory.Financial, "/rec-retirement.jpg", 90.0, "Open Account", "#")
  const Rec3 := Recommendation("rec3", "Tech Industry ETF Bundle",
    "Curated ETF bundle focused on high-growth technology companies with low management fees.",
    RecommendationType.Financial, InterestCategory.Financial, "/rec-etf.jpg", 85.0, "Invest Now", "#")
  const Rec4 := Recommendation("rec4", "Smart Budget Shopping Assistant",
    "AI-powered tool that finds the best deals based on your shopping habits and preferences.",
    Service, Shopping, "/rec-budget.jpg", 88.0, "Try Free", "#")
  const Rec5 := Recommendation("rec5", "Exclusive Restaurant Discounts",
    "Get 20% off at top-rated restaurants in your area with our dining pass subscription.",
    Service, Lifestyle, "/rec-dining.jpg", 82.0, "Get Discount", "#")
  const Rec6 := Recommendation("rec6", "Latest Tech Gadget Bundle",
    "Curated collection of the newest smart home devices compatible with your existing tech.",
    Product, Technology, "/rec-gadgets.jpg", 92.0, "Shop Now", "#")
  const Rec7 := Recommendation("rec7", "Adventure Travel Package",
    "Customized travel experiences for active lifestyles with special financing options.",
    Experience, InterestCategory.Travel, "/rec-travel.jpg", 87.0, "Explore Packages", "#")
  const Rec8 := Recommendation("rec8", "Premium Shopper Membership",
    "Exclusive access to early sales, special discounts, and limited collections at your favorite brands.",
    Service, Shopping, "/rec-discounts.jpg", 94.0, "Join Now", "#")
  const Rec9 := Recommendation("rec9", "New Season Fashion Alert",
    "Be the first to know about new arrivals from designer collections curated for your style profile.",
    Service, Shopping, "/rec-fashion.jpg", 89.0, "Preview Collection", "#")
  const Rec10 := Recommendation("rec10", "Elite Travel Rewards Card",
    "Premium travel credit card with enhanced points on flights, hotels, and exclusive lounge access worldwide.",
    RecommendationType.Financial, InterestCategory.Financial, "/rec-travel-card.jpg", 96.0, "Apply Now", "#")
  const Rec11 := Recommendation("rec11", "Curated Book Subscription",
    "Personalized monthly book selections based on your reading preferences with exclusive author interviews.",
    Service, Lifestyle, "/rec-books.jpg", 93.0, "Subscribe", "#")
  const Rec12 := Recommendation("rec12", "Premium Meditation Retreat",
    "All-inclusive meditation retreat packages at luxury wellness resorts with special financing available.",
    Experience, Health, "/rec-meditation.jpg", 91.0, "Book Retreat", "#")
  const Rec13 := Recommendation("rec13", "Advanced Yoga Program",
    "Personalized yoga instruction and wellness planning with certified experts for your specific needs.",
    Service, Health, "/rec-yoga.jpg", 90.0, "Join Program", "#")
  const Rec14 := Recommendation("rec14", "Mortgage Refinancing Analyzer",
    "AI tool that continually monitors rates and your mortgage to recommend optimal refinancing opportunities.",
    RecommendationType.Financial, InterestCategory.Financial, "/rec-mortgage.jpg", 88.0, "Analyze My Mortgage", "#")
  const Rec15 := Recommendation("rec15", "Premium Sports Membership",
    "VIP access to sporting events, exclusive workout classes, and athlete-designed training programs.",
    Service, Lifestyle, "/rec-sports.jpg", 86.0, "Get Access", "#")

  /** `recommendationsPool`, in its declared order. */
  const Pool: seq<Recommendation> := [
    Rec1, Rec2, Rec3, Rec4, Rec5, Rec6, Rec7, Rec8,
    Rec9, Rec10, Rec11, Rec12, Rec13, Rec14, Rec15
  ]


  /** The limit used when the caller gives none. */
  const DefaultLimit := 6

  function Min(a: int, b: int): int {
    if a < b then a else b
  }

  function Max(a: int, b: int): int {
    if a < b then b else a
  }

  // ---------------------------------------------------------------------
  // The score of one candidate, as a sum of independent bonuses
  // ---------------------------------------------------------------------

  /** `user.interests.map(interest => interest.id)` */
  function InterestIds(interests: seq<Interest>): (r: seq<string>)
    ensures |r| == |interests|
    ensures forall k :: 0 <= k < |r| ==> r[k] == interests[k].id
  {
    seq(|interests|, k requires 0 <= k < |interests| => interests[k].id)
  }

  /** `user.interests.map(interest => interest.category)` */
  function InterestCategories(interests: seq<Interest>): (r: seq<InterestCategory>)
    ensures |r| == |interests|
    ensures forall k :: 0 <= k < |r| ==> r[k] == interests[k].category
  {
    seq(|interests|, k requires 0 <= k < |interests| => interests[k].category)
  }

  /** The interest id, lower-cased, occurs in the lower-cased title or description. */
  predicate MentionsInterest(rec: Recommendation, interestId: string) {
    Includes(Lower(rec.title), Lower(interestId)) || Includes(Lower(rec.description), Lower(interestId))
  }

  /** `userInterests.some(...)` over the interest ids. */
  function MatchesDirectInterest(interestIds: seq<string>, rec: Recommendation): bool {
    |interestIds| > 0 && (MentionsInterest(rec, interestIds[0]) || MatchesDirectInterest(interestIds[1..], rec))
  }

  /** `some` holds exactly when one of the ids is mentioned. */
  lemma {:induction false} MatchesDirectInterestIff(interestIds: seq<string>, rec: Recommendation)
    ensures MatchesDirectInterest(interestIds, rec) <==>
            exists k :: 0 <= k < |interestIds| && MentionsInterest(rec, interestIds[k])
  {
    if |interestIds| > 0 {
      MatchesDirectInterestIff(interestIds[1..], rec);
      if exists k :: 0 <= k < |interestIds| && MentionsInterest(rec, interestIds[k]) {
        var k :| 0 <= k < |interestIds| && MentionsInterest(rec, interestIds[k]);
        if k > 0 {
          assert interestIds[1..][k - 1] == interestIds[k];
        }
      }
      if exists k :: 0 <= k < |interestIds[1..]| && MentionsInterest(rec, interestIds[1..][k]) {
        var k :| 0 <= k < |interestIds[1..]| && MentionsInterest(rec, interestIds[1..][k]);
        assert interestIds[k + 1] == interestIds[1..][k];
      }
    }
  }

  /** +20, once, when some interest id is mentioned in the title or description. */
  function DirectInterestBonus(user: User, rec: Recommendation): (r: real)
    ensures r == 0.0 || r == 20.0
    ensures r == 20.0 <==> exists k :: 0 <= k < |user.interests| && MentionsInterest(rec, user.interests[k].id)
  {
    var ids := InterestIds(user.interests);
    MatchesDirectInterestIff(ids, rec);
    if MatchesDirectInterest(ids, rec) then 20.0 else 0.0
  }

  /** +15 when the candidate's category is one of the user's interest categories. */
  function CategoryBonus(user: User, rec: Recommendation): (r: real)
    ensures r == 0.0 || r == 15.0
    ensures r == 15.0 <==> exists k :: 0 <= k < |user.interests| && user.interests[k].category == rec.category
  {
    var categories := InterestCategories(user.interests);
    if rec.category in categories then 15.0 else 0.0
  }

  /** `engagementScore / 10` plus `sentimentScore * 2`, added to every candidate alike. */
  function ProfileBonus(user: User): (r: real)
    ensures user.engagementScore >= 0.0 && user.sentimentScore >= 0.0 ==> r >= 0.0
    ensures 1.0 <= user.engagementScore <= 100.0 && 1.0 <= user.sentimentScore <= 10.0 ==> 2.1 <= r <= 30.0
  {
    user.engagementScore / 10.0 + user.sentimentScore * 2.0
  }

  /** The two age tiers: independent `if`s that can never both fire. */
  function AgeBonus(user: User, rec: Recommendation): (r: real)
    ensures r == 0.0 || r == 10.0
    ensures r == 10.0 <==> (user.age < 25.0 && rec.kind == Product)
                           || (user.age > 30.0 && rec.kind == RecommendationType.Financial)
    ensures 25.0 <= user.age <= 30.0 ==> r == 0.0
  {
    (if user.age < 25.0 && rec.kind == Product then 10.0 else 0.0)
    + (if user.age > 30.0 && rec.kind == RecommendationType.Financial then 10.0 else 0.0)
  }

  /** +8 for engineers on technology items, +8 for managers on services (both may apply). */
  function OccupationBonus(user: User, rec: Recommendation): (r: real)
    ensures r == 0.0 || r == 8.0 || r == 16.0
    ensures r == 0.0 <==> !(Includes(Lower(user.occupation), "engineer") && rec.category == Technology)
                          && !(Includes(Lower(user.occupation), "manager") && rec.kind == Service)
    ensures r == 16.0 <==> Includes(Lower(user.occupation), "engineer") && rec.category == Technology
                           && Includes(Lower(user.occupation), "manager") && rec.kind == Service
  {
    var occupation := Lower(user.occupation);
    (if Includes(occupation, "engineer") && rec.category == Technology then 8.0 else 0.0)
    + (if Includes(occupation, "manager") && rec.kind == Service then 8.0 else 0.0)
  }

  /** +5 for New York users on "Metropolitan" titles, +5 for San Francisco users on health items.
      Both substring tests are case-sensitive. */
  function LocationBonus(user: User, rec: Recommendation): (r: real)
    ensures r == 0.0 || r == 5.0 || r == 10.0
    ensures r == 0.0 <==> !(Includes(user.location, "New York") && Includes(rec.title, "Metropolitan"))
                          && !(Includes(user.location, "San Francisco") && rec.category == Health)
    ensures r == 10.0 <==> Includes(user.location, "New York") && Includes(rec.title, "Metropolitan")
                           && Includes(user.location, "San Francisco") && rec.category == Health
  {
    (if Includes(user.location, "New York") && Includes(rec.title, "Metropolitan") then 5.0 else 0.0)
    + (if Includes(user.location, "San Francisco") && rec.category == Health then 5.0 else 0.0)
  }

  /** `purchaseHistory.filter(purchase => purchase.price > 100)` */
  function HighValuePurchases(purchases: seq<PurchaseHistory>): (r: seq<PurchaseHistory>)
    ensures |r| <= |purchases|
    ensures forall p :: p in r <==> p in purchases && p.price > 100.0
  {
    if purchases == [] then []
    else (if purchases[0].price > 100.0 then [purchases[0]] else []) + HighValuePurchases(purchases[1..])
  }

  /** The purchase's category, lower-cased, occurs in the lower-cased title or description. */
  predicate MatchesPurchaseCategory(rec: Recommendation, purchase: PurchaseHistory) {
    Includes(Lower(rec.title), Lower(purchase.category))
    || Includes(Lower(rec.description), Lower(purchase.category))
  }

  /** How many purchases match the candidate, counted from the end so that it
      follows a left-to-right `forEach`. */
  function CategoryMatchCount(purchases: seq<PurchaseHistory>, rec: Recommendation): (n: nat)
    ensures n <= |purchases|
  {
    if purchases == [] then 0
    else CategoryMatchCount(purchases[..|purchases| - 1], rec)
         + (if MatchesPurchaseCategory(rec, purchases[|purchases| - 1]) then 1 else 0)
  }

  /** The count is the number of matching positions: +10 accrues once per matching purchase. */
  lemma {:induction false} CategoryMatchCountIsNumberOfMatches(purchases: seq<PurchaseHistory>, rec: Recommendation)
    ensures CategoryMatchCount(purchases, rec)
            == |set i | 0 <= i < |purchases| && MatchesPurchaseCategory(rec, purchases[i])|
  {
    if purchases != [] {
      var n := |purchases| - 1;
      var front := purchases[..n];
      CategoryMatchCountIsNumberOfMatches(front, rec);
      var s := set i | 0 <= i < |front| && MatchesPurchaseCategory(rec, front[i]);
      var t := set i | 0 <= i < |purchases| && MatchesPurchaseCategory(rec, purchases[i]);
      if MatchesPurchaseCategory(rec, purchases[n]) {
        assert t == s + {n};
      } else {
        assert t == s;
      }
    }
  }

  /** The purchase-history adjustments; none at all for an empty history. */
  function PurchaseBonus(user: User, rec: Recommendation): (r: real)
    ensures user.purchaseHistory == [] ==> r == 0.0
    ensures r >= 0.0
  {
    var purchases := user.purchaseHistory;
    if |purchases| > 0 then
      HighValueBonus(purchases, rec)
      + 10.0 * CategoryMatchCount(purchases, rec) as real
      + FrequentShopperBonus(purchases, rec)
    else 0.0
  }

  /** +15, once, for financial items when some purchase cost more than 100. */
  function HighValueBonus(purchases: seq<PurchaseHistory>, rec: Recommendation): (r: real)
    ensures r == 0.0 || r == 15.0
    ensures r == 15.0 <==> rec.category == InterestCategory.Financial
                           && exists p :: p in purchases && p.price > 100.0
  {
    var highValue := HighValuePurchases(purchases);
    assert |highValue| > 0 ==> highValue[0] in highValue;
    if |highValue| > 0 && rec.category == InterestCategory.Financial then 15.0 else 0.0
  }

  /** +5 for services when the user has three or more purchases. */
  function FrequentShopperBonus(purchases: seq<PurchaseHistory>, rec: Recommendation): (r: real)
    ensures r == 0.0 || r == 5.0
    ensures r == 5.0 <==> |purchases| >= 3 && rec.kind == Service
  {
    if |purchases| >= 3 && rec.kind == Service then 5.0 else 0.0
  }

  /** The uncapped score: the base relevance plus every bonus. */
  function RawScore(user: User, rec: Recommendation): (r: real)
    ensures user.engagementScore >= 0.0 && user.sentimentScore >= 0.0 ==> r >= rec.relevanceScore
  {
    rec.relevanceScore
    + DirectInterestBonus(user, rec)
    + CategoryBonus(user, rec)
    + ProfileBonus(user)
    + AgeBonus(user, rec)
    + OccupationBonus(user, rec)
    + LocationBonus(user, rec)
    + PurchaseBonus(user, rec)
  }

  /** `Math.min(100, score)`: an upper cap only. */
  function Cap(score: real): (r: real)
    ensures r <= 100.0 && r <= score
    ensures r == 100.0 || r == score
  {
    if score < 100.0 then score else 100.0
  }

  /** The candidate with its relevance score replaced by the capped score. */
  function Scored(user: User, rec: Recommendation): (r: Recommendation)
    ensures r.(relevanceScore := rec.relevanceScore) == rec
    ensures r.relevanceScore <= 100.0
    ensures user.engagementScore >= 0.0 && user.sentimentScore >= 0.0 ==>
              r.relevanceScore >= rec.relevanceScore || r.relevanceScore == 100.0
  {
    rec.(relevanceScore := Cap(RawScore(user, rec)))
  }

  /** Scenario with no matches at all: only the engagement and sentiment terms are added. */
  lemma NoMatchScore(user: User, rec: Recommendation)
    requires forall k :: 0 <= k < |user.interests| ==>
               !MentionsInterest(rec, user.interests[k].id) && user.interests[k].category != rec.category
    requires AgeBonus(user, rec) == 0.0 && OccupationBonus(user, rec) == 0.0 && LocationBonus(user, rec) == 0.0
    requires user.purchaseHistory == []
    ensures Scored(user, rec).relevanceScore
            == Cap(rec.relevanceScore + user.engagementScore / 10.0 + user.sentimentScore * 2.0)
  {
  }

  /** The seeded user Isha against the home-buyer programme: the category
      bonus and the profile terms alone already pass 100, so the score is capped. */
  lemma HomeBuyerScoreCappedForIsha()
    ensures Scored(Isha, Rec1).relevanceScore == 100.0
  {
    var rec := Rec1;
    assert Isha.interests[0].category == rec.category;
    assert CategoryBonus(Isha, rec) == 15.0;
    assert ProfileBonus(Isha) == 23.8;
    assert RawScore(Isha, rec) >= 133.8;
  }

  /** The transaction-based adjustments, as the source runs them: a
      high-value check, a loop adding 10 per purchase whose category the item
      mentions, and a frequent-shopper check. */
  method PurchaseAdjustments(user: User, rec: Recommendation) returns (bonus: real)
    ensures bonus == PurchaseBonus(user, rec)
  {
    bonus := 0.0;
    var purchases := user.purchaseHistory;
    if |purchases| > 0 {
      var recentHighValuePurchases := HighValuePurchases(purchases);
      if |recentHighValuePurchases| > 0 && rec.category == InterestCategory.Financial {
        bonus := bonus + 15.0;
      }

      ghost var beforeLoop := bonus;
      for i := 0 to |purchases|
        invariant bonus == beforeLoop + 10.0 * CategoryMatchCount(purchases[..i], rec) as real
      {
        assert purchases[..i + 1][..i] == purchases[..i];
        if MatchesPurchaseCategory(rec, purchases[i]) {
          bonus := bonus + 10.0;
        }
      }
      assert purchases[..|purchases|] == purchases;

      if |purchases| >= 3 && rec.kind == Service {
        bonus := bonus + 5.0;
      }
    }
  }

  /** The per-item scorer, as the source runs it: one accumulator, successive
      additions, and a loop over the purchase history. */
  method ScoreRecommendation(user: User, rec: Recommendation) returns (scored: Recommendation)
    ensures scored == Scored(user, rec)
  {
    var userInterests := InterestIds(user.interests);
    var userCategories := InterestCategories(user.interests);
    var score := rec.relevanceScore;

    if MatchesDirectInterest(userInterests, rec) {
      score := score + 20.0;
    }
    assert score == rec.relevanceScore + DirectInterestBonus(user, rec);
    ghost var afterDirect := score;
    if rec.category in userCategories {
      score := score + 15.0;
    }
    assert score == afterDirect + CategoryBonus(user, rec);
    ghost var afterCategory := score;
    score := score + user.engagementScore / 10.0;
    score := score + user.sentimentScore * 2.0;
    assert score == afterCategory + ProfileBonus(user);

    ghost var afterProfile := score;
    if user.age < 25.0 && rec.kind == Product {
      score := score + 10.0;
    }
    if user.age > 30.0 && rec.kind == RecommendationType.Financial {
      score := score + 10.0;
    }
    assert score == afterProfile + AgeBonus(user, rec);

    ghost var afterAge := score;
    if Includes(Lower(user.occupation), "engineer") && rec.category == Technology {
      score := score + 8.0;
    }
    if Includes(Lower(user.occupation), "manager") && rec.kind == Service {
      score := score + 8.0;
    }
    assert score == afterAge + OccupationBonus(user, rec);

    ghost var afterOccupation := score;
    if Includes(user.location, "New York") && Includes(rec.title, "Metropolitan") {
      score := score + 5.0;
    }
    if Includes(user.location, "San Francisco") && rec.category == Health {
      score := score + 5.0;
    }
    assert score == afterOccupation + LocationBonus(user, rec);
    ghost var beforePurchases := score;

    var purchaseAdjustment := PurchaseAdjustments(user, rec);
    score := score + purchaseAdjustment;
    assert score == beforePurchases + PurchaseBonus(user, rec);
    assert score == RawScore(user, rec);

    scored := rec.(relevanceScore := Cap(score));
  }

  // ---------------------------------------------------------------------
  // The ranking pipeline: map, stable sort by score descending, slice
  // ---------------------------------------------------------------------

  /** `recommendationsPool.map(...)`: every candidate, scored, in list order. */
  function ScoreAll(user: User, pool: seq<Recommendation>): (r: seq<Recommendation>)
    ensures |r| == |pool|
    ensures forall i :: 0 <= i < |r| ==> r[i] == Scored(user, pool[i])
  {
    seq(|pool|, i requires 0 <= i < |pool| => Scored(user, pool[i]))
  }

  /** No scored candidate is above the cap. */
  lemma ScoreAllCapped(user: User, pool: seq<Recommendation>)
    ensures forall x :: x in ScoreAll(user, pool) ==> x.relevanceScore <= 100.0
  {
  }

  ghost predicate SortedByScore(s: seq<Recommendation>) {
    forall i, j :: 0 <= i < j < |s| ==> s[i].relevanceScore >= s[j].relevanceScore
  }

  /** The items of `s` whose score is `v`, in their order in `s`. A sort is
      stable exactly when it leaves each of these subsequences unchanged. */
  function ScoreClass(s: seq<Recommendation>, v: real): (r: seq<Recommendation>)
    ensures |r| <= |s|
  {
    if s == [] then []
    else (if s[0].relevanceScore == v then [s[0]] else []) + ScoreClass(s[1..], v)
  }

  /** Places `x` in front of the first item whose score is not above its own. */
  function Insert(x: Recommendation, s: seq<Recommendation>): (r: seq<Recommendation>)
    ensures multiset(r) == multiset(s) + multiset{x}
    ensures |r| == |s| + 1
  {
    if s == [] || x.relevanceScore >= s[0].relevanceScore then [x] + s
    else
      assert s == [s[0]] + s[1..];
      [s[0]] + Insert(x, s[1..])
  }

  lemma {:induction false} InsertSorted(x: Recommendation, s: seq<Recommendation>)
    requires SortedByScore(s)
    ensures SortedByScore(Insert(x, s))
  {
    if s != [] && x.relevanceScore < s[0].relevanceScore {
      InsertSorted(x, s[1..]);
      var r := Insert(x, s[1..]);
      forall j | 0 <= j < |r| ensures s[0].relevanceScore >= r[j].relevanceScore {
        assert r[j] in multiset(r);
        assert r[j] == x || r[j] in multiset(s[1..]);
      }
    }
  }

  lemma {:induction false} InsertScoreClass(x: Recommendation, s: seq<Recommendation>, v: real)
    ensures ScoreClass(Insert(x, s), v)
            == (if x.relevanceScore == v then [x] else []) + ScoreClass(s, v)
  {
    if s == [] || x.relevanceScore >= s[0].relevanceScore {
      assert ([x] + s)[1..] == s;
    } else {
      InsertScoreClass(x, s[1..], v);
      assert ([s[0]] + Insert(x, s[1..]))[1..] == Insert(x, s[1..]);
    }
  }

  /** `sort((a, b) => b.relevanceScore - a.relevanceScore)`, which ECMAScript
      requires to be stable: an insertion sort that keeps equal scores in order. */
  function SortByScore(s: seq<Recommendation>): (r: seq<Recommendation>)
    ensures multiset(r) == multiset(s)
    ensures |r| == |s|
  {
    if s == [] then []
    else
      var rest := SortByScore(s[1..]);
      assert multiset(s) == multiset(s[1..]) + multiset{s[0]} by {
        assert s == [s[0]] + s[1..];
      }
      Insert(s[0], rest)
  }

  /** The sort's result is in non-increasing score order. */
  lemma {:induction false} SortByScoreSorted(s: seq<Recommendation>)
    ensures SortedByScore(SortByScore(s))
  {
    if s != [] {
      SortByScoreSorted(s[1..]);
      InsertSorted(s[0], SortByScore(s[1..]));
    }
  }

  /** The sort is stable: each score class keeps its original order. */
  lemma {:induction false} SortByScoreStable(s: seq<Recommendation>, v: real)
    ensures ScoreClass(SortByScore(s), v) == ScoreClass(s, v)
  {
    if s != [] {
      SortByScoreStable(s[1..], v);
      InsertScoreClass(s[0], SortByScore(s[1..]), v);
    }
  }

  lemma ScoreClassOfFirst(s: seq<Recommendation>)
    ensures s != [] ==> ScoreClass(s, s[0].relevanceScore) != []
  {
  }

  lemma {:induction false} ScoreClassMembers(s: seq<Recommendation>, v: real, y: Recommendation)
    requires y in ScoreClass(s, v)
    ensures y in s && y.relevanceScore == v
  {
    if s[0].relevanceScore != v || y != s[0] {
      ScoreClassMembers(s[1..], v, y);
    }
  }

  /** Dropping the first item drops it from its own score class only. */
  lemma ScoreClassTail(s: seq<Recommendation>, v: real)
    requires s != []
    ensures ScoreClass(s[1..], v) == ScoreClass(s, v)[(if s[0].relevanceScore == v then 1 else 0)..]
  {
  }

  /** In a sorted sequence, no score class lies above the first item's score. */
  lemma TopScoreBound(s: seq<Recommendation>, v: real)
    requires SortedByScore(s)
    requires ScoreClass(s, v) != []
    ensures s[0].relevanceScore >= v
  {
    var y := ScoreClass(s, v)[0];
    ScoreClassMembers(s, v, y);
    var i :| 0 <= i < |s| && s[i] == y;
    assert i == 0 || s[0].relevanceScore >= s[i].relevanceScore;
  }

  /** Non-empty sorted sequences that agree on the score classes of both first
      items start alike: each first item heads the class of the top score. */
  lemma SameFirst(a: seq<Recommendation>, b: seq<Recommendation>)
    requires a != [] && b != []
    requires SortedByScore(a) && SortedByScore(b)
    requires ScoreClass(a, a[0].relevanceScore) == ScoreClass(b, a[0].relevanceScore)
    requires ScoreClass(a, b[0].relevanceScore) == ScoreClass(b, b[0].relevanceScore)
    ensures a[0] == b[0]
  {
    ScoreClassOfFirst(a);
    ScoreClassOfFirst(b);
    TopScoreBound(b, a[0].relevanceScore);
    TopScoreBound(a, b[0].relevanceScore);
    assert ScoreClass(a, a[0].relevanceScore)[0] == a[0];
    assert ScoreClass(b, b[0].relevanceScore)[0] == b[0];
  }

  lemma SortedTail(s: seq<Recommendation>)
    requires s != [] && SortedByScore(s)
    ensures SortedByScore(s[1..])
  {
    forall i, j | 0 <= i < j < |s| - 1 ensures s[1..][i].relevanceScore >= s[1..][j].relevanceScore {
      assert s[1..][i] == s[i + 1] && s[1..][j] == s[j + 1];
    }
  }

  /** Sorted sequences with the same score classes are equal, so the stable
      sort is the only possible outcome of any stable descending sort. */
  lemma {:induction false} StableSortUnique(a: seq<Recommendation>, b: seq<Recommendation>)
    requires SortedByScore(a) && SortedByScore(b)
    requires forall v :: ScoreClass(a, v) == ScoreClass(b, v)
    ensures a == b
  {
    ScoreClassOfFirst(a);
    ScoreClassOfFirst(b);
    if a != [] && b != [] {
      assert ScoreClass(a, a[0].relevanceScore) == ScoreClass(b, a[0].relevanceScore);
      assert ScoreClass(a, b[0].relevanceScore) == ScoreClass(b, b[0].relevanceScore);
      SameFirst(a, b);
      forall v ensures ScoreClass(a[1..], v) == ScoreClass(b[1..], v) {
        assert ScoreClass(a, v) == ScoreClass(b, v);
        ScoreClassTail(a, v);
        ScoreClassTail(b, v);
      }
      SortedTail(a);
      SortedTail(b);
      StableSortUnique(a[1..], b[1..]);
      assert a == [a[0]] + a[1..] && b == [b[0]] + b[1..];
    }
  }

  /** `slice(0, end)`, including JavaScript's reading of a negative end as
      counting back from the length. */
  function SliceTo(s: seq<Recommendation>, end: int): (r: seq<Recommendation>)
    ensures r <= s
    ensures |r| == if end >= 0 then Min(end, |s|) else Max(|s| + end, 0)
    ensures multiset(r) <= multiset(s)
  {
    var relativeEnd := if end < 0 then Max(|s| + end, 0) else Min(end, |s|);
    assert s == s[..relativeEnd] + s[relativeEnd..];
    s[..relativeEnd]
  }

  lemma {:induction false} ScoreClassOfPrefix(s: seq<Recommendation>, n: nat, v: real)
    requires n <= |s|
    ensures ScoreClass(s[..n], v) <= ScoreClass(s, v)
  {
    if n > 0 {
      ScoreClassOfPrefix(s[1..], n - 1, v);
      assert s[..n][1..] == s[1..][..n - 1];
    }
  }

  /** Sorting and cutting short never raise a score above a bound the input respects. */
  lemma SortedPrefixKeepsBound(s: seq<Recommendation>, limit: int, bound: real)
    requires forall x :: x in s ==> x.relevanceScore <= bound
    ensures forall x :: x in SliceTo(SortByScore(s), limit) ==> x.relevanceScore <= bound
  {
    var sorted := SortByScore(s);
    forall x | x in SliceTo(sorted, limit) ensures x.relevanceScore <= bound {
      assert x in multiset(SliceTo(sorted, limit));
      assert x in multiset(sorted);
    }
  }

  /** Score every candidate, sort by score descending, keep `slice(0, limit)`. */
  function Rank(user: User, pool: seq<Recommendation>, limit: int): (r: seq<Recommendation>)
    ensures limit >= 0 ==> |r| == Min(limit, |pool|)
    ensures limit < 0 ==> |r| == Max(|pool| + limit, 0)
    ensures SortedByScore(r)
    ensures forall x :: x in r ==> x.relevanceScore <= 100.0
  {
    var scored := ScoreAll(user, pool);
    var r := SliceTo(SortByScore(scored), limit);
    SortByScoreSorted(scored);
    ScoreAllCapped(user, pool);
    SortedPrefixKeepsBound(scored, limit, 100.0);
    assert forall k :: 0 <= k < |r| ==> r[k] == SortByScore(scored)[k];
    r
  }

  /** `getPersonalizedRecommendations(user, limit)`. */
  function GetPersonalizedRecommendations(user: Option<User>, limit: int): (r: seq<Recommendation>)
    ensures user.None? ==> r == []
    ensures user.Some? && limit >= 0 ==> |r| == Min(limit, |Pool|)
    ensures user.Some? && limit < 0 ==> |r| == Max(|Pool| + limit, 0)
    ensures SortedByScore(r)
    ensures forall x :: x in r ==> x.relevanceScore <= 100.0
  {
    match user
    case None => []
    case Some(u) => Rank(u, Pool, limit)
  }

  /** The call with the default limit of 6. */
  function GetDefaultRecommendations(user: Option<User>): (r: seq<Recommendation>)
    ensures user.Some? ==> |r| == DefaultLimit
  {
    GetPersonalizedRecommendations(user, DefaultLimit)
  }

  /** The result is a prefix of a permutation of the scored candidates: no
      candidate is returned twice, and each returned item is a candidate whose
      only changed field is its capped score. */
  lemma RankedComesFromPool(user: User, pool: seq<Recommendation>, limit: int)
    ensures var r := Rank(user, pool, limit);
            && r <= SortByScore(ScoreAll(user, pool))
            && multiset(r) <= multiset(ScoreAll(user, pool))
            && forall k :: 0 <= k < |r| ==> exists i :: 0 <= i < |pool| && r[k] == Scored(user, pool[i])
  {
    var scored := ScoreAll(user, pool);
    var r := Rank(user, pool, limit);
    assert multiset(r) <= multiset(scored);
    forall k | 0 <= k < |r| ensures exists i :: 0 <= i < |pool| && r[k] == Scored(user, pool[i]) {
      assert r[k] in multiset(scored);
      var i :| 0 <= i < |scored| && scored[i] == r[k];
    }
  }

  /** Items with equal scores come out in candidate order. */
  lemma RankedIsStable(user: User, pool: seq<Recommendation>, limit: int, v: real)
    ensures ScoreClass(Rank(user, pool, limit), v) <= ScoreClass(ScoreAll(user, pool), v)
  {
    var sorted := SortByScore(ScoreAll(user, pool));
    var r := Rank(user, pool, limit);
    assert r == sorted[..|r|];
    ScoreClassOfPrefix(sorted, |r|, v);
    SortByScoreStable(ScoreAll(user, pool), v);
  }

  /** With non-negative engagement and sentiment, no returned score falls below
      its candidate's base score (or 100, if the base was above 100). */
  lemma RankedScoreLowerBound(user: User, pool: seq<Recommendation>, limit: int)
    requires user.engagementScore >= 0.0 && user.sentimentScore >= 0.0
    ensures var r := Rank(user, pool, limit);
            forall k :: 0 <= k < |r| ==>
              exists i :: (0 <= i < |pool| && r[k].id == pool[i].id
                           && r[k].relevanceScore >= (if pool[i].relevanceScore < 100.0 then pool[i].relevanceScore else 100.0))
  {
    RankedComesFromPool(user, pool, limit);
    var r := Rank(user, pool, limit);
    forall k | 0 <= k < |r|
      ensures exists i :: (0 <= i < |pool| && r[k].id == pool[i].id
                           && r[k].relevanceScore >= (if pool[i].relevanceScore < 100.0 then pool[i].relevanceScore else 100.0))
    {
      var i :| 0 <= i < |pool| && r[k] == Scored(user, pool[i]);
      assert r[k].id == pool[i].id;
    }
  }
}
