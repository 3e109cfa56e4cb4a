/**
 * The score in plain terms: what the breakdown shows, what each contribution, corroboration and the caps are
 * worth. Nothing here is stated through the functions that compute them.
 */
module ScoreMeaning {
  import opened Collections
  import opened Scoring
  import SeverityBands

  // ---- the breakdown ---------------------------------------------------------------------------------------

  /** d stands at i, scores at least as high as anything of its rule, and higher than what came before it. */
  predicate FirstTopAt(ds: seq<Detection>, d: Detection, i: int) {
    && 0 <= i < |ds| && ds[i] == d
    && (forall j :: 0 <= j < |ds| && ds[j].ruleId == d.ruleId ==> ds[j].score <= d.score)
    && (forall j :: 0 <= j < i && ds[j].ruleId == d.ruleId ==> ds[j].score < d.score)
  }

  ghost predicate IsFirstTop(ds: seq<Detection>, d: Detection) {
    exists i :: FirstTopAt(ds, d, i)
  }

  /** c shows d: its identity, and half, three quarters or all of its raw score. */
  predicate Shows(c: Contribution, d: Detection) {
    && c.ruleId == d.ruleId && c.category == d.category && c.rawScore == d.score && c.confidence == d.confidence
    && c.detectionId == d.id
    && c.effective * 4.0 == (d.score * match d.confidence case LOW => 2 case MEDIUM => 3 case HIGH => 4) as real
  }

  lemma TopStays(ds: seq<Detection>, b: Detection)
    requires ds != [] && b in Dedupe(Front(ds)) && b in Dedupe(ds) && IsFirstTop(Front(ds), b)
    ensures IsFirstTop(ds, b)
  {
    hide Dedupe;
    var i :| FirstTopAt(Front(ds), b, i);
    DedupeKeepsHighest(ds);
    var k :| 0 <= k < |Dedupe(ds)| && Dedupe(ds)[k] == b;
    assert Covers(Dedupe(ds), Last(ds));
    assert Last(ds).ruleId == b.ruleId ==> Last(ds).score <= b.score;
    forall j | 0 <= j < |ds| && ds[j].ruleId == b.ruleId ensures ds[j].score <= b.score {
      assert j < |ds| - 1 ==> ds[j] == Front(ds)[j];
    }
    assert FirstTopAt(ds, b, i);
  }

  lemma NewcomerIsTop(ds: seq<Detection>)
    requires ds != [] && Last(ds) in Dedupe(ds) && Last(ds) !in Dedupe(Front(ds))
    ensures IsFirstTop(ds, Last(ds))
  {
    hide Dedupe, KeepHighest, DistinctRules, Covers;
    var d, best := Last(ds), Dedupe(Front(ds));
    DedupeKeepsHighest(Front(ds));
    DedupeStep(ds);
    forall j | 0 <= j < |ds| - 1 && ds[j].ruleId == d.ruleId ensures ds[j].score < d.score {
      assert ds[j] == Front(ds)[j] && Front(ds)[j] in Front(ds);
      NewcomerIsHigher(best, ds[j], d);
    }
    assert FirstTopAt(ds, d, |ds| - 1);
  }

  lemma NewcomerIsHigher(best: seq<Detection>, x: Detection, d: Detection)
    requires DistinctRules(best) && Covers(best, x) && x.ruleId == d.ruleId
    requires d in KeepHighest(best, d) && d !in best
    ensures x.score < d.score
  {
    hide Slot;
    var k :| 0 <= k < |best| && best[k].ruleId == d.ruleId && best[k].score >= x.score;
    assert k == Slot(best, d.ruleId);
  }

  lemma DedupeStep(ds: seq<Detection>)
    requires ds != []
    ensures Dedupe(ds) == KeepHighest(Dedupe(Front(ds)), Last(ds))
  {
  }

  lemma {:induction false} DedupeKeepsFirstTops(ds: seq<Detection>, b: Detection)
    requires b in Dedupe(ds)
    ensures IsFirstTop(ds, b)
  {
    hide KeepHighest;
    if ds == [] {
    } else {
      DedupeKeepsHighest(Front(ds));
      KeepHighestStep(Dedupe(Front(ds)), Last(ds));
      if b in Dedupe(Front(ds)) {
        DedupeKeepsFirstTops(Front(ds), b);
        TopStays(ds, b);
      } else {
        NewcomerIsTop(ds);
      }
    }
  }

  /**
   * Strongest first, ties by rule; each entry shows the first of the highest-scoring detections of its rule, and
   * every rule that fired has one.
   */
  lemma BreakdownMeaning(ds: seq<Detection>)
    ensures var cs := Score(ds).contributions;
            && (forall i, j :: 0 <= i < j < |cs| ==>
                  cs[i].effective > cs[j].effective
                  || (cs[i].effective == cs[j].effective && cs[i].ruleId < cs[j].ruleId))
            && (forall c :: c in cs ==> exists d :: d in ds && Shows(c, d) && IsFirstTop(ds, d))
            && (forall d :: d in ds ==> exists c :: c in cs && c.ruleId == d.ruleId)
  {
    hide Dedupe, StableSort, IsFirstTop, Covers;
    if ds != [] {
      BreakdownShape(ds);
      BreakdownOrder(Breakdown(ds));
      DedupeKeepsHighest(ds);
      ContributionMembers(Dedupe(ds));
      forall c | c in Breakdown(ds) ensures exists d :: d in ds && Shows(c, d) && IsFirstTop(ds, d) {
        var d :| d in Dedupe(ds) && c == ContributionOf(d);
        DedupeKeepsFirstTops(ds, d);
        EffectiveInQuarters(d);
      }
      forall d | d in ds ensures exists c :: c in Breakdown(ds) && c.ruleId == d.ruleId {
        var b := Representative(ds, d);
        assert ContributionOf(b) in Breakdown(ds);
      }
    }
  }

  lemma Representative(ds: seq<Detection>, d: Detection) returns (b: Detection)
    requires d in ds
    ensures b in Dedupe(ds) && b.ruleId == d.ruleId
  {
    hide Dedupe;
    DedupeKeepsHighest(ds);
    assert Covers(Dedupe(ds), d);
    var i :| 0 <= i < |Dedupe(ds)| && Dedupe(ds)[i].ruleId == d.ruleId && Dedupe(ds)[i].score >= d.score;
    b := Dedupe(ds)[i];
  }

  lemma BreakdownOrder(cs: seq<Contribution>)
    requires SortedBy(cs, Stronger) && OncePerRule(cs)
    ensures forall i, j :: 0 <= i < j < |cs| ==>
              cs[i].effective > cs[j].effective
              || (cs[i].effective == cs[j].effective && cs[i].ruleId < cs[j].ruleId)
  {
  }

  lemma EffectiveInQuarters(d: Detection)
    ensures Effective(d) * 4.0 == (d.score * match d.confidence case LOW => 2 case MEDIUM => 3 case HIGH => 4) as real
  {
  }

  /** HIGH takes two HIGH contributions of different categories; LOW is left for at most one, and that below HIGH. */
  lemma ConfidenceOfScore(ds: seq<Detection>)
    ensures var r := Score(ds);
            && (r.confidence == HIGH <==>
                  exists a, b :: a in r.contributions && b in r.contributions
                                 && a.confidence == b.confidence == HIGH && a.category != b.category)
            && (r.confidence == LOW <==>
                  |r.contributions| <= 1 && forall c :: c in r.contributions ==> c.confidence != HIGH)
  {
    hide AlertConfidence, Breakdown, ScoreOf;
    ConfidenceMeaning(Breakdown(ds));
  }

  // ---- what a contribution is worth ------------------------------------------------------------------------

  /** Noisy-OR: a contribution takes its percentage of what the others have left of 100. */
  lemma TakesItsShare(cs: seq<Contribution>, c: Contribution)
    requires Ordinary(c)
    ensures Combined([]) == 0.0
    ensures Combined(cs + [c]) == Combined(cs) + (100.0 - Combined(cs)) * c.effective / 100.0
  {
    assert Front(cs + [c]) == cs;
    var p, e := Product(cs), c.effective;
    assert 100.0 * (1.0 - p * (1.0 - e / 100.0)) == 100.0 * (1.0 - p) + 100.0 * p * (e / 100.0);
  }

  /** A detection on its own: its weighted raw score to the nearest integer, a full HIGH one losing its last point. */
  lemma SingleDetectionScores(d: Detection)
    ensures var s := Score([d]).score;
            match d.confidence
            case HIGH => s == if d.score == 60 then 59 else d.score
            case MEDIUM => -2 <= 4 * s - 3 * d.score <= 2
            case LOW => -1 <= 2 * s - d.score <= 1
  {
    hide StableSort, Score, Breakdown, AlertConfidence;
    assert Front([d]) == [];
    SingleEntry([d], d);
    EffectiveInQuarters(d);
  }

  // ---- what corroboration is worth -------------------------------------------------------------------------

  lemma {:induction false} ProductByEffective(a: seq<Contribution>, b: seq<Contribution>)
    requires |a| == |b| && forall i :: 0 <= i < |a| ==> a[i].effective == b[i].effective
    ensures Product(a) == Product(b)
  {
    if a == [] {
    } else {
      ProductByEffective(Front(a), Front(b));
    }
  }

  /** Exactly halfway between two integers, where rounding goes to the even one. */
  predicate Halfway(x: real) {
    x - x.Floor as real == 0.5
  }

  lemma RoundFiveMore(x: real, n: int)
    ensures var a, b := RoundHalfEven(x + (5 * n) as real), RoundHalfEven(x + (5 * n + 5) as real);
            && (!Halfway(x) ==> b == a + 5)
            && (Halfway(x) ==> b == a + 4 || b == a + 6)
  {
    assert (x + (5 * n) as real).Floor == x.Floor + 5 * n;
    assert (x + (5 * n + 5) as real).Floor == x.Floor + 5 * n + 5;
  }

  /** The change of one contribution's category to one that is new, where its old one stays represented. */
  ghost predicate MovesToFresh(cs: seq<Contribution>, i: int, k: Category) {
    && 0 <= i < |cs| && k !in Categories(cs)
    && exists j :: 0 <= j < |cs| && j != i && cs[j].category == cs[i].category
  }

  lemma MovedContributions(cs: seq<Contribution>, i: int, k: Category)
    requires MovesToFresh(cs, i, k)
    ensures var moved := cs[i := cs[i].(category := k)];
            && Product(moved) == Product(cs) && AllLow(moved) == AllLow(cs)
            && Categories(moved) == Categories(cs) + {k} && |Categories(moved)| == |Categories(cs)| + 1
            && |Categories(cs)| >= 1
  {
    hide Product;
    var moved := cs[i := cs[i].(category := k)];
    ProductByEffective(cs, moved);
    var j :| 0 <= j < |cs| && j != i && cs[j].category == cs[i].category;
    forall c | c in Categories(cs) ensures c in Categories(moved) {
      var m :| 0 <= m < |cs| && cs[m].category == c;
      assert moved[if m == i then j else m] in moved;
    }
    assert moved[i] in moved;
    assert Categories(moved) == Categories(cs) + {k};
    assert cs[i] in cs && cs[i].category in Categories(cs);
    forall m | 0 <= m < |cs| ensures cs[m].confidence == moved[m].confidence { }
    LowTogether(cs, moved);
  }

  lemma LowTogether(a: seq<Contribution>, b: seq<Contribution>)
    requires |a| == |b| && forall m :: 0 <= m < |a| ==> a[m].confidence == b[m].confidence
    ensures AllLow(a) == AllLow(b)
  {
    forall c | c in a && AllLow(b) ensures c.confidence == LOW {
      var m :| 0 <= m < |a| && a[m] == c;
      assert b[m] in b;
    }
    forall c | c in b && AllLow(a) ensures c.confidence == LOW {
      var m :| 0 <= m < |b| && b[m] == c;
      assert a[m] in a;
    }
  }

  lemma MovingScores(cs: seq<Contribution>, i: int, k: Category)
    requires MovesToFresh(cs, i, k) && !AllLow(cs)
    ensures var moved := ScoreOf(cs[i := cs[i].(category := k)]);
            var tie, n := Halfway(Combined(cs)), |Categories(cs)|;
            && (n >= 4 ==> moved == ScoreOf(cs))
            && (2 <= n <= 3 && !tie ==> moved == Min(100, ScoreOf(cs) + 5))
            && (2 <= n <= 3 && tie ==> moved in {Min(100, ScoreOf(cs) + 4), Min(100, ScoreOf(cs) + 6)})
            && (n == 1 && !tie ==> ScoreOf(cs) == Min(59, moved - 5))
            && (n == 1 && tie ==> ScoreOf(cs) in {Min(59, moved - 4), Min(59, moved - 6)})
  {
    hide Product, Categories, RoundHalfEven, AllLow, MovesToFresh, Halfway;
    MovedContributions(cs, i, k);
    RoundFiveMore(Combined(cs), |Categories(cs)| - 1);
  }

  lemma NewRuleIsAppended(best: seq<Detection>, d: Detection)
    requires forall i :: 0 <= i < |best| ==> best[i].ruleId != d.ruleId
    ensures KeepHighest(best, d) == best + [d]
  {
    hide Slot;
  }

  lemma {:induction false} DistinctRulesAreKept(ds: seq<Detection>)
    requires DistinctRules(ds)
    ensures Dedupe(ds) == ds
  {
    hide Slot;
    if ds == [] {
    } else {
      DistinctRulesAreKept(Front(ds));
      assert Dedupe(ds) == KeepHighest(Front(ds), Last(ds));
      NewRuleIsAppended(Front(ds), Last(ds));
      assert Front(ds) + [Last(ds)] == ds;
    }
  }

  lemma ScoreOfDistinct(ds: seq<Detection>)
    requires DistinctRules(ds) && ds != []
    ensures Score(ds).score == ScoreOf(ContributionsOf(ds))
  {
    hide Score, ScoreOf, Dedupe;
    DistinctRulesAreKept(ds);
    ScoreOfDeduped(ds);
  }

  ghost function CategoriesIn(ds: seq<Detection>): set<Category> {
    set d | d in ds :: d.category
  }

  lemma CategoriesOfContributions(ds: seq<Detection>)
    ensures Categories(ContributionsOf(ds)) == CategoriesIn(ds)
    ensures AllLow(ContributionsOf(ds)) <==> forall d :: d in ds ==> d.confidence == LOW
  {
    hide ContributionOf;
    var cs := ContributionsOf(ds);
    ContributionMembers(ds);
    forall d | d in ds ensures ContributionOf(d) in cs && ContributionOf(d).category == d.category
                               && ContributionOf(d).confidence == d.confidence {
      SameLabels(d);
    }
    forall c | c in cs ensures exists d :: d in ds && c.category == d.category && c.confidence == d.confidence {
      var d :| d in ds && c == ContributionOf(d);
      SameLabels(d);
    }
  }

  lemma SameLabels(d: Detection)
    ensures ContributionOf(d).category == d.category && ContributionOf(d).confidence == d.confidence
  {
  }

  /**
   * Take detections of distinct rules, not all LOW, and let one of them be of a new category instead of one that
   * another shares. From two to three and from three to four categories that is worth exactly 5 points up to 100,
   * unless the combined contributions lie halfway between two integers: then 4 or 6. From four on it is worth
   * nothing. From one to two it is worth 5 (or 4 or 6) and the cap at 59 is lifted.
   */
  lemma CorroborationIsWorthFive(ds: seq<Detection>, i: int, k: Category)
    requires DistinctRules(ds) && 0 <= i < |ds|
    requires k !in CategoriesIn(ds) && exists j :: 0 <= j < |ds| && j != i && ds[j].category == ds[i].category
    requires exists d :: d in ds && d.confidence != LOW
    ensures var before, after := Score(ds).score, Score(ds[i := ds[i].(category := k)]).score;
            var tie, n := Halfway(Combined(ContributionsOf(ds))), |CategoriesIn(ds)|;
            && (n >= 4 ==> after == before)
            && (2 <= n <= 3 && !tie ==> after == Min(100, before + 5))
            && (2 <= n <= 3 && tie ==> after in {Min(100, before + 4), Min(100, before + 6)})
            && (n == 1 && !tie ==> before == Min(59, after - 5))
            && (n == 1 && tie ==> before in {Min(59, after - 4), Min(59, after - 6)})
  {
    hide Score, ScoreOf, Combined, Categories, AllLow, Halfway, ContributionOf;
    var cs := ContributionsOf(ds);
    var moved := ds[i := ds[i].(category := k)];
    ScoreOfDistinct(ds);
    ScoreOfDistinct(moved);
    CategoriesOfContributions(ds);
    ContributionOfMoved(ds[i], k);
    assert ContributionsOf(moved) == cs[i := cs[i].(category := k)];
    var j :| 0 <= j < |ds| && j != i && ds[j].category == ds[i].category;
    SameLabels(ds[i]);
    SameLabels(ds[j]);
    assert cs[j].category == cs[i].category;
    MovingScores(cs, i, k);
  }

  lemma ContributionOfMoved(d: Detection, k: Category)
    ensures ContributionOf(d.(category := k)) == ContributionOf(d).(category := k)
  {
  }

  // ---- what the caps are worth -----------------------------------------------------------------------------

  /** The cap for all LOW takes away exactly what lies above 39: what they would score were one of them not LOW. */
  lemma LowCapIsThirtyNine(cs: seq<Contribution>, i: nat, confidence: Confidence)
    requires AllLow(cs) && i < |cs| && confidence != LOW
    ensures ScoreOf(cs) == Min(39, ScoreOf(cs[i := cs[i].(confidence := confidence)]))
  {
    hide Product, Combined, RoundHalfEven;
    var lifted := cs[i := cs[i].(confidence := confidence)];
    ProductByEffective(cs, lifted);
    assert lifted[i] in lifted;
    assert Combined(lifted) == Combined(cs) by { CombinedByProduct(cs, lifted); }
    forall k | k in Categories(cs) ensures k in Categories(lifted) {
      var m :| 0 <= m < |cs| && cs[m].category == k;
      assert lifted[m] in lifted;
    }
    assert Categories(lifted) == Categories(cs);
  }

  lemma CombinedByProduct(a: seq<Contribution>, b: seq<Contribution>)
    requires Product(a) == Product(b)
    ensures Combined(a) == Combined(b)
  {
  }

  /** Only LOW detections never get beyond the LOW band, and a single category never beyond MEDIUM. */
  lemma CapsKeepToTheirBands(ds: seq<Detection>)
    ensures (forall d :: d in ds ==> d.confidence == LOW) ==>
              && Score(ds).score <= 39
              && SeverityBands.SeverityFor(Score(ds).score) in {SeverityBands.NORMAL, SeverityBands.LOW}
    ensures |CategoriesIn(ds)| == 1 ==>
              && Score(ds).score <= 59
              && SeverityBands.SeverityFor(Score(ds).score) !in {SeverityBands.HIGH, SeverityBands.CRITICAL}
  {
    hide Score, Combined, RoundHalfEven, Dedupe;
    if ds == [] {
      NoScore();
    } else {
      DedupeNonEmpty(ds);
      ScoreOfDeduped(ds);
      DedupeKeepsHighest(ds);
      CategoriesOfContributions(Dedupe(ds));
      var b := Dedupe(ds)[0];
      assert b in Dedupe(ds);
      if |CategoriesIn(ds)| == 1 { SoleCategory(ds, Dedupe(ds)); }
    }
  }

  lemma SoleCategory(ds: seq<Detection>, some: seq<Detection>)
    requires |CategoriesIn(ds)| == 1 && some != [] && forall d :: d in some ==> d in ds
    ensures |CategoriesIn(some)| == 1
  {
    assert CategoriesIn(some) <= CategoriesIn(ds);
    assert some[0] in some && some[0].category in CategoriesIn(some);
    SubsetSize(CategoriesIn(some), CategoriesIn(ds));
    SubsetSize({some[0].category}, CategoriesIn(some));
  }

  // ---- worked examples -------------------------------------------------------------------------------------

  lemma OneMore(ds: seq<Detection>, d: Detection)
    ensures Combined(ContributionsOf([])) == 0.0
    ensures Combined(ContributionsOf(ds + [d])) ==
            Combined(ContributionsOf(ds)) + (100.0 - Combined(ContributionsOf(ds))) * Effective(d) / 100.0
  {
    hide Combined, ContributionOf;
    assert Front(ds + [d]) == ds;
    EffectiveIsExact(d);
    OrdinaryContribution(d);
    EffectiveIsShown(d);
    TakesItsShare(ContributionsOf(ds), ContributionOf(d));
  }

  lemma EffectiveIsShown(d: Detection)
    ensures ContributionOf(d).effective == Effective(d)
  {
  }

  lemma Rounded(x: real, n: int)
    requires n as real - 0.5 < x < n as real + 0.5 || (n % 2 == 0 && n as real - 0.5 <= x <= n as real + 0.5)
    ensures RoundHalfEven(x) == n
  {
  }

  predicate IsDetection(d: Detection, ruleId: nat, category: Category, score: int, confidence: Confidence) {
    d.ruleId == ruleId && d.category == category && d.score == score && d.confidence == confidence
  }

  lemma ExampleCombined(a: Detection, b: Detection, c: Detection, d: Detection, e: Detection)
    requires Effective(a) == 20.0 && Effective(b) == 15.0 && Effective(c) == 18.75 && Effective(d) == 15.0
    requires Effective(e) == 5.0
    ensures Combined(ContributionsOf([a, b, c, d, e])) == 55.385625
  {
    hide *;
    assert [] + [a] == [a] && [a] + [b] == [a, b] && [a, b] + [c] == [a, b, c] && [a, b, c] + [d] == [a, b, c, d];
    assert [a, b, c, d] + [e] == [a, b, c, d, e];
    OneMore([], a);
    OneMore([a], b);
    assert Combined(ContributionsOf([a, b])) == 32.0;
    OneMore([a, b], c);
    assert Combined(ContributionsOf([a, b, c])) == 44.75;
    OneMore([a, b, c], d);
    assert Combined(ContributionsOf([a, b, c, d])) == 53.0375;
    OneMore([a, b, c, d], e);
  }

  /** With two categories or more and something above LOW, no cap but 100 applies, and the bonus is 5, 10 or 15. */
  lemma SeveralCategories(ds: seq<Detection>)
    requires DistinctRules(ds) && |CategoriesIn(ds)| >= 2 && exists d :: d in ds && d.confidence != LOW
    ensures var n := |CategoriesIn(ds)|;
            var bonus := if n == 2 then 5.0 else if n == 3 then 10.0 else 15.0;
            Score(ds).score == Min(100, RoundHalfEven(Combined(ContributionsOf(ds)) + bonus))
  {
    hide Score, Combined, ContributionsOf, RoundHalfEven, DistinctRules;
    var d :| d in ds && d.confidence != LOW;
    ScoreOfDistinct(ds);
    CategoriesOfContributions(ds);
  }

  lemma ExampleCategories(a: Detection, b: Detection, c: Detection, d: Detection, e: Detection)
    requires IsDetection(a, 1, ORIGIN, 20, HIGH) && IsDetection(b, 2, SIGNATURE, 15, HIGH)
    requires IsDetection(c, 3, LINEAGE, 25, MEDIUM) && IsDetection(d, 4, NETWORK, 20, MEDIUM)
    requires IsDetection(e, 5, NETWORK, 10, LOW)
    ensures DistinctRules([a, b, c, d, e]) && |CategoriesIn([a, b, c, d, e])| == 4
  {
    hide Score;
    var ds := [a, b, c, d, e];
    assert CategoriesIn(ds) == {ORIGIN, SIGNATURE, LINEAGE, NETWORK} by {
      assert a in ds && b in ds && c in ds && d in ds;
    }
  }

  /** The example of docs/architecture.md: five rules in four categories score 70, which is HIGH. */
  lemma WorkedExample(a: Detection, b: Detection, c: Detection, d: Detection, e: Detection)
    requires IsDetection(a, 1, ORIGIN, 20, HIGH) && IsDetection(b, 2, SIGNATURE, 15, HIGH)
    requires IsDetection(c, 3, LINEAGE, 25, MEDIUM) && IsDetection(d, 4, NETWORK, 20, MEDIUM)
    requires IsDetection(e, 5, NETWORK, 10, LOW)
    ensures Score([a, b, c, d, e]).score == 70 && SeverityBands.SeverityFor(70) == SeverityBands.HIGH
  {
    hide Score, Combined, ContributionsOf, RoundHalfEven, CategoriesIn, DistinctRules;
    var ds := [a, b, c, d, e];
    ExampleCombined(a, b, c, d, e);
    ExampleCategories(a, b, c, d, e);
    assert a in ds;
    SeveralCategories(ds);
    Rounded(55.385625 + 15.0, 70);
  }

  /** At a tie it can be 4: 50, 1 and 0 points from two categories score 56, from three they score 60. */
  lemma CorroborationAtATie(a: Detection, b: Detection, c: Detection)
    requires IsDetection(a, 1, ORIGIN, 50, HIGH) && IsDetection(b, 2, NETWORK, 1, HIGH)
    requires IsDetection(c, 3, ORIGIN, 0, LOW)
    ensures Score([a, b, c]).score == 56 && Score([a, b, c.(category := LINEAGE)]).score == 60
  {
    hide Score, Combined, ContributionsOf, ScoreOf, RoundHalfEven;
    var ds, moved := [a, b, c], [a, b, c.(category := LINEAGE)];
    TieCombined(a, b, c);
    TieCombined(a, b, c.(category := LINEAGE));
    assert CategoriesIn(ds) == {ORIGIN, NETWORK} && CategoriesIn(moved) == {ORIGIN, NETWORK, LINEAGE} by {
      assert a in ds && b in ds && c in ds;
      assert a in moved && b in moved && moved[2] in moved;
    }
    assert a in ds && a in moved;
    SeveralCategories(ds);
    SeveralCategories(moved);
    Rounded(55.5, 56);
    Rounded(60.5, 60);
  }

  lemma TieCombined(a: Detection, b: Detection, c: Detection)
    requires Effective(a) == 50.0 && Effective(b) == 1.0 && Effective(c) == 0.0
    ensures Combined(ContributionsOf([a, b, c])) == 50.5
  {
    hide *;
    assert [] + [a] == [a] && [a] + [b] == [a, b] && [a, b] + [c] == [a, b, c];
    OneMore([], a);
    OneMore([a], b);
    assert Combined(ContributionsOf([a, b])) == 50.5;
    OneMore([a, b], c);
  }
}
