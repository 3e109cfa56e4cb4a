/**
 * Risk scoring, src/threatlens/detection/scoring.py, in exact arithmetic. Effective contributions are
 * multiples of a quarter, so the source's rounding to three decimals does nothing to them.
 */
module Scoring {
  import opened Collections
  import opened ProcessModels
  import SeverityBands

  datatype Confidence = LOW | MEDIUM | HIGH

  datatype Category = ORIGIN | SIGNATURE | LINEAGE | EXECUTION | MASQUERADE | NETWORK | PERSISTENCE | BASELINE

  const MAX_RULE_SCORE := 60
  const ALL_LOW_CAP := 39
  const SINGLE_CATEGORY_CAP := 59
  const MAX_BONUS := 15
  const BONUS_PER_EXTRA_CATEGORY := 5

  type RuleScore = s: int | 0 <= s <= MAX_RULE_SCORE

  /** Rule and detection identifiers are opaque; rule identifiers carry their sort order. */
  datatype Detection = Detection(
    id: nat,
    ruleId: nat,
    category: Category,
    score: RuleScore,
    confidence: Confidence,
    processKey: Option<ProcessKey>,
    exe: Option<string>)

  datatype Contribution = Contribution(
    ruleId: nat,
    category: Category,
    rawScore: RuleScore,
    confidence: Confidence,
    effective: real,
    detectionId: nat)

  datatype RiskScore = RiskScore(score: int, confidence: Confidence, contributions: seq<Contribution>)

  // ---- one detection -----------------------------------------------------------------------------

  function Rank(c: Confidence): int {
    match c case LOW => 0 case MEDIUM => 1 case HIGH => 2
  }

  function Weight(c: Confidence): real {
    match c case LOW => 0.5 case MEDIUM => 0.75 case HIGH => 1.0
  }

  function Effective(d: Detection): real {
    d.score as real * Weight(d.confidence)
  }

  /** Rounding to three decimals would not move an effective contribution. */
  lemma EffectiveIsExact(d: Detection)
    ensures Effective(d) * 4.0 == (Effective(d) * 4.0).Floor as real
    ensures 0.0 <= Effective(d) <= 60.0
  {
    var quarters := d.score * match d.confidence case LOW => 2 case MEDIUM => 3 case HIGH => 4;
    assert Effective(d) * 4.0 == quarters as real;
  }

  function ContributionOf(d: Detection): Contribution {
    Contribution(d.ruleId, d.category, d.score, d.confidence, Effective(d), d.id)
  }

  // ---- de-duplication per rule ---------------------------------------------------------------------

  /** Position of the rule's entry in the insertion-ordered dictionary, |best| when it has none. */
  function Slot(best: seq<Detection>, ruleId: nat): (i: nat)
    ensures i <= |best|
    ensures i < |best| ==> best[i].ruleId == ruleId
    ensures forall j :: 0 <= j < i ==> best[j].ruleId != ruleId
  {
    if best == [] then 0
    else if Slot(Front(best), ruleId) < |best| - 1 then Slot(Front(best), ruleId)
    else if Last(best).ruleId == ruleId then |best| - 1
    else |best|
  }

  function KeepHighest(best: seq<Detection>, d: Detection): seq<Detection> {
    var i := Slot(best, d.ruleId);
    if i == |best| then best + [d]
    else if d.score > best[i].score then best[i := d]
    else best
  }

  function Dedupe(ds: seq<Detection>): seq<Detection> {
    if ds == [] then [] else KeepHighest(Dedupe(Front(ds)), Last(ds))
  }

  ghost predicate DistinctRules(best: seq<Detection>) {
    forall i, j :: 0 <= i < j < |best| ==> best[i].ruleId != best[j].ruleId
  }

  /** best holds, per rule, a detection that scores at least as high as d. */
  ghost predicate Covers(best: seq<Detection>, d: Detection) {
    exists i :: 0 <= i < |best| && best[i].ruleId == d.ruleId && best[i].score >= d.score
  }

  lemma KeepHighestStep(best: seq<Detection>, d: Detection)
    requires DistinctRules(best)
    ensures DistinctRules(KeepHighest(best, d)) && Covers(KeepHighest(best, d), d)
    ensures forall b :: b in KeepHighest(best, d) ==> b in best || b == d
    ensures forall x :: Covers(best, x) ==> Covers(KeepHighest(best, d), x)
  {
    var slot := Slot(best, d.ruleId);
    var after := KeepHighest(best, d);
    hide Slot;
    assert after[slot].ruleId == d.ruleId && after[slot].score >= d.score;
    forall x | Covers(best, x) ensures Covers(after, x) {
      var i :| 0 <= i < |best| && best[i].ruleId == x.ruleId && best[i].score >= x.score;
      assert after[i].ruleId == x.ruleId && after[i].score >= x.score;
    }
  }

  /** One entry per rule that fired, and it is a highest-scoring detection of that rule. */
  lemma {:induction false} DedupeKeepsHighest(ds: seq<Detection>)
    ensures DistinctRules(Dedupe(ds))
    ensures forall b :: b in Dedupe(ds) ==> b in ds
    ensures forall d :: d in ds ==> Covers(Dedupe(ds), d)
  {
    hide KeepHighest, Covers;
    if ds == [] {
    } else {
      DedupeKeepsHighest(Front(ds));
      KeepHighestStep(Dedupe(Front(ds)), Last(ds));
      assert forall x :: x in ds <==> x in Front(ds) || x == Last(ds);
    }
  }

  method DedupeHighestPerRule(ds: seq<Detection>) returns (best: seq<Detection>)
    ensures best == Dedupe(ds)
  {
    best := [];
    for i := 0 to |ds|
      invariant best == Dedupe(ds[..i])
    {
      assert Front(ds[..i + 1]) == ds[..i];
      var slot := Slot(best, ds[i].ruleId);
      if slot == |best| {
        best := best + [ds[i]];
      } else if ds[i].score > best[slot].score {
        best := best[slot := ds[i]];
      }
    }
    assert ds[..|ds|] == ds;
  }

  // ---- combination -----------------------------------------------------------------------------------

  function Factor(c: Contribution): real {
    1.0 - (if c.effective < 100.0 then c.effective else 100.0) / 100.0
  }

  function Product(cs: seq<Contribution>): real {
    if cs == [] then 1.0 else Product(Front(cs)) * Factor(Last(cs))
  }

  function Combined(cs: seq<Contribution>): real {
    100.0 * (1.0 - Product(cs))
  }

  function Categories(cs: seq<Contribution>): set<Category> {
    set c | c in cs :: c.category
  }

  function Bonus(categories: int): int {
    Min(MAX_BONUS, BONUS_PER_EXTRA_CATEGORY * (categories - 1))
  }

  /** Python's round: to the nearest integer, ties to the even one. */
  function RoundHalfEven(x: real): int {
    var f := x.Floor;
    var rest := x - f as real;
    if rest < 0.5 || (rest == 0.5 && f % 2 == 0) then f else f + 1
  }

  predicate AllLow(cs: seq<Contribution>) {
    forall c :: c in cs ==> c.confidence == LOW
  }

  /** The capped score of some contributions, in whatever order. */
  function ScoreOf(cs: seq<Contribution>): int {
    var raw := Min(100, RoundHalfEven(Combined(cs) + Bonus(|Categories(cs)|) as real));
    var low := if AllLow(cs) then Min(raw, ALL_LOW_CAP) else raw;
    if |Categories(cs)| == 1 then Min(low, SINGLE_CATEGORY_CAP) else low
  }

  predicate IsHigh(c: Contribution) {
    c.confidence == HIGH
  }

  function AlertConfidence(cs: seq<Contribution>): Confidence {
    var high := Filter(cs, IsHigh);
    if |high| >= 2 && |Categories(high)| >= 2 then HIGH
    else if |cs| >= 2 || high != [] then MEDIUM
    else LOW
  }

  /** The display order: strongest first, ties by rule. */
  predicate Stronger(a: Contribution, b: Contribution) {
    a.effective > b.effective || (a.effective == b.effective && a.ruleId <= b.ruleId)
  }

  function ContributionsOf(ds: seq<Detection>): (cs: seq<Contribution>)
    ensures |cs| == |ds| && forall i :: 0 <= i < |ds| ==> cs[i] == ContributionOf(ds[i])
  {
    if ds == [] then [] else ContributionsOf(Front(ds)) + [ContributionOf(Last(ds))]
  }

  function Breakdown(ds: seq<Detection>): seq<Contribution> {
    StableSort(ContributionsOf(Dedupe(ds)), Stronger)
  }

  function Score(ds: seq<Detection>): RiskScore {
    if ds == [] then RiskScore(0, LOW, [])
    else RiskScore(ScoreOf(Breakdown(ds)), AlertConfidence(Breakdown(ds)), Breakdown(ds))
  }

  lemma ProductStep(cs: seq<Contribution>, i: nat)
    ensures i < |cs| ==> Product(cs[..i + 1]) == Product(cs[..i]) * Factor(cs[i])
    ensures Product(cs[..0]) == 1.0
  {
    if i < |cs| { assert Front(cs[..i + 1]) == cs[..i]; }
  }

  method ScoreDetections(ds: seq<Detection>) returns (risk: RiskScore)
    ensures risk == Score(ds)
  {
    hide Product, Factor, StableSort, Dedupe, ContributionsOf, AlertConfidence, RoundHalfEven, Categories;
    if ds == [] { return RiskScore(0, LOW, []); }
    var best := DedupeHighestPerRule(ds);
    var contributions := StableSort(ContributionsOf(best), Stronger);
    var product := 1.0;
    ProductStep(contributions, 0);
    for i := 0 to |contributions|
      invariant product == Product(contributions[..i])
    {
      ProductStep(contributions, i);
      product := product * Factor(contributions[i]);
    }
    assert contributions[..|contributions|] == contributions;
    var combined := 100.0 * (1.0 - product);
    var categories := Categories(contributions);
    var bonus := Bonus(|categories|);
    var score := Min(100, RoundHalfEven(combined + bonus as real));
    if AllLow(contributions) { score := Min(score, ALL_LOW_CAP); }
    if |categories| == 1 { score := Min(score, SINGLE_CATEGORY_CAP); }
    risk := RiskScore(score, AlertConfidence(contributions), contributions);
  }

  /** The result is the nearest integer, and the even one of two equally near. */
  lemma RoundIsNearest(x: real)
    ensures -0.5 <= x - RoundHalfEven(x) as real <= 0.5
    ensures x - RoundHalfEven(x) as real == 0.5 || x - RoundHalfEven(x) as real == -0.5 ==> RoundHalfEven(x) % 2 == 0
  {
  }

  /** HIGH takes two HIGH contributions of different categories; LOW is left for a single one below HIGH. */
  lemma ConfidenceMeaning(cs: seq<Contribution>)
    ensures AlertConfidence(cs) == HIGH <==>
            exists a, b :: a in cs && b in cs && a.confidence == b.confidence == HIGH && a.category != b.category
    ensures AlertConfidence(cs) == LOW <==> |cs| <= 1 && forall c :: c in cs ==> c.confidence != HIGH
  {
    hide Filter;
    var high := Filter(cs, IsHigh);
    TwoCategories(high);
    EmptyOrNot(cs, high);
  }

  lemma TwoCategories(high: seq<Contribution>)
    ensures |Categories(high)| >= 2 <==> exists a, b :: a in high && b in high && a.category != b.category
    ensures |Categories(high)| >= 2 ==> |high| >= 2
  {
    if a, b :| a in high && b in high && a.category != b.category {
      SubsetSize({a.category, b.category}, Categories(high));
    }
    if |Categories(high)| >= 2 {
      var a := high[0];
      assert Categories(high) != {a.category};
      var k :| k in Categories(high) && k != a.category;
      var b :| b in high && b.category == k;
      assert a in high && b in high && a.category != b.category;
    }
  }

  lemma EmptyOrNot(cs: seq<Contribution>, high: seq<Contribution>)
    requires forall c :: c in high <==> c in cs && IsHigh(c)
    ensures high == [] <==> forall c :: c in cs ==> c.confidence != HIGH
  {
    if high != [] {
      assert high[0] in high;
    }
  }

  // ---- arithmetic ------------------------------------------------------------------------------------

  lemma RoundMonotone(x: real, y: real)
    requires x <= y
    ensures RoundHalfEven(x) <= RoundHalfEven(y)
  {
    assert x.Floor <= y.Floor;
  }

  lemma ScaleLeq(a: real, x: real, y: real)
    requires a >= 0.0 && x <= y
    ensures a * x <= a * y
    ensures a > 0.0 && x < y ==> a * x < a * y
  {
  }

  /** A contribution with an effective score a single rule can have. */
  predicate Ordinary(c: Contribution) {
    0.0 <= c.effective <= 60.0
  }

  lemma {:induction false} ProductBounds(cs: seq<Contribution>)
    requires forall c :: c in cs ==> Ordinary(c)
    ensures 0.0 < Product(cs) <= 1.0
  {
    hide Product, Factor, Ordinary;
    if cs == [] {
      EmptyProduct();
    } else {
      ProductBounds(Front(cs));
      LastFactor(cs);
      assert Ordinary(Last(cs));
      FactorBounds(Last(cs));
      var p, f := Product(Front(cs)), Factor(Last(cs));
      Shrink(p, f);
      assert 0.0 < p * f;
      assert Product(cs) == p * f;
    }
  }

  lemma EmptyProduct()
    ensures Product([]) == 1.0
  {
  }

  lemma LastFactor(cs: seq<Contribution>)
    requires cs != []
    ensures Product(cs) == Product(Front(cs)) * Factor(Last(cs))
  {
  }

  lemma FactorBounds(c: Contribution)
    requires Ordinary(c)
    ensures 0.4 <= Factor(c) <= 1.0
  {
  }

  lemma Shrink(p: real, f: real)
    requires 0.0 < p <= 1.0 && 0.4 <= f <= 1.0
    ensures 0.0 < p * f <= 1.0
  {
    ScaleLeq(p, 0.4, f);
    ScaleLeq(p, f, 1.0);
  }

  lemma {:induction false} ProductAppend(a: seq<Contribution>, b: seq<Contribution>)
    ensures Product(a + b) == Product(a) * Product(b)
  {
    if b == [] {
      assert a + b == a;
    } else {
      assert Front(a + b) == a + Front(b) && Last(a + b) == Last(b);
      ProductAppend(a, Front(b));
      Associate(Product(a), Product(Front(b)), Factor(Last(b)));
    }
  }

  lemma Associate(x: real, y: real, z: real)
    ensures (x * y) * z == x * (y * z)
  {
  }

  lemma ProductAt(cs: seq<Contribution>, i: nat)
    requires i < |cs|
    ensures Product(cs) == (Product(cs[..i]) * Product(cs[i + 1..])) * Factor(cs[i])
  {
    hide Product, Factor;
    assert cs == cs[..i + 1] + cs[i + 1..];
    ProductAppend(cs[..i + 1], cs[i + 1..]);
    ProductStep(cs, i);
    Rearrange(Product(cs[..i]), Factor(cs[i]), Product(cs[i + 1..]));
  }

  lemma Rearrange(x: real, f: real, y: real)
    ensures (x * f) * y == (x * y) * f
  {
  }

  function Without<T>(s: seq<T>, i: nat): (r: seq<T>)
    requires i < |s|
    ensures |r| == |s| - 1
  {
    s[..i] + s[i + 1..]
  }

  lemma {:induction false} ProductPermutes(a: seq<Contribution>, b: seq<Contribution>)
    requires multiset(a) == multiset(b)
    ensures Product(a) == Product(b)
    decreases |a|
  {
    hide Product, Factor, Without;
    assert |multiset(a)| == |a| && |multiset(b)| == |b|;
    if a == [] {
      assert b == [];
    } else {
      var i := |a| - 1;
      assert a[i] in multiset(b);
      var j :| 0 <= j < |b| && b[j] == a[i];
      DropBoth(a, i, b, j);
      ProductPermutes(Without(a, i), Without(b, j));
      ProductWithout(a, i);
      ProductWithout(b, j);
    }
  }

  lemma DropBoth<T>(a: seq<T>, i: nat, b: seq<T>, j: nat)
    requires multiset(a) == multiset(b) && i < |a| && j < |b| && a[i] == b[j]
    ensures multiset(Without(a, i)) == multiset(Without(b, j))
  {
    hide *;
    DropOne(a, i);
    DropOne(b, j);
  }

  lemma ProductOfWithout(cs: seq<Contribution>, i: nat)
    requires i < |cs|
    ensures Product(Without(cs, i)) == Product(cs[..i]) * Product(cs[i + 1..])
  {
    hide Product, Factor;
    ProductAppend(cs[..i], cs[i + 1..]);
  }

  lemma ProductWithout(cs: seq<Contribution>, i: nat)
    requires i < |cs|
    ensures Product(cs) == Product(Without(cs, i)) * Factor(cs[i])
  {
    hide *;
    ProductOfWithout(cs, i);
    ProductAt(cs, i);
  }

  lemma DropOne<T>(s: seq<T>, i: nat)
    requires i < |s|
    ensures multiset(Without(s, i)) == multiset(s) - multiset{s[i]}
  {
    assert s == s[..i] + [s[i]] + s[i + 1..];
  }

  // ---- adding a detection ------------------------------------------------------------------------------

  /** d may take the place of x: it counts no less, in the same category, and is LOW only where x was. */
  predicate SafeReplacement(x: Detection, d: Detection) {
    && x.category == d.category
    && Effective(x) <= Effective(d)
    && (d.confidence == LOW ==> x.confidence == LOW)
  }

  /** If d displaces the entry of its rule, it may. */
  predicate SafeAddition(ds: seq<Detection>, d: Detection) {
    var best := Dedupe(ds);
    var slot := Slot(best, d.ruleId);
    slot < |best| && d.score > best[slot].score ==> SafeReplacement(best[slot], d)
  }

  /** What the shipped rules keep: within a rule the category is fixed and confidence follows the score. */
  predicate Compatible(a: Detection, b: Detection) {
    a.ruleId == b.ruleId ==>
      && a.category == b.category
      && (a.score < b.score ==> Rank(a.confidence) <= Rank(b.confidence))
      && (a.score == b.score ==> a.confidence == b.confidence)
      && (a.score > b.score ==> Rank(a.confidence) >= Rank(b.confidence))
  }

  ghost predicate AllCompatible(ds: seq<Detection>) {
    forall a, b :: a in ds && b in ds ==> Compatible(a, b)
  }

  /** y counts for at least as much as x, whichever way the score looks at them. */
  predicate NoWeaker(x: Contribution, y: Contribution) {
    && x.category == y.category
    && x.effective <= y.effective
    && (y.confidence == LOW ==> x.confidence == LOW)
  }

  /** More, or no weaker, contributions: an old one may be replaced at index i, a new one may follow. */
  lemma ReplaceNeverLowers(cs: seq<Contribution>, i: nat, y: Contribution)
    requires i < |cs| && NoWeaker(cs[i], y) && Ordinary(y)
    requires forall c :: c in cs ==> Ordinary(c)
    ensures ScoreOf(cs[i := y]) >= ScoreOf(cs)
  {
    var after := cs[i := y];
    ReplaceProduct(cs, i, y);
    assert Categories(after) == Categories(cs) by {
      forall k | 0 <= k < |cs| ensures cs[k].category == after[k].category { }
      forall k | k in Categories(cs) ensures k in Categories(after) {
        var j :| 0 <= j < |cs| && cs[j].category == k;
        assert after[j] in after;
      }
    }
    assert AllLow(after) ==> AllLow(cs) by {
      forall c | c in cs && AllLow(after) ensures c.confidence == LOW {
        var j :| 0 <= j < |cs| && cs[j] == c;
        assert after[j] in after;
      }
    }
    assert cs[i] in cs && cs[i].category in Categories(cs);
    CapsFollow(cs, after);
  }

  lemma AppendShrinksProduct(cs: seq<Contribution>, y: Contribution)
    requires Ordinary(y) && forall c :: c in cs ==> Ordinary(c)
    ensures Product(cs + [y]) <= Product(cs)
  {
    hide Product, Factor;
    assert Front(cs + [y]) == cs && Last(cs + [y]) == y;
    ProductBounds(cs);
    LastFactor(cs + [y]);
    FactorBounds(y);
    ScaledDown(Product(cs), Factor(y), Product(cs + [y]));
  }

  lemma ScaledDown(p: real, f: real, q: real)
    requires p > 0.0 && f <= 1.0 && q == p * f
    ensures q <= p
  {
    ScaleLeq(p, f, 1.0);
  }

  lemma AppendNeverLowers(cs: seq<Contribution>, y: Contribution)
    requires cs != [] && Ordinary(y)
    requires forall c :: c in cs ==> Ordinary(c)
    ensures ScoreOf(cs + [y]) >= ScoreOf(cs)
  {
    var after := cs + [y];
    AppendShrinksProduct(cs, y);
    assert Categories(after) == Categories(cs) + {y.category};
    assert cs[0] in cs && cs[0].category in Categories(cs);
    CapsFollow(cs, after);
  }

  lemma CapsFollow(cs: seq<Contribution>, after: seq<Contribution>)
    requires Product(after) <= Product(cs)
    requires Categories(cs) <= Categories(after) && Categories(cs) != {}
    requires AllLow(after) ==> AllLow(cs)
    ensures ScoreOf(after) >= ScoreOf(cs)
  {
    SubsetSize(Categories(cs), Categories(after));
    RoundMonotone(Combined(cs) + Bonus(|Categories(cs)|) as real, Combined(after) + Bonus(|Categories(after)|) as real);
  }

  lemma ReplaceProduct(cs: seq<Contribution>, i: nat, y: Contribution)
    requires i < |cs| && Ordinary(y)
    requires forall c :: c in cs ==> Ordinary(c)
    ensures cs[i].effective <= y.effective ==> Product(cs[i := y]) <= Product(cs)
  {
    hide Product, Factor;
    var after := cs[i := y];
    assert after[..i] == cs[..i] && after[i + 1..] == cs[i + 1..] && after[i] == y;
    var p, q := Product(cs[..i]), Product(cs[i + 1..]);
    ProductAt(cs, i);
    ProductAt(after, i);
    ProductBounds(cs[..i]);
    ProductBounds(cs[i + 1..]);
    assert Ordinary(cs[i]);
    FactorFalls(cs[i], y);
    Positive(p, q);
    ScaleOrder(p * q, Factor(cs[i]), Factor(y));
  }

  lemma Positive(x: real, y: real)
    requires x > 0.0 && y > 0.0
    ensures x * y > 0.0
  {
  }

  lemma ScaleOrder(a: real, f: real, g: real)
    requires a > 0.0
    ensures a * g <= a * f <==> g <= f
  {
    if g <= f { ScaleLeq(a, g, f); } else { ScaleLeq(a, f, g); }
  }

  lemma FactorFalls(x: Contribution, y: Contribution)
    requires Ordinary(x) && Ordinary(y)
    ensures x.effective <= y.effective <==> Factor(y) <= Factor(x)
  {
  }

  // ---- the score of a growing list ---------------------------------------------------------------------

  lemma ContributionsAreOrdinary(ds: seq<Detection>)
    ensures forall c :: c in ContributionsOf(ds) ==> Ordinary(c)
  {
    forall c | c in ContributionsOf(ds) ensures Ordinary(c) {
      var i :| 0 <= i < |ds| && ContributionsOf(ds)[i] == c;
      EffectiveIsExact(ds[i]);
    }
  }

  /** Sorting the contributions for display does not touch the score. */
  lemma ScoreIgnoresOrder(a: seq<Contribution>, b: seq<Contribution>)
    requires multiset(a) == multiset(b)
    ensures ScoreOf(a) == ScoreOf(b)
  {
    ProductPermutes(a, b);
    assert forall c :: c in a <==> c in multiset(a);
    assert forall c :: c in b <==> c in multiset(b);
    assert Categories(a) == Categories(b);
    assert AllLow(a) == AllLow(b);
  }

  lemma ScoreOfDeduped(ds: seq<Detection>)
    requires ds != []
    ensures Score(ds).score == ScoreOf(ContributionsOf(Dedupe(ds)))
  {
    hide ScoreOf, AlertConfidence;
    ScoreIgnoresOrder(Breakdown(ds), ContributionsOf(Dedupe(ds)));
  }

  lemma DedupeNonEmpty(ds: seq<Detection>)
    ensures Dedupe(ds) == [] <==> ds == []
  {
    DedupeKeepsHighest(ds);
    if ds != [] { assert Covers(Dedupe(ds), ds[0]); }
  }

  /** The effect of one more detection on the contributions, before sorting. */
  lemma ContributionStep(ds: seq<Detection>, d: Detection)
    ensures var best := Dedupe(ds);
            var slot := Slot(best, d.ruleId);
            ContributionsOf(Dedupe(ds + [d])) ==
            if slot == |best| then ContributionsOf(best) + [ContributionOf(d)]
            else if d.score > best[slot].score then ContributionsOf(best)[slot := ContributionOf(d)]
            else ContributionsOf(best)
  {
    hide Slot;
    assert Front(ds + [d]) == ds && Last(ds + [d]) == d;
  }

  /** The score falls only if the new detection displaces an entry it may not take the place of. */
  lemma SafeAdditionNeverLowers(ds: seq<Detection>, d: Detection)
    requires SafeAddition(ds, d)
    ensures Score(ds + [d]).score >= Score(ds).score
  {
    hide ScoreOf, AlertConfidence, Score, Slot, Dedupe, ContributionsOf, Effective, Ordinary;
    if ds == [] {
      ScoreInRange([d]);
      assert ds + [d] == [d];
      NoScore();
    } else {
      var best := Dedupe(ds);
      var cs := ContributionsOf(best);
      ContributionStep(ds, d);
      ContributionsAreOrdinary(best);
      OrdinaryContribution(d);
      DedupeNonEmpty(ds);
      ScoreOfDeduped(ds);
      ScoreOfDeduped(ds + [d]);
      var slot := Slot(best, d.ruleId);
      if slot == |best| {
        AppendNeverLowers(cs, ContributionOf(d));
      } else if d.score > best[slot].score {
        ReplaceNeverLowers(cs, slot, ContributionOf(d));
      }
    }
  }

  lemma CompatibleIsSafe(ds: seq<Detection>, d: Detection)
    requires AllCompatible(ds + [d])
    ensures SafeAddition(ds, d)
  {
    hide Slot, Dedupe, Effective;
    var best := Dedupe(ds);
    var slot := Slot(best, d.ruleId);
    DedupeKeepsHighest(ds);
    if slot < |best| && d.score > best[slot].score {
      assert best[slot] in best && d in ds + [d];
      assert Compatible(best[slot], d);
      EffectiveMonotone(best[slot], d);
    }
  }

  /** The heart of the alert store: more evidence about a subject never lowers its score. */
  lemma AddingNeverLowersScore(ds: seq<Detection>, d: Detection)
    requires AllCompatible(ds + [d])
    ensures Score(ds + [d]).score >= Score(ds).score
  {
    hide *;
    CompatibleIsSafe(ds, d);
    SafeAdditionNeverLowers(ds, d);
  }

  lemma NoScore()
    ensures Score([]).score == 0
  {
  }

  lemma OrdinaryContribution(d: Detection)
    ensures Ordinary(ContributionOf(d))
  {
    EffectiveIsExact(d);
  }

  lemma EffectiveMonotone(a: Detection, b: Detection)
    requires a.score <= b.score && Rank(a.confidence) <= Rank(b.confidence)
    ensures Effective(a) <= Effective(b)
  {
  }

  /** The concrete failure: raw 40 at LOW confidence displaces raw 39 at HIGH, and 39 becomes 20. */
  lemma IncompatibleRuleLowersScore(d: Detection, e: Detection)
    requires d.ruleId == e.ruleId && d.category == e.category
    requires d.score == 39 && d.confidence == HIGH && e.score == 40 && e.confidence == LOW
    ensures Score([d]).score == 39 && Score([d, e]).score == 20
  {
    hide StableSort, Score, Breakdown, AlertConfidence;
    assert Front([d]) == [];
    SingleEntry([d], d);
    assert Front([d, e]) == [d] && Last([d, e]) == e;
    SingleEntry([d, e], e);
  }

  lemma SingleEntry(ds: seq<Detection>, d: Detection)
    requires Dedupe(ds) == [d] && ds != []
    ensures Score(ds).score ==
            var raw := Min(100, RoundHalfEven(Effective(d)));
            Min(if d.confidence == LOW then Min(raw, ALL_LOW_CAP) else raw, SINGLE_CATEGORY_CAP)
  {
    hide Dedupe, Slot, StableSort, Score, Breakdown, AlertConfidence, Effective;
    var cs := ContributionsOf([d]);
    ScoreOfDeduped(ds);
    EffectiveIsExact(d);
    assert cs == [ContributionOf(d)];
    assert Front(cs) == [];
    assert Product(cs) == Factor(ContributionOf(d));
    assert Categories(cs) == {d.category};
    assert cs[0] in cs;
  }

  lemma ScoreInRange(ds: seq<Detection>)
    ensures 0 <= Score(ds).score <= 100
  {
    hide Dedupe, StableSort, Breakdown, AlertConfidence, ContributionsOf, Product;
    if ds != [] {
      var best := Dedupe(ds);
      DedupeNonEmpty(ds);
      var cs := ContributionsOf(best);
      ScoreOfDeduped(ds);
      ContributionsAreOrdinary(best);
      ProductBounds(cs);
      assert cs[0] in cs && cs[0].category in Categories(cs);
      RoundMonotone(0.0, Combined(cs) + Bonus(|Categories(cs)|) as real);
    }
  }

  /** HIGH and CRITICAL need corroboration: two categories and something better than LOW confidence. */
  lemma SeriousNeedsCorroboration(ds: seq<Detection>)
    requires Score(ds).score >= 60
    ensures |Categories(Breakdown(ds))| >= 2
    ensures exists c :: c in Breakdown(ds) && c.confidence != LOW
    ensures SeverityBands.SeverityFor(Score(ds).score) in {SeverityBands.HIGH, SeverityBands.CRITICAL}
  {
    hide StableSort, Dedupe, ContributionsOf, Combined;
    var cs := Breakdown(ds);
    DedupeNonEmpty(ds);
    SortMembers(ContributionsOf(Dedupe(ds)), Stronger);
    assert cs[0] in cs && cs[0].category in Categories(cs);
  }

  // ---- arrival order does not matter -------------------------------------------------------------------

  /** A contribution without the identity of the detection that happens to represent its rule. */
  function Strip(c: Contribution): Contribution {
    c.(detectionId := 0)
  }

  function StripAll(cs: seq<Contribution>): (r: seq<Contribution>)
    ensures |r| == |cs| && forall i :: 0 <= i < |cs| ==> r[i] == Strip(cs[i])
  {
    if cs == [] then [] else StripAll(Front(cs)) + [Strip(Last(cs))]
  }

  ghost predicate SameDetections(a: seq<Detection>, b: seq<Detection>) {
    forall d :: d in a <==> d in b
  }

  ghost predicate OncePerRule(cs: seq<Contribution>) {
    forall i, j :: 0 <= i < j < |cs| ==> cs[i].ruleId != cs[j].ruleId
  }

  lemma StrongerIsTotal()
    ensures TotalPreorder(Stronger)
  {
  }

  /** x scores as high as anything its rule has in a: some order of arrival makes it represent the rule. */
  ghost predicate IsTop(a: seq<Detection>, x: Detection) {
    x in a && forall y :: y in a && y.ruleId == x.ruleId ==> y.score <= x.score
  }

  /** The highest-scoring detections of a rule do not differ in what a contribution shows. */
  ghost predicate TopTiesAgree(a: seq<Detection>) {
    forall x, y :: IsTop(a, x) && IsTop(a, y) && x.ruleId == y.ruleId ==>
      x.category == y.category && x.confidence == y.confidence
  }

  lemma RepresentativeIsTop(a: seq<Detection>, x: Detection)
    requires x in Dedupe(a)
    ensures IsTop(a, x)
  {
    hide Dedupe, Slot;
    DedupeKeepsHighest(a);
    var i :| 0 <= i < |Dedupe(a)| && Dedupe(a)[i] == x;
    forall y | y in a && y.ruleId == x.ruleId ensures y.score <= x.score {
      assert Covers(Dedupe(a), y);
      var j :| 0 <= j < |Dedupe(a)| && Dedupe(a)[j].ruleId == y.ruleId && Dedupe(a)[j].score >= y.score;
      assert i == j;
    }
  }

  lemma SameContribution(x: Detection, y: Detection)
    requires x.ruleId == y.ruleId && x.score == y.score && x.category == y.category && x.confidence == y.confidence
    ensures Strip(ContributionOf(x)) == Strip(ContributionOf(y))
  {
  }

  /** Every rule is represented in either list by detections that differ in their identity at most. */
  lemma RepresentativesAgree(a: seq<Detection>, b: seq<Detection>, x: Detection) returns (y: Detection)
    requires SameDetections(a, b) && TopTiesAgree(a) && x in Dedupe(a)
    ensures y in Dedupe(b) && Strip(ContributionOf(x)) == Strip(ContributionOf(y))
  {
    hide Dedupe, Slot, Strip, ContributionOf;
    RepresentativeIsTop(a, x);
    DedupeKeepsHighest(b);
    assert x in b && Covers(Dedupe(b), x);
    var i :| 0 <= i < |Dedupe(b)| && Dedupe(b)[i].ruleId == x.ruleId && Dedupe(b)[i].score >= x.score;
    y := Dedupe(b)[i];
    RepresentativeIsTop(b, y);
    assert IsTop(a, y);
    SameContribution(x, y);
  }

  lemma BreakdownShape(ds: seq<Detection>)
    ensures SortedBy(Breakdown(ds), Stronger) && OncePerRule(Breakdown(ds))
    ensures forall c :: c in Breakdown(ds) <==> c in ContributionsOf(Dedupe(ds))
  {
    hide StableSort, Dedupe, Slot, Stronger, ContributionOf;
    var cs := ContributionsOf(Dedupe(ds));
    DedupeKeepsHighest(ds);
    OnceEach(Dedupe(ds));
    StrongerIsTotal();
    StableSortSorted(cs, Stronger);
    SortMembers(cs, Stronger);
    SortDistinct(cs, Stronger);
    var sorted := Breakdown(ds);
    forall i, j | 0 <= i < j < |sorted| ensures sorted[i].ruleId != sorted[j].ruleId {
      assert sorted[i] in cs && sorted[j] in cs;
    }
  }

  lemma OnceEach(best: seq<Detection>)
    requires DistinctRules(best)
    ensures OncePerRule(ContributionsOf(best)) && NoDuplicates(ContributionsOf(best))
  {
  }

  lemma ContributionMembers(best: seq<Detection>)
    ensures forall c :: c in ContributionsOf(best) <==> exists x :: x in best && c == ContributionOf(x)
  {
    hide ContributionOf;
    var cs := ContributionsOf(best);
    forall c | c in cs ensures exists x :: x in best && c == ContributionOf(x) {
      var k :| 0 <= k < |cs| && cs[k] == c;
      assert best[k] in best;
    }
    forall x | x in best ensures ContributionOf(x) in cs {
      var k :| 0 <= k < |best| && best[k] == x;
      assert cs[k] in cs;
    }
  }

  lemma StripKeepsOrder(cs: seq<Contribution>)
    requires SortedBy(cs, Stronger) && OncePerRule(cs)
    ensures SortedBy(StripAll(cs), Stronger) && OncePerRule(StripAll(cs))
  {
    hide StripAll;
  }

  lemma StripMembers(cs: seq<Contribution>)
    ensures forall c :: c in StripAll(cs) <==> exists x :: x in cs && c == Strip(x)
  {
    hide StripAll, Strip;
    var s := StripAll(cs);
    forall c | c in s ensures exists x :: x in cs && c == Strip(x) {
      var k :| 0 <= k < |s| && s[k] == c;
      assert cs[k] in cs;
    }
    forall x | x in cs ensures Strip(x) in s {
      var k :| 0 <= k < |cs| && cs[k] == x;
      assert s[k] in s;
    }
  }

  lemma BreakdownIsSorted(ds: seq<Detection>)
    ensures var s := StripAll(Breakdown(ds));
            && SortedBy(s, Stronger) && OncePerRule(s)
            && forall c :: c in s <==> exists x :: x in Dedupe(ds) && c == Strip(ContributionOf(x))
  {
    hide *;
    BreakdownShape(ds);
    StripKeepsOrder(Breakdown(ds));
    StripMembers(Breakdown(ds));
    ContributionMembers(Dedupe(ds));
  }

  /** A strictly ordered list is determined by its members. */
  lemma {:induction false} SortedOnce(s: seq<Contribution>, t: seq<Contribution>)
    requires SortedBy(s, Stronger) && OncePerRule(s) && SortedBy(t, Stronger) && OncePerRule(t)
    requires forall c :: c in s <==> c in t
    ensures s == t
  {
    EmptyTogether(s, t);
    if s == [] {
    } else {
      assert Last(s) in t;
      var j :| 0 <= j < |t| && t[j] == Last(s);
      assert Last(t) in s;
      var i :| 0 <= i < |s| && s[i] == Last(t);
      assert i == |s| - 1;
      forall c ensures c in Front(s) <==> c in Front(t) {
        assert c in s <==> c in Front(s) || c == Last(s);
        assert c in t <==> c in Front(t) || c == Last(t);
        assert Last(s) !in Front(s) && Last(t) !in Front(t);
      }
      SortedOnce(Front(s), Front(t));
    }
  }

  lemma {:induction false} StripKeepsProduct(cs: seq<Contribution>)
    ensures Product(StripAll(cs)) == Product(cs)
  {
    if cs == [] {
    } else {
      StripKeepsProduct(Front(cs));
      assert Front(StripAll(cs)) == StripAll(Front(cs));
    }
  }

  lemma {:induction false} StripKeepsHigh(cs: seq<Contribution>)
    ensures Filter(StripAll(cs), IsHigh) == StripAll(Filter(cs, IsHigh))
  {
    if cs == [] {
    } else {
      StripKeepsHigh(Front(cs));
      var f := Filter(Front(cs), IsHigh);
      assert Front(StripAll(cs)) == StripAll(Front(cs));
      if IsHigh(Last(cs)) {
        assert Front(f + [Last(cs)]) == f;
      } else {
        assert f + [] == f;
      }
    }
  }

  lemma StripKeepsCategories(cs: seq<Contribution>)
    ensures Categories(StripAll(cs)) == Categories(cs)
    ensures AllLow(StripAll(cs)) == AllLow(cs)
  {
    var s := StripAll(cs);
    forall i | 0 <= i < |cs| ensures cs[i].category in Categories(s) && s[i].category in Categories(cs) {
      assert s[i] in s && cs[i] in cs;
    }
    if AllLow(s) {
      forall c | c in cs ensures c.confidence == LOW {
        var i :| 0 <= i < |cs| && cs[i] == c;
        assert s[i] in s;
      }
    }
  }

  /** Equal in score, alert confidence and ordered breakdown, the id standing for a tie aside. */
  ghost predicate SameRisk(a: RiskScore, b: RiskScore) {
    a.score == b.score && a.confidence == b.confidence && StripAll(a.contributions) == StripAll(b.contributions)
  }

  /** Then the risk depends only on which detections there are, not on their order or repetition. */
  lemma OrderDoesNotMatter(a: seq<Detection>, b: seq<Detection>)
    requires SameDetections(a, b) && TopTiesAgree(a)
    ensures SameRisk(Score(a), Score(b))
  {
    hide ScoreOf, AlertConfidence, Dedupe, StableSort, Breakdown, Slot, OncePerRule, SortedBy, TopTiesAgree;
    EmptyTogether(a, b);
    if a != [] {
      BreakdownIsSorted(a);
      BreakdownIsSorted(b);
      TiesOfSame(a, b);
      forall c ensures c in StripAll(Breakdown(a)) <==> c in StripAll(Breakdown(b)) {
        if x :| x in Dedupe(a) && c == Strip(ContributionOf(x)) { var y := RepresentativesAgree(a, b, x); }
        if y :| y in Dedupe(b) && c == Strip(ContributionOf(y)) { var x := RepresentativesAgree(b, a, y); }
      }
      SortedOnce(StripAll(Breakdown(a)), StripAll(Breakdown(b)));
      StripKeepsScore(Breakdown(a));
      StripKeepsScore(Breakdown(b));
    }
  }

  lemma TiesOfSame(a: seq<Detection>, b: seq<Detection>)
    requires SameDetections(a, b) && TopTiesAgree(a)
    ensures TopTiesAgree(b)
  {
    forall x, y | IsTop(b, x) && IsTop(b, y) && x.ruleId == y.ruleId
      ensures x.category == y.category && x.confidence == y.confidence
    {
      assert IsTop(a, x) && IsTop(a, y);
    }
  }

  /** A top detection that arrives first keeps representing its rule. */
  lemma {:induction false} FirstTopStays(x: Detection, a: seq<Detection>)
    requires forall y :: y in a && y.ruleId == x.ruleId ==> y.score <= x.score
    ensures x in Dedupe([x] + a)
  {
    if a == [] {
      assert [x] + a == [x] && Front([x]) == [];
      assert Dedupe([x]) == [x];
    } else {
      var before := [x] + Front(a);
      assert Front([x] + a) == before && Last([x] + a) == Last(a);
      assert forall y :: y in Front(a) ==> y in a;
      assert Last(a) in a;
      FirstTopStays(x, Front(a));
      DedupeKeepsHighest(before);
      EntryStays(Dedupe(before), x, Last(a));
    }
  }

  lemma EntryStays(best: seq<Detection>, x: Detection, d: Detection)
    requires DistinctRules(best) && x in best && (d.ruleId == x.ruleId ==> d.score <= x.score)
    ensures x in KeepHighest(best, d)
  {
    hide Slot;
    var i :| 0 <= i < |best| && best[i] == x;
    var slot := Slot(best, d.ruleId);
    assert KeepHighest(best, d)[i] == x;
  }

  lemma FirstTopRepresents(a: seq<Detection>, x: Detection)
    requires IsTop(a, x)
    ensures SameDetections(a, [x] + a) && Strip(ContributionOf(x)) in StripAll(Breakdown([x] + a))
    ensures Score([x] + a).contributions == Breakdown([x] + a) && OncePerRule(StripAll(Breakdown([x] + a)))
  {
    hide Breakdown, StripAll, OncePerRule, SortedBy, ContributionOf;
    FirstTopStays(x, a);
    BreakdownIsSorted([x] + a);
  }

  /** Order does not matter exactly when the top detections of each rule agree. */
  lemma OrderDoesNotMatterExactlyWhen(a: seq<Detection>)
    ensures TopTiesAgree(a) <==> forall b :: SameDetections(a, b) ==> SameRisk(Score(a), Score(b))
  {
    hide Score, SameDetections, Breakdown;
    if TopTiesAgree(a) {
      forall b | SameDetections(a, b) ensures SameRisk(Score(a), Score(b)) {
        OrderDoesNotMatter(a, b);
      }
    }
    if forall b :: SameDetections(a, b) ==> SameRisk(Score(a), Score(b)) {
      forall x, y | IsTop(a, x) && IsTop(a, y) && x.ruleId == y.ruleId
        ensures x.category == y.category && x.confidence == y.confidence
      {
        FirstTopRepresents(a, x);
        FirstTopRepresents(a, y);
        assert SameRisk(Score(a), Score([x] + a)) && SameRisk(Score(a), Score([y] + a));
        OnceMeansSame(StripAll(Breakdown([x] + a)), Strip(ContributionOf(x)), Strip(ContributionOf(y)));
      }
    }
  }

  lemma OnceMeansSame(cs: seq<Contribution>, c: Contribution, d: Contribution)
    requires OncePerRule(cs) && c in cs && d in cs && c.ruleId == d.ruleId
    ensures c == d
  {
  }

  lemma CompatibleTiesAgree(a: seq<Detection>)
    requires AllCompatible(a)
    ensures TopTiesAgree(a)
  {
    forall x, y | IsTop(a, x) && IsTop(a, y) && x.ruleId == y.ruleId
      ensures x.category == y.category && x.confidence == y.confidence
    {
      assert Compatible(x, y);
    }
  }

  /** In particular order does not matter for rules that keep to the hypothesis. */
  lemma OrderDoesNotMatterForCompatible(a: seq<Detection>, b: seq<Detection>)
    requires SameDetections(a, b) && AllCompatible(a)
    ensures SameRisk(Score(a), Score(b))
  {
    hide *;
    CompatibleTiesAgree(a);
    OrderDoesNotMatter(a, b);
  }

  lemma StripKeepsScore(cs: seq<Contribution>)
    ensures ScoreOf(StripAll(cs)) == ScoreOf(cs)
    ensures AlertConfidence(StripAll(cs)) == AlertConfidence(cs)
  {
    hide Product, Filter, Categories, AllLow;
    StripKeepsProduct(cs);
    StripKeepsHigh(cs);
    StripKeepsCategories(cs);
    StripKeepsCategories(Filter(cs, IsHigh));
  }
}
