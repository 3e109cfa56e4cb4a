/**
 * Exactly when one more detection can lower a score: src/threatlens/detection/scoring.py keeps, per rule,
 * the detection with the highest raw score, and that one may count for less than the one it displaces.
 */
module ScoreFalls {
  import opened Collections
  import opened Scoring

  /** x is the entry of its rule among the de-duplicated detections. */
  ghost predicate Represents(ds: seq<Detection>, x: Detection) {
    x in Dedupe(ds)
  }

  // ---- scores of short lists -------------------------------------------------------------------------------

  lemma {:induction false} DistinctStay(ds: seq<Detection>)
    requires DistinctRules(ds)
    ensures Dedupe(ds) == ds
  {
    hide Slot;
    if ds == [] {
    } else {
      DistinctStay(Front(ds));
      assert Slot(Front(ds), Last(ds).ruleId) == |ds| - 1;
      assert ds == Front(ds) + [Last(ds)];
    }
  }

  /** The first entry is displaced by a later detection of its rule with a higher raw score. */
  lemma FirstDisplaced(ds: seq<Detection>, d: Detection)
    requires ds != [] && DistinctRules(ds) && d.ruleId == ds[0].ruleId && d.score > ds[0].score
    ensures Dedupe(ds + [d]) == ds[0 := d]
  {
    hide Slot;
    DistinctStay(ds);
    assert Front(ds + [d]) == ds;
    assert Slot(ds, d.ruleId) == 0;
  }

  lemma ProductOfTwo(a: Contribution, b: Contribution)
    ensures Product([a, b]) == Factor(a) * Factor(b)
  {
    hide Product, Factor;
    assert Front([a, b]) == [a] && Front([a]) == [];
    LastFactor([a, b]);
    LastFactor([a]);
    EmptyProduct();
  }

  lemma ProductOfThree(a: Contribution, b: Contribution, c: Contribution)
    ensures Product([a, b, c]) == (Factor(a) * Factor(b)) * Factor(c)
  {
    hide Product, Factor;
    assert Front([a, b, c]) == [a, b];
    LastFactor([a, b, c]);
    ProductOfTwo(a, b);
  }

  lemma TwoMembers(a: Contribution, b: Contribution)
    ensures Categories([a, b]) == {a.category, b.category}
    ensures AllLow([a, b]) <==> a.confidence == LOW && b.confidence == LOW
  {
    assert [a, b][0] in [a, b] && [a, b][1] in [a, b];
  }

  lemma ThreeMembers(a: Contribution, b: Contribution, c: Contribution)
    ensures Categories([a, b, c]) == {a.category, b.category, c.category}
    ensures AllLow([a, b, c]) <==> a.confidence == LOW && b.confidence == LOW && c.confidence == LOW
  {
    var cs := [a, b, c];
    assert cs[0] in cs && cs[1] in cs && cs[2] in cs;
  }

  /** The combined value of two effective contributions. */
  function Pair(e: real, f: real): real {
    100.0 - (100.0 - e) * (100.0 - f) / 100.0
  }

  /** The score of two entries, in terms of their effective contributions. */
  lemma ScoreOfTwo(x: Detection, y: Detection)
    requires x.ruleId != y.ruleId
    ensures Score([x, y]).score == Capped(Pair(Effective(x), Effective(y)),
                                          {x.category, y.category}, x.confidence == LOW && y.confidence == LOW)
  {
    hide Score, Dedupe, ContributionsOf, Categories, AllLow, Product, Factor, RoundHalfEven, Effective, Pair;
    DistinctStay([x, y]);
    ScoreOfDeduped([x, y]);
    var a, b := ContributionOf(x), ContributionOf(y);
    assert ContributionsOf([x, y]) == [a, b];
    ProductOfTwo(a, b);
    TwoMembers(a, b);
    FactorOf(x);
    FactorOf(y);
    TwoCombined(Effective(x), Effective(y), Factor(a), Factor(b), Product([a, b]));
  }

  lemma TwoCombined(e: real, f: real, p: real, q: real, product: real)
    requires p == 1.0 - e / 100.0 && q == 1.0 - f / 100.0 && product == p * q
    ensures 100.0 * (1.0 - product) == Pair(e, f)
  {
    assert 100.0 - e == 100.0 * p && 100.0 - f == 100.0 * q;
  }

  /** Rounding, bonus and caps, as ScoreOf applies them. */
  function Capped(combined: real, categories: set<Category>, low: bool): int {
    var raw := Min(100, RoundHalfEven(combined + Bonus(|categories|) as real));
    var s := if low then Min(raw, ALL_LOW_CAP) else raw;
    if |categories| == 1 then Min(s, SINGLE_CATEGORY_CAP) else s
  }

  lemma FactorOf(x: Detection)
    ensures Factor(ContributionOf(x)) == 1.0 - Effective(x) / 100.0
    ensures 0.4 <= Factor(ContributionOf(x)) <= 1.0
  {
    EffectiveIsExact(x);
  }

  // ---- the three ways to fall ----------------------------------------------------------------------------------

  /** A detection of another rule about the same subject. */
  function Companion(x: Detection, n: nat, category: Category, score: RuleScore, confidence: Confidence): Detection {
    Detection(0, x.ruleId + n, category, score, confidence, x.processKey, x.exe)
  }

  /** Some category other than the given one. */
  function Another(c: Category): Category {
    if c == ORIGIN then NETWORK else ORIGIN
  }

  /** A second category is lost: with it go the bonus and the way past the cap for a single one. */
  lemma LosingACategoryLowers(x: Detection, d: Detection)
    requires x.ruleId == d.ruleId && d.score > x.score && x.category != d.category
    ensures var ds := [x, Companion(x, 1, d.category, 60, HIGH)];
            Represents(ds, x) && Score(ds + [d]).score < Score(ds).score
  {
    hide Score, Dedupe, Slot, Effective, Pair;
    var y := Companion(x, 1, d.category, 60, HIGH);
    DistinctStay([x, y]);
    DisplacedScore([x, y], d);
    assert [x, y][0 := d] == [d, y];
    ScoreOfTwo(x, y);
    ScoreOfTwo(d, y);
    EffectiveIsExact(x);
    assert Effective(y) == 60.0 by { EffectiveOfTop(y); }
    BesideSixty(Effective(x), Effective(y));
    RoundMonotone(65.0, Pair(Effective(x), Effective(y)) + 5.0);
    assert |{x.category, y.category}| == 2 && |{d.category, y.category}| == 1;
  }

  lemma BesideSixty(e: real, f: real)
    requires e >= 0.0 && f == 60.0
    ensures Pair(e, f) + 5.0 >= 65.0
  {
  }

  lemma EffectiveOfTop(y: Detection)
    requires y.score == 60
    ensures y.confidence == HIGH ==> Effective(y) == 60.0
    ensures y.confidence == LOW ==> Effective(y) == 30.0
  {
  }

  lemma DisplacedScore(ds: seq<Detection>, d: Detection)
    requires ds != [] && DistinctRules(ds) && d.ruleId == ds[0].ruleId && d.score > ds[0].score
    ensures Score(ds + [d]).score == Score(ds[0 := d]).score
  {
    hide Score, Dedupe, ContributionsOf, ScoreOf;
    FirstDisplaced(ds, d);
    DistinctStay(ds[0 := d]);
    ScoreOfDeduped(ds + [d]);
    ScoreOfDeduped(ds[0 := d]);
  }

  /** The last contribution above LOW is lost: everything is capped as LOW. */
  lemma LosingConfidenceLowers(x: Detection, d: Detection)
    requires x.ruleId == d.ruleId && d.score > x.score && d.confidence == LOW && x.confidence != LOW
    ensures var ds := [x, Companion(x, 1, x.category, 60, LOW), Companion(x, 2, x.category, 60, LOW)];
            Represents(ds, x) && Score(ds + [d]).score < Score(ds).score
  {
    hide Score, Dedupe, Slot, ContributionsOf, ContributionOf, ScoreOf;
    var y, z := Companion(x, 1, x.category, 60, LOW), Companion(x, 2, x.category, 60, LOW);
    var ds := [x, y, z];
    DistinctStay(ds);
    DisplacedScore(ds, d);
    assert ds[0 := d] == [d, y, z];
    AboveTwoLow(x, y, z);
    AllLowIsCapped(d, y, z);
  }

  lemma AboveTwoLow(x: Detection, y: Detection, z: Detection)
    requires DistinctRules([x, y, z]) && x.confidence != LOW && x.category == y.category == z.category
    requires y.score == z.score == 60 && y.confidence == z.confidence == LOW
    ensures Score([x, y, z]).score >= 51
  {
    hide Score, Dedupe, ContributionsOf, Categories, AllLow, Product, Factor, Effective, RoundHalfEven;
    DistinctStay([x, y, z]);
    ScoreOfDeduped([x, y, z]);
    var a, b, c := ContributionOf(x), ContributionOf(y), ContributionOf(z);
    assert ContributionsOf([x, y, z]) == [a, b, c];
    ProductOfThree(a, b, c);
    ThreeMembers(a, b, c);
    FactorOf(x);
    FactorOf(y);
    FactorOf(z);
    EffectiveOfTop(y);
    EffectiveOfTop(z);
    AtMostHalf(Factor(a), Factor(b), Factor(c));
    assert {a.category, b.category, c.category} == {x.category};
    RoundMonotone(51.0, Combined([a, b, c]) + Bonus(1) as real);
    assert RoundHalfEven(51.0) == 51 by { RoundIsNearest(51.0); }
  }

  lemma AtMostHalf(p: real, q: real, r: real)
    requires p <= 1.0 && q == r == 0.7
    ensures 100.0 * (1.0 - (p * q) * r) >= 51.0
  {
  }

  lemma AllLowIsCapped(x: Detection, y: Detection, z: Detection)
    requires DistinctRules([x, y, z]) && x.confidence == y.confidence == z.confidence == LOW
    ensures Score([x, y, z]).score <= ALL_LOW_CAP
  {
    hide Score, Dedupe, ContributionsOf, Categories, AllLow, Combined, RoundHalfEven;
    DistinctStay([x, y, z]);
    ScoreOfDeduped([x, y, z]);
    assert ContributionsOf([x, y, z]) == [ContributionOf(x), ContributionOf(y), ContributionOf(z)];
    ThreeMembers(ContributionOf(x), ContributionOf(y), ContributionOf(z));
  }

  /** With category and confidence kept above LOW, only a HIGH entry displaced by a MEDIUM one can count for less. */
  lemma OnlyHighToMedium(x: Detection, d: Detection)
    requires d.score > x.score && Effective(d) < Effective(x) && !(d.confidence == LOW && x.confidence != LOW)
    ensures x.confidence == HIGH && d.confidence == MEDIUM
    ensures Effective(x) == x.score as real && 4.0 * Effective(d) == 3.0 * d.score as real
    ensures 3 * d.score < 4 * x.score
  {
  }

  /** One other HIGH contribution of raw score 34 or 1 puts a rounding boundary between the two. */
  function Probe(x: Detection, d: Detection): RuleScore {
    if x.score <= 25 && 3 * d.score == 4 * x.score - 1 then 34 else 1
  }

  lemma RoundsUpTo(x: real, n: int)
    requires x > n as real - 0.5 || (x == n as real - 0.5 && n % 2 == 0)
    ensures RoundHalfEven(x) >= n
  {
  }

  lemma RoundsBelow(x: real, n: int)
    requires x < n as real - 0.5
    ensures RoundHalfEven(x) < n
  {
  }

  /** The combined score, with bonus, of an effective contribution e beside the probe. */
  function Beside(e: real, probe: int): real {
    Pair(e, probe as real) + 5.0
  }

  lemma SeparatedBy1(s: int, t: int)
    requires 0 <= s < t <= 60 && 3 * t < 4 * s && !(s <= 25 && 3 * t == 4 * s - 1)
    ensures RoundHalfEven(Beside(0.75 * t as real, 1)) < RoundHalfEven(Beside(s as real, 1))
  {
    hide RoundHalfEven;
    var n := if s <= 50 then s + 6 else 56;
    assert Beside(s as real, 1) == 6.0 + 0.99 * s as real && Beside(0.75 * t as real, 1) == 6.0 + 0.7425 * t as real;
    RoundsUpTo(Beside(s as real, 1), n);
    RoundsBelow(Beside(0.75 * t as real, 1), n);
  }

  lemma SeparatedBy34(s: int, t: int)
    requires 0 <= s < t <= 60 && s <= 25 && 3 * t == 4 * s - 1
    ensures RoundHalfEven(Beside(0.75 * t as real, 34)) < RoundHalfEven(Beside(s as real, 34))
  {
    hide RoundHalfEven;
    var k := s / 3;
    assert s == 3 * k + 1 && t == 4 * k + 1;
    var n := 40 + 2 * k;
    assert Beside(s as real, 34) == 39.66 + 1.98 * k as real;
    assert Beside(0.75 * t as real, 34) == 39.495 + 1.98 * k as real;
    RoundsUpTo(Beside(s as real, 34), n);
    RoundsBelow(Beside(0.75 * t as real, 34), n);
  }

  /** A score beside the probe: two categories, one of them HIGH, and far from the overall cap. */
  lemma ScoreBeside(x: Detection, y: Detection)
    requires x.ruleId != y.ruleId && x.category != y.category && y.confidence == HIGH && y.score <= 34
    ensures Score([x, y]).score == RoundHalfEven(Beside(Effective(x), y.score))
  {
    hide Score, Effective, RoundHalfEven, Pair;
    ScoreOfTwo(x, y);
    EffectiveOfHigh(y);
    EffectiveIsExact(x);
    assert |{x.category, y.category}| == 2;
    BesideInRange(Effective(x), y.score);
  }

  lemma EffectiveOfHigh(y: Detection)
    requires y.confidence == HIGH
    ensures Effective(y) == y.score as real
  {
  }

  lemma BesideInRange(e: real, probe: int)
    requires 0.0 <= e <= 60.0 && 0 <= probe <= 34
    ensures RoundHalfEven(Beside(e, probe)) <= 100
  {
    RoundMonotone(Beside(e, probe), 100.0);
  }

  /** The entry counts for less, and beside the probe the score shows it. */
  lemma CountingLessLowers(x: Detection, d: Detection)
    requires x.ruleId == d.ruleId && d.score > x.score && Effective(d) < Effective(x)
    requires x.category == d.category && !(d.confidence == LOW && x.confidence != LOW)
    ensures var ds := [x, Companion(x, 1, Another(x.category), Probe(x, d), HIGH)];
            Represents(ds, x) && Score(ds + [d]).score < Score(ds).score
  {
    hide Score, Dedupe, Slot, Effective, RoundHalfEven, Beside;
    var y := Companion(x, 1, Another(x.category), Probe(x, d), HIGH);
    DistinctStay([x, y]);
    DisplacedScore([x, y], d);
    assert [x, y][0 := d] == [d, y];
    ScoreBeside(x, y);
    ScoreBeside(d, y);
    OnlyHighToMedium(x, d);
    assert Effective(d) == 0.75 * d.score as real;
    if Probe(x, d) == 34 {
      SeparatedBy34(x.score, d.score);
    } else {
      SeparatedBy1(x.score, d.score);
    }
  }

  // ---- the exact condition -----------------------------------------------------------------------------------

  /**
   * Whether a rule's new top detection d can lower the score depends on the entry x it displaces: in no
   * context at all exactly when d is in x's category, counts for no less, and is LOW only if x was.
   */
  lemma NeverLowersExactlyWhen(x: Detection, d: Detection)
    requires x.ruleId == d.ruleId && d.score > x.score
    ensures SafeReplacement(x, d) <==> forall ds :: Represents(ds, x) ==> Score(ds + [d]).score >= Score(ds).score
  {
    hide Score, Effective, Dedupe;
    if SafeReplacement(x, d) {
      forall ds | Represents(ds, x) ensures Score(ds + [d]).score >= Score(ds).score {
        SafeInContext(ds, x, d);
      }
    } else if x.category != d.category {
      LosingACategoryLowers(x, d);
    } else if d.confidence == LOW && x.confidence != LOW {
      LosingConfidenceLowers(x, d);
    } else {
      CountingLessLowers(x, d);
    }
  }

  lemma SafeInContext(ds: seq<Detection>, x: Detection, d: Detection)
    requires x.ruleId == d.ruleId && Represents(ds, x) && SafeReplacement(x, d)
    ensures Score(ds + [d]).score >= Score(ds).score
  {
    hide Score, Effective, Dedupe, SafeReplacement, Slot;
    DedupeKeepsHighest(ds);
    var best := Dedupe(ds);
    var i :| 0 <= i < |best| && best[i] == x;
    assert Slot(best, d.ruleId) == i;
    SafeAdditionNeverLowers(ds, d);
  }

  /** In any list the score falls only by such a displacement. */
  lemma FallsOnlyWhen(ds: seq<Detection>, d: Detection)
    requires Score(ds + [d]).score < Score(ds).score
    ensures exists x :: Represents(ds, x) && x.ruleId == d.ruleId && d.score > x.score && !SafeReplacement(x, d)
  {
    hide Score, Effective, Dedupe, SafeReplacement, Slot;
    if SafeAddition(ds, d) {
      SafeAdditionNeverLowers(ds, d);
    } else {
      var x := Dedupe(ds)[Slot(Dedupe(ds), d.ruleId)];
      assert Represents(ds, x);
    }
  }
}
