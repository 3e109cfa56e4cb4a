/**
 * What the rules in src/threatlens/detection/rules/ can report: each rule's category, base score and
 * confidence, and the scores and confidences with which it overrides them.
 */
module ShippedRules {
  import opened Collections
  import opened Scoring
  import ScoreMeaning
  import SeverityBands
  import opened Alerting

  datatype Rule =
    | FILE_001
    | NET_001 | NET_002 | NET_003 | NET_004
    | PERSIST_001 | PERSIST_002
    | PROC_001 | PROC_002 | PROC_003 | PROC_004 | PROC_005 | PROC_006 | PROC_007 | PROC_008
    | SIG_001
    | TREE_001

  datatype Metadata = Metadata(category: Category, baseScore: RuleScore, confidence: Confidence)

  /** The score and confidence given to result, where they are given. */
  datatype Override = Override(score: Option<RuleScore>, confidence: Option<Confidence>)

  const DEFAULT := Override(None, None)

  /** The rules in order of their identifiers. */
  function IdOf(r: Rule): nat {
    match r
    case FILE_001 => 0
    case NET_001 => 1
    case NET_002 => 2
    case NET_003 => 3
    case NET_004 => 4
    case PERSIST_001 => 5
    case PERSIST_002 => 6
    case PROC_001 => 7
    case PROC_002 => 8
    case PROC_003 => 9
    case PROC_004 => 10
    case PROC_005 => 11
    case PROC_006 => 12
    case PROC_007 => 13
    case PROC_008 => 14
    case SIG_001 => 15
    case TREE_001 => 16
  }

  function MetadataOf(r: Rule): Metadata {
    match r
    case FILE_001 => Metadata(PERSISTENCE, 30, MEDIUM)
    case NET_001 => Metadata(NETWORK, 10, LOW)
    case NET_002 => Metadata(NETWORK, 20, LOW)
    case NET_003 => Metadata(NETWORK, 20, LOW)
    case NET_004 => Metadata(NETWORK, 10, LOW)
    case PERSIST_001 => Metadata(PERSISTENCE, 30, MEDIUM)
    case PERSIST_002 => Metadata(PERSISTENCE, 35, MEDIUM)
    case PROC_001 => Metadata(ORIGIN, 20, MEDIUM)
    case PROC_002 => Metadata(SIGNATURE, 15, LOW)
    case PROC_003 => Metadata(LINEAGE, 25, MEDIUM)
    case PROC_004 => Metadata(NETWORK, 20, MEDIUM)
    case PROC_005 => Metadata(MASQUERADE, 45, HIGH)
    case PROC_006 => Metadata(EXECUTION, 35, MEDIUM)
    case PROC_007 => Metadata(EXECUTION, 35, MEDIUM)
    case PROC_008 => Metadata(MASQUERADE, 40, HIGH)
    case SIG_001 => Metadata(SIGNATURE, 45, HIGH)
    case TREE_001 => Metadata(LINEAGE, 30, MEDIUM)
  }

  /** Every override in the code of a rule. */
  function OverridesOf(r: Rule): set<Override> {
    match r
    case FILE_001 => {Override(Some(30), Some(MEDIUM)), Override(Some(20), Some(LOW))}
    case PERSIST_001 => {Override(Some(20), Some(LOW)), Override(Some(30), Some(MEDIUM))}
    case PERSIST_002 => {Override(Some(20), Some(LOW)), Override(Some(35), Some(MEDIUM))}
    case PROC_006 => {Override(Some(30), None), Override(Some(35), None)}
    case SIG_001 => {Override(Some(45), Some(HIGH)), Override(Some(10), Some(LOW)), Override(Some(30), Some(MEDIUM))}
    case _ => {DEFAULT}
  }

  /** result: an override can lower the base score but not raise it. */
  function ScoreWith(m: Metadata, o: Override): RuleScore {
    if o.score.None? then m.baseScore else Min(o.score.value, m.baseScore)
  }

  function ConfidenceWith(m: Metadata, o: Override): Confidence {
    if o.confidence.None? then m.confidence else o.confidence.value
  }

  predicate Reports(r: Rule, o: Override, d: Detection) {
    && d.ruleId == IdOf(r)
    && o in OverridesOf(r)
    && d.category == MetadataOf(r).category
    && d.score == ScoreWith(MetadataOf(r), o)
    && d.confidence == ConfidenceWith(MetadataOf(r), o)
  }

  /** A detection that one of the rules can report. */
  ghost predicate IsShipped(d: Detection) {
    exists r, o :: Reports(r, o, d)
  }

  lemma SameIdSameRule(r: Rule, q: Rule)
    requires IdOf(r) == IdOf(q)
    ensures r == q
  {
  }

  /** No rule lowers its confidence when it raises its score. */
  lemma ConfidenceFollowsScore(r: Rule, o: Override, p: Override)
    requires o in OverridesOf(r) && p in OverridesOf(r)
    ensures var m := MetadataOf(r);
            && (ScoreWith(m, o) < ScoreWith(m, p) ==> Rank(ConfidenceWith(m, o)) <= Rank(ConfidenceWith(m, p)))
            && (ScoreWith(m, o) == ScoreWith(m, p) ==> ConfidenceWith(m, o) == ConfidenceWith(m, p))
  {
  }

  /** The hypothesis of scoring and alerting holds of any two detections the rules can report. */
  lemma ShippedRulesAreCompatible(a: Detection, b: Detection)
    requires IsShipped(a) && IsShipped(b)
    ensures Compatible(a, b)
  {
    hide IdOf, MetadataOf, OverridesOf, ScoreWith, ConfidenceWith, Rank;
    var r, o :| Reports(r, o, a);
    var q, p :| Reports(q, p, b);
    if a.ruleId == b.ruleId {
      SameIdSameRule(r, q);
      ConfidenceFollowsScore(r, o, p);
      ConfidenceFollowsScore(r, p, o);
    }
  }

  /** So more evidence from them never lowers a score. */
  lemma ShippedNeverLowerTheScore(ds: seq<Detection>, d: Detection)
    requires forall e :: e in ds + [d] ==> IsShipped(e)
    ensures Score(ds + [d]).score >= Score(ds).score
  {
    hide Score, IsShipped, Compatible;
    forall a, b | a in ds + [d] && b in ds + [d] ensures Compatible(a, b) {
      ShippedRulesAreCompatible(a, b);
    }
    AddingNeverLowersScore(ds, d);
  }

  /** And the alert store is faithful on every run of theirs. */
  lemma ShippedRunIsFaithful(cfg: Config, inputs: seq<Input>)
    requires cfg.maxAlerts >= 1 && FreshIds(inputs)
    requires forall i :: 0 <= i < |inputs| && inputs[i].Detected? ==> IsShipped(inputs[i].d)
    ensures Faithful(cfg, inputs, Run(cfg, inputs))
  {
    hide Score, IsShipped, Compatible, FreshIds, AlwaysSafe, Faithful, Run;
    forall i, j | 0 <= i < |inputs| && 0 <= j < |inputs| && inputs[i].Detected? && inputs[j].Detected?
      ensures Compatible(inputs[i].d, inputs[j].d)
    {
      ShippedRulesAreCompatible(inputs[i].d, inputs[j].d);
    }
    DisciplinedRunIsSafe(cfg, inputs);
    SafeRunIsFaithful(cfg, inputs);
  }

  /** Three MEDIUM reports of different kinds, none of which is serious alone, are HIGH together. */
  lemma ThreeReportsAreSerious(a: Detection, b: Detection, c: Detection)
    requires Reports(PROC_006, Override(Some(35), None), a) && Reports(PROC_003, DEFAULT, b)
    requires Reports(FILE_001, Override(Some(30), Some(MEDIUM)), c)
    ensures Score([a]).score == 26 && Score([b]).score == 19 && Score([c]).score == 22
    ensures Score([a, b, c]).score == 64 && SeverityBands.SeverityFor(64) == SeverityBands.HIGH
  {
    hide Score, Combined, ContributionsOf, RoundHalfEven;
    var ds := [a, b, c];
    ScoreMeaning.SingleDetectionScores(a);
    ScoreMeaning.SingleDetectionScores(b);
    ThreeCombined(a, b, c);
    assert ScoreMeaning.CategoriesIn(ds) == {EXECUTION, LINEAGE, PERSISTENCE} by {
      assert a in ds && b in ds && c in ds;
    }
    assert a in ds;
    ScoreMeaning.SeveralCategories(ds);
    ScoreMeaning.Rounded(63.560546875, 64);
    ExactlyHalf(c);
  }

  lemma ThreeCombined(a: Detection, b: Detection, c: Detection)
    requires Effective(a) == 26.25 && Effective(b) == 18.75 && Effective(c) == 22.5
    ensures Combined(ContributionsOf([a, b, c])) == 53.560546875
  {
    hide *;
    assert [] + [a] == [a] && [a] + [b] == [a, b] && [a, b] + [c] == [a, b, c];
    ScoreMeaning.OneMore([], a);
    ScoreMeaning.OneMore([a], b);
    assert Combined(ContributionsOf([a, b])) == 40.078125;
    ScoreMeaning.OneMore([a, b], c);
  }

  lemma ExactlyHalf(c: Detection)
    requires c.score == 30 && c.confidence == MEDIUM
    ensures Score([c]).score == 22
  {
    hide StableSort, Score, Breakdown, AlertConfidence;
    assert Front([c]) == [];
    SingleEntry([c], c);
  }

  /** The default of the alert threshold. */
  const ALERT_THRESHOLD := 40

  /** Alone, only masquerading processes and broken signatures reach it; every other report needs company. */
  lemma AloneReachesTheThreshold(r: Rule, o: Override, d: Detection)
    requires Reports(r, o, d)
    ensures Score([d]).score >= ALERT_THRESHOLD <==>
            r == PROC_005 || r == PROC_008 || (r == SIG_001 && o == Override(Some(45), Some(HIGH)))
  {
    hide Score;
    ScoreMeaning.SingleDetectionScores(d);
    ReportsOf(r, o);
  }

  lemma ReportsOf(r: Rule, o: Override)
    requires o in OverridesOf(r)
    ensures var s, c := ScoreWith(MetadataOf(r), o), ConfidenceWith(MetadataOf(r), o);
            && (s >= 40 <==> r == PROC_005 || r == PROC_008 || (r == SIG_001 && o == Override(Some(45), Some(HIGH))))
            && (c == HIGH <==> s >= 40)
            && s <= 45
  {
  }

  // ---- network evidence alone ------------------------------------------------------------------------------

  predicate IsNetworkRule(r: Rule) {
    r == NET_001 || r == NET_002 || r == NET_003 || r == NET_004 || r == PROC_004
  }

  /** What a rule without overrides reports, about nothing in particular. */
  function ReportOf(r: Rule): Detection {
    var m := MetadataOf(r);
    Detection(0, IdOf(r), m.category, m.baseScore, m.confidence, None, None)
  }

  function AllNetworkReports(): seq<Detection> {
    [ReportOf(NET_001), ReportOf(NET_002), ReportOf(NET_003), ReportOf(NET_004), ReportOf(PROC_004)]
  }

  lemma NetworkReportsAreAlike(d: Detection) returns (r: Rule)
    requires IsShipped(d) && d.category == NETWORK
    ensures IsNetworkRule(r) && ReportOf(r) in AllNetworkReports() && d.ruleId == ReportOf(r).ruleId
    ensures Strip(ContributionOf(d)) == Strip(ContributionOf(ReportOf(r)))
  {
    var q, o :| Reports(q, o, d);
    r := q;
  }

  lemma AllNetworkReportsAreShipped()
    ensures forall d :: d in AllNetworkReports() ==> IsShipped(d) && d.category == NETWORK
  {
    hide IsShipped, Reports;
    forall d | d in AllNetworkReports() ensures IsShipped(d) && d.category == NETWORK {
      var r :| IsNetworkRule(r) && d == ReportOf(r);
      NetworkReportIsShipped(r);
    }
  }

  lemma NetworkReportIsShipped(r: Rule)
    requires IsNetworkRule(r)
    ensures IsShipped(ReportOf(r)) && ReportOf(r).category == NETWORK
  {
    assert Reports(r, DEFAULT, ReportOf(r));
  }

  lemma {:induction false} MoreReportsNeverLower(ds: seq<Detection>, more: seq<Detection>)
    requires forall d :: d in ds + more ==> IsShipped(d)
    ensures Score(ds + more).score >= Score(ds).score
  {
    hide Score, IsShipped;
    if more == [] {
      assert ds + more == ds;
    } else {
      var earlier := ds + Front(more);
      assert ds + more == earlier + [Last(more)];
      assert forall d :: d in earlier ==> d in ds + more;
      MoreReportsNeverLower(ds, Front(more));
      ShippedNeverLowerTheScore(earlier, Last(more));
    }
  }

  /** Lists of network reports in which every network rule occurs have the same breakdown. */
  lemma NetworkBreakdown(ds: seq<Detection>, c: Contribution)
    requires forall d :: d in ds ==> IsShipped(d) && d.category == NETWORK
    requires forall r :: IsNetworkRule(r) ==> ReportOf(r) in ds
    ensures c in StripAll(Breakdown(ds)) <==> exists r :: IsNetworkRule(r) && c == Strip(ContributionOf(ReportOf(r)))
  {
    hide Breakdown, Dedupe, Strip, ContributionOf, IsShipped, IsNetworkRule, ReportOf, StripAll, OncePerRule, SortedBy;
    BreakdownIsSorted(ds);
    DedupeKeepsHighest(ds);
    if x :| x in Dedupe(ds) && c == Strip(ContributionOf(x)) {
      var r := NetworkReportsAreAlike(x);
    }
    if r :| IsNetworkRule(r) && c == Strip(ContributionOf(ReportOf(r))) {
      var x := ScoreMeaning.Representative(ds, ReportOf(r));
      var q := NetworkReportsAreAlike(x);
      SameRuleSameReport(q, r);
    }
  }

  lemma SameRuleSameReport(q: Rule, r: Rule)
    requires ReportOf(q).ruleId == ReportOf(r).ruleId
    ensures q == r
  {
  }

  lemma SameScoreOfAll(a: seq<Detection>, b: seq<Detection>)
    requires forall d :: d in a + b ==> IsShipped(d) && d.category == NETWORK
    requires forall r :: IsNetworkRule(r) ==> ReportOf(r) in a && ReportOf(r) in b
    ensures Score(a).score == Score(b).score
  {
    hide Breakdown, Strip, ContributionOf, IsShipped, IsNetworkRule, ReportOf, StripAll;
    hide ScoreOf, AlertConfidence, SortedBy, OncePerRule, Dedupe;
    assert (forall d :: d in a ==> d in a + b) && (forall d :: d in b ==> d in a + b);
    BreakdownIsSorted(a);
    BreakdownIsSorted(b);
    forall c ensures c in StripAll(Breakdown(a)) <==> c in StripAll(Breakdown(b)) {
      NetworkBreakdown(a, c);
      NetworkBreakdown(b, c);
    }
    SortedOnce(StripAll(Breakdown(a)), StripAll(Breakdown(b)));
    StripKeepsScore(Breakdown(a));
    StripKeepsScore(Breakdown(b));
    assert a != [] && b != [] by { SomeNetworkRule(); }
  }

  lemma SomeNetworkRule()
    ensures IsNetworkRule(NET_001)
  {
  }

  lemma AllNetworkScore()
    ensures Score(AllNetworkReports()).score == 38
  {
    hide Score, Combined, ContributionsOf, RoundHalfEven;
    var ds := AllNetworkReports();
    var a, b, c, d, e := ds[0], ds[1], ds[2], ds[3], ds[4];
    FiveCombined(a, b, c, d, e);
    assert ds == [a, b, c, d, e] && DistinctRules(ds);
    ScoreMeaning.ScoreOfDistinct(ds);
    ScoreMeaning.CategoriesOfContributions(ds);
    assert ScoreMeaning.CategoriesIn(ds) == {NETWORK} by { assert a in ds; }
    assert e in ds;
    ScoreMeaning.Rounded(37.862875, 38);
  }

  lemma FiveCombined(a: Detection, b: Detection, c: Detection, d: Detection, e: Detection)
    requires Effective(a) == 5.0 && Effective(b) == 10.0 && Effective(c) == 10.0 && Effective(d) == 5.0
    requires Effective(e) == 15.0
    ensures Combined(ContributionsOf([a, b, c, d, e])) == 37.862875
  {
    hide *;
    assert [] + [a] == [a] && [a] + [b] == [a, b] && [a, b] + [c] == [a, b, c] && [a, b, c] + [d] == [a, b, c, d];
    assert [a, b, c, d] + [e] == [a, b, c, d, e];
    ScoreMeaning.OneMore([], a);
    ScoreMeaning.OneMore([a], b);
    assert Combined(ContributionsOf([a, b])) == 14.5;
    ScoreMeaning.OneMore([a, b], c);
    assert Combined(ContributionsOf([a, b, c])) == 23.05;
    ScoreMeaning.OneMore([a, b, c], d);
    assert Combined(ContributionsOf([a, b, c, d])) == 26.8975;
    ScoreMeaning.OneMore([a, b, c, d], e);
  }

  /** However many network reports there are about a subject, without other evidence they never reach the threshold. */
  lemma NetworkAloneNeverAlerts(ds: seq<Detection>)
    requires forall d :: d in ds ==> IsShipped(d) && d.category == NETWORK
    ensures Score(ds).score <= 38 < ALERT_THRESHOLD
  {
    hide Score, IsShipped, ReportOf;
    var all := AllNetworkReports();
    AllNetworkReportsAreShipped();
    MoreReportsNeverLower(ds, all);
    SameScoreOfAll(ds + all, all);
    AllNetworkScore();
  }
}
