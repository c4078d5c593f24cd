/** Per-label F-score from the true-positive, false-negative and
    false-positive counters, and the corpus-wide micro-F (count-weighted)
    and macro-F (unweighted) means. */
module Metrics {
  import opened Results

  /** The harmonic mean of precision tp/(tp+fp) and recall tp/(tp+fn) is
      2tp / (2tp + fn + fp). */
  lemma HarmonicMeanOfRates(tp: nat, fn: nat, fp: nat)
    requires tp > 0
    ensures var precision := tp as real / (tp + fp) as real;
            var recall := tp as real / (tp + fn) as real;
            2.0 * precision * recall / (precision + recall) == 2.0 * tp as real / (2 * tp + fn + fp) as real
  {
    var t, a, b := tp as real, (tp + fp) as real, (tp + fn) as real;
    var p, r := t / a, t / b;
    assert p * a == t && r * b == t;
    var f := 2.0 * p * r / (p + r);
    assert (p + r) * (a * b) == t * (a + b) by {
      calc {
        (p + r) * (a * b);
        (p * a) * b + (r * b) * a;
        t * b + t * a;
      }
    }
    assert 2.0 * p * r * (a * b) == 2.0 * t * t by {
      calc {
        2.0 * p * r * (a * b);
        2.0 * (p * a) * (r * b);
      }
    }
    var g := 2.0 * t / (a + b);
    assert g * (a + b) == 2.0 * t;
    assert f * (p + r) == 2.0 * p * r;
    assert g * (p + r) * (a * b) == 2.0 * p * r * (a * b) by {
      calc {
        g * (p + r) * (a * b);
        g * ((p + r) * (a * b));
        g * (t * (a + b));
        (g * (a + b)) * t;
        2.0 * t * t;
      }
    }
    assert a * b > 0.0;
    assert g * (p + r) == f * (p + r);
    assert p + r > 0.0;
    assert (2 * tp + fn + fp) as real == a + b;
  }

  /** A solver hint, proved without a body. */
  lemma QuotientBounds(num: real, den: real)
    requires 0.0 < num <= den
    ensures 0.0 < num / den <= 1.0
  {
  }

  /** The per-label F-score: zero when there is no true positive, else the
      harmonic mean of precision tp/(tp+fp) and recall tp/(tp+fn). */
  function FScore(tp: nat, fn: nat, fp: nat): (f: real)
    ensures 0.0 <= f <= 1.0
    ensures f > 0.0 <==> tp > 0
    ensures tp > 0 ==> f == 2.0 * tp as real / (2 * tp + fn + fp) as real
  {
    if tp == 0 then 0.0
    else
      var precision := tp as real / (tp + fp) as real;
      var recall := tp as real / (tp + fn) as real;
      HarmonicMeanOfRates(tp, fn, fp);
      QuotientBounds(2.0 * tp as real, (2 * tp + fn + fp) as real);
      2.0 * precision * recall / (precision + recall)
  }

  /** tp=3, fp=1, fn=1: precision and recall are both 0.75, and so is F. */
  lemma FScoreExample()
    ensures FScore(3, 1, 1) == 0.75
  {
  }

  /** When every miss is charged both as a false negative and as a false
      positive of the same label, the F-score is tp / count, the label's
      accuracy, and F-score times count gives back tp. */
  lemma FScoreWithEqualMisses(tp: nat, count: nat)
    requires tp <= count
    ensures count > 0 ==> FScore(tp, count - tp, count - tp) == tp as real / count as real
    ensures FScore(tp, count - tp, count - tp) * count as real == tp as real
  {
    if tp > 0 {
      assert (2 * tp + (count - tp) + (count - tp)) as real == 2.0 * count as real;
      var f := FScore(tp, count - tp, count - tp);
      assert f * (2.0 * count as real) == 2.0 * tp as real;
    }
  }

  /** What the report keeps of one label: its F-score and its image count. */
  datatype LabelScore = LabelScore(fscore: real, count: nat)

  /** fscore·count, what one label adds to `microfscores`. */
  function Weighted(l: LabelScore): real {
    l.fscore * l.count as real
  }

  /** Σ fscore·count, the running `microfscores`. */
  function WeightedSum(ls: seq<LabelScore>): real {
    if ls == [] then 0.0 else WeightedSum(ls[..|ls| - 1]) + Weighted(ls[|ls| - 1])
  }

  /** Σ fscore, the running `macrofscores`. */
  function FSum(ls: seq<LabelScore>): real {
    if ls == [] then 0.0 else FSum(ls[..|ls| - 1]) + ls[|ls| - 1].fscore
  }

  /** Σ count, the running `total_images`. */
  function TotalCount(ls: seq<LabelScore>): nat {
    if ls == [] then 0 else TotalCount(ls[..|ls| - 1]) + ls[|ls| - 1].count
  }

  ghost predicate ScoresInRange(ls: seq<LabelScore>) {
    forall i :: 0 <= i < |ls| ==> 0.0 <= ls[i].fscore <= 1.0
  }

  lemma WeightedBelow(l: LabelScore)
    requires 0.0 <= l.fscore <= 1.0
    ensures 0.0 <= Weighted(l) <= l.count as real
  {
    assert (1.0 - l.fscore) * l.count as real >= 0.0;
  }

  lemma {:induction false} SumsBounded(ls: seq<LabelScore>)
    requires ScoresInRange(ls)
    ensures 0.0 <= WeightedSum(ls) <= TotalCount(ls) as real
    ensures 0.0 <= FSum(ls) <= |ls| as real
  {
    if ls != [] {
      var init, last := ls[..|ls| - 1], ls[|ls| - 1];
      SumsBounded(init);
      WeightedBelow(last);
      assert TotalCount(ls) as real == TotalCount(init) as real + last.count as real;
    }
  }

  /** Micro-F: the count-weighted mean of the F-scores; undefined (a
      division by zero) when no image was scored. */
  function MicroF(ls: seq<LabelScore>): (r: Option<real>)
    ensures r.Some? <==> TotalCount(ls) > 0
    ensures r.Some? ==> r.value * TotalCount(ls) as real == WeightedSum(ls)
    ensures r.Some? && ScoresInRange(ls) ==> 0.0 <= r.value <= 1.0
  {
    if TotalCount(ls) == 0 then None
    else
      SumsBounded2(ls);
      Some(WeightedSum(ls) / TotalCount(ls) as real)
  }

  lemma SumsBounded2(ls: seq<LabelScore>)
    ensures ScoresInRange(ls) ==> 0.0 <= WeightedSum(ls) <= TotalCount(ls) as real && 0.0 <= FSum(ls) <= |ls| as real
  {
    if ScoresInRange(ls) {
      SumsBounded(ls);
    }
  }

  /** Macro-F: the unweighted mean over all labels, including labels with
      no scored image; undefined when there is no label. */
  function MacroF(ls: seq<LabelScore>): (r: Option<real>)
    ensures r.Some? <==> |ls| > 0
    ensures r.Some? ==> r.value * |ls| as real == FSum(ls)
    ensures r.Some? && ScoresInRange(ls) ==> 0.0 <= r.value <= 1.0
  {
    if |ls| == 0 then None
    else
      SumsBounded2(ls);
      Some(FSum(ls) / |ls| as real)
  }

  /** Two labels, A with 8 images and F-score 0.8 and B with 2 images and
      F-score 0.5: micro-F leans towards A, macro-F does not. */
  lemma MicroMacroExample()
    ensures MicroF([LabelScore(0.8, 8), LabelScore(0.5, 2)]) == Some(0.74)
    ensures MacroF([LabelScore(0.8, 8), LabelScore(0.5, 2)]) == Some(0.65)
  {
    var ls := [LabelScore(0.8, 8), LabelScore(0.5, 2)];
    assert ls[..1][..0] == [];
    assert WeightedSum(ls) == 7.4;
    assert TotalCount(ls) == 10;
    assert FSum(ls) == 1.3;
  }

  function SumNat(xs: seq<nat>): nat {
    if xs == [] then 0 else SumNat(xs[..|xs| - 1]) + xs[|xs| - 1]
  }

  /** The per-label scores the program computes: every miss is charged
      both as a false negative and as a false positive of the ground-truth
      label, so label i has F-score FScore(tp_i, count_i - tp_i, count_i - tp_i). */
  ghost predicate ScoredWithEqualMisses(ls: seq<LabelScore>, tps: seq<nat>) {
    && |tps| == |ls|
    && (forall i :: 0 <= i < |ls| ==> tps[i] <= ls[i].count)
    && (forall i :: 0 <= i < |ls| ==> ls[i].fscore == FScore(tps[i], ls[i].count - tps[i], ls[i].count - tps[i]))
  }

  lemma WeightedWithEqualMisses(l: LabelScore, tp: nat)
    requires tp <= l.count && l.fscore == FScore(tp, l.count - tp, l.count - tp)
    ensures Weighted(l) == tp as real
  {
    FScoreWithEqualMisses(tp, l.count);
  }

  lemma {:induction false} WeightedSumIsTruePositives(ls: seq<LabelScore>, tps: seq<nat>)
    requires ScoredWithEqualMisses(ls, tps)
    ensures WeightedSum(ls) == SumNat(tps) as real
  {
    if ls != [] {
      var n := |ls| - 1;
      assert ScoredWithEqualMisses(ls[..n], tps[..n]);
      WeightedSumIsTruePositives(ls[..n], tps[..n]);
      WeightedWithEqualMisses(ls[n], tps[n]);
      assert SumNat(tps) as real == SumNat(tps[..n]) as real + tps[n] as real;
    }
  }

  /** With those scores, micro-F is the total number of true positives over
      the total number of scored images: the overall accuracy. */
  lemma {:induction false} MicroFIsAccuracy(ls: seq<LabelScore>, tps: seq<nat>)
    requires ScoredWithEqualMisses(ls, tps)
    ensures TotalCount(ls) > 0 ==> MicroF(ls) == Some(SumNat(tps) as real / TotalCount(ls) as real)
  {
    WeightedSumIsTruePositives(ls, tps);
  }
}
