/** Extracting the two most confident labels of one image in a single pass
    over its label-to-confidence map, the confidence ratio between them, and
    the per-image ranking record. */
module Confidence {
  import opened Results

  /** The classifier's answer for one image: (label, confidence) pairs in the
      map's iteration order. Confidences are exact reals. */
  type ScoreMap = seq<(string, real)>

  /** A dictionary never holds a key twice. */
  predicate DistinctKeys(m: ScoreMap) {
    forall i, j :: 0 <= i < j < |m| ==> m[i].0 != m[j].0
  }

  /** The four running variables of the scan. */
  datatype TopTwo = TopTwo(top: string, topConf: real, second: string, secondConf: real)

  const Unset: TopTwo := TopTwo("", 0.0, "", 0.0)

  /** One iteration of the scan. A strictly larger confidence takes the top
      place; the old top moves down only when it is strictly above the
      current second. Otherwise a strictly larger confidence than the second
      takes the second place. */
  function Step(t: TopTwo, name: string, conf: real): (r: TopTwo)
    ensures r.topConf >= t.topConf && r.topConf >= conf
    ensures r.secondConf >= t.secondConf
    ensures 0.0 <= t.secondConf <= t.topConf ==> 0.0 <= r.secondConf <= r.topConf
    ensures (r.top, r.topConf) == (t.top, t.topConf) || (r.top, r.topConf) == (name, conf)
  {
    if conf > t.topConf then
      var kept := if t.topConf > t.secondConf then t.(second := t.top, secondConf := t.topConf) else t;
      kept.(top := name, topConf := conf)
    else if conf > t.secondConf then
      t.(second := name, secondConf := conf)
    else
      t
  }

  /** The scan over the whole map, as a fold of Step from the unset state. */
  function Scan(m: ScoreMap): (t: TopTwo)
    ensures 0.0 <= t.secondConf <= t.topConf
  {
    if m == [] then Unset else Step(Scan(m[..|m| - 1]), m[|m| - 1].0, m[|m| - 1].1)
  }

  /** Entry i holds the largest confidence, which is positive, and no earlier
      entry reaches it: the first-seen maximum. */
  ghost predicate IsFirstMax(m: ScoreMap, i: int) {
    && 0 <= i < |m|
    && m[i].1 > 0.0
    && (forall j :: 0 <= j < |m| ==> m[j].1 <= m[i].1)
    && (forall j :: 0 <= j < i ==> m[j].1 < m[i].1)
  }

  /** What the scan promises, stated without the scan. */
  ghost predicate IsTopTwo(m: ScoreMap, t: TopTwo) {
    && 0.0 <= t.secondConf <= t.topConf
    && (forall j :: 0 <= j < |m| ==> m[j].1 <= t.topConf)
    && ((t.top == "" && t.topConf == 0.0) || exists i :: IsFirstMax(m, i) && m[i] == (t.top, t.topConf))
    && ((t.second == "" && t.secondConf == 0.0) ||
        exists k :: 0 <= k < |m| && m[k] == (t.second, t.secondConf) && t.second != t.top && t.secondConf > 0.0)
    && (forall j :: 0 <= j < |m| && m[j].0 != t.top ==> m[j].1 <= t.secondConf)
  }

  /** The scan, with the indices of the entries it chose: ti is the first-seen
      maximum (or -1 when no confidence is positive); si is another entry
      whose confidence bounds every entry but ti (or -1, with 0.0). */
  lemma {:induction false} ScanIndices(m: ScoreMap) returns (ti: int, si: int)
    ensures -1 <= ti < |m| && -1 <= si < |m|
    ensures ti == -1 ==> Scan(m).top == "" && Scan(m).topConf == 0.0 && forall j :: 0 <= j < |m| ==> m[j].1 <= 0.0
    ensures ti >= 0 ==> IsFirstMax(m, ti) && m[ti] == (Scan(m).top, Scan(m).topConf)
    ensures si == -1 ==> Scan(m).second == "" && Scan(m).secondConf == 0.0
    ensures si >= 0 ==> ti >= 0 && si != ti && m[si] == (Scan(m).second, Scan(m).secondConf) && Scan(m).secondConf > 0.0
    ensures forall j :: 0 <= j < |m| && j != ti ==> m[j].1 <= Scan(m).secondConf
  {
    if m == [] {
      return -1, -1;
    }
    var n := |m| - 1;
    var p := m[..n];
    var ti', si' := ScanIndices(p);
    var t', t := Scan(p), Scan(m);
    assert forall j :: 0 <= j < n ==> m[j] == p[j];
    var conf := m[n].1;
    assert t == Step(t', m[n].0, conf);
    if conf > t'.topConf {
      ti := n;
      si := if t'.topConf > t'.secondConf then ti' else si';
    } else if conf > t'.secondConf {
      ti, si := ti', n;
    } else {
      ti, si := ti', si';
    }
  }

  /** The scan meets its declarative description. */
  lemma {:induction false} ScanIsTopTwo(m: ScoreMap)
    requires DistinctKeys(m)
    ensures IsTopTwo(m, Scan(m))
  {
    var ti, si := ScanIndices(m);
    var t := Scan(m);
    if ti >= 0 {
      assert IsFirstMax(m, ti) && m[ti] == (t.top, t.topConf);
      forall j | 0 <= j < |m| && m[j].0 != t.top
        ensures m[j].1 <= t.secondConf
      {
        assert j != ti;
      }
    }
    if si >= 0 {
      assert m[si] == (t.second, t.secondConf) && t.second != t.top;
    }
  }

  /** The top-2 scan of get_predictions.py, over the four running variables. */
  method SelectTopTwo(m: ScoreMap) returns (t: TopTwo)
    ensures t == Scan(m)
  {
    var top, topConf, second, secondConf := "", 0.0, "", 0.0;
    for i := 0 to |m|
      invariant TopTwo(top, topConf, second, secondConf) == Scan(m[..i])
    {
      var name, conf := m[i].0, m[i].1;
      assert m[..i + 1][..i] == m[..i];
      if conf > topConf {
        if topConf > secondConf {
          second, secondConf := top, topConf;
        }
        top, topConf := name, conf;
      } else if conf > secondConf {
        second, secondConf := name, conf;
      }
    }
    assert m[..|m|] == m;
    t := TopTwo(top, topConf, second, secondConf);
  }

  /** The second confidence is positive exactly when at least two entries
      have a positive confidence. */
  lemma SecondPositiveIff(m: ScoreMap)
    ensures Scan(m).secondConf > 0.0 <==> exists i, j :: 0 <= i < j < |m| && m[i].1 > 0.0 && m[j].1 > 0.0
  {
    var ti, si := ScanIndices(m);
    var t := Scan(m);
    if t.secondConf > 0.0 {
      assert si >= 0;
      if ti < si {
        assert m[ti].1 > 0.0 && m[si].1 > 0.0;
      } else {
        assert m[si].1 > 0.0 && m[ti].1 > 0.0;
      }
    }
    if exists i, j :: 0 <= i < j < |m| && m[i].1 > 0.0 && m[j].1 > 0.0 {
      var i, j :| 0 <= i < j < |m| && m[i].1 > 0.0 && m[j].1 > 0.0;
      if i != ti {
        assert m[i].1 <= t.secondConf;
      } else {
        assert m[j].1 <= t.secondConf;
      }
    }
  }

  /** Ties for the second place are broken two ways. When a new top arrives
      while the old top only ties the second, the old top is not moved down,
      so the later of the two tied entries stays second. */
  lemma SecondTieKeepsLater()
    ensures Scan([("a", 0.5), ("b", 0.5), ("c", 0.7)]) == TopTwo("c", 0.7, "b", 0.5)
  {
    var m: ScoreMap := [("a", 0.5), ("b", 0.5), ("c", 0.7)];
    assert m[..2][..1][..0] == m[..0];
    assert Scan(m[..1]) == TopTwo("a", 0.5, "", 0.0);
    assert Scan(m[..2]) == TopTwo("a", 0.5, "b", 0.5);
  }

  /** An entry that only ties the current second does not replace it, so the
      earlier of the two tied entries stays second. */
  lemma SecondTieKeepsEarlier()
    ensures Scan([("c", 0.9), ("a", 0.5), ("b", 0.5)]) == TopTwo("c", 0.9, "a", 0.5)
  {
    var m: ScoreMap := [("c", 0.9), ("a", 0.5), ("b", 0.5)];
    assert m[..2][..1][..0] == m[..0];
    assert Scan(m[..1]) == TopTwo("c", 0.9, "", 0.0);
    assert Scan(m[..2]) == TopTwo("c", 0.9, "a", 0.5);
  }

  /** The confidence ratio top / second; undefined (the division by zero in
      get_predictions.py) when the second confidence is zero. */
  function Ratio(t: TopTwo): (r: Option<real>)
    ensures r.Some? <==> t.secondConf != 0.0
    ensures r.Some? ==> r.value * t.secondConf == t.topConf
    ensures r.Some? && 0.0 < t.secondConf <= t.topConf ==> r.value >= 1.0
  {
    if t.secondConf == 0.0 then None else Some(t.topConf / t.secondConf)
  }

  /** The ratio of a scan is undefined exactly when fewer than two
      confidences are positive, in particular for an empty map. */
  lemma RatioDefinedIff(m: ScoreMap)
    ensures Ratio(Scan(m)).Some? <==> exists i, j :: 0 <= i < j < |m| && m[i].1 > 0.0 && m[j].1 > 0.0
    ensures Ratio(Scan(m)).Some? ==> Ratio(Scan(m)).value >= 1.0
  {
    SecondPositiveIff(m);
  }

  /** What is kept about each image: [image, top, topConf, second, secondConf, ratio]. */
  datatype RankingRecord = RankingRecord(
    image: string, top: string, topConf: real, second: string, secondConf: real, ratio: real)

  /** The record of an image whose scan has a defined ratio. */
  function MakeRecord(image: string, m: ScoreMap): (r: Option<RankingRecord>)
    ensures r.Some? <==> Scan(m).secondConf > 0.0
    ensures r.Some? ==> && r.value.image == image
                        && (r.value.top, r.value.topConf, r.value.second, r.value.secondConf)
                           == (Scan(m).top, Scan(m).topConf, Scan(m).second, Scan(m).secondConf)
                        && r.value.ratio >= 1.0
                        && r.value.ratio * r.value.secondConf == r.value.topConf
  {
    var t := Scan(m);
    match Ratio(t)
    case None => None
    case Some(ratio) => Some(RankingRecord(image, t.top, t.topConf, t.second, t.secondConf, ratio))
  }
}
