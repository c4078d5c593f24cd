/** The four active-learning orderings of the ranking records: two stable
    ascending sorts (by top confidence, by confidence ratio) and two
    round-robin interleavings of per-group queues (grouped by top label, by
    the "top second" label pair). Each emits the image identifiers only. */
module Prioritization {
  import opened Confidence
  import opened Sorting
  import opened Grouping
  import opened Interleaving

  datatype Strategy =
    | LeastConfidentFirst    // sort ascending by top confidence
    | ClosestRatioFirst      // sort ascending by top / second ratio
    | LabelRoundRobin        // interleave per top-label queues
    | LabelPairRoundRobin    // sort by ratio, then interleave per label-pair queues

  /** The round-robin strategies of get_predictions.py: group the ids by
      key, then interleave the groups' queues. */
  method RoundRobin(items: seq<(string, string)>) returns (order: seq<string>)
    ensures order == Interleave(GroupBy(items).queues)
    ensures multiset(order) == multiset(Ids(items))
  {
    var g := BuildGroups(items);
    order := Drain(g.queues);
    GroupByPermutation(items);
    InterleavePermutation(g.queues);
  }

  // =====================================================================
  // The strategies
  // =====================================================================

  /** The composite key of strategy 4: top label, a space, second label. */
  function PairKey(r: RankingRecord): string {
    r.top + " " + r.second
  }

  /** Label names may contain spaces, so two different label pairs can share
      one composite key and be queued together. */
  lemma PairKeysCanCollide()
    ensures exists r1: RankingRecord, r2: RankingRecord ::
              (r1.top, r1.second) != (r2.top, r2.second) && PairKey(r1) == PairKey(r2)
  {
    var r1 := RankingRecord("i", "golden retriever", 0.6, "cat", 0.3, 2.0);
    var r2 := r1.(top := "golden retriever", second := "cat");
    r1 := r1.(top := "golden", second := "retriever cat");
    assert PairKey(r1) == "golden retriever cat" == PairKey(r2);
  }

  function TopKeyed(rs: seq<RankingRecord>): (items: seq<(string, string)>)
    ensures Ids(items) == Images(rs)
  {
    seq(|rs|, i requires 0 <= i < |rs| => (rs[i].top, rs[i].image))
  }

  function PairKeyed(rs: seq<RankingRecord>): (items: seq<(string, string)>)
    ensures Ids(items) == Images(rs)
  {
    seq(|rs|, i requires 0 <= i < |rs| => (PairKey(rs[i]), rs[i].image))
  }

  /** The order each strategy emits. */
  function Order(rs: seq<RankingRecord>, s: Strategy): seq<string> {
    match s
    case LeastConfidentFirst => Images(SortBy(rs, TopConfidence))
    case ClosestRatioFirst => Images(SortBy(rs, ConfidenceRatio))
    case LabelRoundRobin => Interleave(GroupBy(TopKeyed(rs)).queues)
    case LabelPairRoundRobin => Interleave(GroupBy(PairKeyed(SortBy(rs, ConfidenceRatio))).queues)
  }

  /** Every strategy emits each record's image exactly once. */
  lemma OrderPermutes(rs: seq<RankingRecord>, s: Strategy)
    ensures multiset(Order(rs, s)) == multiset(Images(rs))
  {
    match s {
      case LeastConfidentFirst =>
        SortByPermutesImages(rs, TopConfidence);
      case ClosestRatioFirst =>
        SortByPermutesImages(rs, ConfidenceRatio);
      case LabelRoundRobin =>
        GroupByPermutation(TopKeyed(rs));
        InterleavePermutation(GroupBy(TopKeyed(rs)).queues);
      case LabelPairRoundRobin =>
        var sorted := SortBy(rs, ConfidenceRatio);
        SortByPermutesImages(rs, ConfidenceRatio);
        GroupByPermutation(PairKeyed(sorted));
        InterleavePermutation(GroupBy(PairKeyed(sorted)).queues);
    }
  }

  /** Runs the selected strategy over all records. Every strategy emits each
      record's image exactly once. */
  method Prioritize(rs: seq<RankingRecord>, s: Strategy) returns (order: seq<string>)
    ensures order == Order(rs, s)
    ensures multiset(order) == multiset(Images(rs))
  {
    match s {
      case LeastConfidentFirst =>
        order := Images(SortBy(rs, TopConfidence));
      case ClosestRatioFirst =>
        order := Images(SortBy(rs, ConfidenceRatio));
      case LabelRoundRobin =>
        order := RoundRobin(TopKeyed(rs));
      case LabelPairRoundRobin =>
        order := RoundRobin(PairKeyed(SortBy(rs, ConfidenceRatio)));
    }
    OrderPermutes(rs, s);
  }
}
