/** Stable ascending sorting of the ranking records by one of their two
    confidence keys, as Python's `sorted(..., key=...)` does it. */
module Sorting {
  import opened Confidence

  datatype SortKey = TopConfidence | ConfidenceRatio

  function KeyOf(r: RankingRecord, k: SortKey): real {
    match k
    case TopConfidence => r.topConf
    case ConfidenceRatio => r.ratio
  }

  ghost predicate SortedBy(rs: seq<RankingRecord>, k: SortKey) {
    forall i, j :: 0 <= i < j < |rs| ==> KeyOf(rs[i], k) <= KeyOf(rs[j], k)
  }

  /** Inserts x after every element whose key is not larger than x's. */
  function Insert(x: RankingRecord, rs: seq<RankingRecord>, k: SortKey): (r: seq<RankingRecord>)
    ensures |r| == |rs| + 1
    ensures r[0] == x || (rs != [] && r[0] == rs[0])
  {
    if rs == [] then [x]
    else if KeyOf(x, k) < KeyOf(rs[0], k) then [x] + rs
    else [rs[0]] + Insert(x, rs[1..], k)
  }

  lemma {:induction false} InsertSorted(x: RankingRecord, rs: seq<RankingRecord>, k: SortKey)
    requires SortedBy(rs, k)
    ensures SortedBy(Insert(x, rs, k), k)
  {
    if rs != [] && KeyOf(x, k) >= KeyOf(rs[0], k) {
      var rest := Insert(x, rs[1..], k);
      InsertSorted(x, rs[1..], k);
      assert KeyOf(rs[0], k) <= KeyOf(rest[0], k);
      var r := [rs[0]] + rest;
      assert forall j :: 1 <= j < |r| ==> r[j] == rest[j - 1];
    }
  }

  /** Insert puts x at one position of rs and keeps the rest in order. */
  lemma {:induction false} InsertPosition(x: RankingRecord, rs: seq<RankingRecord>, k: SortKey) returns (i: nat)
    ensures i <= |rs| && Insert(x, rs, k) == rs[..i] + [x] + rs[i..]
  {
    if rs == [] || KeyOf(x, k) < KeyOf(rs[0], k) {
      i := 0;
    } else {
      var j := InsertPosition(x, rs[1..], k);
      i := j + 1;
      assert [rs[0]] + rs[1..][..j] == rs[..i];
      assert rs[1..][j..] == rs[i..];
    }
  }

  lemma InsertPermutes(x: RankingRecord, rs: seq<RankingRecord>, k: SortKey)
    ensures multiset(Insert(x, rs, k)) == multiset(rs) + multiset{x}
  {
    var i := InsertPosition(x, rs, k);
    assert rs == rs[..i] + rs[i..];
    assert multiset(Insert(x, rs, k)) == multiset(rs[..i]) + multiset{x} + multiset(rs[i..]);
  }

  lemma InsertPermutesImages(x: RankingRecord, rs: seq<RankingRecord>, k: SortKey)
    ensures multiset(Images(Insert(x, rs, k))) == multiset(Images(rs)) + multiset{x.image}
  {
    var i := InsertPosition(x, rs, k);
    var front, back := rs[..i], rs[i..];
    ImagesAppend(front + [x], back);
    ImagesAppend(front, [x]);
    ImagesAppend(front, back);
    assert rs == front + back;
  }

  /** The stable ascending sort of Python's list.sort(key=...), as an
      insertion of each record after the sorted records before it. */
  function SortBy(rs: seq<RankingRecord>, k: SortKey): (r: seq<RankingRecord>)
    ensures |r| == |rs|
  {
    if rs == [] then [] else Insert(rs[|rs| - 1], SortBy(rs[..|rs| - 1], k), k)
  }

  /** The sort's output is in ascending key order. */
  lemma {:induction false} SortBySorted(rs: seq<RankingRecord>, k: SortKey)
    ensures SortedBy(SortBy(rs, k), k)
  {
    if rs != [] {
      var init := rs[..|rs| - 1];
      SortBySorted(init, k);
      InsertSorted(rs[|rs| - 1], SortBy(init, k), k);
    }
  }

  /** The sort is a permutation of its input. */
  lemma {:induction false} SortByPermutes(rs: seq<RankingRecord>, k: SortKey)
    ensures multiset(SortBy(rs, k)) == multiset(rs)
  {
    if rs != [] {
      var init, last := rs[..|rs| - 1], rs[|rs| - 1];
      SortByPermutes(init, k);
      InsertPermutes(last, SortBy(init, k), k);
      assert rs == init + [last];
    }
  }

  /** Sorting emits every image exactly once. */
  lemma {:induction false} SortByPermutesImages(rs: seq<RankingRecord>, k: SortKey)
    ensures multiset(Images(SortBy(rs, k))) == multiset(Images(rs))
  {
    if rs != [] {
      var init, last := rs[..|rs| - 1], rs[|rs| - 1];
      var sortedInit := SortBy(init, k);
      assert SortBy(rs, k) == Insert(last, sortedInit, k);
      SortByPermutesImages(init, k);
      InsertPermutesImages(last, sortedInit, k);
      assert rs == init + [last];
      ImagesAppend(init, [last]);
      assert multiset(Images(rs)) == multiset(Images(init)) + multiset{last.image};
    }
  }

  /** The records whose key equals v, in their order. */
  function WithKey(rs: seq<RankingRecord>, k: SortKey, v: real): seq<RankingRecord> {
    if rs == [] then []
    else (if KeyOf(rs[0], k) == v then [rs[0]] else []) + WithKey(rs[1..], k, v)
  }

  lemma {:induction false} WithKeyAppend(rs: seq<RankingRecord>, x: RankingRecord, k: SortKey, v: real)
    ensures WithKey(rs + [x], k, v) == WithKey(rs, k, v) + (if KeyOf(x, k) == v then [x] else [])
  {
    if rs == [] {
      WithKeyCons(x, [], k, v);
    } else {
      WithKeyAppend(rs[1..], x, k, v);
      WithKeyInsertBehind(x, rs, rs[1..] + [x], k, v);
      assert [rs[0]] + (rs[1..] + [x]) == rs + [x];
    }
  }

  lemma {:induction false} WithKeyNone(rs: seq<RankingRecord>, k: SortKey, v: real)
    requires forall i :: 0 <= i < |rs| ==> KeyOf(rs[i], k) > v
    ensures WithKey(rs, k, v) == []
  {
    if rs != [] {
      WithKeyNone(rs[1..], k, v);
    }
  }

  lemma WithKeyCons(r: RankingRecord, rs: seq<RankingRecord>, k: SortKey, v: real)
    ensures WithKey([r] + rs, k, v) == (if KeyOf(r, k) == v then [r] else []) + WithKey(rs, k, v)
  {
    assert ([r] + rs)[1..] == rs;
  }

  /** Inserting in front of a sorted sequence whose first key is larger. */
  lemma WithKeyInsertFront(x: RankingRecord, rs: seq<RankingRecord>, k: SortKey, v: real)
    requires SortedBy(rs, k) && rs != [] && KeyOf(x, k) < KeyOf(rs[0], k)
    ensures WithKey([x] + rs, k, v) == WithKey(rs, k, v) + (if KeyOf(x, k) == v then [x] else [])
  {
    if KeyOf(x, k) == v {
      WithKeyNone(rs, k, v);
    }
    WithKeyCons(x, rs, k, v);
  }

  /** Placing x anywhere behind the first record of rs. */
  lemma {:induction false} WithKeyInsertBehind(x: RankingRecord, rs: seq<RankingRecord>, rest: seq<RankingRecord>, k: SortKey, v: real)
    requires rs != []
    requires WithKey(rest, k, v) == WithKey(rs[1..], k, v) + (if KeyOf(x, k) == v then [x] else [])
    ensures WithKey([rs[0]] + rest, k, v) == WithKey(rs, k, v) + (if KeyOf(x, k) == v then [x] else [])
  {
    var head, tail := rs[0], rs[1..];
    WithKeyCons(head, rest, k, v);
    WithKeyCons(head, tail, k, v);
    assert [head] + tail == rs;
    var h := if KeyOf(head, k) == v then [head] else [];
    var e := if KeyOf(x, k) == v then [x] else [];
    assert h + (WithKey(tail, k, v) + e) == (h + WithKey(tail, k, v)) + e;
  }

  lemma {:induction false} WithKeyInsert(x: RankingRecord, rs: seq<RankingRecord>, k: SortKey, v: real)
    requires SortedBy(rs, k)
    ensures WithKey(Insert(x, rs, k), k, v) == WithKey(rs, k, v) + (if KeyOf(x, k) == v then [x] else [])
  {
    if rs == [] {
      WithKeyCons(x, [], k, v);
    } else if KeyOf(x, k) < KeyOf(rs[0], k) {
      WithKeyInsertFront(x, rs, k, v);
    } else {
      WithKeyInsert(x, rs[1..], k, v);
      WithKeyInsertBehind(x, rs, Insert(x, rs[1..], k), k, v);
    }
  }

  /** Stability: among records with equal keys the sort keeps the original
      relative order. */
  lemma {:induction false} SortByStable(rs: seq<RankingRecord>, k: SortKey, v: real)
    ensures WithKey(SortBy(rs, k), k, v) == WithKey(rs, k, v)
  {
    if rs != [] {
      var init, last := rs[..|rs| - 1], rs[|rs| - 1];
      SortByStable(init, k, v);
      SortBySorted(init, k);
      WithKeyInsert(last, SortBy(init, k), k, v);
      assert rs == init + [last];
      WithKeyAppend(init, last, k, v);
    }
  }

  /** The image identifiers of the records, in order: x[0] of each record. */
  function Images(rs: seq<RankingRecord>): seq<string> {
    seq(|rs|, i requires 0 <= i < |rs| => rs[i].image)
  }

  lemma ImagesAppend(a: seq<RankingRecord>, b: seq<RankingRecord>)
    ensures Images(a + b) == Images(a) + Images(b)
  {
  }

  lemma SortBySnoc(rs: seq<RankingRecord>, x: RankingRecord, k: SortKey)
    ensures SortBy(rs + [x], k) == Insert(x, SortBy(rs, k), k)
  {
    assert (rs + [x])[..|rs|] == rs;
  }

  lemma SortTwo(a: RankingRecord, b: RankingRecord, k: SortKey)
    requires KeyOf(b, k) < KeyOf(a, k)
    ensures SortBy([a, b], k) == [b, a]
  {
    SortBySnoc([], a, k);
    assert [] + [a] == [a];
    SortBySnoc([a], b, k);
    assert [a] + [b] == [a, b];
  }

  lemma InsertBetween(x: RankingRecord, lo: RankingRecord, hi: RankingRecord, k: SortKey)
    requires KeyOf(lo, k) <= KeyOf(x, k) < KeyOf(hi, k)
    ensures Insert(x, [lo, hi], k) == [lo, x, hi]
  {
    assert [lo, hi][1..] == [hi];
  }

  /** The least-confident-first example: top confidences 0.9, 0.3, 0.6 are
      emitted in the order 0.3, 0.6, 0.9. */
  lemma LeastConfidentExample(a: RankingRecord, b: RankingRecord, c: RankingRecord)
    requires b.topConf < c.topConf < a.topConf
    ensures SortBy([a, b, c], TopConfidence) == [b, c, a]
  {
    var k := TopConfidence;
    SortTwo(a, b, k);
    SortBySnoc([a, b], c, k);
    assert [a, b] + [c] == [a, b, c];
    InsertBetween(c, b, a, k);
  }
}
