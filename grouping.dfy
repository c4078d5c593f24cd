/** The insertion-ordered dictionary from group key to the queue of image
    identifiers that the round-robin strategies build. */
module Grouping {
  import opened Interleaving

  /** An insertion-ordered dictionary from group key to the queue of image
      identifiers: keys[i] maps to queues[i]. */
  datatype Groups = Groups(keys: seq<string>, queues: seq<seq<string>>)

  ghost predicate WellFormed(g: Groups) {
    |g.keys| == |g.queues|
  }

  /** Where key sits among the keys (|keys| when absent): dictionary lookup. */
  function IndexOf(keys: seq<string>, key: string): (j: nat)
    ensures j <= |keys|
    ensures j < |keys| ==> keys[j] == key
    ensures forall i :: 0 <= i < j ==> keys[i] != key
    ensures j == |keys| <==> key !in keys
  {
    if keys == [] then 0
    else if keys[0] == key then 0
    else 1 + IndexOf(keys[1..], key)
  }

  /** No key occurs twice. */
  ghost predicate UniqueKeys(keys: seq<string>) {
    forall i, j :: 0 <= i < j < |keys| ==> keys[i] != keys[j]
  }

  /** Appends id to the queue of key, creating an empty queue first when the
      key is new. */
  function Place(g: Groups, key: string, id: string): (g': Groups)
    requires WellFormed(g)
    ensures WellFormed(g')
  {
    var j := IndexOf(g.keys, key);
    var h := if j == |g.keys| then Groups(g.keys + [key], g.queues + [[]]) else g;
    Groups(h.keys, h.queues[j := h.queues[j] + [id]])
  }

  /** Placing an id keeps the keys distinct and adds its key when new. */
  lemma PlaceKeys(g: Groups, key: string, id: string)
    requires WellFormed(g)
    ensures UniqueKeys(g.keys) ==> UniqueKeys(Place(g, key, id).keys)
    ensures forall k :: k in Place(g, key, id).keys <==> k in g.keys || k == key
  {
  }

  /** The dictionary built from (key, id) pairs in order. */
  function GroupBy(items: seq<(string, string)>): (g: Groups)
    ensures WellFormed(g)
  {
    if items == [] then Groups([], [])
    else
      var last := items[|items| - 1];
      Place(GroupBy(items[..|items| - 1]), last.0, last.1)
  }

  /** The keys in order of first occurrence. */
  function FirstSeen(keys: seq<string>): (r: seq<string>)
    ensures forall i, j :: 0 <= i < j < |r| ==> r[i] != r[j]
    ensures forall k :: k in r <==> k in keys
  {
    if keys == [] then []
    else
      var prev := FirstSeen(keys[..|keys| - 1]);
      var k := keys[|keys| - 1];
      assert forall x :: x in keys <==> x in keys[..|keys| - 1] || x == k by {
        assert keys == keys[..|keys| - 1] + [k];
      }
      if k in prev then prev else prev + [k]
  }

  function Keys(items: seq<(string, string)>): (ks: seq<string>)
    ensures |ks| == |items| && forall i :: 0 <= i < |items| ==> ks[i] == items[i].0
  {
    seq(|items|, i requires 0 <= i < |items| => items[i].0)
  }

  function Ids(items: seq<(string, string)>): (ids: seq<string>)
    ensures |ids| == |items| && forall i :: 0 <= i < |items| ==> ids[i] == items[i].1
  {
    seq(|items|, i requires 0 <= i < |items| => items[i].1)
  }

  /** The ids whose key is key, in their order. */
  function IdsWithKey(items: seq<(string, string)>, key: string): seq<string> {
    if items == [] then []
    else
      var last := items[|items| - 1];
      IdsWithKey(items[..|items| - 1], key) + (if last.0 == key then [last.1] else [])
  }

  /** The dictionary's keys are the items' keys in first-seen order, and each
      key's queue holds exactly that key's ids in their original order. */
  lemma {:induction false} GroupByContents(items: seq<(string, string)>)
    ensures GroupBy(items).keys == FirstSeen(Keys(items))
    ensures forall i :: 0 <= i < |GroupBy(items).keys| ==>
              GroupBy(items).queues[i] == IdsWithKey(items, GroupBy(items).keys[i])
  {
    if items != [] {
      var n := |items| - 1;
      var init, last := items[..n], items[n];
      GroupByContents(init);
      var g := GroupBy(init);
      assert Keys(items)[..n] == Keys(init);
      var j := IndexOf(g.keys, last.0);
      var g' := GroupBy(items);
      forall i | 0 <= i < |g'.keys|
        ensures g'.queues[i] == IdsWithKey(items, g'.keys[i])
      {
        if i < |g.keys| {
          assert g'.keys[i] == g.keys[i];
        } else {
          assert IdsWithKey(init, last.0) == [] by {
            IdsWithKeyAbsent(init, last.0);
          }
        }
      }
    }
  }

  lemma {:induction false} IdsWithKeyAbsent(items: seq<(string, string)>, key: string)
    requires key !in FirstSeen(Keys(items))
    ensures IdsWithKey(items, key) == []
  {
    if items != [] {
      var n := |items| - 1;
      assert Keys(items)[..n] == Keys(items[..n]);
      assert items[n].0 in Keys(items);
      IdsWithKeyAbsent(items[..n], key);
    }
  }

  /** Placing an id adds that id, and nothing else, to the queues. */
  lemma PlaceAddsId(g: Groups, key: string, id: string)
    requires WellFormed(g)
    ensures multiset(Flatten(Place(g, key, id).queues)) == multiset(Flatten(g.queues)) + multiset{id}
  {
    var j := IndexOf(g.keys, key);
    var qs := Place(g, key, id).queues;
    if j == |g.keys| {
      var qs0 := g.queues + [[]];
      assert qs == qs0[j := qs0[j] + [id]];
      assert Flatten(qs0) == Flatten(g.queues);
      FlattenAppendTo(qs0, j, id);
    } else {
      assert qs == g.queues[j := g.queues[j] + [id]];
      FlattenAppendTo(g.queues, j, id);
    }
  }

  /** Grouping loses and adds no identifier. */
  lemma {:induction false} GroupByPermutation(items: seq<(string, string)>)
    ensures multiset(Flatten(GroupBy(items).queues)) == multiset(Ids(items))
  {
    if items != [] {
      var n := |items| - 1;
      var init, last := items[..n], items[n];
      GroupByPermutation(init);
      PlaceAddsId(GroupBy(init), last.0, last.1);
      IdsSnoc(items);
    }
  }

  lemma IdsSnoc(items: seq<(string, string)>)
    requires items != []
    ensures Ids(items) == Ids(items[..|items| - 1]) + [items[|items| - 1].1]
  {
  }

  method BuildGroups(items: seq<(string, string)>) returns (g: Groups)
    ensures g == GroupBy(items)
  {
    var keys: seq<string> := [];
    var queues: seq<seq<string>> := [];
    for i := 0 to |items|
      invariant Groups(keys, queues) == GroupBy(items[..i])
    {
      assert items[..i + 1][..i] == items[..i];
      var key, image := items[i].0, items[i].1;
      var j := IndexOf(keys, key);
      if j == |keys| {
        keys, queues := keys + [key], queues + [[]];
      }
      queues := queues[j := queues[j] + [image]];
    }
    assert items[..|items|] == items;
    g := Groups(keys, queues);
  }

  lemma GroupBySnoc(items: seq<(string, string)>, key: string, id: string)
    ensures GroupBy(items + [(key, id)]) == Place(GroupBy(items), key, id)
  {
    assert (items + [(key, id)])[..|items|] == items;
  }

  /** A new key gets a queue of its own, after the existing ones. */
  lemma PlaceNew(g: Groups, key: string, id: string)
    requires WellFormed(g) && key !in g.keys
    ensures Place(g, key, id) == Groups(g.keys + [key], g.queues + [[id]])
  {
    var q: seq<string> := [];
    assert q + [id] == [id];
    assert (g.queues + [q])[|g.queues| := q + [id]] == g.queues + [[id]];
  }

  /** A known key's queue grows at the back; nothing else changes. */
  lemma PlaceKnown(g: Groups, j: nat, id: string)
    requires WellFormed(g) && j < |g.keys|
    requires forall i :: 0 <= i < j ==> g.keys[i] != g.keys[j]
    ensures Place(g, g.keys[j], id) == Groups(g.keys, g.queues[j := g.queues[j] + [id]])
  {
    assert IndexOf(g.keys, g.keys[j]) == j;
  }

  lemma GroupByExamplePrefix(a: string, b: string, x1: string, x2: string, x3: string)
    requires a != b
    ensures GroupBy([(a, x1), (a, x2), (b, x3)]) == Groups([a, b], [[x1, x2], [x3]])
  {
    var p1 := [(a, x1)];
    var p2 := p1 + [(a, x2)];
    GroupBySnoc([], a, x1);
    PlaceNew(Groups([], []), a, x1);
    assert [] + [(a, x1)] == p1;
    assert GroupBy(p1) == Groups([a], [[x1]]);
    GroupBySnoc(p1, a, x2);
    PlaceKnown(Groups([a], [[x1]]), 0, x2);
    assert [x1] + [x2] == [x1, x2];
    assert GroupBy(p2) == Groups([a], [[x1, x2]]);
    GroupBySnoc(p2, b, x3);
    PlaceNew(Groups([a], [[x1, x2]]), b, x3);
    assert p2 + [(b, x3)] == [(a, x1), (a, x2), (b, x3)];
  }

  /** Top labels A, A, B, A, B, C for ids 1..6 give three queues in
      first-seen key order: A: 1 2 4, B: 3 5, C: 6. */
  lemma GroupByExample(a: string, b: string, c: string, x1: string, x2: string, x3: string, x4: string, x5: string, x6: string)
    requires a != b && a != c && b != c
    ensures GroupBy([(a, x1), (a, x2), (b, x3), (a, x4), (b, x5), (c, x6)])
            == Groups([a, b, c], [[x1, x2, x4], [x3, x5], [x6]])
  {
    var p3 := [(a, x1), (a, x2), (b, x3)];
    var p4 := p3 + [(a, x4)];
    var p5 := p4 + [(b, x5)];
    GroupByExamplePrefix(a, b, x1, x2, x3);
    GroupBySnoc(p3, a, x4);
    PlaceKnown(Groups([a, b], [[x1, x2], [x3]]), 0, x4);
    assert [x1, x2] + [x4] == [x1, x2, x4];
    assert GroupBy(p4) == Groups([a, b], [[x1, x2, x4], [x3]]);
    GroupBySnoc(p4, b, x5);
    PlaceKnown(Groups([a, b], [[x1, x2, x4], [x3]]), 1, x5);
    assert [x3] + [x5] == [x3, x5];
    assert GroupBy(p5) == Groups([a, b], [[x1, x2, x4], [x3, x5]]);
    GroupBySnoc(p5, c, x6);
    PlaceNew(Groups([a, b], [[x1, x2, x4], [x3, x5]]), c, x6);
    assert p5 + [(c, x6)] == [(a, x1), (a, x2), (b, x3), (a, x4), (b, x5), (c, x6)];
  }
}
