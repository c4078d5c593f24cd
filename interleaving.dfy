/** Round-robin draining of a sequence of queues: each pass pops the front
    of every non-empty queue in order, until a pass pops nothing. */
module Interleaving {

  /** The queues in key order, concatenated. */
  function Flatten<T>(qs: seq<seq<T>>): seq<T> {
    if qs == [] then [] else Flatten(qs[..|qs| - 1]) + qs[|qs| - 1]
  }

  /** Appending x to one queue adds x, and nothing else, to the contents. */
  lemma {:induction false} FlattenAppendTo<T>(qs: seq<seq<T>>, j: nat, x: T)
    requires j < |qs|
    ensures multiset(Flatten(qs[j := qs[j] + [x]])) == multiset(Flatten(qs)) + multiset{x}
  {
    var n := |qs| - 1;
    var qs' := qs[j := qs[j] + [x]];
    assert Flatten(qs') == Flatten(qs'[..n]) + qs'[n];
    assert Flatten(qs) == Flatten(qs[..n]) + qs[n];
    if j == n {
      assert qs'[..n] == qs[..n];
    } else {
      assert qs'[..n] == qs[..n][j := qs[j] + [x]];
      FlattenAppendTo(qs[..n], j, x);
    }
  }

  function TotalSize<T>(qs: seq<seq<T>>): nat {
    if qs == [] then 0 else TotalSize(qs[..|qs| - 1]) + |qs[|qs| - 1]|
  }

  /** The queue after `pop(0)`, if it had anything to pop. */
  function Drop1<T>(q: seq<T>): seq<T> {
    if q == [] then [] else q[1..]
  }

  /** What one pass over the dictionary emits: the front of each non-empty
      queue, in key order. */
  function Heads<T>(qs: seq<seq<T>>): (h: seq<T>)
    ensures |h| <= |qs|
  {
    if qs == [] then []
    else
      var last := qs[|qs| - 1];
      Heads(qs[..|qs| - 1]) + (if last == [] then [] else [last[0]])
  }

  /** The queues after one pass. */
  function Tails<T>(qs: seq<seq<T>>): (t: seq<seq<T>>)
    ensures |t| == |qs|
  {
    if qs == [] then []
    else Tails(qs[..|qs| - 1]) + [Drop1(qs[|qs| - 1])]
  }

  /** A pass emits something exactly when some queue is non-empty, and it
      removes from the queues exactly what it emits. */
  lemma {:induction false} PassShrinks<T>(qs: seq<seq<T>>)
    ensures |Heads(qs)| == 0 <==> TotalSize(qs) == 0
    ensures TotalSize(Tails(qs)) + |Heads(qs)| == TotalSize(qs)
  {
    if qs != [] {
      var n := |qs| - 1;
      PassShrinks(qs[..n]);
      assert Tails(qs)[..n] == Tails(qs[..n]);
    }
  }

  /** Passes over the queues until they are all empty. */
  function Interleave<T>(qs: seq<seq<T>>): (r: seq<T>)
    ensures |r| == TotalSize(qs)
    decreases TotalSize(qs)
  {
    if TotalSize(qs) == 0 then []
    else
      PassShrinks(qs);
      Heads(qs) + Interleave(Tails(qs))
  }

  /** Round k: the k-th id of every queue that has one, in key order. */
  function Round<T>(qs: seq<seq<T>>, k: nat): seq<T> {
    if qs == [] then []
    else
      var last := qs[|qs| - 1];
      Round(qs[..|qs| - 1], k) + (if |last| > k then [last[k]] else [])
  }

  /** The length of the longest queue. */
  function MaxLen<T>(qs: seq<seq<T>>): nat {
    if qs == [] then 0
    else
      var m := MaxLen(qs[..|qs| - 1]);
      var last := |qs[|qs| - 1]|;
      if last > m then last else m
  }

  /** Rounds k, k+1, ... up to the longest queue. */
  function RoundsFrom<T>(qs: seq<seq<T>>, k: nat): seq<T>
    decreases MaxLen(qs) - k
  {
    if k >= MaxLen(qs) then [] else Round(qs, k) + RoundsFrom(qs, k + 1)
  }

  lemma {:induction false} HeadsIsRoundZero<T>(qs: seq<seq<T>>)
    ensures Heads(qs) == Round(qs, 0)
  {
    if qs != [] {
      HeadsIsRoundZero(qs[..|qs| - 1]);
    }
  }

  lemma {:induction false} RoundOfTails<T>(qs: seq<seq<T>>, k: nat)
    ensures Round(Tails(qs), k) == Round(qs, k + 1)
  {
    if qs != [] {
      var n := |qs| - 1;
      RoundOfTails(qs[..n], k);
      assert Tails(qs)[..n] == Tails(qs[..n]);
    }
  }

  lemma {:induction false} SizeZeroIffMaxLenZero<T>(qs: seq<seq<T>>)
    ensures TotalSize(qs) == 0 <==> MaxLen(qs) == 0
  {
    if qs != [] {
      SizeZeroIffMaxLenZero(qs[..|qs| - 1]);
    }
  }

  lemma {:induction false} MaxLenOfTails<T>(qs: seq<seq<T>>)
    ensures MaxLen(Tails(qs)) == if MaxLen(qs) == 0 then 0 else MaxLen(qs) - 1
  {
    if qs != [] {
      var n := |qs| - 1;
      MaxLenOfTails(qs[..n]);
      assert Tails(qs)[..n] == Tails(qs[..n]);
    }
  }

  /** Rounds from k are round k and the rounds after it, or nothing past
      the longest queue. */
  lemma RoundsFromStep<T>(qs: seq<seq<T>>, k: nat)
    ensures RoundsFrom(qs, k) == if k < MaxLen(qs) then Round(qs, k) + RoundsFrom(qs, k + 1) else []
  {
  }

  /** One step of RoundsFromTails: if the rounds agree from k+1 on, they
      agree from k on. */
  lemma RoundsFromTailsStep<T>(qs: seq<seq<T>>, k: nat)
    requires k + 1 < MaxLen(qs)
    requires RoundsFrom(Tails(qs), k + 1) == RoundsFrom(qs, k + 2)
    ensures RoundsFrom(Tails(qs), k) == RoundsFrom(qs, k + 1)
  {
    var t := Tails(qs);
    MaxLenOfTails(qs);
    RoundOfTails(qs, k);
    RoundsFromStep(t, k);
    RoundsFromStep(qs, k + 1);
  }

  /** Past the longest queue there are no rounds, before or after a pass. */
  lemma RoundsFromTailsEnd<T>(qs: seq<seq<T>>, k: nat)
    requires MaxLen(qs) <= k + 1
    ensures RoundsFrom(Tails(qs), k) == RoundsFrom(qs, k + 1) == []
  {
    MaxLenOfTails(qs);
    RoundsFromStep(Tails(qs), k);
    RoundsFromStep(qs, k + 1);
  }

  lemma {:induction false} RoundsFromTails<T>(qs: seq<seq<T>>, k: nat)
    ensures RoundsFrom(Tails(qs), k) == RoundsFrom(qs, k + 1)
    decreases MaxLen(qs) - k
  {
    if k + 1 < MaxLen(qs) {
      RoundsFromTails(qs, k + 1);
      RoundsFromTailsStep(qs, k);
    } else {
      RoundsFromTailsEnd(qs, k);
    }
  }

  /** Round 0 is what one pass emits; later rounds are the rounds of what
      it leaves. */
  lemma RoundsStep<T>(qs: seq<seq<T>>)
    requires TotalSize(qs) > 0
    ensures RoundsFrom(qs, 0) == Heads(qs) + RoundsFrom(Tails(qs), 0)
  {
    SizeZeroIffMaxLenZero(qs);
    HeadsIsRoundZero(qs);
    RoundsFromTails(qs, 0);
  }

  /** The interleaving emits round 0, then round 1, and so on: round k holds
      the k-th id of every queue that has at least k+1 ids, in key order. So
      each queue's order is kept and queues are visited in key order. */
  lemma {:induction false} InterleaveIsRounds<T>(qs: seq<seq<T>>)
    ensures Interleave(qs) == RoundsFrom(qs, 0)
    decreases TotalSize(qs)
  {
    if TotalSize(qs) > 0 {
      PassShrinks(qs);
      InterleaveIsRounds(Tails(qs));
      RoundsStep(qs);
    } else {
      SizeZeroIffMaxLenZero(qs);
    }
  }

  lemma FlattenSnoc<T>(qs: seq<seq<T>>, q: seq<T>)
    ensures Flatten(qs + [q]) == Flatten(qs) + q
  {
    assert (qs + [q])[..|qs|] == qs;
  }

  lemma TailsSnoc<T>(qs: seq<seq<T>>)
    requires qs != []
    ensures Flatten(Tails(qs)) == Flatten(Tails(qs[..|qs| - 1])) + Drop1(qs[|qs| - 1])
  {
    FlattenSnoc(Tails(qs[..|qs| - 1]), Drop1(qs[|qs| - 1]));
  }

  /** A queue is its head, if any, followed by what a pass leaves of it. */
  lemma HeadAndRest<T>(q: seq<T>)
    ensures multiset(if q == [] then [] else [q[0]]) + multiset(Drop1(q)) == multiset(q)
  {
    if q != [] {
      assert q == [q[0]] + q[1..];
    }
  }

  /** A pass moves ids from the queues to the output and loses none. */
  lemma {:induction false} HeadsTailsPermutation<T>(qs: seq<seq<T>>)
    ensures multiset(Heads(qs)) + multiset(Flatten(Tails(qs))) == multiset(Flatten(qs))
  {
    if qs != [] {
      var n := |qs| - 1;
      var init, last := qs[..n], qs[n];
      HeadsTailsPermutation(init);
      TailsSnoc(qs);
      HeadAndRest(last);
      assert Heads(qs) == Heads(init) + (if last == [] then [] else [last[0]]);
      assert Flatten(qs) == Flatten(init) + last;
    }
  }

  /** The interleaving emits every queued id exactly once. */
  lemma {:induction false} InterleavePermutation<T>(qs: seq<seq<T>>)
    ensures multiset(Interleave(qs)) == multiset(Flatten(qs))
    decreases TotalSize(qs)
  {
    HeadsTailsPermutation(qs);
    PassShrinks(qs);
    if TotalSize(qs) > 0 {
      InterleavePermutation(Tails(qs));
    } else {
      FlattenEmpty(qs);
    }
  }

  lemma {:induction false} FlattenEmpty<T>(qs: seq<seq<T>>)
    requires TotalSize(qs) == 0
    ensures Flatten(qs) == []
  {
    if qs != [] {
      FlattenEmpty(qs[..|qs| - 1]);
    }
  }

  lemma {:induction false} HeadsTailsSplit<T>(qs: seq<seq<T>>, j: nat)
    requires j < |qs|
    ensures Heads(qs[..j + 1]) == Heads(qs[..j]) + (if qs[j] == [] then [] else [qs[j][0]])
    ensures Tails(qs[..j + 1]) == Tails(qs[..j]) + [Drop1(qs[j])]
  {
    assert qs[..j + 1][..j] == qs[..j];
  }

  /** Tails drops the front of each queue, position by position. */
  lemma {:induction false} TailsPointwise<T>(qs: seq<seq<T>>, rest: seq<seq<T>>)
    requires |rest| == |qs|
    requires forall t :: 0 <= t < |qs| ==> rest[t] == Drop1(qs[t])
    ensures rest == Tails(qs)
  {
    if qs != [] {
      var n := |qs| - 1;
      TailsPointwise(qs[..n], rest[..n]);
      assert rest == rest[..n] + [rest[n]];
    }
  }

  /** One pass of the draining loop: pops the front of every non-empty queue
      in key order, and reports whether anything was popped. */
  method Pass<T>(queues: seq<seq<T>>) returns (rest: seq<seq<T>>, emitted: seq<T>, popped: bool)
    ensures rest == Tails(queues)
    ensures emitted == Heads(queues)
    ensures popped <==> TotalSize(queues) > 0
  {
    PassShrinks(queues);
    rest, emitted, popped := queues, [], false;
    for j := 0 to |queues|
      invariant |rest| == |queues|
      invariant forall t :: 0 <= t < j ==> rest[t] == Drop1(queues[t])
      invariant forall t :: j <= t < |queues| ==> rest[t] == queues[t]
      invariant emitted == Heads(queues[..j])
      invariant popped <==> emitted != []
    {
      HeadsTailsSplit(queues, j);
      if |rest[j]| > 0 {
        var image := rest[j][0];
        rest := rest[j := rest[j][1..]];
        popped := true;
        emitted := emitted + [image];
      }
    }
    assert queues[..|queues|] == queues;
    TailsPointwise(queues, rest);
  }

  /** Repeats passes while the previous pass popped something. */
  method Drain<T>(queues: seq<seq<T>>) returns (order: seq<T>)
    ensures order == Interleave(queues)
  {
    order := [];
    var current := queues;
    var keepGoing := true;
    while keepGoing
      invariant order + Interleave(current) == Interleave(queues)
      invariant !keepGoing ==> TotalSize(current) == 0
      decreases TotalSize(current) + (if keepGoing then 1 else 0)
    {
      var emitted;
      ghost var before := current;
      PassShrinks(current);
      current, emitted, keepGoing := Pass(current);
      if keepGoing {
        assert Interleave(before) == emitted + Interleave(current);
      }
      order := order + emitted;
    }
  }

  lemma RoundSnoc<T>(qs: seq<seq<T>>, q: seq<T>, k: nat)
    ensures Round(qs + [q], k) == Round(qs, k) + (if |q| > k then [q[k]] else [])
    ensures MaxLen(qs + [q]) == if |q| > MaxLen(qs) then |q| else MaxLen(qs)
  {
    assert (qs + [q])[..|qs|] == qs;
  }

  lemma RoundOfThree<T>(a: seq<T>, b: seq<T>, c: seq<T>, k: nat)
    ensures Round([a, b, c], k)
            == (if |a| > k then [a[k]] else []) + (if |b| > k then [b[k]] else []) + (if |c| > k then [c[k]] else [])
  {
    RoundSnoc([], a, k);
    RoundSnoc([a], b, k);
    assert [a] + [b] == [a, b];
    RoundSnoc([a, b], c, k);
    assert [a, b] + [c] == [a, b, c];
  }

  lemma RoundsOfExample<T>(x1: T, x2: T, x3: T, x4: T, x5: T, x6: T)
    ensures RoundsFrom([[x1, x2, x4], [x3, x5], [x6]], 0) == [x1, x3, x6, x2, x5, x4]
  {
    var a, b, c := [x1, x2, x4], [x3, x5], [x6];
    var qs := [a, b, c];
    assert MaxLen(qs) == 3 by {
      RoundSnoc([], a, 0);
      RoundSnoc([a], b, 0);
      assert [a] + [b] == [a, b];
      RoundSnoc([a, b], c, 0);
      assert [a, b] + [c] == qs;
    }
    RoundOfThree(a, b, c, 0);
    RoundOfThree(a, b, c, 1);
    RoundOfThree(a, b, c, 2);
    assert RoundsFrom(qs, 2) == [x4] + RoundsFrom(qs, 3);
    assert RoundsFrom(qs, 1) == [x2, x5] + RoundsFrom(qs, 2);
  }

  /** Queues 1 2 4 / 3 5 / 6 are drained as 1 3 6, then 2 5, then 4,
      whatever the ids are. */
  lemma InterleaveExample<T>(x1: T, x2: T, x3: T, x4: T, x5: T, x6: T)
    ensures Interleave([[x1, x2, x4], [x3, x5], [x6]]) == [x1, x3, x6, x2, x5, x4]
  {
    InterleaveIsRounds([[x1, x2, x4], [x3, x5], [x6]]);
    RoundsOfExample(x1, x2, x3, x4, x5, x6);
  }
}
