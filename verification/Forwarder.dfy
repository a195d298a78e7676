// src/forwarder/otlphttp.rs: the ring buffer between the scheduler and the wire.
module Forwarder {
  import opened Prelude

  datatype Kind = Gauge | Counter

  // `value` stands for the bits of the sample, which nothing here looks into.
  datatype Metric = Metric(name: Text, kind: Kind, labels: seq<(Text, Text)>, timestamp: int, value: nat)

  function Sizes<T>(bs: seq<seq<T>>): (r: seq<nat>)
    ensures |r| == |bs|
    ensures forall i :: 0 <= i < |bs| ==> r[i] == |bs[i]|
  {
    seq(|bs|, i requires 0 <= i < |bs| => |bs[i]|)
  }

  predicate Positive(s: seq<nat>) {
    forall i :: 0 <= i < |s| ==> s[i] > 0
  }

  /** How many of the oldest batches overflow drops. */
  function EvictCount(s: seq<nat>, cap: nat): (k: nat)
    ensures k <= |s|
  {
    if Sum(s) <= cap || s == [] then 0 else 1 + EvictCount(s[1..], cap)
  }

  /** How many batches one request takes, `taken` metrics being in it already. */
  function PopCount(s: seq<nat>, taken: nat, max: nat): (k: nat)
    ensures k <= |s|
  {
    if s == [] || (taken > 0 && taken + s[0] > max) then 0
    else if taken + s[0] >= max then 1
    else 1 + PopCount(s[1..], taken + s[0], max)
  }

  // Overflow keeps the longest suffix that fits.
  lemma {:induction false} EvictKeepsLongestSuffix(s: seq<nat>, cap: nat)
    ensures
      var k := EvictCount(s, cap);
      Sum(s[k..]) <= cap && forall i :: 0 <= i < k ==> Sum(s[i..]) > cap
  {
    if Sum(s) > cap {
      EvictKeepsLongestSuffix(s[1..], cap);
      var k := EvictCount(s, cap);
      assert s[1..][k - 1..] == s[k..];
      forall i | 0 <= i < k ensures Sum(s[i..]) > cap {
        if i > 0 {
          assert s[1..][i - 1..] == s[i..];
        }
      }
    }
    assert s[0..] == s;
  }

  lemma SuffixSums(s: seq<nat>, i: nat, k: nat)
    requires i <= k <= |s|
    ensures Sum(s[k..]) <= Sum(s[i..])
  {
    SumSplit(s[i..], k - i);
    assert s[i..][k - i..] == s[k..];
  }

  lemma EvictCountIs(s: seq<nat>, cap: nat, m: nat)
    requires m <= |s| && Sum(s[m..]) <= cap && (m > 0 ==> Sum(s[m - 1..]) > cap)
    ensures EvictCount(s, cap) == m
  {
    var k := EvictCount(s, cap);
    EvictKeepsLongestSuffix(s, cap);
    if k < m {
      SuffixSums(s, k, m - 1);
    }
  }

  // A request takes the longest prefix within its limit, and always the first batch.
  lemma {:induction false} PopTakesLongestPrefix(s: seq<nat>, taken: nat, max: nat)
    requires Positive(s) && s != []
    ensures
      var k := PopCount(s, taken, max);
      && (taken == 0 ==> k >= 1)
      && (k >= 1 ==> taken + Sum(s[..k]) <= max || (taken == 0 && k == 1))
      && (k < |s| ==> taken + Sum(s[..k + 1]) > max)
  {
    var k := PopCount(s, taken, max);
    assert s[..1] == [s[0]] && [s[0]][1..] == [];
    if k >= 1 && taken + s[0] < max && |s| > 1 {
      PopTakesLongestPrefix(s[1..], taken + s[0], max);
      assert s[1..][..k - 1] == s[..k][1..];
      assert k < |s| ==> s[1..][..k] == s[..k + 1][1..];
    } else if k == 1 && |s| > 1 {
      assert s[..2][1..] == [s[1]] && [s[1]][1..] == [];
    }
  }

  lemma FrontSize<T>(bs: seq<seq<T>>)
    requires bs != []
    ensures Sizes(bs)[0] == |bs[0]| && Sizes(bs)[1..] == Sizes(bs[1..])
    ensures Sum(Sizes(bs)) == |bs[0]| + Sum(Sizes(bs[1..]))
    ensures Positive(Sizes(bs)) ==> |bs[0]| > 0 && Positive(Sizes(bs[1..]))
  {
    assert Sizes(bs)[1..] == Sizes(bs[1..]);
    if Positive(Sizes(bs)) {
      assert Sizes(bs)[0] > 0;
      forall i | 0 <= i < |bs[1..]| ensures Sizes(bs[1..])[i] > 0 {
        assert Sizes(bs)[i + 1] > 0;
      }
    }
  }

  lemma PushFront<T>(b: seq<T>, bs: seq<seq<T>>)
    ensures Sum(Sizes([b] + bs)) == |b| + Sum(Sizes(bs))
    ensures |b| > 0 && Positive(Sizes(bs)) ==> Positive(Sizes([b] + bs))
  {
    assert ([b] + bs)[1..] == bs;
    FrontSize([b] + bs);
  }

  lemma PopFront<T>(bs: seq<seq<T>>, taken: nat, max: nat)
    ensures
      PopCount(Sizes(bs), taken, max) ==
        if bs == [] || (taken > 0 && taken + |bs[0]| > max) then 0
        else if taken + |bs[0]| >= max then 1
        else 1 + PopCount(Sizes(bs[1..]), taken + |bs[0]|, max)
  {
    if bs != [] {
      FrontSize(bs);
    }
  }

  function Evicted<T>(bs: seq<seq<T>>, cap: nat): seq<seq<T>> {
    bs[EvictCount(Sizes(bs), cap)..]
  }

  // `kept` is the longest suffix of `all` that fits the cap.
  ghost predicate LongestFit<T>(kept: seq<seq<T>>, all: seq<seq<T>>, cap: nat) {
    && |kept| <= |all| && kept == all[|all| - |kept|..]
    && Sum(Sizes(kept)) <= cap
    && (|kept| < |all| ==> Sum(Sizes(all[|all| - |kept| - 1..])) > cap)
  }

  lemma EvictedIsLongestFit<T>(bs: seq<seq<T>>, cap: nat)
    ensures LongestFit(Evicted(bs, cap), bs, cap)
  {
    var k := EvictCount(Sizes(bs), cap);
    EvictKeepsLongestSuffix(Sizes(bs), cap);
    assert Sizes(bs[k..]) == Sizes(bs)[k..];
    assert k > 0 ==> Sizes(bs[k - 1..]) == Sizes(bs)[k - 1..];
  }

  function Submitted<T>(bs: seq<seq<T>>, m: seq<T>, cap: nat): seq<seq<T>> {
    if m == [] then bs else Evicted(bs + [m], cap)
  }

  class OtlphttpForwarder {
    var batches: seq<seq<Metric>>
    var totalMetrics: nat
    const bufferMax: nat
    const requestMax: nat

    ghost predicate Valid()
      reads this
    {
      && bufferMax > 0 && requestMax > 0
      && totalMetrics == Sum(Sizes(batches)) <= bufferMax
      && Positive(Sizes(batches))
    }

    constructor (bufferMax: nat, requestMax: nat)
      requires bufferMax > 0 && requestMax > 0
      ensures Valid() && batches == [] && this.bufferMax == bufferMax && this.requestMax == requestMax
    {
      batches, totalMetrics := [], 0;
      this.bufferMax, this.requestMax := bufferMax, requestMax;
    }

    // Drop from the front until the cap holds again.
    method Enforce()
      requires bufferMax > 0 && requestMax > 0
      requires totalMetrics == Sum(Sizes(batches)) && Positive(Sizes(batches))
      modifies this
      ensures Valid() && batches == Evicted(old(batches), bufferMax)
    {
      ghost var all, k := batches, 0;
      while totalMetrics > bufferMax
        invariant k <= |all| && batches == all[k..]
        invariant totalMetrics == Sum(Sizes(batches)) && Positive(Sizes(batches))
        invariant EvictCount(Sizes(all), bufferMax) == k + EvictCount(Sizes(batches), bufferMax)
        decreases |batches|
      {
        if batches == [] {
          break;
        }
        assert Sizes(batches)[1..] == Sizes(batches[1..]);
        totalMetrics := totalMetrics - |batches[0]|;
        batches := batches[1..];
        k := k + 1;
      }
    }

    method Submit(metrics: seq<Metric>)
      requires Valid()
      modifies this
      ensures Valid() && batches == Submitted(old(batches), metrics, bufferMax)
    {
      if metrics == [] {
        return;
      }
      SizesConcat(batches, [metrics]);
      assert Sizes([metrics])[1..] == [];
      SumConcat(Sizes(batches), Sizes([metrics]));
      totalMetrics := totalMetrics + |metrics|;
      batches := batches + [metrics];
      Enforce();
    }

    method PopForSend() returns (popped: seq<seq<Metric>>)
      requires Valid()
      modifies this
      ensures Valid()
      ensures popped == old(batches)[..PopCount(Sizes(old(batches)), 0, requestMax)]
      ensures popped + batches == old(batches)
    {
      hide Sum, PopCount, Sizes, Positive;
      ghost var all := batches;
      popped := [];
      var taken: nat := 0;
      while batches != []
        invariant popped + batches == all && Valid() && (popped == [] <==> taken == 0)
        invariant PopCount(Sizes(all), 0, requestMax) == |popped| + PopCount(Sizes(batches), taken, requestMax)
        decreases |batches|
      {
        var size := |batches[0]|;
        PopFront(batches, taken, requestMax);
        if taken > 0 && taken + size > requestMax {
          assert PopCount(Sizes(all), 0, requestMax) == |popped|;
          return;
        }
        FrontSize(batches);
        var batch := batches[0];
        batches := batches[1..];
        totalMetrics := totalMetrics - size;
        taken := taken + size;
        popped := popped + [batch];
        if taken >= requestMax {
          assert PopCount(Sizes(all), 0, requestMax) == |popped|;
          return;
        }
      }
      PopFront(batches, taken, requestMax);
    }

    method Requeue(popped: seq<seq<Metric>>)
      requires Valid() && Positive(Sizes(popped))
      modifies this
      ensures Valid() && batches == Evicted(popped + old(batches), bufferMax)
    {
      hide Sum, Sizes;
      var i: nat := |popped|;
      while i > 0
        invariant i <= |popped| && batches == popped[i..] + old(batches)
        invariant totalMetrics == Sum(Sizes(batches)) && Positive(Sizes(batches))
      {
        i := i - 1;
        assert Sizes(popped)[i] == |popped[i]|;
        PushFront(popped[i], batches);
        totalMetrics := totalMetrics + |popped[i]|;
        batches := [popped[i]] + batches;
      }
      assert popped[0..] == popped;
      Enforce();
    }
  }

  lemma SizesConcat<T>(a: seq<seq<T>>, b: seq<seq<T>>)
    ensures Sizes(a + b) == Sizes(a) + Sizes(b)
  {
  }

  lemma {:induction false} EvictMonotone(x: seq<nat>, y: seq<nat>, cap: nat)
    ensures EvictCount(x, cap) <= EvictCount(x + y, cap)
  {
    SumConcat(x, y);
    if Sum(x) > cap {
      assert (x + y)[1..] == x[1..] + y;
      EvictMonotone(x[1..], y, cap);
    }
  }

  lemma {:induction false} EvictSkip(s: seq<nat>, k: nat, cap: nat)
    requires k <= EvictCount(s, cap)
    ensures EvictCount(s, cap) == k + EvictCount(s[k..], cap)
  {
    if k == 0 {
      assert s[0..] == s;
    } else {
      EvictSkip(s[1..], k - 1, cap);
      assert s[1..][k - 1..] == s[k..];
    }
  }

  lemma EvictedInSteps<T>(x: seq<seq<T>>, y: seq<seq<T>>, cap: nat)
    ensures Evicted(Evicted(x, cap) + y, cap) == Evicted(x + y, cap)
  {
    var k := EvictCount(Sizes(x), cap);
    SizesConcat(x, y);
    EvictMonotone(Sizes(x), Sizes(y), cap);
    EvictSkip(Sizes(x + y), k, cap);
    assert Sizes(x + y)[k..] == Sizes(x[k..] + y);
    assert (x + y)[k..] == x[k..] + y;
  }

  function SubmitAll<T>(bs: seq<seq<T>>, ms: seq<seq<T>>, cap: nat): seq<seq<T>> {
    if ms == [] then bs else Submitted(SubmitAll(bs, ms[..|ms| - 1], cap), ms[|ms| - 1], cap)
  }

  lemma {:induction false} SubmitsEvict<T>(bs: seq<seq<T>>, ms: seq<seq<T>>, cap: nat)
    requires Sum(Sizes(bs)) <= cap && Positive(Sizes(ms))
    ensures SubmitAll(bs, ms, cap) == Evicted(bs + ms, cap)
  {
    if ms == [] {
      assert bs + ms == bs;
    } else {
      var before, m := ms[..|ms| - 1], ms[|ms| - 1];
      assert Sizes(ms)[|ms| - 1] == |m|;
      assert forall i :: 0 <= i < |before| ==> Sizes(before)[i] == Sizes(ms)[i];
      SubmitsEvict(bs, before, cap);
      EvictedInSteps(bs + before, [m], cap);
      assert bs + ms == bs + before + [m];
    }
  }

  // Submissions alone leave the longest suffix of everything submitted that
  // fits the cap.
  lemma SubmitsKeepSuffix<T>(bs: seq<seq<T>>, ms: seq<seq<T>>, cap: nat)
    requires Sum(Sizes(bs)) <= cap && Positive(Sizes(ms))
    ensures LongestFit(SubmitAll(bs, ms, cap), bs + ms, cap)
  {
    hide Evicted, SubmitAll, Sum, Sizes, LongestFit;
    SubmitsEvict(bs, ms, cap);
    EvictedIsLongestFit(bs + ms, cap);
  }

  // With nothing submitted in between, requeue undoes pop.
  lemma RequeueUndoesPop<T>(bs: seq<seq<T>>, k: nat, cap: nat)
    requires k <= |bs| && Sum(Sizes(bs)) <= cap
    ensures Evicted(bs[..k] + bs[k..], cap) == bs
  {
    assert bs[..k] + bs[k..] == bs;
  }

  lemma NothingEvicted<T>(bs: seq<seq<T>>, cap: nat)
    requires Sum(Sizes(bs)) <= cap
    ensures Evicted(bs, cap) == bs
  {
  }

  // A send fails after `popped` left the buffer holding `rest` and the
  // batches `ms` were submitted meanwhile. The buffer then ends with every
  // batch it would hold had no send been tried. It may hold older ones
  // besides: it holds exactly the same batches unless the submissions
  // overflowed the shortened buffer and the newest popped batch fits in front
  // of what they left.
  lemma FailedSendNeverCostsData<T>(popped: seq<seq<T>>, rest: seq<seq<T>>, ms: seq<seq<T>>, cap: nat)
    requires Sum(Sizes(popped + rest)) <= cap && Positive(Sizes(popped)) && Positive(Sizes(ms))
    ensures
      var untried := SubmitAll(popped + rest, ms, cap);
      var meanwhile := SubmitAll(rest, ms, cap);
      var requeued := Evicted(popped + meanwhile, cap);
      && |untried| <= |requeued| && requeued[|requeued| - |untried|..] == untried
      && (requeued == untried <==>
            Sum(Sizes(rest + ms)) <= cap || popped == [] || |popped[|popped| - 1]| + Sum(Sizes(meanwhile)) > cap)
  {
    hide SubmitAll, Evicted, Sum, Sizes, Positive;
    SizesConcat(popped, rest);
    SumConcat(Sizes(popped), Sizes(rest));
    SubmitsEvict(popped + rest, ms, cap);
    SubmitsEvict(rest, ms, cap);
    assert popped + rest + ms == popped + (rest + ms);
    var meanwhile := Evicted(rest + ms, cap);
    if Sum(Sizes(rest + ms)) <= cap {
      NothingEvicted(rest + ms, cap);
    } else {
      EvictPast(popped, rest + ms, cap);
      RequeueOverflowed(popped, meanwhile, rest + ms, cap);
    }
  }

  // What precedes an overflowing suffix is dropped first.
  lemma EvictPast<T>(a: seq<seq<T>>, b: seq<seq<T>>, cap: nat)
    requires Sum(Sizes(b)) > cap
    ensures Evicted(a + b, cap) == Evicted(b, cap)
  {
    SizesConcat(a, b);
    EvictKeepsLongestSuffix(Sizes(a + b), cap);
    var k := EvictCount(Sizes(a + b), cap);
    if k < |a| {
      SuffixSums(Sizes(a + b), k, |a|);
    }
    assert Sizes(a + b)[|a|..] == Sizes(b) && (a + b)[|a|..] == b;
    EvictSkip(Sizes(a + b), |a|, cap);
    assert (a + b)[k..] == b[k - |a|..];
  }

  lemma RequeueOverflowed<T>(popped: seq<seq<T>>, meanwhile: seq<seq<T>>, all: seq<seq<T>>, cap: nat)
    requires meanwhile == Evicted(all, cap)
    ensures
      var requeued := Evicted(popped + meanwhile, cap);
      && |meanwhile| <= |requeued| && requeued[|requeued| - |meanwhile|..] == meanwhile
      && (requeued == meanwhile <==> popped == [] || |popped[|popped| - 1]| + Sum(Sizes(meanwhile)) > cap)
  {
    EvictKeepsLongestSuffix(Sizes(all), cap);
    assert Sizes(meanwhile) == Sizes(all)[EvictCount(Sizes(all), cap)..];
    var s, p := Sizes(popped + meanwhile), |popped|;
    SizesConcat(popped, meanwhile);
    EvictKeepsLongestSuffix(s, cap);
    assert s[p..] == Sizes(meanwhile);
    if p > 0 {
      assert s[p - 1..][1..] == s[p..] && s[p - 1] == |popped[p - 1]|;
      if |popped[p - 1]| + Sum(Sizes(meanwhile)) > cap {
        EvictCountIs(s, cap, p);
      }
    }
    assert (popped + meanwhile)[p..] == meanwhile;
  }

  // Two submissions overflow the buffer a pop emptied; the popped batch still
  // fits in front of what they left, and comes back ahead of the newest one.
  lemma FailedSendMayKeepMore()
    ensures
      var popped, ms := [[0]], [[1, 1], [2, 2]];
      && SubmitAll(popped + [], ms, 3) == [[2, 2]]
      && Evicted(popped + SubmitAll([], ms, 3), 3) == [[0], [2, 2]]
  {
    hide EvictCount, SubmitAll;
    var all := [[0], [1, 1], [2, 2]];
    assert Sizes([[0]]) == [1] && Sizes([[1, 1], [2, 2]]) == [2, 2] && Sizes(all) == [1, 2, 2] && Sizes([[0], [2, 2]]) == [1, 2];
    assert [2, 2][1..] == [2] && [1, 2, 2][1..] == [2, 2] && [1, 2][1..] == [2] && [2][1..] == [];
    SubmitsEvict([[0]], [[1, 1], [2, 2]], 3);
    SubmitsEvict([], [[1, 1], [2, 2]], 3);
    EvictCountIs([1, 2, 2], 3, 2);
    EvictCountIs([2, 2], 3, 1);
    EvictCountIs([1, 2], 3, 0);
    assert [[0]] + [[1, 1], [2, 2]] == all && [] + [[1, 1], [2, 2]] == [[1, 1], [2, 2]];
    assert [[0]] + [] == [[0]] && [[0]] + [[2, 2]] == [[0], [2, 2]];
  }
}
