/** The latency window (ops_metrics.go); latencies are real numbers. */
module Metrics {
  import opened Sorting

  datatype OpsMetricsView = OpsMetricsView(requests: nat, errors: nat, avgLatency: real, p95Latency: real)

  /** The last n samples, or all of them if there are no more. */
  function Last(samples: seq<real>, n: nat): seq<real> {
    if |samples| <= n then samples else samples[|samples| - n..]
  }

  datatype MetricsCall = RecordCall(latency: real, failed: bool) | ResetCall

  /** One call: a sample goes in at the end and the oldest beyond the capacity go. */
  function Step(capacity: nat, state: (seq<real>, nat), call: MetricsCall): (seq<real>, nat) {
    match call
    case RecordCall(latency, failed) => (Last(state.0 + [latency], capacity), state.1 + if failed then 1 else 0)
    case ResetCall => ([], 0)
  }

  /** The window and the error count after a run of calls on a new instance. */
  function RunMetrics(capacity: nat, calls: seq<MetricsCall>): (seq<real>, nat) {
    if calls == [] then ([], 0) else
      Step(capacity, RunMetrics(capacity, calls[..|calls| - 1]), calls[|calls| - 1])
  }

  /** Everything recorded since the last Reset. */
  function Recorded(calls: seq<MetricsCall>): seq<real> {
    if calls == [] || calls[|calls| - 1].ResetCall? then [] else
      Recorded(calls[..|calls| - 1]) + [calls[|calls| - 1].latency]
  }

  /** The failures since the last Reset. */
  function Failures(calls: seq<MetricsCall>): nat {
    if calls == [] || calls[|calls| - 1].ResetCall? then 0 else
      Failures(calls[..|calls| - 1]) + if calls[|calls| - 1].failed then 1 else 0
  }

  /** No sample of the last n is older than one left out, and there are n of them if there can be. */
  lemma LastExactly(samples: seq<real>, n: nat)
    ensures var k := |Last(samples, n)|;
            k == (if |samples| <= n then |samples| else n) && samples[|samples| - k..] == Last(samples, n)
  {
  }

  lemma NothingToWindow(n: nat)
    ensures Last([], n) == []
  {
  }

  lemma WindowSlides(samples: seq<real>, latency: real, n: nat)
    ensures Last(Last(samples, n) + [latency], n) == Last(samples + [latency], n)
  {
  }

  /** On every run the window is the last samples up to the capacity, and the errors are all the
      failures since the last Reset, windowed or not. */
  lemma {:induction false} RunIsWindow(capacity: nat, calls: seq<MetricsCall>)
    ensures RunMetrics(capacity, calls) == (Last(Recorded(calls), capacity), Failures(calls))
  {
    hide Last;
    NothingToWindow(capacity);
    if calls != [] {
      var front, last := calls[..|calls| - 1], calls[|calls| - 1];
      RunIsWindow(capacity, front);
      if last.RecordCall? { WindowSlides(Recorded(front), last.latency, capacity); }
    }
  }

  /** So the errors shown stay within the requests shown exactly while there have been no more
      failures than the window holds. */
  lemma ErrorsWithinRequests(capacity: nat, calls: seq<MetricsCall>)
    ensures RunMetrics(capacity, calls).1 <= |RunMetrics(capacity, calls).0| <==> Failures(calls) <= capacity
  {
    RunIsWindow(capacity, calls);
    FailuresAreRecorded(calls);
  }

  lemma {:induction false} FailuresAreRecorded(calls: seq<MetricsCall>)
    ensures Failures(calls) <= |Recorded(calls)|
  {
    if calls != [] {
      FailuresAreRecorded(calls[..|calls| - 1]);
    }
  }

  /** Two failures in a window of one. */
  lemma ErrorsExceedRequests()
    ensures var (window, errors) := RunMetrics(1, [RecordCall(1.0, true), RecordCall(2.0, true)]);
            errors == 2 && |window| == 1
  {
  }

  function Sum(xs: seq<real>): real {
    if xs == [] then 0.0 else Sum(xs[..|xs| - 1]) + xs[|xs| - 1]
  }

  /** One sample sums to itself, and sums add up. */
  lemma {:induction false} SumAdds(xs: seq<real>, ys: seq<real>)
    ensures Sum(xs + ys) == Sum(xs) + Sum(ys) && (|xs| == 1 ==> Sum(xs) == xs[0])
  {
    if ys == [] {
      assert xs + ys == xs;
    } else {
      var front := ys[..|ys| - 1];
      assert (xs + ys)[..|xs + ys| - 1] == xs + front;
      SumAdds(xs, front);
    }
  }

  /** The samples at some positions added up. */
  ghost function SumAt(xs: seq<real>, at: set<nat>): real
    requires forall k :: k in at ==> k < |xs|
  {
    if at == {} then 0.0 else
      var k :| k in at;
      xs[k] + SumAt(xs, at - {k})
  }

  lemma {:induction false} SumWithout(xs: seq<real>, at: set<nat>, k: nat)
    requires (forall j :: j in at ==> j < |xs|) && k in at
    ensures SumAt(xs, at) == xs[k] + SumAt(xs, at - {k})
  {
    var first :| first in at && SumAt(xs, at) == xs[first] + SumAt(xs, at - {first});
    if first != k {
      SumWithout(xs, at - {first}, k);
      SumWithout(xs, at - {k}, first);
      assert at - {first} - {k} == at - {k} - {first};
    }
  }

  function Image(p: seq<nat>, n: nat): set<nat>
    requires n <= |p|
  {
    set j | 0 <= j < n :: p[j]
  }

  lemma {:induction false} SumImage(before: seq<real>, after: seq<real>, p: seq<nat>, n: nat)
    requires |before| == |after| == |p| && Places(p) && n <= |p|
    requires forall i :: 0 <= i < |p| ==> after[i] == before[p[i]]
    ensures Sum(after[..n]) == SumAt(before, Image(p, n))
  {
    if n == 0 {
      assert after[..n] == [];
    } else {
      SumImage(before, after, p, n - 1);
      assert after[..n][..n - 1] == after[..n - 1];
      assert Image(p, n) - {p[n - 1]} == Image(p, n - 1);
      SumWithout(before, Image(p, n), p[n - 1]);
    }
  }

  /** Sorting does not change the sum. */
  lemma SumOfSorted(before: seq<real>, after: seq<real>, p: seq<nat>)
    requires StablySorted(Lower, before, after, p)
    ensures Sum(after) == Sum(before)
  {
    hide Sum, SumAt, Lower;
    var q: seq<nat> := seq(|p|, i => i);
    SumImage(before, after, p, |p|);
    SumImage(before, before, q, |p|);
    SamePlaces(p, q);
    assert after[..|p|] == after && before[..|p|] == before;
  }

  lemma SamePlaces(p: seq<nat>, q: seq<nat>)
    requires Places(p) && Places(q) && |p| == |q|
    ensures Image(p, |p|) == Image(q, |q|)
  {
    forall k | k in Image(p, |p|) ensures k in Image(q, |q|) { var i := Whence(q, k); }
    forall k | k in Image(q, |q|) ensures k in Image(p, |p|) { var i := Whence(p, k); }
  }

  predicate Lower(a: real, b: real) {
    a < b
  }

  /** Where the samples up to v are, and those from v on. */
  function AtMost(xs: seq<real>, v: real): set<nat> {
    set i: nat | i < |xs| && xs[i] <= v
  }

  function AtLeast(xs: seq<real>, v: real): set<nat> {
    set i: nat | i < |xs| && xs[i] >= v
  }

  /** The sample at position k of the sorted list has at least k + 1 samples up to it and all but
      k from it on. */
  lemma RankOf(before: seq<real>, after: seq<real>, p: seq<nat>, k: nat)
    requires StablySorted(Lower, before, after, p) && k < |p|
    ensures |AtMost(before, after[k])| >= k + 1 && |AtLeast(before, after[k])| >= |p| - k
    ensures after[k] in before
  {
    ImageSize(p, k + 1);
    var low := set j | 0 <= j < k + 1 :: p[j];
    forall i | i in low ensures i in AtMost(before, after[k]) {
      var j :| 0 <= j < k + 1 && p[j] == i;
      assert !Lower(after[k], after[j]) || j == k;
    }
    SubsetSize(low, AtMost(before, after[k]));
    var tail := p[k..];
    ImageSize(tail, |tail|);
    var high := set j | 0 <= j < |tail| :: tail[j];
    forall i | i in high ensures i in AtLeast(before, after[k]) {
      var j :| 0 <= j < |tail| && tail[j] == i;
      assert after[k + j] == before[i];
    }
    SubsetSize(high, AtLeast(before, after[k]));
  }

  class OpsMetrics {
    const capacity: nat
    var latency: seq<real>
    var errors: nat

    constructor (capacity: int)
      ensures this.capacity == (if capacity < 1 then 64 else capacity) >= 1
      ensures (latency, errors) == RunMetrics(this.capacity, [])
    {
      this.capacity := if capacity < 1 then 64 else capacity;
      latency := [];
      errors := 0;
    }

    method Record(latency: real, failed: bool)
      modifies this
      ensures (this.latency, errors) == Step(capacity, old((this.latency, errors)), RecordCall(latency, failed))
      ensures errors == old(errors) + if failed then 1 else 0
      ensures |old(this.latency)| < capacity ==> this.latency == old(this.latency) + [latency]
      ensures |old(this.latency)| == capacity >= 1 ==> this.latency == old(this.latency)[1..] + [latency]
    {
      this.latency := this.latency + [latency];
      if |this.latency| > capacity {
        this.latency := this.latency[|this.latency| - capacity..];
      }
      if failed {
        errors := errors + 1;
      }
    }

    method Reset()
      modifies this
      ensures (latency, errors) == Step(capacity, old((latency, errors)), ResetCall) == ([], 0)
    {
      latency := [];
      errors := 0;
    }

    /** The mean, and a sample that more than 95 in 100 do not exceed and at least 5 in 100
        reach; the index never leaves the window. */
    method Snapshot() returns (view: OpsMetricsView)
      ensures view.requests == |latency| && view.errors == errors
      ensures latency == [] ==> view.avgLatency == view.p95Latency == 0.0
      ensures latency != [] ==>
        && view.avgLatency == Sum(latency) / |latency| as real
        && view.p95Latency in latency
        && 100 * |AtMost(latency, view.p95Latency)| > 95 * |latency|
        && 100 * |AtLeast(latency, view.p95Latency)| >= 5 * |latency|
    {
      hide Sum, AtMost, AtLeast, StablySorted;
      view := OpsMetricsView(|latency|, errors, 0.0, 0.0);
      if |latency| > 0 {
        var samples, p := SortedCopy(latency);
        var total := Total(samples);
        SumOfSorted(latency, samples[..], p);
        var k := samples.Length * 95 / 100;
        RankOf(latency, samples[..], p, k);
        view := view.(avgLatency := total / samples.Length as real, p95Latency := samples[k]);
      }
    }
  }

  method SortedCopy(latency: seq<real>) returns (samples: array<real>, ghost p: seq<nat>)
    ensures fresh(samples) && samples.Length == |latency| == |p| && StablySorted(Lower, latency, samples[..], p)
  {
    samples := new real[|latency|](i requires 0 <= i < |latency| => latency[i]);
    assert samples[..] == latency;
    p := StableSort(samples, Lower);
  }

  method Total(samples: array<real>) returns (total: real)
    ensures total == Sum(samples[..])
  {
    total := 0.0;
    for i := 0 to samples.Length
      invariant total == Sum(samples[..i])
    {
      assert samples[..i + 1][..i] == samples[..i];
      total := total + samples[i];
    }
    assert samples[..samples.Length] == samples[..];
  }
}
