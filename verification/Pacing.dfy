/** Readers that hand over one thing for each read, however many a read completes. */
module Pacing {
  /** How many wait after the last read: those left before and those completed since, less the
      one handed over.  `totals[k]` have been completed by the first k reads. */
  function Waiting(totals: seq<nat>): nat
    requires |totals| > 0 && Growing(totals)
    decreases |totals|
  {
    var n := |totals| - 1;
    if n == 0 then 0 else LessOne(Waiting(totals[..n]) + (totals[n] - totals[n - 1]))
  }

  function LessOne(there: nat): nat {
    if there == 0 then 0 else there - 1
  }

  lemma GrowingMore(totals: seq<nat>, total: nat)
    requires |totals| > 0 && Growing(totals) && totals[|totals| - 1] <= total
    ensures Growing(totals + [total])
  {
    forall j, k | 0 <= j <= k < |totals + [total]|
      ensures (totals + [total])[j] <= (totals + [total])[k]
    {
      if k == |totals| && j < k {
        assert totals[j] <= totals[|totals| - 1];
      }
    }
  }

  lemma OneMoreRead(totals: seq<nat>, total: nat, all: seq<nat>)
    requires |totals| > 0 && Growing(totals) && totals[|totals| - 1] <= total && all == totals + [total]
    ensures Growing(all) && Waiting(all) == LessOne(Waiting(totals) + (total - totals[|totals| - 1]))
  {
    GrowingMore(totals, total);
    var n := |totals|;
    assert all[..n] == totals && all[n] == total && all[n - 1] == totals[n - 1];
  }

  predicate Growing(totals: seq<nat>) {
    forall j, k :: 0 <= j <= k < |totals| ==> totals[j] <= totals[k]
  }

  // What the reads after the k-th have completed beyond one each.
  function Excess(totals: seq<nat>, k: nat): int
    requires k < |totals|
  {
    (totals[|totals| - 1] - totals[k]) - (|totals| - 1 - k)
  }

  /** The number that waits is the greatest excess of any last reads. */
  lemma {:induction false} WaitingIsExcess(totals: seq<nat>) returns (k: nat)
    requires |totals| > 0 && Growing(totals)
    ensures k < |totals| && Waiting(totals) == Excess(totals, k)
    ensures forall j :: 0 <= j < |totals| ==> Excess(totals, j) <= Waiting(totals)
    decreases |totals|
  {
    var n := |totals| - 1;
    if n == 0 {
      k := 0;
    } else {
      var init := totals[..n];
      var m := WaitingIsExcess(init);
      assert forall j :: 0 <= j < n ==> Excess(totals, j) == Excess(init, j) + (totals[n] - totals[n - 1]) - 1;
      k := if Waiting(init) + (totals[n] - totals[n - 1]) == 0 then n else m;
    }
  }

  /** No last reads have completed more than there are of them. */
  predicate Paced(totals: seq<nat>) {
    forall k :: 0 <= k < |totals| ==> totals[|totals| - 1] - totals[k] <= |totals| - 1 - k
  }

  lemma NothingWaitsIff(totals: seq<nat>)
    requires |totals| > 0 && Growing(totals)
    ensures Waiting(totals) == 0 <==> Paced(totals)
  {
    var k := WaitingIsExcess(totals);
    assert Excess(totals, k) == (totals[|totals| - 1] - totals[k]) - (|totals| - 1 - k);
    if Waiting(totals) == 0 {
      forall j | 0 <= j < |totals|
        ensures totals[|totals| - 1] - totals[j] <= |totals| - 1 - j
      {
        assert Excess(totals, j) <= 0;
      }
    }
  }
}
