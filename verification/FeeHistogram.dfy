/** The mempool fee histogram: bins of transactions by falling fee rate. */
module FeeHistogram {
  import Sorting

  const VSIZE_BIN_WIDTH := 50_000

  /** A fee rate is a real number here; the rounding of the source's floating-point division is not modelled. */
  datatype FeeInfo = FeeInfo(vsize: nat, rate: real)

  datatype Bin = Bin(rate: real, vsize: nat)

  /** The virtual size of the entries paying at least `rate` (or, if `strictly`, more). */
  function PayingAtLeast(s: seq<FeeInfo>, rate: real, strictly: bool): nat {
    if s == [] then 0
    else PayingAtLeast(s[1..], rate, strictly)
         + if s[0].rate > rate || (s[0].rate == rate && !strictly) then s[0].vsize else 0
  }

  function Total(s: seq<FeeInfo>): nat {
    if s == [] then 0 else Total(s[1..]) + s[0].vsize
  }

  /** The sum of the first `n` bins. */
  function Running(bins: seq<Bin>, n: nat): nat
    requires n <= |bins|
  {
    if n == 0 then 0 else Running(bins, n - 1) + bins[n - 1].vsize
  }

  /**
   What a histogram of `s` is. Rates are rates some entry pays, and fall strictly; up to any bin the
   running total is the size of everything paying at least that bin's rate; every bin but the last is
   wider than the bin width; and no bin is wider than it has to be: without the entries at its own rate
   it would not be.
   */
  ghost predicate Histogram(bins: seq<Bin>, s: seq<FeeInfo>) {
    && Falling(bins)
    && (forall i {:trigger Exact(bins, s, i)} :: 0 <= i < |bins| ==> Exact(bins, s, i))
    && (forall i :: 0 <= i < |bins| - 1 ==> bins[i].vsize > VSIZE_BIN_WIDTH)
  }

  ghost predicate Falling(bins: seq<Bin>) {
    forall i, j :: 0 <= i < j < |bins| ==> bins[i].rate > bins[j].rate
  }

  ghost predicate SomePays(s: seq<FeeInfo>, rate: real) {
    exists e :: e in s && e.rate == rate
  }

  ghost predicate Exact(bins: seq<Bin>, s: seq<FeeInfo>, i: nat)
    requires i < |bins|
  {
    && bins[i].vsize > 0 && SomePays(s, bins[i].rate) && Running(bins, i + 1) == PayingAtLeast(s, bins[i].rate, false)
    && PayingAtLeast(s, bins[i].rate, true) - Running(bins, i) <= VSIZE_BIN_WIDTH
  }

  // ----- Sums do not depend on order -------------------------------------------------------------

  lemma {:induction false} InsertSums(leq: (FeeInfo, FeeInfo) -> bool, x: FeeInfo, s: seq<FeeInfo>, rate: real,
                                      strictly: bool)
    ensures PayingAtLeast(Sorting.Insert(leq, x, s), rate, strictly) == PayingAtLeast([x] + s, rate, strictly)
    ensures Total(Sorting.Insert(leq, x, s)) == Total(s) + x.vsize
  {
    assert ([x] + s)[1..] == s;
    if s != [] && !leq(x, s[0]) {
      InsertSums(leq, x, s[1..], rate, strictly);
      var rest := Sorting.Insert(leq, x, s[1..]);
      assert ([s[0]] + rest)[1..] == rest;
      assert ([x] + s[1..])[1..] == s[1..];
    }
  }

  lemma {:induction false} SortSums(leq: (FeeInfo, FeeInfo) -> bool, s: seq<FeeInfo>, rate: real, strictly: bool)
    ensures PayingAtLeast(Sorting.Sort(leq, s), rate, strictly) == PayingAtLeast(s, rate, strictly)
    ensures Total(Sorting.Sort(leq, s)) == Total(s)
  {
    if s != [] {
      SortSums(leq, s[1..], rate, strictly);
      var rest := Sorting.Sort(leq, s[1..]);
      InsertSums(leq, s[0], rest, rate, strictly);
      assert ([s[0]] + rest)[1..] == rest;
    }
  }

  lemma {:induction false} ConcatSums(a: seq<FeeInfo>, b: seq<FeeInfo>, rate: real, strictly: bool)
    ensures PayingAtLeast(a + b, rate, strictly) == PayingAtLeast(a, rate, strictly) + PayingAtLeast(b, rate, strictly)
    ensures Total(a + b) == Total(a) + Total(b)
  {
    if a == [] {
      assert a + b == b;
    } else {
      ConcatSums(a[1..], b, rate, strictly);
      assert (a + b)[1..] == a[1..] + b;
    }
  }

  lemma {:induction false} AllOrNone(s: seq<FeeInfo>, rate: real, strictly: bool)
    ensures (forall i :: 0 <= i < |s| ==> s[i].rate > rate || (s[i].rate == rate && !strictly))
              ==> PayingAtLeast(s, rate, strictly) == Total(s)
    ensures (forall i :: 0 <= i < |s| ==> s[i].rate < rate || (s[i].rate == rate && strictly))
              ==> PayingAtLeast(s, rate, strictly) == 0
  {
    if s != [] { AllOrNone(s[1..], rate, strictly); }
  }

  /** In ascending order, everything from `k` up pays at least `rate` and nothing below does. */
  lemma {:induction false} SplitSum(s: seq<FeeInfo>, k: nat, rate: real, strictly: bool)
    requires k <= |s|
    requires forall i :: k <= i < |s| ==> s[i].rate > rate || (s[i].rate == rate && !strictly)
    requires forall i :: 0 <= i < k ==> s[i].rate < rate || (s[i].rate == rate && strictly)
    ensures PayingAtLeast(s, rate, strictly) == Total(s[k..])
  {
    assert s == s[..k] + s[k..];
    ConcatSums(s[..k], s[k..], rate, strictly);
    AllOrNone(s[..k], rate, strictly);
    AllOrNone(s[k..], rate, strictly);
  }

  lemma {:induction false} RunningPush(bins: seq<Bin>, b: Bin, n: nat)
    requires n <= |bins|
    ensures Running(bins + [b], n) == Running(bins, n)
  {
    if n > 0 { RunningPush(bins, b, n - 1); }
  }

  ghost predicate Ascending(s: seq<FeeInfo>) {
    forall i, j :: 0 <= i < j < |s| ==> s[i].rate <= s[j].rate
  }

  /** `k..=top` are the entries of rate `rate`. */
  ghost predicate RateRun(s: seq<FeeInfo>, k: nat, top: nat, rate: real) {
    && Ascending(s) && k <= top < |s| && s[k].rate == s[top].rate == rate
    && (k > 0 ==> s[k - 1].rate < rate) && (top + 1 < |s| ==> s[top + 1].rate > rate)
  }

  lemma {:induction false} RateSums(s: seq<FeeInfo>, k: nat, top: nat, rate: real)
    requires RateRun(s, k, top, rate)
    ensures PayingAtLeast(s, rate, false) == Total(s[k..]) && PayingAtLeast(s, rate, true) == Total(s[top + 1..])
  {
    SplitSum(s, k, rate, false);
    SplitSum(s, top + 1, rate, true);
  }

  /** The bins before a new one are what they were. */
  lemma {:induction false} KeepExact(bins: seq<Bin>, s: seq<FeeInfo>, bin: Bin, i: nat)
    requires i < |bins| && Exact(bins, s, i)
    ensures Exact(bins + [bin], s, i)
  {
    RunningPush(bins, bin, i);
    RunningPush(bins, bin, i + 1);
    assert (bins + [bin])[i] == bins[i];
  }

  /** Appending the bin of rate `rate` that ends at position `k` keeps a histogram. */
  lemma {:induction false} PushBin(bins: seq<Bin>, s: seq<FeeInfo>, k: nat, top: nat, bin: Bin)
    requires RateRun(s, k, top, bin.rate) && bin.vsize > 0
    requires Histogram(bins, s)
    requires (forall i :: 0 <= i < |bins| ==> bins[i].rate > bin.rate && bins[i].vsize > VSIZE_BIN_WIDTH)
    requires Running(bins, |bins|) + bin.vsize == Total(s[k..])
    requires Total(s[top + 1..]) - Running(bins, |bins|) <= VSIZE_BIN_WIDTH
    ensures Histogram(bins + [bin], s)
    ensures Running(bins + [bin], |bins| + 1) == Total(s[k..])
  {
    var more := bins + [bin];
    assert more[|bins|] == bin;
    RunningPush(bins, bin, |bins|);
    RateSums(s, k, top, bin.rate);
    assert s[k] in s && SomePays(s, bin.rate);
    forall i | 0 <= i < |more| ensures Exact(more, s, i) {
      if i < |bins| { KeepExact(bins, s, bin, i); }
    }
  }

  /**
   Between two entries: positions `k` and up of the ascending list are binned, the open bin holds
   `size` and the entries of its lowest rate, `last`, are `k..=top`.
   */
  ghost predicate Binning(bins: seq<Bin>, s: seq<FeeInfo>, k: nat, top: nat, size: nat, last: real) {
    && k <= |s| && Histogram(bins, s)
    && (forall i :: 0 <= i < |bins| ==> bins[i].vsize > VSIZE_BIN_WIDTH)
    && Running(bins, |bins|) + size == Total(s[k..])
    && if k == |s| then bins == [] else
         && k <= top < |s| && s[k].rate == s[top].rate == last
         && (top + 1 < |s| ==> s[top + 1].rate > last)
         && (forall i :: 0 <= i < |bins| ==> bins[i].rate > last)
         && Total(s[top + 1..]) - Running(bins, |bins|) <= VSIZE_BIN_WIDTH
  }

  /** The next entry joins the open bin, which is not over-full (or has the same rate). */
  lemma {:induction false} JoinBin(bins: seq<Bin>, s: seq<FeeInfo>, k: nat, top: nat, size: nat, last: real)
    requires Ascending(s) && Binning(bins, s, k, top, size, last) && k > 0
    requires size <= VSIZE_BIN_WIDTH || last == s[k - 1].rate
    ensures Binning(bins, s, k - 1, if k == |s| || last != s[k - 1].rate then k - 1 else top,
                    size + s[k - 1].vsize, s[k - 1].rate)
  {
    assert s[k - 1..][1..] == s[k..];
  }

  /** The over-full bin is closed and the next entry, at a lower rate, opens a new one. */
  lemma {:induction false} CloseBin(bins: seq<Bin>, s: seq<FeeInfo>, k: nat, top: nat, size: nat, last: real)
    requires Ascending(s) && Binning(bins, s, k, top, size, last) && 0 < k < |s|
    requires size > VSIZE_BIN_WIDTH && last != s[k - 1].rate
    ensures Binning(bins + [Bin(last, size)], s, k - 1, k - 1, s[k - 1].vsize, s[k - 1].rate)
  {
    assert s[k - 1..][1..] == s[k..];
    PushBin(bins, s, k, top, Bin(last, size));
  }

  lemma {:induction false} LastBin(bins: seq<Bin>, s: seq<FeeInfo>, top: nat, size: nat, last: real)
    requires Ascending(s) && Binning(bins, s, 0, top, size, last)
    ensures var all := if size > 0 then bins + [Bin(last, size)] else bins;
            Histogram(all, s) && Running(all, |all|) == Total(s)
  {
    assert s[0..] == s;
    if size > 0 { PushBin(bins, s, 0, top, Bin(last, size)); }
  }

  /** The method. Nothing is lost: the bins together hold every entry's size. */
  method MakeFeeHistogram(entries: seq<FeeInfo>) returns (histogram: seq<Bin>)
    ensures Histogram(histogram, entries)
    ensures Running(histogram, |histogram|) == Total(entries)
  {
    var leq := (a: FeeInfo, b: FeeInfo) => a.rate <= b.rate;
    var sorted := Sorting.Sort(leq, entries);
    Sorting.SortSorts(leq, entries);
    assert Ascending(sorted);
    histogram := BinsOf(sorted);
    Carry(leq, histogram, entries);
  }

  /** The loop body: close the open bin if it is over-full and the rate changes, then add the entry. */
  method AddEntry(bins: seq<Bin>, sorted: seq<FeeInfo>, k: nat, ghost top: nat, binSize: nat, lastFeeRate: real)
    returns (histogram: seq<Bin>, size: nat, last: real, ghost top': nat)
    requires Ascending(sorted) && Binning(bins, sorted, k, top, binSize, lastFeeRate) && k > 0
    ensures Binning(histogram, sorted, k - 1, top', size, last)
  {
    var e := sorted[k - 1];
    if binSize > VSIZE_BIN_WIDTH && lastFeeRate != e.rate {
      CloseBin(bins, sorted, k, top, binSize, lastFeeRate);
      return bins + [Bin(lastFeeRate, binSize)], e.vsize, e.rate, k - 1;
    }
    JoinBin(bins, sorted, k, top, binSize, lastFeeRate);
    return bins, binSize + e.vsize, e.rate, if k == |sorted| || lastFeeRate != e.rate then k - 1 else top;
  }

  method BinsOf(sorted: seq<FeeInfo>) returns (histogram: seq<Bin>)
    requires Ascending(sorted)
    ensures Histogram(histogram, sorted)
    ensures Running(histogram, |histogram|) == Total(sorted)
  {
    histogram := [];
    var binSize: nat, lastFeeRate := 0, 0.0;
    var k: nat := |sorted|;
    ghost var top: nat := k;
    while k > 0
      invariant Binning(histogram, sorted, k, top, binSize, lastFeeRate)
    {
      histogram, binSize, lastFeeRate, top := AddEntry(histogram, sorted, k, top, binSize, lastFeeRate);
      k := k - 1;
    }
    LastBin(histogram, sorted, top, binSize, lastFeeRate);
    if binSize > 0 {
      histogram := histogram + [Bin(lastFeeRate, binSize)];
    }
  }

  lemma {:induction false} SortedPays(leq: (FeeInfo, FeeInfo) -> bool, s: seq<FeeInfo>, rate: real)
    ensures SomePays(Sorting.Sort(leq, s), rate) ==> SomePays(s, rate)
  {
    if e :| e in Sorting.Sort(leq, s) && e.rate == rate {
      assert e in multiset(Sorting.Sort(leq, s));
    }
  }

  /** A histogram of the sorted entries is one of the entries. */
  lemma {:induction false} Carry(leq: (FeeInfo, FeeInfo) -> bool, bins: seq<Bin>, s: seq<FeeInfo>)
    requires Histogram(bins, Sorting.Sort(leq, s))
    ensures Histogram(bins, s) && Total(Sorting.Sort(leq, s)) == Total(s)
  {
    SortSums(leq, s, 0.0, false);
    forall i | 0 <= i < |bins| ensures Exact(bins, s, i) {
      SortedPays(leq, s, bins[i].rate);
      SortSums(leq, s, bins[i].rate, false);
      SortSums(leq, s, bins[i].rate, true);
      assert Exact(bins, Sorting.Sort(leq, s), i);
    }
  }
}
