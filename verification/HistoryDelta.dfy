/**
 The interruptible scans. Both stop only between blocks, so that what they return is the value of
 the chain up to the block it is tagged with.
 */
module HistoryDelta {
  import opened HeaderChain
  import HeaderSync
  import opened HistoryKeys
  import opened HistoryScan
  import opened Wrappers

  datatype Stop = ScanLimit | CheckpointLimit

  /** Everything a scan reads: the list, the rows from `start` up, and what they are rows of. */
  ghost predicate Ready(w: World, chain: seq<Header>, rows: set<Row>, scan: seq<Row>, start: nat) {
    GoodHash(w.hash) && Linked(w.hash, chain) && Published(w, chain, rows) && Lists(scan, RowsFrom(rows, start))
  }

  /** The hash of the block of the last of the first `k` rows. */
  function LastHash(w: World, chain: seq<Header>, scan: seq<Row>, k: nat): Option<Hash>
    requires k <= |scan| && (k > 0 ==> scan[k - 1].height < |chain|)
  {
    if k == 0 then None else Some(BlockIdAt(w, chain, scan[k - 1].height).hash)
  }

  /** Row `k` starts a block. */
  predicate Boundary(scan: seq<Row>, k: nat)
    requires k < |scan|
  {
    k > 0 && scan[k - 1].height != scan[k].height
  }

  /** No earlier block boundary had reached the limit. */
  ghost predicate NotBefore(scan: seq<Row>, limit: nat, n: nat) {
    n <= |scan| && forall k {:trigger Boundary(scan, k)} :: 0 <= k < n && Boundary(scan, k) ==> k < limit
  }

  /** A stop for the scan limit: at the first block boundary with that many rows behind it. */
  ghost predicate StopsForScan(chain: seq<Header>, scan: seq<Row>, limit: nat, n: nat) {
    n < |scan| && scan[n].height < |chain| && Boundary(scan, n) && n >= limit && NotBefore(scan, limit, n)
  }

  /** Different heights have different hashes. */
  lemma {:induction false} HashTellsHeight(w: World, chain: seq<Header>, a: nat, b: nat)
    requires GoodHash(w.hash) && Linked(w.hash, chain) && a < |chain| && b < |chain|
    ensures BlockIdAt(w, chain, a).hash == BlockIdAt(w, chain, b).hash <==> a == b
  {
    if a < b { HeaderSync.DistinctBelow(w.hash, chain, b); }
    if b < a { HeaderSync.DistinctBelow(w.hash, chain, a); }
  }

  /** A block boundary is where the scan may be cut. */
  lemma {:induction false} CutAfter(scan: seq<Row>, rows: set<Row>, n: nat)
    requires Lists(scan, rows) && 0 < n <= |scan| && (n < |scan| ==> Boundary(scan, n))
    ensures SplitsAt(scan, scan[n - 1].height + 1, n)
  {
    forall i | 0 <= i < n ensures scan[i].height <= scan[n - 1].height {
      assert i < n - 1 ==> Before(scan[i], scan[n - 1]);
    }
    forall i | n <= i < |scan| ensures scan[i].height > scan[n - 1].height {
      assert Before(scan[n - 1], scan[n]);
      assert i > n ==> Before(scan[n], scan[i]);
    }
  }

  /** Rows come by height, so the rows of listed blocks come first. */
  lemma {:induction false} VisibleFirst(scan: seq<Row>, rows: set<Row>, i: nat, height: nat)
    requires Lists(scan, rows) && i < |scan| && scan[i].height >= height
    ensures forall j :: i <= j < |scan| ==> scan[j].height >= height
  {
    forall j | i <= j < |scan| ensures scan[j].height >= height { assert i < j ==> Before(scan[i], scan[j]); }
  }

  /**
   What a scan's end means for the chain: it stands at some height `cut`, and its tag is the hash
   of the block below, unless there was no row to see at all.
   */
  ghost predicate StandsAt(w: World, chain: seq<Header>, start: nat, last: Option<Hash>, stop: Option<Stop>, cut: nat) {
    && start <= cut <= |chain|
    && (last.None? ==> stop.None? && cut == |chain|)
    && (last.Some? ==> start < cut && BlockIdAt(w, chain, cut - 1).hash == last.value)
  }

  /** The scan ended after `n` rows, for the scan limit or at the end of the list. */
  ghost predicate EndsAfter(w: World, chain: seq<Header>, scan: seq<Row>, limit: nat, n: nat, last: Option<Hash>,
                            stop: Option<Stop>) {
    && Visible(chain, scan, n) && last == LastHash(w, chain, scan, n)
    && if stop.None? then SplitsAt(scan, |chain|, n) && NotBefore(scan, limit, n)
       else stop.value == ScanLimit && StopsForScan(chain, scan, limit, n)
  }

  /** From the value at `start` the rows seen give the value at `cut`, and at the end of the list if not stopped. */
  lemma {:induction false} EndOfScan(kind: Kind, w: World, chain: seq<Header>, rows: set<Row>, scan: seq<Row>,
                                     start: nat, limit: nat, n: nat, last: Option<Hash>, stop: Option<Stop>)
    returns (cut: nat)
    requires Ready(w, chain, rows, scan, start) && start <= |chain| && EndsAfter(w, chain, scan, limit, n, last, stop)
    ensures StandsAt(w, chain, start, last, stop, cut) && Reaches(kind, w, chain, scan, start, cut, n)
    ensures stop.None? ==> Reaches(kind, w, chain, scan, start, |chain|, n)
  {
    if stop.None? { Resume(kind, w, chain, rows, scan, start, |chain|, n); }
    if n == 0 {
      cut := |chain|;
    } else {
      assert n < |scan| && stop.None? ==> scan[n - 1].height < scan[n].height;
      CutAfter(scan, RowsFrom(rows, start), n);
      cut := scan[n - 1].height + 1;
      assert scan[n - 1] in RowsFrom(rows, start);
      Resume(kind, w, chain, rows, scan, start, cut, n);
    }
  }

  /** With the list ending below `start` there is nothing to see. */
  lemma {:induction false} NothingVisible(chain: seq<Header>, rows: set<Row>, scan: seq<Row>, start: nat, n: nat)
    requires Lists(scan, RowsFrom(rows, start)) && start >= |chain| && Visible(chain, scan, n)
    ensures n == 0
  {
    assert n > 0 ==> scan[0].height < |chain|;
    forall i | 0 <= i < |scan| ensures scan[i].height >= start { assert scan[i] in scan; }
  }

  // ----- Unspent outputs ----------------------------------------------------------------------------

  ghost predicate UtxoState(w: World, chain: seq<Header>, init: Utxos, scan: seq<Row>, limit: nat, n: nat, utxos: Utxos,
                            last: Option<Hash>) {
    && Visible(chain, scan, n) && NotBefore(scan, limit, n)
    && utxos == FoldUtxos(w, chain, init, scan, n) && last == LastHash(w, chain, scan, n)
  }

  /** The loop's own test for a new block is the height's. */
  lemma {:induction false} NewBlock(w: World, chain: seq<Header>, scan: seq<Row>, n: nat)
    requires GoodHash(w.hash) && Linked(w.hash, chain) && n < |scan| && Visible(chain, scan, n + 1)
    ensures LastHash(w, chain, scan, n) != Some(BlockIdAt(w, chain, scan[n].height).hash) <==>
              n == 0 || Boundary(scan, n)
  {
    if n > 0 { HashTellsHeight(w, chain, scan[n - 1].height, scan[n].height); }
  }

  lemma {:induction false} UtxoStep(w: World, chain: seq<Header>, init: Utxos, scan: seq<Row>, limit: nat, n: nat,
                                    utxos: Utxos, last: Option<Hash>)
    requires n < |scan| && scan[n].height < |chain| && (Boundary(scan, n) ==> n < limit)
    ensures UtxoState(w, chain, init, scan, limit, n, utxos, last) ==>
              UtxoState(w, chain, init, scan, limit, n + 1,
                        AddRow(utxos, BlockIdAt(w, chain, scan[n].height), scan[n].info),
                        Some(BlockIdAt(w, chain, scan[n].height).hash))
  {
  }

  /** Rows seen so far: all up to here, unless the list has ended. */
  ghost predicate SeenTo(chain: seq<Header>, scan: seq<Row>, n: nat, i: nat) {
    n <= i <= |scan| && (n < i ==> scan[n].height >= |chain|)
  }

  lemma {:induction false} StillListed(chain: seq<Header>, scan: seq<Row>, rows: set<Row>, n: nat, i: nat)
    requires Lists(scan, rows) && SeenTo(chain, scan, n, i) && i < |scan| && scan[i].height < |chain|
    ensures n == i
  {
    if n < i { VisibleFirst(scan, rows, n, |chain|); }
  }

  lemma {:induction false} AllSeen(w: World, chain: seq<Header>, scan: seq<Row>, rows: set<Row>, limit: nat, n: nat)
    requires Lists(scan, rows) && SeenTo(chain, scan, n, |scan|) && Visible(chain, scan, n) && NotBefore(scan, limit, n)
    ensures EndsAfter(w, chain, scan, limit, n, LastHash(w, chain, scan, n), None)
  {
    if n < |scan| { VisibleFirst(scan, rows, n, |chain|); }
  }

  /** After none of the first `n` rows was the set too large. */
  ghost predicate Fitting(w: World, chain: seq<Header>, init: Utxos, scan: seq<Row>, n: nat, limit: nat) {
    Visible(chain, scan, n) && forall k {:trigger FoldUtxos(w, chain, init, scan, k)} :: 0 < k <= n ==>
      |FoldUtxos(w, chain, init, scan, k)| <= limit
  }

  lemma {:induction false} FittingStart(w: World, chain: seq<Header>, init: Utxos, scan: seq<Row>, limit: nat)
    ensures Fitting(w, chain, init, scan, 0, limit)
  {
  }

  lemma {:induction false} FittingNext(w: World, chain: seq<Header>, init: Utxos, scan: seq<Row>, n: nat, limit: nat)
    requires Visible(chain, scan, n + 1) && |FoldUtxos(w, chain, init, scan, n + 1)| <= limit
    ensures Fitting(w, chain, init, scan, n, limit) ==> Fitting(w, chain, init, scan, n + 1, limit)
  {
  }

  /**
   `utxo_delta`. Rows of unlisted heights are skipped. The scan stops at a block boundary once the
   scan limit is reached, and at once when the set outgrows the checkpoint limit.
   */
  method UtxoDelta(w: World, chain: seq<Header>, scan: seq<Row>, init: Utxos, scanLimit: nat, checkpointLimit: nat,
                   ghost rows: set<Row>, ghost start: nat)
    returns (utxos: Utxos, last: Option<Hash>, processed: nat, stop: Option<Stop>)
    requires Ready(w, chain, rows, scan, start)
    ensures Visible(chain, scan, processed) && utxos == FoldUtxos(w, chain, init, scan, processed)
    ensures stop != Some(CheckpointLimit) ==> EndsAfter(w, chain, scan, scanLimit, processed, last, stop)
    ensures stop == Some(CheckpointLimit) ==> last == None && |utxos| > checkpointLimit && processed > 0
    ensures var fitting := if stop == Some(CheckpointLimit) then processed - 1 else processed;
            Fitting(w, chain, init, scan, fitting, checkpointLimit)
  {
    hide *;
    utxos, processed, stop := init, 0, None;
    var lastblock: Option<Hash> := None;
    var safeLastblock: Option<Hash> := None;
    var i := 0;
    UtxoBegin(w, chain, init, scan, scanLimit);
    FittingStart(w, chain, init, scan, checkpointLimit);
    while i < |scan|
      invariant 0 <= processed <= i <= |scan| && SeenTo(chain, scan, processed, i)
      invariant UtxoState(w, chain, init, scan, scanLimit, processed, utxos, lastblock)
      invariant stop.None? && Fitting(w, chain, init, scan, processed, checkpointLimit)
    {
      SeenNext(chain, scan, processed, i);
      if scan[i].height < |chain| {
        UtxoMeet(w, chain, rows, init, scan, start, scanLimit, processed, i, utxos, lastblock);
        var block := BlockIdAt(w, chain, scan[i].height);
        if lastblock.Some? && lastblock.value != block.hash {
          safeLastblock := lastblock;
          if processed >= scanLimit {
            UtxoStopped(w, chain, init, scan, scanLimit, processed, utxos, lastblock);
            return utxos, safeLastblock, processed, Some(ScanLimit);
          }
        }
        UtxoStep(w, chain, init, scan, scanLimit, processed, utxos, lastblock);
        processed := processed + 1;
        lastblock := Some(block.hash);
        utxos := AddRow(utxos, block, scan[i].info);
        UtxoFolded(w, chain, init, scan, scanLimit, processed, utxos, lastblock);
        if |utxos| > checkpointLimit {
          return utxos, None, processed, Some(CheckpointLimit);
        }
        FittingNext(w, chain, init, scan, processed - 1, checkpointLimit);
      }
      i := i + 1;
    }
    UtxoEnded(w, chain, rows, init, scan, start, scanLimit, processed, utxos, lastblock);
    safeLastblock := lastblock;
    last := safeLastblock;
  }

  lemma {:induction false} UtxoBegin(w: World, chain: seq<Header>, init: Utxos, scan: seq<Row>, limit: nat)
    ensures UtxoState(w, chain, init, scan, limit, 0, init, None) && SeenTo(chain, scan, 0, 0)
  {
  }

  lemma {:induction false} SeenNext(chain: seq<Header>, scan: seq<Row>, n: nat, i: nat)
    requires n <= i < |scan|
    ensures n == i && scan[i].height < |chain| ==> SeenTo(chain, scan, n + 1, i + 1)
    ensures scan[i].height >= |chain| && SeenTo(chain, scan, n, i) ==> SeenTo(chain, scan, n, i + 1)
  {
  }

  /** Meeting a listed row: it is the next one, and the loop's test for a new block is the height's. */
  lemma {:induction false} UtxoMeet(w: World, chain: seq<Header>, rows: set<Row>, init: Utxos, scan: seq<Row>,
                                    start: nat, limit: nat, n: nat, i: nat, utxos: Utxos, last: Option<Hash>)
    requires Ready(w, chain, rows, scan, start) && n <= i < |scan| && scan[i].height < |chain|
    ensures SeenTo(chain, scan, n, i) && UtxoState(w, chain, init, scan, limit, n, utxos, last) ==>
              n == i && (last.Some? && last.value != BlockIdAt(w, chain, scan[i].height).hash <==> Boundary(scan, i))
  {
    if SeenTo(chain, scan, n, i) && UtxoState(w, chain, init, scan, limit, n, utxos, last) {
      StillListed(chain, scan, RowsFrom(rows, start), n, i);
      NewBlock(w, chain, scan, i);
    }
  }

  lemma {:induction false} UtxoFolded(w: World, chain: seq<Header>, init: Utxos, scan: seq<Row>, limit: nat, n: nat,
                                      utxos: Utxos, last: Option<Hash>)
    requires UtxoState(w, chain, init, scan, limit, n, utxos, last)
    ensures Visible(chain, scan, n) && utxos == FoldUtxos(w, chain, init, scan, n)
  {
  }

  lemma {:induction false} UtxoStopped(w: World, chain: seq<Header>, init: Utxos, scan: seq<Row>, limit: nat, n: nat,
                                       utxos: Utxos, last: Option<Hash>)
    requires UtxoState(w, chain, init, scan, limit, n, utxos, last) && n < |scan| && scan[n].height < |chain|
    requires Boundary(scan, n) && n >= limit
    ensures Visible(chain, scan, n) && utxos == FoldUtxos(w, chain, init, scan, n)
    ensures EndsAfter(w, chain, scan, limit, n, last, Some(ScanLimit))
  {
  }

  lemma {:induction false} UtxoEnded(w: World, chain: seq<Header>, rows: set<Row>, init: Utxos, scan: seq<Row>,
                                     start: nat, limit: nat, n: nat, utxos: Utxos, last: Option<Hash>)
    requires Ready(w, chain, rows, scan, start) && UtxoState(w, chain, init, scan, limit, n, utxos, last)
    requires SeenTo(chain, scan, n, |scan|)
    ensures Visible(chain, scan, n) && utxos == FoldUtxos(w, chain, init, scan, n)
    ensures EndsAfter(w, chain, scan, limit, n, last, None)
  {
    AllSeen(w, chain, scan, RowsFrom(rows, start), limit, n);
  }

  // ----- Statistics -----------------------------------------------------------------------------------

  ghost predicate StatsState(w: World, chain: seq<Header>, init: Stats, scan: seq<Row>, limit: nat, n: nat,
                             stats: Stats, seen: set<Txid>, last: Option<Hash>) {
    && Visible(chain, scan, n) && NotBefore(scan, limit, n)
    && stats == FoldStats(init, scan, n) && last == LastHash(w, chain, scan, n)
    && seen == if n == 0 then {} else SeenAt(scan, n, scan[n - 1].height)
  }

  lemma {:induction false} StatsStep(w: World, chain: seq<Header>, rows: set<Row>, init: Stats, scan: seq<Row>,
                                     limit: nat, n: nat, stats: Stats, seen: set<Txid>, now: set<Txid>,
                                     last: Option<Hash>)
    requires Lists(scan, rows) && n < |scan| && scan[n].height < |chain| && (Boundary(scan, n) ==> n < limit)
    requires now == if n == 0 || Boundary(scan, n) then {} else seen
    ensures StatsState(w, chain, init, scan, limit, n, stats, seen, last) ==>
              StatsState(w, chain, init, scan, limit, n + 1, CountRow(stats, scan[n].info, scan[n].info.txid !in now),
                         now + {scan[n].info.txid}, Some(BlockIdAt(w, chain, scan[n].height).hash))
  {
    var h := scan[n].height;
    SeenMore(scan, n);
    if n == 0 || Boundary(scan, n) {
      forall i | 0 <= i < n ensures scan[i].height != h {
        assert i < n - 1 ==> Before(scan[i], scan[n - 1]);
        assert Before(scan[n - 1], scan[n]);
      }
      assert SeenAt(scan, n, h) == {};
    }
  }

  lemma {:induction false} SeenMore(scan: seq<Row>, n: nat)
    requires n < |scan|
    ensures SeenAt(scan, n + 1, scan[n].height) == SeenAt(scan, n, scan[n].height) + {scan[n].info.txid}
  {
  }

  lemma {:induction false} StatsBegin(w: World, chain: seq<Header>, init: Stats, scan: seq<Row>, limit: nat)
    ensures StatsState(w, chain, init, scan, limit, 0, init, {}, None) && SeenTo(chain, scan, 0, 0)
  {
  }

  /** Meeting a listed row: it is the next one, and the loop's test for a new block is the height's. */
  lemma {:induction false} StatsMeet(w: World, chain: seq<Header>, rows: set<Row>, init: Stats, scan: seq<Row>,
                                     start: nat, limit: nat, n: nat, i: nat, stats: Stats, seen: set<Txid>,
                                     last: Option<Hash>)
    requires Ready(w, chain, rows, scan, start) && n <= i < |scan| && scan[i].height < |chain|
    ensures Lists(scan, RowsFrom(rows, start))
    ensures SeenTo(chain, scan, n, i) && StatsState(w, chain, init, scan, limit, n, stats, seen, last) ==>
              n == i && (last != Some(BlockIdAt(w, chain, scan[i].height).hash) <==> n == 0 || Boundary(scan, i))
  {
    if SeenTo(chain, scan, n, i) && StatsState(w, chain, init, scan, limit, n, stats, seen, last) {
      StillListed(chain, scan, RowsFrom(rows, start), n, i);
      NewBlock(w, chain, scan, i);
    }
  }

  lemma {:induction false} StatsStopped(w: World, chain: seq<Header>, init: Stats, scan: seq<Row>, limit: nat, n: nat,
                                        stats: Stats, seen: set<Txid>, last: Option<Hash>)
    requires StatsState(w, chain, init, scan, limit, n, stats, seen, last) && n < |scan| && scan[n].height < |chain|
    requires (n == 0 || Boundary(scan, n)) && n >= limit
    ensures Visible(chain, scan, n) && stats == FoldStats(init, scan, n)
    ensures limit > 0 ==> EndsAfter(w, chain, scan, limit, n, last, Some(ScanLimit))
    ensures Visible(chain, scan, n + 1) && (n == 0 ==> last == None)
  {
  }

  lemma {:induction false} StatsEnded(w: World, chain: seq<Header>, rows: set<Row>, init: Stats, scan: seq<Row>,
                                      start: nat, limit: nat, n: nat, stats: Stats, seen: set<Txid>, last: Option<Hash>)
    requires Ready(w, chain, rows, scan, start) && StatsState(w, chain, init, scan, limit, n, stats, seen, last)
    requires SeenTo(chain, scan, n, |scan|)
    ensures Visible(chain, scan, n) && stats == FoldStats(init, scan, n)
    ensures EndsAfter(w, chain, scan, limit, n, last, None)
    ensures n == 0 ==> !Visible(chain, scan, 1)
  {
    AllSeen(w, chain, scan, RowsFrom(rows, start), limit, n);
  }

  /** `stats_delta`. With a scan limit of zero it stops before the first row, tagged with nothing. */
  method StatsDelta(w: World, chain: seq<Header>, scan: seq<Row>, init: Stats, scanLimit: nat, ghost rows: set<Row>,
                    ghost start: nat)
    returns (stats: Stats, last: Option<Hash>, hitScanLimit: bool, processed: nat)
    requires Ready(w, chain, rows, scan, start)
    ensures Visible(chain, scan, processed) && stats == FoldStats(init, scan, processed)
    ensures scanLimit > 0 || !hitScanLimit ==>
              EndsAfter(w, chain, scan, scanLimit, processed, last, if hitScanLimit then Some(ScanLimit) else None)
    ensures scanLimit == 0 && (hitScanLimit || Visible(chain, scan, 1)) ==>
              hitScanLimit && last == None && processed == 0
    ensures hitScanLimit ==> Visible(chain, scan, processed + 1)
  {
    hide *;
    stats, hitScanLimit, processed := init, false, 0;
    var seenTxids: set<Txid> := {};
    var lastblock: Option<Hash> := None;
    var safeLastblock: Option<Hash> := None;
    var i := 0;
    StatsBegin(w, chain, init, scan, scanLimit);
    while i < |scan|
      invariant 0 <= processed <= i <= |scan| && SeenTo(chain, scan, processed, i)
      invariant StatsState(w, chain, init, scan, scanLimit, processed, stats, seenTxids, lastblock)
      invariant !hitScanLimit && (scanLimit == 0 ==> processed == 0)
    {
      SeenNext(chain, scan, processed, i);
      if scan[i].height < |chain| {
        StatsMeet(w, chain, rows, init, scan, start, scanLimit, processed, i, stats, seenTxids, lastblock);
        var block := BlockIdAt(w, chain, scan[i].height);
        ghost var seen := seenTxids;
        if lastblock != Some(block.hash) {
          safeLastblock := lastblock;
          seenTxids := {};
          if processed >= scanLimit {
            StatsStopped(w, chain, init, scan, scanLimit, processed, stats, seen, lastblock);
            return stats, safeLastblock, true, processed;
          }
        }
        StatsStep(w, chain, RowsFrom(rows, start), init, scan, scanLimit, processed, stats, seen, seenTxids, lastblock);
        processed := processed + 1;
        var isNew := scan[i].info.txid !in seenTxids;
        seenTxids := seenTxids + {scan[i].info.txid};
        stats := CountRow(stats, scan[i].info, isNew);
        lastblock := Some(block.hash);
      }
      i := i + 1;
    }
    StatsEnded(w, chain, rows, init, scan, start, scanLimit, processed, stats, seenTxids, lastblock);
    safeLastblock := lastblock;
    last := safeLastblock;
  }
}
