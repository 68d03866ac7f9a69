/**
 `utxo` and `stats`: resume from a saved checkpoint if its block is still in the list, scan on,
 save a new checkpoint tagged with a block hash.
 */
module Checkpoints {
  import opened HeaderChain
  import opened HistoryKeys
  import opened HistoryScan
  import opened HistoryDelta
  import opened Wrappers

  const MIN_HISTORY_ITEMS_TO_CACHE := 100

  // ----- Cached unspent outputs ------------------------------------------------------------------------

  /** Only the height of a coin's block is kept; the rest comes back from the header list. */
  datatype CachedCoin = CachedCoin(height: nat, value: nat)

  type CachedUtxos = map<OutPoint, CachedCoin>

  function MakeUtxoCache(u: Utxos): CachedUtxos {
    map o | o in u :: CachedCoin(u[o].block.height, u[o].value)
  }

  /** Every cached coin is of a block in the list; the source expects it and panics otherwise. */
  predicate Restorable(c: CachedUtxos, chain: seq<Header>) {
    forall o :: o in c ==> c[o].height < |chain|
  }

  function FromUtxoCache(c: CachedUtxos, w: World, chain: seq<Header>): Utxos
    requires Restorable(c, chain)
  {
    map o | o in c :: Coin(BlockIdAt(w, chain, c[o].height), c[o].value)
  }

  /** The unspent outputs of a chain name blocks of that chain. */
  lemma {:induction false} CoinsOfChain(w: World, chain: seq<Header>, n: nat)
    requires n <= |chain|
    ensures forall o :: o in UtxosOf(w, chain, n) ==>
              UtxosOf(w, chain, n)[o].block.height < n
              && UtxosOf(w, chain, n)[o].block == BlockIdAt(w, chain, UtxosOf(w, chain, n)[o].block.height)
  {
    if n > 0 { CoinsOfChain(w, chain, n - 1); }
  }

  /** One chain is the beginning of the other. */
  ghost predicate Agree(a: seq<Header>, b: seq<Header>) { a <= b || b <= a }

  /**
   Saving and restoring gives the same set back, on any list that agrees with the chain it was
   saved from and still reaches every coin.
   */
  lemma {:induction false} CacheRoundTrip(w: World, base: seq<Header>, chain: seq<Header>)
    requires Agree(base, chain) && Restorable(MakeUtxoCache(UtxosOf(w, base, |base|)), chain)
    ensures FromUtxoCache(MakeUtxoCache(UtxosOf(w, base, |base|)), w, chain) == UtxosOf(w, base, |base|)
  {
    CoinsOfChain(w, base, |base|);
    var u := UtxosOf(w, base, |base|);
    var c := MakeUtxoCache(u);
    forall o | o in u ensures Coin(BlockIdAt(w, chain, c[o].height), c[o].value) == u[o] {
      assert o in c && base[c[o].height] == chain[c[o].height];
    }
  }

  lemma {:induction false} CachedHeights(w: World, base: seq<Header>, chain: seq<Header>)
    requires base <= chain
    ensures Restorable(MakeUtxoCache(UtxosOf(w, base, |base|)), chain)
  {
    CoinsOfChain(w, base, |base|);
  }

  // ----- Checkpoints ------------------------------------------------------------------------------------

  datatype UtxoRow = UtxoRow(utxos: CachedUtxos, hash: Hash)

  datatype StatsRow = StatsRow(stats: Stats, hash: Hash)

  /** `c` is the chain that ends in the block `hash`. */
  ghost predicate Ends(w: World, c: seq<Header>, hash: Hash) {
    c != [] && Linked(w.hash, c) && TipHash(w.hash, c) == hash
  }

  /** A checkpoint holds the value of the whole chain up to the block it is tagged with. */
  ghost predicate StatsRowRight(w: World, row: StatsRow) {
    exists c :: Ends(w, c, row.hash) && row.stats == StatsOf(w, c, |c|)
  }

  ghost predicate UtxoRowRight(w: World, row: UtxoRow) {
    exists c :: Ends(w, c, row.hash) && row.utxos == MakeUtxoCache(UtxosOf(w, c, |c|))
  }

  /** `height_by_hash`. */
  function HeightByHash(w: World, chain: seq<Header>, hash: Hash): (r: Option<nat>)
    ensures r.Some? ==> r.value < |chain| && BlockIdAt(w, chain, r.value).hash == hash
    ensures r.None? ==> forall k :: 0 <= k < |chain| ==> BlockIdAt(w, chain, k).hash != hash
  {
    if chain == [] then None
    else if BlockIdAt(w, chain, |chain| - 1).hash == hash then Some(|chain| - 1)
    else
      var r := HeightByHash(w, chain[..|chain| - 1], hash);
      assert forall k :: 0 <= k < |chain| - 1 ==> BlockIdAt(w, chain, k) == BlockIdAt(w, chain[..|chain| - 1], k);
      r
  }

  /** A block in the list pins the chain its checkpoint was made for. */
  lemma {:induction false} TagPins(w: World, chain: seq<Header>, c: seq<Header>, hash: Hash, height: nat)
    requires GoodHash(w.hash) && Linked(w.hash, chain) && Ends(w, c, hash)
    requires height < |chain| && BlockIdAt(w, chain, height).hash == hash
    ensures c == chain[..height + 1]
  {
    HashPinsPrefix(w.hash, chain, c, height + 1, |c|);
    assert c[..|c|] == c;
  }

  lemma {:induction false} PrefixEnds(w: World, chain: seq<Header>, cut: nat)
    requires Linked(w.hash, chain) && 0 < cut <= |chain|
    ensures Ends(w, chain[..cut], BlockIdAt(w, chain, cut - 1).hash)
    ensures UtxosOf(w, chain[..cut], cut) == UtxosOf(w, chain, cut)
    ensures StatsOf(w, chain[..cut], cut) == StatsOf(w, chain, cut)
  {
    LinkedPrefix(w.hash, chain, cut);
    assert chain[..cut][..cut] == chain[..cut];
    SamePrefix(w, chain[..cut], chain, cut);
  }

  // ----- One call at a time -------------------------------------------------------------------------------

  datatype Answer<+T> = Done(value: T) | TooBigHistory | TooManyUtxos

  /** The store a call reads: the database holds the script's rows, and those of listed blocks are right. */
  ghost predicate Store(w: World, chain: seq<Header>, keys: seq<seq<Byte>>, script: seq<Byte>, rows: set<Row>) {
    && GoodHash(w.hash) && Linked(w.hash, chain) && |chain| < 0x1_0000_0000
    && Published(w, chain, rows) && Holds(keys, script, rows)
  }

  /** The height a checkpoint row stands for; -1 when there is none, or its block was orphaned. */
  function RowHeight(w: World, chain: seq<Header>, hash: Option<Hash>): int {
    if hash.None? then -1 else
    var height := HeightByHash(w, chain, hash.value);
    if height.None? then -1 else height.value
  }

  function StatsTag(row: Option<StatsRow>): Option<Hash> { if row.None? then None else Some(row.value.hash) }

  function UtxoTag(row: Option<UtxoRow>): Option<Hash> { if row.None? then None else Some(row.value.hash) }

  lemma {:induction false} TagHeight(w: World, chain: seq<Header>, cut: nat)
    requires GoodHash(w.hash) && Linked(w.hash, chain) && 0 < cut <= |chain|
    ensures RowHeight(w, chain, Some(BlockIdAt(w, chain, cut - 1).hash)) == cut - 1
  {
    var r := HeightByHash(w, chain, BlockIdAt(w, chain, cut - 1).hash);
    HashTellsHeight(w, chain, r.value, cut - 1);
  }

  // ----- Which rows a call sees ---------------------------------------------------------------------------

  /** The rows a finished call goes through. */
  function Seen(rows: set<Row>, start: nat, end: nat): set<Row> { set r | r in rows && start <= r.height < end }

  /** The highest of these rows is at height `top`. */
  ghost predicate TopAt(rows: set<Row>, top: int) {
    (exists r :: r in rows && r.height == top) && forall r :: r in rows ==> r.height <= top
  }

  ghost function Members(scan: seq<Row>, n: nat): set<Row>
    requires n <= |scan|
  {
    set i | 0 <= i < n :: scan[i]
  }

  lemma {:induction false} MembersNext(scan: seq<Row>, m: nat, n: nat)
    requires n == m + 1 <= |scan| && forall i, j :: 0 <= i < j < |scan| ==> scan[i] != scan[j]
    ensures scan[m] !in Members(scan, m) && Members(scan, n) == Members(scan, m) + {scan[m]}
  {
  }

  lemma {:induction false} DistinctCount(scan: seq<Row>, n: nat)
    requires n <= |scan| && forall i, j :: 0 <= i < j < |scan| ==> scan[i] != scan[j]
    ensures |Members(scan, n)| == n
  {
    if n > 0 {
      DistinctCount(scan, n - 1);
      MembersNext(scan, n - 1, n);
      hide Members;
    }
  }

  /** A scan that went to the end of the list went through exactly these rows, once each. */
  lemma {:induction false} SeenCount(rows: set<Row>, scan: seq<Row>, start: nat, end: nat, n: nat)
    requires Lists(scan, RowsFrom(rows, start)) && SplitsAt(scan, end, n)
    ensures |Seen(rows, start, end)| == n && (n > 0 ==> TopAt(Seen(rows, start, end), scan[n - 1].height))
  {
    DistinctCount(scan, n);
    var seen := Seen(rows, start, end);
    forall r ensures r in seen <==> r in Members(scan, n) {
      if r in seen { assert r in RowsFrom(rows, start) && r in scan; }
      if r in Members(scan, n) { assert r in scan; }
    }
    assert seen == Members(scan, n);
    if n > 0 {
      assert scan[n - 1] in Members(scan, n);
      forall r | r in seen ensures r.height <= scan[n - 1].height {
        var i :| 0 <= i < n && scan[i] == r;
        assert i < n - 1 ==> Before(scan[i], scan[n - 1]);
      }
    }
  }

  // ----- Where a call gives up ------------------------------------------------------------------------------

  /** Below height `c` there are rows, as many as the limit allows, and there are more to come. */
  ghost predicate StopsUnder(rows: set<Row>, start: nat, end: nat, limit: nat, c: nat) {
    Seen(rows, start, c) != {} && |Seen(rows, start, c)| >= limit && Seen(rows, c, end) != {}
  }

  /** The lowest such height. */
  ghost predicate FirstStop(rows: set<Row>, start: nat, end: nat, limit: nat, c: int) {
    && c >= 0 && StopsUnder(rows, start, end, limit, c)
    && forall d: nat :: d < c ==> !StopsUnder(rows, start, end, limit, d)
  }

  ghost predicate LimitReached(rows: set<Row>, start: nat, end: nat, limit: nat) {
    exists c: nat :: StopsUnder(rows, start, end, limit, c)
  }

  /** Where a call might give up, its scan starts a block, with that many rows behind it. */
  lemma {:induction false} StopIsBoundary(rows: set<Row>, scan: seq<Row>, start: nat, end: nat, limit: nat, c: nat)
    returns (k: nat)
    requires Lists(scan, RowsFrom(rows, start)) && StopsUnder(rows, start, end, limit, c)
    ensures k < |scan| && SplitsAt(scan, c, k) && Boundary(scan, k) && k >= limit && scan[k].height < end
  {
    k := FindSplit(scan, RowsFrom(rows, start), c);
    SeenCount(rows, scan, start, c, k);
    var r :| r in Seen(rows, c, end);
    assert r in RowsFrom(rows, start);
    var i :| 0 <= i < |scan| && scan[i] == r;
    assert k < i ==> Before(scan[k], scan[i]);
  }

  lemma {:induction false} NoStop(rows: set<Row>, scan: seq<Row>, start: nat, end: nat, limit: nat, n: nat)
    requires Lists(scan, RowsFrom(rows, start)) && SplitsAt(scan, end, n) && NotBefore(scan, limit, n)
    ensures !LimitReached(rows, start, end, limit)
  {
    forall c: nat ensures !StopsUnder(rows, start, end, limit, c) {
      hide Seen;
      if StopsUnder(rows, start, end, limit, c) {
        var k := StopIsBoundary(rows, scan, start, end, limit, c);
        assert false;
      }
    }
  }

  lemma {:induction false} StopIsFirst(chain: seq<Header>, rows: set<Row>, scan: seq<Row>, start: nat, limit: nat,
                                       n: nat)
    requires Lists(scan, RowsFrom(rows, start)) && StopsForScan(chain, scan, limit, n)
    ensures FirstStop(rows, start, |chain|, limit, scan[n - 1].height + 1)
  {
    var top := scan[n - 1].height;
    StopsThere(chain, rows, scan, start, limit, n);
    forall d: nat | d < top + 1 ensures !StopsUnder(rows, start, |chain|, limit, d) {
      hide Seen;
      if StopsUnder(rows, start, |chain|, limit, d) {
        var k := StopIsBoundary(rows, scan, start, |chain|, limit, d);
        assert false;
      }
    }
  }

  lemma {:induction false} StopsThere(chain: seq<Header>, rows: set<Row>, scan: seq<Row>, start: nat, limit: nat,
                                      n: nat)
    requires Lists(scan, RowsFrom(rows, start)) && StopsForScan(chain, scan, limit, n)
    ensures StopsUnder(rows, start, |chain|, limit, scan[n - 1].height + 1)
  {
    var c := scan[n - 1].height + 1;
    CutAfter(scan, RowsFrom(rows, start), n);
    SeenCount(rows, scan, start, c, n);
    assert scan[n] in RowsFrom(rows, start);
    assert scan[n] in Seen(rows, c, |chain|);
  }

  lemma {:induction false} NoneSeen(chain: seq<Header>, rows: set<Row>, scan: seq<Row>, start: nat)
    requires Lists(scan, RowsFrom(rows, start))
    ensures Visible(chain, scan, 1) <==> Seen(rows, start, |chain|) != {}
  {
    var n := FindSplit(scan, RowsFrom(rows, start), |chain|);
    SeenCount(rows, scan, start, |chain|, n);
    if n > 0 {
      assert scan[0].height < |chain|;
    } else if |scan| > 0 {
      assert scan[0].height >= |chain|;
    }
  }

  /** Where a call starts: just above its checkpoint, with the value there. */
  method StatsStart(w: World, chain: seq<Header>, row: Option<StatsRow>) returns (stats: Stats, start: nat)
    requires GoodHash(w.hash) && Linked(w.hash, chain) && (row.Some? ==> StatsRowRight(w, row.value))
    ensures start <= |chain| && stats == StatsOf(w, chain, start) && start == RowHeight(w, chain, StatsTag(row)) + 1
  {
    stats, start := NO_STATS, 0;
    if row.Some? {
      var height := HeightByHash(w, chain, row.value.hash);
      if height.Some? {
        stats, start := row.value.stats, height.value + 1;
        ghost var c :| Ends(w, c, row.value.hash) && row.value.stats == StatsOf(w, c, |c|);
        TagPins(w, chain, c, row.value.hash, height.value);
        PrefixEnds(w, chain, start);
      }
    }
  }

  /** The new row holds the value of the whole list, under the block of the last row seen. */
  ghost predicate SavedStats(w: World, chain: seq<Header>, seen: set<Row>, row: Option<StatsRow>) {
    && row.Some? && row.value.stats == StatsOf(w, chain, |chain|)
    && TopAt(seen, RowHeight(w, chain, StatsTag(row)))
  }

  /** A call gives up exactly if more rows remain than the limit allows; with a limit of zero, if there is any. */
  ghost predicate GivesUp(rows: set<Row>, start: nat, end: nat, limit: nat) {
    if limit == 0 then Seen(rows, start, end) != {} else LimitReached(rows, start, end, limit)
  }

  predicate Many(s: Stats) { s.fundedCount + s.spentCount > MIN_HISTORY_ITEMS_TO_CACHE }

  /** When and where a call of `stats` gives up, and what it saves. */
  ghost predicate StatsReply(w: World, chain: seq<Header>, rows: set<Row>, scanLimit: nat, row: Option<StatsRow>,
                             answer: Answer<Stats>, row': Option<StatsRow>)
  {
    var start := RowHeight(w, chain, StatsTag(row)) + 1;
    && 0 <= start <= |chain|
    && (answer.Done? <==> !GivesUp(rows, start, |chain|, scanLimit))
    && (!answer.Done? && scanLimit > 0 ==>
          FirstStop(rows, start, |chain|, scanLimit, RowHeight(w, chain, StatsTag(row')) + 1))
    && (answer.Done? ==>
          var seen := Seen(rows, start, |chain|);
          if seen != {} && Many(answer.value) then SavedStats(w, chain, seen, row') else row' == row)
  }

  /**
   `stats`. A finished call is the value of the whole chain, saved if it saw a row and counts many;
   whatever is saved is right; and a call gives up only where the rows exceed the scan limit, which
   (if at least one) leaves a checkpoint at the first block where they do.
   */
  method Stats(w: World, chain: seq<Header>, keys: seq<seq<Byte>>, script: seq<Byte>, scanLimit: nat,
               row: Option<StatsRow>, ghost rows: set<Row>)
    returns (answer: Answer<Stats>, row': Option<StatsRow>)
    requires Store(w, chain, keys, script, rows) && (row.Some? ==> StatsRowRight(w, row.value))
    ensures row'.Some? ==> StatsRowRight(w, row'.value)
    ensures answer.Done? ==> answer.value == StatsOf(w, chain, |chain|)
    ensures !answer.Done? ==> answer == TooBigHistory
    ensures !answer.Done? && scanLimit > 0 ==> RowHeight(w, chain, StatsTag(row)) < RowHeight(w, chain, StatsTag(row'))
    ensures !answer.Done? && scanLimit == 0 ==> row' == row
    ensures StatsReply(w, chain, rows, scanLimit, row, answer, row')
  {
    StoreReady(w, chain, keys, script, rows);
    hide *;
    var init, start := StatsStart(w, chain, row);
    var scan := HistoryIterScan(keys, script, start, rows);
    var stats, last, hit, processed := StatsDelta(w, chain, scan, init, scanLimit, rows, start);
    row' := row;
    if last.Some? && (hit || stats.fundedCount + stats.spentCount > MIN_HISTORY_ITEMS_TO_CACHE) {
      row' := Some(StatsRow(stats, last.value));
    }
    answer := if hit then TooBigHistory else Done(stats);
    StatsReplied(w, chain, rows, scan, start, scanLimit, processed, last, hit, row, answer, row');
  }

  lemma {:induction false} StoreReady(w: World, chain: seq<Header>, keys: seq<seq<Byte>>, script: seq<Byte>,
                                      rows: set<Row>)
    requires Store(w, chain, keys, script, rows)
    ensures GoodHash(w.hash) && Linked(w.hash, chain) && |chain| < 0x1_0000_0000 && Holds(keys, script, rows)
    ensures forall scan, start {:trigger Ready(w, chain, rows, scan, start)} ::
              Lists(scan, RowsFrom(rows, start)) ==> Ready(w, chain, rows, scan, start)
  {
  }

  lemma {:induction false} StatsReplied(w: World, chain: seq<Header>, rows: set<Row>, scan: seq<Row>, start: nat,
                                        limit: nat, n: nat, last: Option<Hash>, hit: bool, row: Option<StatsRow>,
                                        answer: Answer<Stats>, row': Option<StatsRow>)
    requires Ready(w, chain, rows, scan, start) && start == RowHeight(w, chain, StatsTag(row)) + 1 <= |chain|
    requires row.Some? ==> StatsRowRight(w, row.value)
    requires limit > 0 || !hit ==> EndsAfter(w, chain, scan, limit, n, last, if hit then Some(ScanLimit) else None)
    requires limit == 0 && (hit || Visible(chain, scan, 1)) ==> hit && last == None && n == 0
    requires hit ==> Visible(chain, scan, n + 1)
    requires Visible(chain, scan, n)
    requires var stats := FoldStats(StatsOf(w, chain, start), scan, n);
             && answer == (if hit then TooBigHistory else Done(stats))
             && row' == if last.Some? && (hit || Many(stats)) then Some(StatsRow(stats, last.value)) else row
    ensures row'.Some? ==> StatsRowRight(w, row'.value)
    ensures answer.Done? ==> answer.value == StatsOf(w, chain, |chain|)
    ensures !answer.Done? && limit > 0 ==> RowHeight(w, chain, StatsTag(row)) < RowHeight(w, chain, StatsTag(row'))
    ensures !answer.Done? && limit == 0 ==> row' == row
    ensures StatsReply(w, chain, rows, limit, row, answer, row')
  {
    hide Ready;
    hide EndsAfter;
    hide RowHeight;
    hide LimitReached;
    hide StatsRowRight;
    hide StatsOf;
    hide FoldStats;
    hide Seen;
    hide FirstStop;
    hide GivesUp;
    hide TopAt;
    hide Visible;
    if limit > 0 || !hit {
      var cut := StatsMeaning(w, chain, rows, scan, start, limit, n, last, hit);
    }
    StatsGivesUp(w, chain, rows, scan, start, limit, n, last, hit);
  }

  /** What the scan's result means: it may be saved under its tag, and unless stopped it is complete. */
  lemma {:induction false} StatsMeaning(w: World, chain: seq<Header>, rows: set<Row>, scan: seq<Row>, start: nat,
                                        limit: nat, n: nat, last: Option<Hash>, hit: bool)
    returns (cut: nat)
    requires Ready(w, chain, rows, scan, start) && start <= |chain|
    requires EndsAfter(w, chain, scan, limit, n, last, if hit then Some(ScanLimit) else None)
    ensures !hit ==> FoldStats(StatsOf(w, chain, start), scan, n) == StatsOf(w, chain, |chain|)
    ensures last.Some? ==> StatsRowRight(w, StatsRow(FoldStats(StatsOf(w, chain, start), scan, n), last.value))
    ensures last.Some? ==> start <= RowHeight(w, chain, last)
    ensures hit ==> last.Some?
  {
    cut := EndOfScan(Totals, w, chain, rows, scan, start, limit, n, last, if hit then Some(ScanLimit) else None);
    if last.Some? {
      PrefixEnds(w, chain, cut);
      TagHeight(w, chain, cut);
      assert |chain[..cut]| == cut;
    }
  }

  /** What the scan's end means for the rows of the script: where it stopped, or that it saw them all. */
  lemma {:induction false} EndMeans(w: World, chain: seq<Header>, rows: set<Row>, scan: seq<Row>, start: nat,
                                    limit: nat, n: nat, last: Option<Hash>, stop: Option<Stop>)
    requires Ready(w, chain, rows, scan, start) && EndsAfter(w, chain, scan, limit, n, last, stop)
    ensures stop.Some? ==> last.Some? && FirstStop(rows, start, |chain|, limit, RowHeight(w, chain, last) + 1)
    ensures stop.None? ==> !LimitReached(rows, start, |chain|, limit)
    ensures stop.None? ==> n == |Seen(rows, start, |chain|)| && (last.Some? <==> n > 0)
    ensures stop.None? && n > 0 ==> TopAt(Seen(rows, start, |chain|), RowHeight(w, chain, last))
  {
    if n > 0 { TagHeight(w, chain, scan[n - 1].height + 1); }
    hide RowHeight;
    hide FirstStop;
    hide LimitReached;
    hide Seen;
    hide TopAt;
    if stop.None? {
      SeenCount(rows, scan, start, |chain|, n);
      NoStop(rows, scan, start, |chain|, limit, n);
    } else {
      StopIsFirst(chain, rows, scan, start, limit, n);
    }
  }

  lemma {:induction false} StatsGivesUp(w: World, chain: seq<Header>, rows: set<Row>, scan: seq<Row>, start: nat,
                                        limit: nat, n: nat, last: Option<Hash>, hit: bool)
    requires Ready(w, chain, rows, scan, start) && start <= |chain|
    requires limit > 0 || !hit ==> EndsAfter(w, chain, scan, limit, n, last, if hit then Some(ScanLimit) else None)
    requires limit == 0 && (hit || Visible(chain, scan, 1)) ==> hit && last == None && n == 0
    requires hit ==> Visible(chain, scan, n + 1)
    ensures hit <==> GivesUp(rows, start, |chain|, limit)
    ensures limit > 0 && hit ==> last.Some? && FirstStop(rows, start, |chain|, limit, RowHeight(w, chain, last) + 1)
    ensures limit == 0 && hit ==> last == None
    ensures !hit ==> (last.Some? <==> Seen(rows, start, |chain|) != {})
    ensures !hit && last.Some? ==> TopAt(Seen(rows, start, |chain|), RowHeight(w, chain, last))
  {
    hide RowHeight;
    hide TopAt;
    hide StopsUnder;
    hide Seen;
    NoneSeen(chain, rows, scan, start);
    if limit > 0 || !hit {
      EndMeans(w, chain, rows, scan, start, limit, n, last, if hit then Some(ScanLimit) else None);
    }
  }

  /** Starting over on every failure, as pre-caching does, comes to an end: each failure is further along. */
  method Precache(w: World, chain: seq<Header>, keys: seq<seq<Byte>>, script: seq<Byte>, scanLimit: nat,
                  row: Option<StatsRow>, ghost rows: set<Row>)
    returns (stats: Stats, row': Option<StatsRow>)
    requires Store(w, chain, keys, script, rows) && (row.Some? ==> StatsRowRight(w, row.value)) && scanLimit > 0
    ensures stats == StatsOf(w, chain, |chain|) && (row'.Some? ==> StatsRowRight(w, row'.value))
  {
    var answer;
    answer, row' := Stats(w, chain, keys, script, scanLimit, row, rows);
    while !answer.Done?
      invariant row'.Some? ==> StatsRowRight(w, row'.value)
      invariant answer.Done? ==> answer.value == StatsOf(w, chain, |chain|)
      decreases !answer.Done?, |chain| - RowHeight(w, chain, StatsTag(row'))
    {
      answer, row' := Stats(w, chain, keys, script, scanLimit, row', rows);
    }
    stats := answer.value;
  }

  lemma {:induction false} RestoreRight(w: World, chain: seq<Header>, row: UtxoRow, height: nat)
    requires GoodHash(w.hash) && Linked(w.hash, chain) && UtxoRowRight(w, row)
    requires height < |chain| && BlockIdAt(w, chain, height).hash == row.hash
    ensures Restorable(row.utxos, chain) && FromUtxoCache(row.utxos, w, chain) == UtxosOf(w, chain, height + 1)
  {
    var c :| Ends(w, c, row.hash) && row.utxos == MakeUtxoCache(UtxosOf(w, c, |c|));
    hide *;
    TagPins(w, chain, c, row.hash, height);
    RestorePrefix(w, chain, height + 1);
  }

  lemma {:induction false} RestorePrefix(w: World, chain: seq<Header>, n: nat)
    requires Linked(w.hash, chain) && 0 < n <= |chain|
    ensures var cache := MakeUtxoCache(UtxosOf(w, chain[..n], |chain[..n]|));
            Restorable(cache, chain) && FromUtxoCache(cache, w, chain) == UtxosOf(w, chain, n)
  {
    hide *;
    PrefixAgrees(chain, n);
    PrefixEnds(w, chain, n);
    CachedHeights(w, chain[..n], chain);
    CacheRoundTrip(w, chain[..n], chain);
  }

  lemma {:induction false} PrefixAgrees(chain: seq<Header>, n: nat)
    requires n <= |chain|
    ensures Agree(chain[..n], chain) && |chain[..n]| == n
  {
  }

  /** Where a call starts. Every cached coin is of a listed block, so restoring them cannot fail. */
  method UtxoStart(w: World, chain: seq<Header>, row: Option<UtxoRow>) returns (utxos: Utxos, start: nat)
    requires GoodHash(w.hash) && Linked(w.hash, chain) && (row.Some? ==> UtxoRowRight(w, row.value))
    ensures start <= |chain| && utxos == UtxosOf(w, chain, start) && start == RowHeight(w, chain, UtxoTag(row)) + 1
  {
    utxos, start := map[], 0;
    if row.Some? {
      var height := HeightByHash(w, chain, row.value.hash);
      if height.Some? {
        start := height.value + 1;
        RestoreRight(w, chain, row.value, height.value);
        utxos := FromUtxoCache(row.value.utxos, w, chain);
      }
    }
  }

  lemma {:induction false} UtxoMeaning(w: World, chain: seq<Header>, rows: set<Row>, scan: seq<Row>, start: nat,
                                       limit: nat, n: nat, last: Option<Hash>, stop: Option<Stop>)
    returns (cut: nat)
    requires Ready(w, chain, rows, scan, start) && start <= |chain| && EndsAfter(w, chain, scan, limit, n, last, stop)
    ensures stop.None? ==> FoldUtxos(w, chain, UtxosOf(w, chain, start), scan, n) == UtxosOf(w, chain, |chain|)
    ensures last.Some? ==>
              var utxos := FoldUtxos(w, chain, UtxosOf(w, chain, start), scan, n);
              UtxoRowRight(w, UtxoRow(MakeUtxoCache(utxos), last.value))
    ensures last.Some? ==> start <= RowHeight(w, chain, last)
    ensures stop.Some? ==> last.Some?
  {
    cut := EndOfScan(Unspent, w, chain, rows, scan, start, limit, n, last, stop);
    if last.Some? {
      PrefixEnds(w, chain, cut);
      TagHeight(w, chain, cut);
      assert |chain[..cut]| == cut;
    }
  }

  /** Folding the rows from `start` on, the set at some point had more than `limit` coins. */
  ghost predicate Outgrows(w: World, chain: seq<Header>, script: seq<Byte>, rows: set<Row>, start: nat, limit: nat)
    requires start <= |chain|
  {
    exists scan, n :: OutgrowsAt(w, chain, script, rows, start, limit, scan, n)
  }

  ghost predicate OutgrowsAt(w: World, chain: seq<Header>, script: seq<Byte>, rows: set<Row>, start: nat, limit: nat,
                             scan: seq<Row>, n: nat)
    requires start <= |chain|
  {
    && Lists(scan, RowsFrom(rows, start)) && InKeyOrder(script, scan) && 0 < n && Visible(chain, scan, n)
    && |FoldUtxos(w, chain, UtxosOf(w, chain, start), scan, n)| > limit
  }

  /** A finished call saves if it went through some row, and started from a checkpoint or went through many. */
  predicate Worthwhile(seen: set<Row>, hadCache: bool) {
    seen != {} && (hadCache || |seen| > MIN_HISTORY_ITEMS_TO_CACHE)
  }

  /** The new row holds the value of the whole list, under the block of the last row seen. */
  ghost predicate SavedAll(w: World, chain: seq<Header>, seen: set<Row>, row: Option<UtxoRow>) {
    && row.Some? && row.value.utxos == MakeUtxoCache(UtxosOf(w, chain, |chain|))
    && TopAt(seen, RowHeight(w, chain, UtxoTag(row)))
  }

  /** A scan that saw all its rows without the set growing too large shows that it does not. */
  lemma {:induction false} NeverOutgrows(w: World, chain: seq<Header>, script: seq<Byte>, rows: set<Row>,
                                         scan: seq<Row>, start: nat, limit: nat, n: nat)
    requires Lists(scan, RowsFrom(rows, start)) && InKeyOrder(script, scan) && SplitsAt(scan, |chain|, n)
    requires start <= |chain| && Fitting(w, chain, UtxosOf(w, chain, start), scan, n, limit)
    ensures !Outgrows(w, chain, script, rows, start, limit)
  {
    hide InKeyOrder;
    hide UtxosOf;
    forall scan', k ensures !OutgrowsAt(w, chain, script, rows, start, limit, scan', k) {
      if OutgrowsAt(w, chain, script, rows, start, limit, scan', k) {
        OneOrder(script, scan, scan');
        assert false;
      }
    }
  }

  /** Every reason a call has to say that the history is too big. */
  ghost predicate TooBig(w: World, chain: seq<Header>, script: seq<Byte>, rows: set<Row>, start: nat, scanLimit: nat,
                         checkpointLimit: nat, row: Option<UtxoRow>)
    requires start <= |chain|
  {
    || CacheTooLarge(row, checkpointLimit)
    || Outgrows(w, chain, script, rows, start, checkpointLimit)
    || LimitReached(rows, start, |chain|, scanLimit)
  }

  /** When and where a call of `utxo` gives up, and what it saves. */
  ghost predicate UtxoReply(w: World, chain: seq<Header>, script: seq<Byte>, rows: set<Row>, scanLimit: nat,
                            checkpointLimit: nat, row: Option<UtxoRow>, answer: Answer<Utxos>, row': Option<UtxoRow>)
  {
    var start := RowHeight(w, chain, UtxoTag(row)) + 1;
    && 0 <= start <= |chain|
    && (answer == TooBigHistory <==> TooBig(w, chain, script, rows, start, scanLimit, checkpointLimit, row))
    && (CacheTooLarge(row, checkpointLimit) ==> row' == row)
    && (answer == TooBigHistory && row' == row ==>
          CacheTooLarge(row, checkpointLimit) || Outgrows(w, chain, script, rows, start, checkpointLimit))
    && (answer == TooBigHistory && row' != row ==>
          && start <= RowHeight(w, chain, UtxoTag(row'))
          && FirstStop(rows, start, |chain|, scanLimit, RowHeight(w, chain, UtxoTag(row')) + 1))
    && (answer != TooBigHistory ==>
          var seen := Seen(rows, start, |chain|);
          if Worthwhile(seen, start > 0) then SavedAll(w, chain, seen, row') else row' == row)
  }

  /**
   `utxo`. A finished call lists exactly the unspent outputs of the chain, and saves them if it is
   worthwhile. The history is too big exactly if the set outgrows the checkpoint limit, or was already
   too large in the cache, or the rows exceed the scan limit: only then a checkpoint further along is
   left, at the first block where they do.
   */
  method Utxo(w: World, chain: seq<Header>, keys: seq<seq<Byte>>, script: seq<Byte>, scanLimit: nat,
              checkpointLimit: nat, limit: nat, row: Option<UtxoRow>, ghost rows: set<Row>)
    returns (answer: Answer<Utxos>, row': Option<UtxoRow>)
    requires Store(w, chain, keys, script, rows) && (row.Some? ==> UtxoRowRight(w, row.value))
    ensures row'.Some? ==> UtxoRowRight(w, row'.value)
    ensures answer.Done? ==> answer.value == UtxosOf(w, chain, |chain|) && |answer.value| <= limit
    ensures answer == TooManyUtxos ==> |UtxosOf(w, chain, |chain|)| > limit
    ensures UtxoReply(w, chain, script, rows, scanLimit, checkpointLimit, row, answer, row')
  {
    StoreReady(w, chain, keys, script, rows);
    hide *;
    var init, start := UtxoStart(w, chain, row);
    if CacheTooLarge(row, checkpointLimit) {
      KeptTooLarge(w, chain, script, rows, start, scanLimit, checkpointLimit, row);
      return TooBigHistory, row;
    }
    var scan := HistoryIterScan(keys, script, start, rows);
    var utxos, last, processed, stop := UtxoDelta(w, chain, scan, init, scanLimit, checkpointLimit, rows, start);
    if stop == Some(CheckpointLimit) {
      SetTooLarge(w, chain, script, rows, scan, start, scanLimit, checkpointLimit, processed, row);
      return TooBigHistory, row;
    }
    row' := row;
    var hadCache := start > 0;
    if last.Some? && (hadCache || stop.Some? || processed > MIN_HISTORY_ITEMS_TO_CACHE) {
      row' := Some(UtxoRow(MakeUtxoCache(utxos), last.value));
    }
    answer := if stop.Some? then TooBigHistory else if |utxos| > limit then TooManyUtxos else Done(utxos);
    UtxoReplied(w, chain, script, rows, scan, start, scanLimit, checkpointLimit, processed, last, stop, row,
                answer, row');
  }

  lemma {:induction false} KeptTooLarge(w: World, chain: seq<Header>, script: seq<Byte>, rows: set<Row>, start: nat,
                                        scanLimit: nat, checkpointLimit: nat, row: Option<UtxoRow>)
    requires start == RowHeight(w, chain, UtxoTag(row)) + 1 <= |chain| && CacheTooLarge(row, checkpointLimit)
    ensures UtxoReply(w, chain, script, rows, scanLimit, checkpointLimit, row, TooBigHistory, row)
  {
    hide RowHeight;
  }

  lemma {:induction false} SetTooLarge(w: World, chain: seq<Header>, script: seq<Byte>, rows: set<Row>, scan: seq<Row>,
                                       start: nat, scanLimit: nat, checkpointLimit: nat, n: nat, row: Option<UtxoRow>)
    requires start == RowHeight(w, chain, UtxoTag(row)) + 1 <= |chain| && !CacheTooLarge(row, checkpointLimit)
    requires Lists(scan, RowsFrom(rows, start)) && InKeyOrder(script, scan) && Visible(chain, scan, n) && n > 0
    requires |FoldUtxos(w, chain, UtxosOf(w, chain, start), scan, n)| > checkpointLimit
    ensures UtxoReply(w, chain, script, rows, scanLimit, checkpointLimit, row, TooBigHistory, row)
  {
    hide RowHeight;
    hide Outgrows;
    hide LimitReached;
    hide FoldUtxos;
    hide UtxosOf;
    hide Visible;
    hide Lists;
    hide InKeyOrder;
    OutgrowsThere(w, chain, script, rows, scan, start, checkpointLimit, n);
  }

  lemma {:induction false} OutgrowsThere(w: World, chain: seq<Header>, script: seq<Byte>, rows: set<Row>,
                                         scan: seq<Row>, start: nat, limit: nat, n: nat)
    requires start <= |chain| && n > 0 && Visible(chain, scan, n)
    requires Lists(scan, RowsFrom(rows, start)) && InKeyOrder(script, scan)
    requires |FoldUtxos(w, chain, UtxosOf(w, chain, start), scan, n)| > limit
    ensures Outgrows(w, chain, script, rows, start, limit)
  {
    hide FoldUtxos;
    hide UtxosOf;
    hide Visible;
    hide Lists;
    hide InKeyOrder;
    assert OutgrowsAt(w, chain, script, rows, start, limit, scan, n);
  }

  lemma {:induction false} UtxoReplied(w: World, chain: seq<Header>, script: seq<Byte>, rows: set<Row>, scan: seq<Row>,
                                       start: nat, scanLimit: nat, checkpointLimit: nat, n: nat, last: Option<Hash>,
                                       stop: Option<Stop>, row: Option<UtxoRow>, answer: Answer<Utxos>,
                                       row': Option<UtxoRow>)
    requires Ready(w, chain, rows, scan, start) && start == RowHeight(w, chain, UtxoTag(row)) + 1 <= |chain|
    requires row.Some? ==> UtxoRowRight(w, row.value)
    requires Lists(scan, RowsFrom(rows, start)) && InKeyOrder(script, scan)
    requires EndsAfter(w, chain, scan, scanLimit, n, last, stop) && Visible(chain, scan, n)
    requires Fitting(w, chain, UtxosOf(w, chain, start), scan, n, checkpointLimit)
    requires !CacheTooLarge(row, checkpointLimit) && (answer == TooBigHistory <==> stop.Some?)
    requires var utxos := FoldUtxos(w, chain, UtxosOf(w, chain, start), scan, n);
             row' == if last.Some? && (start > 0 || stop.Some? || n > MIN_HISTORY_ITEMS_TO_CACHE)
                     then Some(UtxoRow(MakeUtxoCache(utxos), last.value)) else row
    ensures row'.Some? ==> UtxoRowRight(w, row'.value)
    ensures stop.None? ==> FoldUtxos(w, chain, UtxosOf(w, chain, start), scan, n) == UtxosOf(w, chain, |chain|)
    ensures UtxoReply(w, chain, script, rows, scanLimit, checkpointLimit, row, answer, row')
  {
    hide Ready;
    hide EndsAfter;
    hide RowHeight;
    hide UtxoRowRight;
    hide UtxosOf;
    hide FoldUtxos;
    hide Seen;
    hide FirstStop;
    hide LimitReached;
    hide Outgrows;
    hide MakeUtxoCache;
    hide TopAt;
    hide Visible;
    hide Fitting;
    hide Lists;
    hide InKeyOrder;
    var cut := UtxoMeaning(w, chain, rows, scan, start, scanLimit, n, last, stop);
    EndMeans(w, chain, rows, scan, start, scanLimit, n, last, stop);
    UtxoGivesUp(w, chain, script, rows, scan, start, scanLimit, checkpointLimit, n, last, stop, row);
  }

  lemma {:induction false} UtxoGivesUp(w: World, chain: seq<Header>, script: seq<Byte>, rows: set<Row>, scan: seq<Row>,
                                       start: nat, scanLimit: nat, checkpointLimit: nat, n: nat, last: Option<Hash>,
                                       stop: Option<Stop>, row: Option<UtxoRow>)
    requires Ready(w, chain, rows, scan, start) && start <= |chain|
    requires InKeyOrder(script, scan) && EndsAfter(w, chain, scan, scanLimit, n, last, stop)
    requires Fitting(w, chain, UtxosOf(w, chain, start), scan, n, checkpointLimit)
    requires !CacheTooLarge(row, checkpointLimit)
    ensures stop.Some? <==> TooBig(w, chain, script, rows, start, scanLimit, checkpointLimit, row)
  {
    hide RowHeight;
    hide UtxosOf;
    hide Outgrows;
    hide Fitting;
    hide InKeyOrder;
    hide StopsUnder;
    EndMeans(w, chain, rows, scan, start, scanLimit, n, last, stop);
    if stop.None? { NeverOutgrows(w, chain, script, rows, scan, start, checkpointLimit, n); }
  }

  /** The saved set alone exceeds the checkpoint limit. */
  predicate CacheTooLarge(row: Option<UtxoRow>, checkpointLimit: nat) {
    row.Some? && |row.value.utxos| > checkpointLimit
  }

  /** Why asking again would not help: the saved set is too large, or outgrows the limit from there on. */
  ghost predicate Hopeless(w: World, chain: seq<Header>, script: seq<Byte>, rows: set<Row>, row: Option<UtxoRow>,
                           checkpointLimit: nat)
  {
    var start := RowHeight(w, chain, UtxoTag(row)) + 1;
    || CacheTooLarge(row, checkpointLimit)
    || (start <= |chain| && Outgrows(w, chain, script, rows, start, checkpointLimit))
  }

  /** The answer is right, or the checkpoint has moved up, or asking again would not help. */
  ghost predicate Asked(w: World, chain: seq<Header>, script: seq<Byte>, rows: set<Row>, checkpointLimit: nat,
                        limit: nat, row: Option<UtxoRow>, answer: Answer<Utxos>, row': Option<UtxoRow>)
  {
    && (row'.Some? ==> UtxoRowRight(w, row'.value))
    && match answer
       case Done(utxos) => utxos == UtxosOf(w, chain, |chain|) && |utxos| <= limit
       case TooManyUtxos => |UtxosOf(w, chain, |chain|)| > limit
       case TooBigHistory =>
         if row' == row then Hopeless(w, chain, script, rows, row, checkpointLimit)
         else RowHeight(w, chain, UtxoTag(row)) < RowHeight(w, chain, UtxoTag(row'))
  }

  method AskUtxo(w: World, chain: seq<Header>, keys: seq<seq<Byte>>, script: seq<Byte>, scanLimit: nat,
                 checkpointLimit: nat, limit: nat, row: Option<UtxoRow>, ghost rows: set<Row>)
    returns (answer: Answer<Utxos>, row': Option<UtxoRow>)
    requires Store(w, chain, keys, script, rows) && (row.Some? ==> UtxoRowRight(w, row.value))
    ensures Asked(w, chain, script, rows, checkpointLimit, limit, row, answer, row')
  {
    hide Store;
    hide UtxoRowRight;
    hide Outgrows;
    hide RowHeight;
    hide SavedAll;
    answer, row' := Utxo(w, chain, keys, script, scanLimit, checkpointLimit, limit, row, rows);
  }

  lemma {:induction false} AskedAgain(w: World, chain: seq<Header>, script: seq<Byte>, rows: set<Row>,
                                      checkpointLimit: nat, limit: nat, row: Option<UtxoRow>, answer: Answer<Utxos>,
                                      row': Option<UtxoRow>)
    requires Asked(w, chain, script, rows, checkpointLimit, limit, row, answer, row')
    ensures row'.Some? ==> UtxoRowRight(w, row'.value)
    ensures answer == TooBigHistory && row' != row ==>
              RowHeight(w, chain, UtxoTag(row)) < RowHeight(w, chain, UtxoTag(row')) < |chain|
  {
    hide UtxoRowRight;
    hide Outgrows;
  }

  /**
   Asking again while the checkpoint moves comes to an end for every scan limit: with the answer, or
   with a set too large for the checkpoint limit.
   */
  method RetryUtxo(w: World, chain: seq<Header>, keys: seq<seq<Byte>>, script: seq<Byte>, scanLimit: nat,
                   checkpointLimit: nat, limit: nat, row: Option<UtxoRow>, ghost rows: set<Row>)
    returns (answer: Answer<Utxos>, row': Option<UtxoRow>)
    requires Store(w, chain, keys, script, rows) && (row.Some? ==> UtxoRowRight(w, row.value))
    ensures row'.Some? ==> UtxoRowRight(w, row'.value)
    ensures answer.Done? ==> answer.value == UtxosOf(w, chain, |chain|) && |answer.value| <= limit
    ensures answer == TooManyUtxos ==> |UtxosOf(w, chain, |chain|)| > limit
    ensures answer == TooBigHistory ==> Hopeless(w, chain, script, rows, row', checkpointLimit)
  {
    hide Store;
    hide UtxoRowRight;
    hide Hopeless;
    hide RowHeight;
    hide UtxosOf;
    var before := row;
    answer, row' := AskUtxo(w, chain, keys, script, scanLimit, checkpointLimit, limit, before, rows);
    while answer == TooBigHistory && row' != before
      invariant Asked(w, chain, script, rows, checkpointLimit, limit, before, answer, row')
      decreases |chain| - RowHeight(w, chain, UtxoTag(before))
    {
      AskedAgain(w, chain, script, rows, checkpointLimit, limit, before, answer, row');
      before := row';
      answer, row' := AskUtxo(w, chain, keys, script, scanLimit, checkpointLimit, limit, before, rows);
    }
  }
}
