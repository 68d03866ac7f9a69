/**
 Unspent outputs and script statistics: what they are for a chain, and the resumable scans over
 history rows that compute them.

 One script is followed. `World` gives, for every block header, the history rows its block adds
 for that script; a header commits to its block, so this is a function of the header.
 */
module HistoryScan {
  import opened HeaderChain
  import opened HistoryKeys

  datatype World = World(hash: Header -> Hash, history: Header -> set<Info>)

  datatype BlockId = BlockId(height: nat, hash: Hash, time: nat)

  datatype Coin = Coin(block: BlockId, value: nat)

  type Utxos = map<OutPoint, Coin>

  datatype Stats = Stats(txCount: nat, fundedCount: nat, fundedSum: nat, spentCount: nat, spentSum: nat)

  const NO_STATS := Stats(0, 0, 0, 0, 0)

  // ----- What they are ---------------------------------------------------------------------------

  function Funded(infos: set<Info>): set<OutPoint> { set i | i in infos && i.Funding? :: i.Out() }

  function Spent(infos: set<Info>): set<OutPoint> { set i | i in infos && i.Spending? :: i.Out() }

  /** A block funds an output once. */
  ghost predicate Clean(infos: set<Info>) {
    forall i, j :: i in infos && j in infos && i.Funding? && j.Funding? && i.Out() == j.Out() ==> i == j
  }

  ghost function FundedValue(infos: set<Info>, o: OutPoint): nat
    requires o in Funded(infos)
  {
    var i :| i in infos && i.Funding? && i.Out() == o;
    i.value
  }

  /** A block takes its spent outputs out of the set, its own new ones included. */
  ghost function UtxoBlock(u: Utxos, b: BlockId, infos: set<Info>): Utxos {
    map o | o in (u.Keys + Funded(infos)) - Spent(infos) ::
      if o in Funded(infos) then Coin(b, FundedValue(infos, o)) else u[o]
  }

  function BlockIdAt(w: World, chain: seq<Header>, h: nat): BlockId
    requires h < |chain|
  {
    BlockId(h, w.hash(chain[h]), chain[h].time)
  }

  /** The unspent outputs after the first `n` blocks. */
  ghost function UtxosOf(w: World, chain: seq<Header>, n: nat): Utxos
    requires n <= |chain|
  {
    if n == 0 then map[] else UtxoBlock(UtxosOf(w, chain, n - 1), BlockIdAt(w, chain, n - 1), Infos(w, chain, n - 1))
  }

  function Infos(w: World, chain: seq<Header>, h: nat): set<Info>
    requires h < |chain|
  {
    w.history(chain[h])
  }

  function Txids(infos: set<Info>): set<Txid> { set i | i in infos :: i.txid }

  function Fundings(infos: set<Info>): set<Info> { set i | i in infos && i.Funding? }

  function Spendings(infos: set<Info>): set<Info> { set i | i in infos && i.Spending? }

  /** The sum of the rows' values. */
  ghost function Worth(infos: set<Info>): nat {
    if infos == {} then 0 else
    var i :| i in infos;
    i.value + Worth(infos - {i})
  }

  /** A block adds its transactions, and its outputs funded and spent with their values. */
  ghost function StatsBlock(s: Stats, infos: set<Info>): Stats {
    Stats(s.txCount + |Txids(infos)|,
          s.fundedCount + |Fundings(infos)|, s.fundedSum + Worth(Fundings(infos)),
          s.spentCount + |Spendings(infos)|, s.spentSum + Worth(Spendings(infos)))
  }

  /** The statistics of the first `n` blocks. */
  ghost function StatsOf(w: World, chain: seq<Header>, n: nat): Stats
    requires n <= |chain|
  {
    if n == 0 then NO_STATS else StatsBlock(StatsOf(w, chain, n - 1), Infos(w, chain, n - 1))
  }

  /** They depend only on the blocks counted. */
  lemma {:induction false} SamePrefix(w: World, a: seq<Header>, b: seq<Header>, n: nat)
    requires n <= |a| && n <= |b| && a[..n] == b[..n]
    ensures UtxosOf(w, a, n) == UtxosOf(w, b, n) && StatsOf(w, a, n) == StatsOf(w, b, n)
  {
    if n > 0 {
      assert a[n - 1] == a[..n][n - 1] == b[..n][n - 1] == b[n - 1];
      assert a[..n - 1] == a[..n][..n - 1] == b[..n][..n - 1] == b[..n - 1];
      SamePrefix(w, a, b, n - 1);
    }
  }

  lemma {:induction false} WorthAdd(infos: set<Info>, x: Info)
    requires x !in infos
    ensures Worth(infos + {x}) == Worth(infos) + x.value
  {
    var all := infos + {x};
    var i :| i in all && Worth(all) == i.value + Worth(all - {i});
    if i == x {
      assert all - {x} == infos;
    } else {
      assert all - {i} == (infos - {i}) + {x};
      WorthAdd(infos - {i}, x);
      WorthTake(infos, i);
    }
  }

  lemma {:induction false} WorthTake(infos: set<Info>, x: Info)
    requires x in infos
    ensures Worth(infos) == x.value + Worth(infos - {x})
    decreases |infos|
  {
    var i :| i in infos && Worth(infos) == i.value + Worth(infos - {i});
    if i != x {
      WorthTake(infos - {i}, x);
      WorthTake(infos - {x}, i);
      assert infos - {i} - {x} == infos - {x} - {i};
    }
  }

  // ----- Row by row ------------------------------------------------------------------------------

  function AddRow(u: Utxos, b: BlockId, i: Info): Utxos {
    if i.Funding? then u[i.Out() := Coin(b, i.value)] else u - {i.Out()}
  }

  function CountRow(s: Stats, i: Info, isNew: bool): Stats {
    var txCount := s.txCount + if isNew then 1 else 0;
    if i.Funding? then Stats(txCount, s.fundedCount + 1, s.fundedSum + i.value, s.spentCount, s.spentSum)
    else Stats(txCount, s.fundedCount, s.fundedSum, s.spentCount + 1, s.spentSum + i.value)
  }

  lemma {:induction false} AddFunding(u: Utxos, b: BlockId, infos: set<Info>, i: Info)
    requires i.Funding? && Spent(infos) == {} && Clean(infos + {i})
    ensures AddRow(UtxoBlock(u, b, infos), b, i) == UtxoBlock(u, b, infos + {i})
  {
    var more := infos + {i};
    assert Funded(more) == Funded(infos) + {i.Out()};
    assert Spent(more) == {};
    forall o | o in Funded(more)
      ensures FundedValue(more, o) == if o == i.Out() then i.value else FundedValue(infos, o)
    {
      assert i in more;
    }
  }

  lemma {:induction false} AddSpending(u: Utxos, b: BlockId, infos: set<Info>, i: Info)
    requires i.Spending? && Clean(infos)
    ensures AddRow(UtxoBlock(u, b, infos), b, i) == UtxoBlock(u, b, infos + {i})
  {
    var more := infos + {i};
    assert Funded(more) == Funded(infos);
    assert Spent(more) == Spent(infos) + {i.Out()};
    forall o | o in Funded(more) ensures FundedValue(more, o) == FundedValue(infos, o) {
      var j :| j in more && j.Funding? && j.Out() == o && FundedValue(more, o) == j.value;
    }
  }

  lemma {:induction false} SizeAdd<T>(s: set<T>, x: T)
    ensures |s + {x}| == |s| + if x in s then 0 else 1
  {
    if x in s { assert s + {x} == s; }
  }

  lemma {:induction false} CountTxids(infos: set<Info>, i: Info)
    ensures |Txids(infos + {i})| == |Txids(infos)| + if i.txid in Txids(infos) then 0 else 1
  {
    assert Txids(infos + {i}) == Txids(infos) + {i.txid};
    SizeAdd(Txids(infos), i.txid);
  }

  lemma {:induction false} CountFundings(infos: set<Info>, i: Info)
    requires i !in infos
    ensures |Fundings(infos + {i})| == |Fundings(infos)| + if i.Funding? then 1 else 0
    ensures Worth(Fundings(infos + {i})) == Worth(Fundings(infos)) + if i.Funding? then i.value else 0
  {
    assert Fundings(infos + {i}) == if i.Funding? then Fundings(infos) + {i} else Fundings(infos);
    if i.Funding? { WorthAdd(Fundings(infos), i); }
  }

  lemma {:induction false} CountSpendings(infos: set<Info>, i: Info)
    requires i !in infos
    ensures |Spendings(infos + {i})| == |Spendings(infos)| + if i.Spending? then 1 else 0
    ensures Worth(Spendings(infos + {i})) == Worth(Spendings(infos)) + if i.Spending? then i.value else 0
  {
    assert Spendings(infos + {i}) == if i.Spending? then Spendings(infos) + {i} else Spendings(infos);
    if i.Spending? { WorthAdd(Spendings(infos), i); }
  }

  lemma {:induction false} CountOne(s: Stats, infos: set<Info>, i: Info)
    requires i !in infos
    ensures CountRow(StatsBlock(s, infos), i, i.txid !in Txids(infos)) == StatsBlock(s, infos + {i})
  {
    CountTxids(infos, i);
    CountFundings(infos, i);
    CountSpendings(infos, i);
  }

  // ----- Folding a scan ---------------------------------------------------------------------------

  /** The first `k` rows are of blocks in the list. */
  ghost predicate Visible(chain: seq<Header>, scan: seq<Row>, k: nat) {
    k <= |scan| && forall i :: 0 <= i < k ==> scan[i].height < |chain|
  }

  ghost function FoldUtxos(w: World, chain: seq<Header>, u: Utxos, scan: seq<Row>, k: nat): Utxos
    requires Visible(chain, scan, k)
  {
    if k == 0 then u
    else AddRow(FoldUtxos(w, chain, u, scan, k - 1), BlockIdAt(w, chain, scan[k - 1].height), scan[k - 1].info)
  }

  /** Transactions met at one height among the first `k` rows. */
  ghost function SeenAt(scan: seq<Row>, k: nat, height: nat): set<Txid>
    requires k <= |scan|
  {
    set i | 0 <= i < k && scan[i].height == height :: scan[i].info.txid
  }

  ghost function FoldStats(s: Stats, scan: seq<Row>, k: nat): Stats
    requires k <= |scan|
  {
    if k == 0 then s
    else CountRow(FoldStats(s, scan, k - 1), scan[k - 1].info,
                  scan[k - 1].info.txid !in SeenAt(scan, k - 1, scan[k - 1].height))
  }

  /** The rows of published blocks are exactly what those blocks add; other heights do not matter. */
  ghost predicate Published(w: World, chain: seq<Header>, rows: set<Row>) {
    forall h {:trigger Infos(w, chain, h)} :: 0 <= h < |chain| ==>
      Clean(Infos(w, chain, h)) && RowsMatch(rows, h, Infos(w, chain, h))
  }

  ghost predicate RowsMatch(rows: set<Row>, h: nat, infos: set<Info>) {
    forall i :: Row(h, i) in rows <==> i in infos
  }

  /** Rows `..n` are below height `cut`, the others are not. */
  ghost predicate SplitsAt(scan: seq<Row>, cut: nat, n: nat) {
    && n <= |scan| && (forall i :: 0 <= i < n ==> scan[i].height < cut)
    && (forall i :: n <= i < |scan| ==> scan[i].height >= cut)
  }

  lemma {:induction false} FindSplit(scan: seq<Row>, rows: set<Row>, cut: nat) returns (n: nat)
    requires Lists(scan, rows)
    ensures SplitsAt(scan, cut, n)
  {
    n := 0;
    while n < |scan| && scan[n].height < cut
      invariant n <= |scan| && forall i :: 0 <= i < n ==> scan[i].height < cut
    {
      n := n + 1;
    }
    forall i | n <= i < |scan| ensures scan[i].height >= cut {
      assert i > n ==> Before(scan[n], scan[i]);
    }
  }

  lemma {:induction false} SplitsRise(scan: seq<Row>, low: nat, a: nat, high: nat, b: nat)
    requires SplitsAt(scan, low, a) && SplitsAt(scan, high, b) && low <= high
    ensures a <= b
  {
    assert b < |scan| ==> scan[b].height >= high;
  }

  ghost function InfosIn(scan: seq<Row>, a: nat, b: nat): set<Info>
    requires a <= b <= |scan|
  {
    set i | a <= i < b :: scan[i].info
  }

  /** Rows `a..b` are all the rows at height `h`, funding rows first, none twice. */
  ghost predicate OneBlock(scan: seq<Row>, a: nat, b: nat, h: nat) {
    && a <= b <= |scan| && (forall i :: a <= i < b ==> scan[i].height == h)
    && (forall i :: 0 <= i < a ==> scan[i].height != h)
    && (forall i, j :: a <= i < j < b ==>
          scan[i].info != scan[j].info && (scan[i].info.Funding? || scan[j].info.Spending?))
  }

  /** Row by row through one block is the block as a whole, because funding rows come first. */
  lemma {:induction false} UtxoRun(w: World, chain: seq<Header>, u: Utxos, scan: seq<Row>, a: nat, b: nat, h: nat)
    requires Visible(chain, scan, b) && h < |chain| && OneBlock(scan, a, b, h) && Clean(InfosIn(scan, a, b))
    ensures FoldUtxos(w, chain, u, scan, b) ==
            UtxoBlock(FoldUtxos(w, chain, u, scan, a), BlockIdAt(w, chain, h), InfosIn(scan, a, b))
    decreases b
  {
    var id := BlockIdAt(w, chain, h);
    var before := FoldUtxos(w, chain, u, scan, a);
    if a == b {
      NothingToAdd(before, id, InfosIn(scan, a, b));
    } else {
      LastRow(scan, a, b, h);
      UtxoRun(w, chain, u, scan, a, b - 1, h);
      AddToBlock(before, id, InfosIn(scan, a, b - 1), scan[b - 1].info);
    }
  }

  lemma {:induction false} LastRow(scan: seq<Row>, a: nat, b: nat, h: nat)
    requires OneBlock(scan, a, b, h) && a < b
    ensures InfosIn(scan, a, b) == InfosIn(scan, a, b - 1) + {scan[b - 1].info}
    ensures scan[b - 1].info !in InfosIn(scan, a, b - 1)
    ensures scan[b - 1].info.Funding? ==> Spent(InfosIn(scan, a, b - 1)) == {}
  {
  }

  lemma {:induction false} AddToBlock(u: Utxos, b: BlockId, infos: set<Info>, i: Info)
    requires Clean(infos + {i}) && (i.Funding? ==> Spent(infos) == {})
    ensures Clean(infos) && AddRow(UtxoBlock(u, b, infos), b, i) == UtxoBlock(u, b, infos + {i})
  {
    if i.Funding? { AddFunding(u, b, infos, i); } else { AddSpending(u, b, infos, i); }
  }

  lemma {:induction false} NothingToAdd(u: Utxos, b: BlockId, infos: set<Info>)
    requires infos == {}
    ensures UtxoBlock(u, b, infos) == u
  {
  }

  lemma {:induction false} StatsRun(s: Stats, scan: seq<Row>, a: nat, b: nat, h: nat)
    requires OneBlock(scan, a, b, h)
    ensures FoldStats(s, scan, b) == StatsBlock(FoldStats(s, scan, a), InfosIn(scan, a, b))
    decreases b
  {
    if a == b {
      NothingToCount(FoldStats(s, scan, a), InfosIn(scan, a, b));
    } else {
      StatsRun(s, scan, a, b - 1, h);
      CountLast(s, FoldStats(s, scan, a), scan, a, b, h);
    }
  }

  lemma {:induction false} CountLast(s: Stats, before: Stats, scan: seq<Row>, a: nat, b: nat, h: nat)
    requires OneBlock(scan, a, b, h) && a < b
    requires FoldStats(s, scan, b - 1) == StatsBlock(before, InfosIn(scan, a, b - 1))
    ensures FoldStats(s, scan, b) == StatsBlock(before, InfosIn(scan, a, b))
  {
    var i, infos := scan[b - 1].info, InfosIn(scan, a, b - 1);
    LastRow(scan, a, b, h);
    SeenIsTxids(scan, a, b - 1, h);
    calc {
      FoldStats(s, scan, b);
      CountRow(FoldStats(s, scan, b - 1), i, i.txid !in SeenAt(scan, b - 1, h));
      CountRow(StatsBlock(before, infos), i, i.txid !in Txids(infos));
      { CountOne(before, infos, i); }
      StatsBlock(before, infos + {i});
    }
  }

  lemma {:induction false} SeenIsTxids(scan: seq<Row>, a: nat, b: nat, h: nat)
    requires a <= b <= |scan| && (forall i :: a <= i < b ==> scan[i].height == h)
    requires (forall i :: 0 <= i < a ==> scan[i].height != h)
    ensures SeenAt(scan, b, h) == Txids(InfosIn(scan, a, b))
  {
    var infos := InfosIn(scan, a, b);
    forall t | t in SeenAt(scan, b, h) ensures t in Txids(infos) {
      var i :| 0 <= i < b && scan[i].height == h && scan[i].info.txid == t;
      assert scan[i].info in infos;
    }
    forall t | t in Txids(infos) ensures t in SeenAt(scan, b, h) {
      var i :| i in infos && i.txid == t;
      var k :| a <= k < b && scan[k].info == i;
    }
  }

  lemma {:induction false} NothingToCount(s: Stats, infos: set<Info>)
    requires infos == {}
    ensures StatsBlock(s, infos) == s
  {
    assert Txids(infos) == {} && Fundings(infos) == {} && Spendings(infos) == {};
  }

  /** Between two heights a scan lists exactly one block's rows. */
  lemma {:induction false} BlockRows(w: World, chain: seq<Header>, rows: set<Row>, scan: seq<Row>, start: nat, h: nat,
                                     a: nat, b: nat)
    requires Published(w, chain, rows) && Lists(scan, RowsFrom(rows, start)) && start <= h < |chain|
    requires SplitsAt(scan, h, a) && SplitsAt(scan, h + 1, b)
    ensures OneBlock(scan, a, b, h) && InfosIn(scan, a, b) == Infos(w, chain, h) && Clean(Infos(w, chain, h))
  {
    var infos := Infos(w, chain, h);
    assert RowsMatch(rows, h, infos);
    SplitsRise(scan, h, a, h + 1, b);
    forall i | a <= i < b ensures scan[i].height == h && scan[i].info in infos {
      assert scan[i] in scan && scan[i] == Row(h, scan[i].info);
    }
    forall i | i in infos ensures i in InfosIn(scan, a, b) {
      assert Row(h, i) in scan;
    }
    forall i, j | a <= i < j < b
      ensures scan[i].info != scan[j].info && (scan[i].info.Funding? || scan[j].info.Spending?)
    {
      assert Before(scan[i], scan[j]) && scan[i] != scan[j];
    }
  }

  /** The two things computed over a history. */
  datatype Kind = Unspent | Totals

  /** From the value at `start`, the first `n` rows of a scan give the value at `cut`. */
  ghost predicate Reaches(kind: Kind, w: World, chain: seq<Header>, scan: seq<Row>, start: nat, cut: nat, n: nat)
    requires start <= |chain| && cut <= |chain| && Visible(chain, scan, n)
  {
    match kind
    case Unspent => FoldUtxos(w, chain, UtxosOf(w, chain, start), scan, n) == UtxosOf(w, chain, cut)
    case Totals => FoldStats(StatsOf(w, chain, start), scan, n) == StatsOf(w, chain, cut)
  }

  /**
   Resuming is starting over: from the value at any height, the rows up to any later height give
   the value there.
   */
  lemma {:induction false} Resume(kind: Kind, w: World, chain: seq<Header>, rows: set<Row>, scan: seq<Row>, start: nat,
                                  cut: nat, n: nat)
    requires Published(w, chain, rows) && Lists(scan, RowsFrom(rows, start)) && start <= cut <= |chain|
    requires SplitsAt(scan, cut, n)
    ensures Visible(chain, scan, n) && Reaches(kind, w, chain, scan, start, cut, n)
    decreases cut
  {
    hide *;
    if cut == start {
      NothingYet(rows, scan, start, n);
      AtStart(kind, w, chain, scan, start);
    } else {
      var a := BlockBefore(kind, w, chain, rows, scan, start, cut, n);
      Resume(kind, w, chain, rows, scan, start, cut - 1, a);
    }
  }

  lemma {:induction false} AtStart(kind: Kind, w: World, chain: seq<Header>, scan: seq<Row>, start: nat)
    requires start <= |chain|
    ensures Visible(chain, scan, 0) && Reaches(kind, w, chain, scan, start, start, 0)
  {
  }

  lemma {:induction false} NothingYet(rows: set<Row>, scan: seq<Row>, start: nat, n: nat)
    requires Lists(scan, RowsFrom(rows, start)) && SplitsAt(scan, start, n)
    ensures n == 0
  {
    assert n > 0 ==> scan[0].height < start;
    forall i | 0 <= i < |scan| ensures scan[i].height >= start { assert scan[i] in scan; }
  }

  lemma {:induction false} BlockBefore(kind: Kind, w: World, chain: seq<Header>, rows: set<Row>, scan: seq<Row>,
                                       start: nat, cut: nat, n: nat)
    returns (a: nat)
    requires Published(w, chain, rows) && Lists(scan, RowsFrom(rows, start)) && start < cut <= |chain|
    requires SplitsAt(scan, cut, n)
    ensures SplitsAt(scan, cut - 1, a) && Visible(chain, scan, a) && Visible(chain, scan, n)
    ensures Reaches(kind, w, chain, scan, start, cut - 1, a) ==> Reaches(kind, w, chain, scan, start, cut, n)
  {
    a := FindSplit(scan, RowsFrom(rows, start), cut - 1);
    BlockRows(w, chain, rows, scan, start, cut - 1, a, n);
    match kind
    case Unspent => NextUtxos(w, chain, scan, UtxosOf(w, chain, start), cut, a, n);
    case Totals => NextStats(w, chain, scan, StatsOf(w, chain, start), cut, a, n);
  }

  lemma {:induction false} NextUtxos(w: World, chain: seq<Header>, scan: seq<Row>, u: Utxos, cut: nat, a: nat, n: nat)
    requires 0 < cut <= |chain| && Visible(chain, scan, n) && OneBlock(scan, a, n, cut - 1)
    requires InfosIn(scan, a, n) == Infos(w, chain, cut - 1) && Clean(Infos(w, chain, cut - 1))
    ensures FoldUtxos(w, chain, u, scan, a) == UtxosOf(w, chain, cut - 1) ==>
              FoldUtxos(w, chain, u, scan, n) == UtxosOf(w, chain, cut)
  {
    UtxoRun(w, chain, u, scan, a, n, cut - 1);
  }

  lemma {:induction false} NextStats(w: World, chain: seq<Header>, scan: seq<Row>, s: Stats, cut: nat, a: nat, n: nat)
    requires 0 < cut <= |chain| && OneBlock(scan, a, n, cut - 1) && InfosIn(scan, a, n) == Infos(w, chain, cut - 1)
    ensures FoldStats(s, scan, a) == StatsOf(w, chain, cut - 1) ==> FoldStats(s, scan, n) == StatsOf(w, chain, cut)
  {
    StatsRun(s, scan, a, n, cut - 1);
  }
}
