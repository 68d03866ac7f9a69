/**
 From a valid chain to the answers about a script: the database the chain is indexed to is what the
 scans rely on, so `utxo`, `stats` and the pages of a script's history say what the chain says.
 */
module IndexedChain {
  import opened HeaderChain
  import opened HistoryKeys
  import opened HistoryScan
  import opened ChainIndex
  import opened UnspentOutputs
  import opened ScriptStats
  import opened HistoryDb
  import opened Wrappers
  import Checkpoints
  import HistoryPages

  /** A valid, linked chain whose fields fit their encodings, and the database it was indexed to. */
  ghost predicate Ready(l: Ledger, chain: seq<Header>, db: Db, rows: set<DbRow>) {
    GoodHash(l.hash) && Linked(l.hash, chain) && ValidChain(l, chain) && SizedChain(l, chain)
    && IndexedDb(l, chain, db, rows)
  }

  // ----- Confirmations ------------------------------------------------------------------------------------------

  lemma {:induction false} ConfRowIs(l: Ledger, chain: seq<Header>, rows: set<DbRow>, db: Db, txid: Txid, h: nat)
    returns (t: nat)
    requires IndexedDb(l, chain, db, rows) && ConfRow(txid, h) in rows
    ensures h < |chain| && t < |TxsAt(l, chain, h)| && TxsAt(l, chain, h)[t].txid == txid
  {
    hide Stored;
    var k: nat :| k < |chain| && RowAt(l, chain, k, ConfRow(txid, h));
    t :| 0 <= t < |TxsAt(l, chain, k)| && TxRow(l, TxsAt(l, chain, k)[t], k, ConfRow(txid, h));
  }

  /** Transaction ids are unique, so the height stored with one is that of its block. */
  lemma {:induction false} ConfirmedAt(l: Ledger, chain: seq<Header>, db: Db, rows: set<DbRow>, h: nat, t: nat)
    requires ValidChain(l, chain) && IndexedDb(l, chain, db, rows) && h < |chain| && t < |TxsAt(l, chain, h)|
    ensures var txid := TxsAt(l, chain, h)[t].txid; txid in db.confirmations && db.confirmations[txid] == h
  {
    var tx := TxsAt(l, chain, h)[t];
    assert TxRow(l, tx, h, ConfRow(tx.txid, h));
    assert RowAt(l, chain, h, ConfRow(tx.txid, h));
    assert ConfRow(tx.txid, h) in rows;
    var h' := db.confirmations[tx.txid];
    var t' := ConfRowIs(l, chain, rows, db, tx.txid, h');
    assert TxAt(l, chain, h, t).txid == TxAt(l, chain, h', t').txid;
  }

  lemma {:induction false} RowsConfirmed(l: Ledger, chain: seq<Header>, db: Db, rows: set<DbRow>, script: seq<Byte>)
    requires Ready(l, chain, db, rows)
    ensures HistoryPages.Confirmed(RowsOf(rows, script), db.confirmations, |chain|)
  {
    hide Stored;
    hide ValidChain;
    forall r | r in RowsOf(rows, script)
      ensures r.info.txid in db.confirmations && db.confirmations[r.info.txid] == r.height
    {
      var t := HistoryRowIs(l, chain, db, rows, script, r);
      ConfirmedAt(l, chain, db, rows, r.height, t);
    }
  }

  // ----- The stores the calls read -----------------------------------------------------------------------------------

  lemma {:induction false} ReadyStore(l: Ledger, chain: seq<Header>, db: Db, rows: set<DbRow>, script: seq<Byte>)
    requires Ready(l, chain, db, rows) && |script| == 32
    ensures Checkpoints.Store(WorldOf(l, script), chain, db.keys, script, RowsOf(rows, script))
    ensures HistoryPages.Store(db.keys, script, RowsOf(rows, script), db.confirmations, |chain|)
  {
    hide Published;
    hide Stored;
    hide ValidChain;
    hide Holds;
    hide HistoryPages.Confirmed;
    IndexedIsIndexOf(l, chain, db, rows);
    ValidIndexIsPublished(l, script, chain, rows);
    IndexedHolds(l, chain, db, rows, script);
    RowsConfirmed(l, chain, db, rows, script);
  }

  // ----- What the answers say ---------------------------------------------------------------------------------------

  /** Exactly the outputs paying the script that no transaction spends, each of its block and with its value. */
  ghost predicate Unspent(l: Ledger, script: seq<Byte>, chain: seq<Header>, u: Utxos) {
    && (forall o :: o in u <==> Paid(l, script, chain, |chain|, o) && !SpentIn(l, chain, |chain|, o))
    && (forall o, h: nat, t: nat {:trigger PaysAt(l, script, chain, |chain|, h, t, o)} ::
          o in u && PaysAt(l, script, chain, |chain|, h, t, o) ==>
            u[o] == Coin(BlockId(h, l.hash(chain[h]), chain[h].time), TxoOf(l, o).value))
  }

  lemma {:induction false} UtxosAreUnspent(l: Ledger, script: seq<Byte>, chain: seq<Header>)
    requires ValidChain(l, chain)
    ensures Unspent(l, script, chain, UtxosOf(WorldOf(l, script), chain, |chain|))
  {
    var w := WorldOf(l, script);
    WorldDescribes(l, script, chain);
    hide Describes;
    hide ValidChain;
    hide UtxosOf;
    hide Paid;
    hide SpentIn;
    var u := UtxosOf(w, chain, |chain|);
    forall o ensures o in u <==> Paid(l, script, chain, |chain|, o) && !SpentIn(l, chain, |chain|, o) {
      UnspentExactly(w, l, script, chain, |chain|, o);
    }
    forall o, h: nat, t: nat | o in u && PaysAt(l, script, chain, |chain|, h, t, o)
      ensures u[o] == Coin(BlockId(h, l.hash(chain[h]), chain[h].time), TxoOf(l, o).value)
    {
      CoinIs(w, l, script, chain, |chain|, o, h, t);
    }
  }

  /**
   Main result: on the database of a valid chain, whatever right checkpoints the two calls start
   from, a finished `utxo` lists exactly the script's outputs that are paid and not spent, and a
   finished `stats` counts exactly the transactions that pay the script or spend from it, the outputs
   paid to it and those spent, with their values; funded less spent is the unspent set.
   */
  method UtxoAndStats(l: Ledger, chain: seq<Header>, db: Db, script: seq<Byte>, scanLimit: nat, checkpointLimit: nat,
                      limit: nat, utxoRow: Option<Checkpoints.UtxoRow>, statsRow: Option<Checkpoints.StatsRow>,
                      ghost rows: set<DbRow>)
    returns (utxos: Checkpoints.Answer<Utxos>, stats: Checkpoints.Answer<Stats>)
    requires Ready(l, chain, db, rows) && |script| == 32
    requires utxoRow.Some? ==> Checkpoints.UtxoRowRight(WorldOf(l, script), utxoRow.value)
    requires statsRow.Some? ==> Checkpoints.StatsRowRight(WorldOf(l, script), statsRow.value)
    ensures utxos.Done? ==> Unspent(l, script, chain, utxos.value)
    ensures stats.Done? ==> StatsAre(l, script, chain, |chain|, stats.value)
    ensures stats.Done? ==> exists u :: Unspent(l, script, chain, u) && AddsUp(u, stats.value)
    ensures utxos.Done? && stats.Done? ==> AddsUp(utxos.value, stats.value)
  {
    ReadyStore(l, chain, db, rows, script);
    UtxosAreUnspent(l, script, chain);
    WorldDescribes(l, script, chain);
    hide *;
    var w := WorldOf(l, script);
    FundedLessSpent(w, l, script, chain, |chain|);
    StatsMean(w, l, script, chain, |chain|);
    AddUpNow(w, chain);
    var utxoRow', statsRow';
    ghost var own := RowsOf(rows, script);
    utxos, utxoRow' := Checkpoints.Utxo(w, chain, db.keys, script, scanLimit, checkpointLimit, limit, utxoRow, own);
    stats, statsRow' := Checkpoints.Stats(w, chain, db.keys, script, scanLimit, statsRow, own);
  }

  /**
   Asking until there is nothing more to gain: `stats` always ends with an answer, and `utxo` ends with
   the script's unspent outputs, or because they are more than the caller wants, or because the set is
   too large for the checkpoint limit.
   */
  method AskUntilAnswered(l: Ledger, chain: seq<Header>, db: Db, script: seq<Byte>, scanLimit: nat,
                          checkpointLimit: nat, limit: nat, ghost rows: set<DbRow>)
    returns (utxos: Checkpoints.Answer<Utxos>, stats: Stats, utxoRow: Option<Checkpoints.UtxoRow>)
    requires Ready(l, chain, db, rows) && |script| == 32 && scanLimit > 0
    ensures StatsAre(l, script, chain, |chain|, stats)
    ensures utxos.Done? ==> Unspent(l, script, chain, utxos.value) && AddsUp(utxos.value, stats)
    ensures exists u :: Unspent(l, script, chain, u) && AddsUp(u, stats)
                        && (utxos == Checkpoints.TooManyUtxos ==> |u| > limit)
    ensures utxos == Checkpoints.TooBigHistory ==>
              Checkpoints.Hopeless(WorldOf(l, script), chain, script, RowsOf(rows, script), utxoRow, checkpointLimit)
  {
    ReadyStore(l, chain, db, rows, script);
    UtxosAreUnspent(l, script, chain);
    WorldDescribes(l, script, chain);
    hide *;
    var w := WorldOf(l, script);
    FundedLessSpent(w, l, script, chain, |chain|);
    StatsMean(w, l, script, chain, |chain|);
    AddUpNow(w, chain);
    ghost var own := RowsOf(rows, script);
    utxos, utxoRow := Checkpoints.RetryUtxo(w, chain, db.keys, script, scanLimit, checkpointLimit, limit, None, own);
    var statsRow;
    stats, statsRow := Checkpoints.Precache(w, chain, db.keys, script, scanLimit, None, own);
  }

  lemma {:induction false} AddUpNow(w: World, chain: seq<Header>)
    ensures AddsUpAt(w, chain, |chain|) ==> AddsUp(UtxosOf(w, chain, |chain|), StatsOf(w, chain, |chain|))
  {
  }

  /** The transaction is in the block at that height, and pays the script or spends an output paid to it. */
  ghost predicate TakesPart(l: Ledger, script: seq<Byte>, chain: seq<Header>, x: HistoryPages.Item) {
    x.height < |chain| && PartakesIn(l, script, chain, x.height, x.txid)
  }

  /** Following the pages of a script's history lists exactly its transactions on the chain, once each, newest first. */
  method WholeHistory(l: Ledger, chain: seq<Header>, db: Db, script: seq<Byte>, limit: nat, scanLimit: nat,
                      ghost rows: set<DbRow>)
    returns (items: seq<HistoryPages.Item>, refused: bool)
    requires Ready(l, chain, db, rows) && |script| == 32 && limit > 0
    ensures !refused ==> HistoryPages.Falling(items) && forall x :: x in items <==> TakesPart(l, script, chain, x)
    ensures refused ==> |RowsOf(rows, script)| > scanLimit
  {
    ReadyStore(l, chain, db, rows, script);
    ghost var own := RowsOf(rows, script);
    ghost var w := WorldOf(l, script);
    var all := HistoryIterScanReverse(db.keys, script, HistoryPages.MAX_HEIGHT, own);
    items, refused := HistoryPages.FollowPages(db.keys, script, db.confirmations, |chain|, limit, scanLimit, own, all);
    HistoryPages.ScanSize(script, own, HistoryPages.MAX_HEIGHT, all);
    HistoryPages.FullIs(script, own, all, |chain|);
    ItemsTakePart(l, script, chain, own);
  }

  lemma {:induction false} ItemsTakePart(l: Ledger, script: seq<Byte>, chain: seq<Header>, own: set<Row>)
    requires ValidChain(l, chain) && Published(WorldOf(l, script), chain, own)
    ensures forall x :: TakesPart(l, script, chain, x) <==>
                          exists r :: r in own && r.height < |chain| && HistoryPages.ItemOf(r) == x
  {
    var w := WorldOf(l, script);
    WorldDescribes(l, script, chain);
    hide ValidChain;
    hide Describes;
    hide PartakesIn;
    forall x ensures TakesPart(l, script, chain, x) <==>
                       exists r :: r in own && r.height < |chain| && HistoryPages.ItemOf(r) == x
    {
      if x.height < |chain| {
        IdsOfBlock(w, l, script, chain, x.height, x.txid);
        ItemRow(w, chain, own, x);
      }
    }
  }

  lemma {:induction false} ItemRow(w: World, chain: seq<Header>, own: set<Row>, x: HistoryPages.Item)
    requires Published(w, chain, own) && x.height < |chain|
    ensures x.txid in Txids(Infos(w, chain, x.height)) <==>
            exists r :: r in own && r.height < |chain| && HistoryPages.ItemOf(r) == x
  {
    var infos := Infos(w, chain, x.height);
    assert RowsMatch(own, x.height, infos);
    if x.txid in Txids(infos) {
      var i :| i in infos && i.txid == x.txid;
      assert Row(x.height, i) in own && HistoryPages.ItemOf(Row(x.height, i)) == x;
    }
    if r :| r in own && r.height < |chain| && HistoryPages.ItemOf(r) == x {
      assert Row(r.height, r.info) == r;
    }
  }

  /** From nothing: index the chain, then ask about a script. */
  method IndexAndAsk(l: Ledger, chain: seq<Header>, script: seq<Byte>, scanLimit: nat, checkpointLimit: nat, limit: nat)
    returns (utxos: Checkpoints.Answer<Utxos>, stats: Checkpoints.Answer<Stats>)
    requires GoodHash(l.hash) && Linked(l.hash, chain) && ValidChain(l, chain) && SizedChain(l, chain) && |script| == 32
    ensures utxos.Done? ==> Unspent(l, script, chain, utxos.value)
    ensures stats.Done? ==> StatsAre(l, script, chain, |chain|, stats.value)
    ensures utxos.Done? && stats.Done? ==> AddsUp(utxos.value, stats.value)
  {
    hide StatsAre;
    hide ValidChain;
    hide Linked;
    hide SizedChain;
    hide IndexedDb;
    hide Unspent;
    hide AddsUp;
    var db;
    ghost var rows;
    db, rows := IndexChain(l, chain);
    utxos, stats := UtxoAndStats(l, chain, db, script, scanLimit, checkpointLimit, limit, None, None, rows);
  }
}
