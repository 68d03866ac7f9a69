/**
 From transactions to history rows.

 Transaction ids and script hashes are taken as given; outputs are found by outpoint, which names
 the transaction that made them, so `txo` is one function for every block.
 */
module ChainIndex {
  import opened HeaderChain
  import opened HistoryKeys
  import opened HistoryScan
  import opened Wrappers

  datatype TxOut = TxOut(script: seq<Byte>, value: nat, spendable: bool)

  datatype TxIn = Coinbase | Spends(prev: OutPoint)

  datatype Tx = Tx(txid: Txid, inputs: seq<TxIn>, outputs: seq<TxOut>)

  datatype Ledger = Ledger(
    hash: Header -> Hash,
    hashBytes: Hash -> seq<Byte>,
    block: Header -> seq<Tx>,
    txo: OutPoint -> TxOut,
    scripthash: seq<Byte> -> seq<Byte>,
    indexUnspendables: bool)

  /**
   Rows written for a transaction: its confirmation, its history, and the outputs it spends; and
   one for the block.
   */
  datatype DbRow =
    | ConfRow(txid: Txid, height: nat)
    | DoneRow(hash: Hash, height: nat)
    | HistoryRow(scripthash: seq<Byte>, row: Row)
    | EdgeRow(prev: OutPoint, txid: Txid, vin: nat, height: nat)

  // ----- Rows of a transaction ----------------------------------------------------------------------

  predicate Indexed(l: Ledger, o: TxOut) { o.spendable || l.indexUnspendables }

  function HashOf(l: Ledger, o: TxOut): seq<Byte> { l.scripthash(o.script) }

  function TxoOf(l: Ledger, p: OutPoint): TxOut { l.txo(p) }

  function FundingRow(l: Ledger, tx: Tx, height: nat, v: nat): DbRow
    requires v < |tx.outputs|
  {
    HistoryRow(HashOf(l, tx.outputs[v]), Row(height, Funding(tx.txid, v, tx.outputs[v].value)))
  }

  function SpendingRow(l: Ledger, tx: Tx, height: nat, i: nat): DbRow
    requires i < |tx.inputs| && tx.inputs[i].Spends?
  {
    var prev := tx.inputs[i].prev;
    HistoryRow(HashOf(l, TxoOf(l, prev)), Row(height, Spending(tx.txid, i, prev, TxoOf(l, prev).value)))
  }

  ghost predicate IsFunding(l: Ledger, tx: Tx, height: nat, n: nat, r: DbRow) {
    exists v :: 0 <= v < n <= |tx.outputs| && Indexed(l, tx.outputs[v]) && r == FundingRow(l, tx, height, v)
  }

  ghost predicate IsSpending(l: Ledger, tx: Tx, height: nat, n: nat, r: DbRow) {
    exists i :: 0 <= i < n <= |tx.inputs| && tx.inputs[i].Spends?
                && (r == SpendingRow(l, tx, height, i) || r == EdgeRow(tx.inputs[i].prev, tx.txid, i, height))
  }

  /** The rows `index_transaction` must add. */
  ghost predicate TxRow(l: Ledger, tx: Tx, height: nat, r: DbRow) {
    || r == ConfRow(tx.txid, height)
    || IsFunding(l, tx, height, |tx.outputs|, r)
    || IsSpending(l, tx, height, |tx.inputs|, r)
  }

  /** The previous outputs handed to the indexer are the right ones, and none is missing. */
  ghost predicate Resolved(l: Ledger, tx: Tx, previousTxos: map<OutPoint, TxOut>) {
    forall i :: 0 <= i < |tx.inputs| && tx.inputs[i].Spends? ==>
      tx.inputs[i].prev in previousTxos && previousTxos[tx.inputs[i].prev] == TxoOf(l, tx.inputs[i].prev)
  }

  method IndexOutputs(l: Ledger, tx: Tx, height: nat, rows: seq<DbRow>) returns (rows': seq<DbRow>)
    ensures forall r :: r in rows' <==> r in rows || IsFunding(l, tx, height, |tx.outputs|, r)
  {
    rows' := rows;
    for v := 0 to |tx.outputs|
      invariant forall r :: r in rows' <==> r in rows || IsFunding(l, tx, height, v, r)
    {
      var txo := tx.outputs[v];
      FundingNext(l, tx, height, v);
      if Indexed(l, txo) {
        rows' := rows' + [FundingRow(l, tx, height, v)];
      }
    }
  }

  lemma {:induction false} FundingNext(l: Ledger, tx: Tx, height: nat, v: nat)
    requires v < |tx.outputs|
    ensures forall r :: IsFunding(l, tx, height, v + 1, r) <==>
              IsFunding(l, tx, height, v, r) || (Indexed(l, tx.outputs[v]) && r == FundingRow(l, tx, height, v))
  {
    forall r | IsFunding(l, tx, height, v, r) ensures IsFunding(l, tx, height, v + 1, r) {
      var k :| 0 <= k < v && Indexed(l, tx.outputs[k]) && r == FundingRow(l, tx, height, k);
    }
    if Indexed(l, tx.outputs[v]) { assert IsFunding(l, tx, height, v + 1, FundingRow(l, tx, height, v)); }
  }

  method IndexInputs(l: Ledger, tx: Tx, height: nat, previousTxos: map<OutPoint, TxOut>, rows: seq<DbRow>)
    returns (rows': seq<DbRow>)
    requires Resolved(l, tx, previousTxos)
    ensures forall r :: r in rows' <==> r in rows || IsSpending(l, tx, height, |tx.inputs|, r)
  {
    rows' := rows;
    for i := 0 to |tx.inputs|
      invariant forall r :: r in rows' <==> r in rows || IsSpending(l, tx, height, i, r)
    {
      SpendingNext(l, tx, height, i);
      if tx.inputs[i].Coinbase? { continue; }
      var prev := tx.inputs[i].prev;
      var prevTxo := previousTxos[prev];
      var history := HistoryRow(HashOf(l, prevTxo), Row(height, Spending(tx.txid, i, prev, prevTxo.value)));
      assert history == SpendingRow(l, tx, height, i);
      rows' := rows' + [history];
      rows' := rows' + [EdgeRow(prev, tx.txid, i, height)];
    }
  }

  lemma {:induction false} SpendingNext(l: Ledger, tx: Tx, height: nat, i: nat)
    requires i < |tx.inputs|
    ensures forall r :: IsSpending(l, tx, height, i + 1, r) <==>
              IsSpending(l, tx, height, i, r)
              || (tx.inputs[i].Spends?
                  && (r == SpendingRow(l, tx, height, i) || r == EdgeRow(tx.inputs[i].prev, tx.txid, i, height)))
  {
    forall r | IsSpending(l, tx, height, i, r) ensures IsSpending(l, tx, height, i + 1, r) {
      var k :| 0 <= k < i && tx.inputs[k].Spends?
               && (r == SpendingRow(l, tx, height, k) || r == EdgeRow(tx.inputs[k].prev, tx.txid, k, height));
    }
    if tx.inputs[i].Spends? {
      assert IsSpending(l, tx, height, i + 1, SpendingRow(l, tx, height, i));
      assert IsSpending(l, tx, height, i + 1, EdgeRow(tx.inputs[i].prev, tx.txid, i, height));
    }
  }

  /** `index_transaction` adds exactly its rows. */
  method IndexTransaction(l: Ledger, tx: Tx, height: nat, previousTxos: map<OutPoint, TxOut>, rows: seq<DbRow>)
    returns (rows': seq<DbRow>)
    requires Resolved(l, tx, previousTxos)
    ensures forall r :: r in rows' <==> r in rows || TxRow(l, tx, height, r)
  {
    rows' := rows + [ConfRow(tx.txid, height)];
    rows' := IndexOutputs(l, tx, height, rows');
    rows' := IndexInputs(l, tx, height, previousTxos, rows');
  }

  /** A block's rows are those of its first `n` transactions. */
  ghost predicate BlockRow(l: Ledger, txs: seq<Tx>, height: nat, n: nat, r: DbRow) {
    exists t :: 0 <= t < n <= |txs| && TxRow(l, txs[t], height, r)
  }

  /** A block's transactions in order, then the marker that it is done. */
  method IndexBlock(l: Ledger, hash: Hash, txs: seq<Tx>, height: nat, previousTxos: map<OutPoint, TxOut>)
    returns (rows: seq<DbRow>)
    requires forall t :: 0 <= t < |txs| ==> Resolved(l, txs[t], previousTxos)
    ensures forall r :: r in rows <==> BlockRow(l, txs, height, |txs|, r) || r == DoneRow(hash, height)
  {
    rows := [];
    for t := 0 to |txs|
      invariant forall r :: r in rows <==> BlockRow(l, txs, height, t, r)
    {
      rows := IndexTransaction(l, txs[t], height, previousTxos, rows);
    }
    rows := rows + [DoneRow(hash, height)];
  }

  // ----- History of one script ------------------------------------------------------------------------

  /** Transaction `t` funds output `v` of the script. */
  predicate Funds(l: Ledger, script: seq<Byte>, txs: seq<Tx>, t: nat, v: nat) {
    t < |txs| && v < |txs[t].outputs| && Indexed(l, txs[t].outputs[v]) && HashOf(l, txs[t].outputs[v]) == script
  }

  /** Input `i` of transaction `t` spends an output of the script. */
  predicate Takes(l: Ledger, script: seq<Byte>, txs: seq<Tx>, t: nat, i: nat) {
    t < |txs| && i < |txs[t].inputs| && txs[t].inputs[i].Spends?
    && HashOf(l, TxoOf(l, txs[t].inputs[i].prev)) == script
  }

  function FundInfo(txs: seq<Tx>, t: nat, v: nat): Info
    requires t < |txs| && v < |txs[t].outputs|
  {
    Funding(txs[t].txid, v, txs[t].outputs[v].value)
  }

  function SpendInfo(l: Ledger, txs: seq<Tx>, t: nat, i: nat): Info
    requires t < |txs| && i < |txs[t].inputs| && txs[t].inputs[i].Spends?
  {
    Spending(txs[t].txid, i, txs[t].inputs[i].prev, TxoOf(l, txs[t].inputs[i].prev).value)
  }

  function BlockInfos(l: Ledger, script: seq<Byte>, txs: seq<Tx>): set<Info> {
    (set t, v | 0 <= t < |txs| && 0 <= v < |txs[t].outputs| && Funds(l, script, txs, t, v) :: FundInfo(txs, t, v))
    + (set t, i | 0 <= t < |txs| && 0 <= i < |txs[t].inputs| && Takes(l, script, txs, t, i) :: SpendInfo(l, txs, t, i))
  }

  function WorldOf(l: Ledger, script: seq<Byte>): World {
    World(l.hash, (h: Header) => BlockInfos(l, script, l.block(h)))
  }

  /** The history rows of a script among database rows. */
  function RowsOf(db: set<DbRow>, script: seq<Byte>): set<Row> {
    set d | d in db && d.HistoryRow? && d.scripthash == script :: d.row
  }

  /** A block's rows, as the database sees them, are the script's history of that block. */
  lemma {:induction false} BlockRowsAreInfos(l: Ledger, script: seq<Byte>, txs: seq<Tx>, height: nat, h: nat, i: Info)
    ensures BlockRow(l, txs, height, |txs|, HistoryRow(script, Row(h, i))) <==>
              h == height && i in BlockInfos(l, script, txs)
  {
    var d := HistoryRow(script, Row(h, i));
    if BlockRow(l, txs, height, |txs|, d) {
      var t :| 0 <= t < |txs| && TxRow(l, txs[t], height, d);
      if IsFunding(l, txs[t], height, |txs[t].outputs|, d) {
        var v :| 0 <= v < |txs[t].outputs| && Indexed(l, txs[t].outputs[v]) && d == FundingRow(l, txs[t], height, v);
        assert Funds(l, script, txs, t, v) && i == FundInfo(txs, t, v);
      } else {
        var k :| 0 <= k < |txs[t].inputs| && txs[t].inputs[k].Spends? && d == SpendingRow(l, txs[t], height, k);
        assert Takes(l, script, txs, t, k) && i == SpendInfo(l, txs, t, k);
      }
    }
    if h == height && i in BlockInfos(l, script, txs) {
      if t, v :| 0 <= t < |txs| && 0 <= v < |txs[t].outputs| && Funds(l, script, txs, t, v)
                 && i == FundInfo(txs, t, v)
      {
        assert d == FundingRow(l, txs[t], height, v) && TxRow(l, txs[t], height, d);
      } else {
        var t, k :| 0 <= t < |txs| && 0 <= k < |txs[t].inputs| && Takes(l, script, txs, t, k)
                    && i == SpendInfo(l, txs, t, k);
        assert d == SpendingRow(l, txs[t], height, k) && TxRow(l, txs[t], height, d);
      }
    }
  }

  function TxsAt(l: Ledger, chain: seq<Header>, h: nat): seq<Tx>
    requires h < |chain|
  {
    l.block(chain[h])
  }

  /** The database's history at the chain's heights is the rows of the chain's blocks. */
  ghost predicate IndexOf(l: Ledger, chain: seq<Header>, db: set<DbRow>) {
    forall h {:trigger TxsAt(l, chain, h)} :: 0 <= h < |chain| ==> IndexedAt(l, TxsAt(l, chain, h), h, db)
  }

  ghost predicate IndexedAt(l: Ledger, txs: seq<Tx>, h: nat, db: set<DbRow>) {
    forall script, i {:trigger HistoryRow(script, Row(h, i))} ::
      HistoryRow(script, Row(h, i)) in db <==> BlockRow(l, txs, h, |txs|, HistoryRow(script, Row(h, i)))
  }

  /** What is indexed is what the scans expect to find. */
  lemma {:induction false} IndexIsPublished(l: Ledger, script: seq<Byte>, chain: seq<Header>, db: set<DbRow>)
    requires IndexOf(l, chain, db)
    requires forall h {:trigger TxsAt(l, chain, h)} :: 0 <= h < |chain| ==>
               Clean(BlockInfos(l, script, TxsAt(l, chain, h)))
    ensures Published(WorldOf(l, script), chain, RowsOf(db, script))
  {
    var w, rows := WorldOf(l, script), RowsOf(db, script);
    forall h | 0 <= h < |chain| ensures Clean(Infos(w, chain, h)) && RowsMatch(rows, h, Infos(w, chain, h)) {
      var txs := TxsAt(l, chain, h);
      assert Infos(w, chain, h) == BlockInfos(l, script, txs);
      forall i ensures Row(h, i) in rows <==> i in BlockInfos(l, script, txs) {
        BlockRowsAreInfos(l, script, txs, h, h, i);
        assert Row(h, i) in rows <==> HistoryRow(script, Row(h, i)) in db;
      }
    }
  }
}
