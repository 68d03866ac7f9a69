/**
 The history database of a chain: outputs are stored, then each block is indexed against them, and
 its rows go into one list of keys in byte order.
 */
module HistoryDb {
  import opened HeaderChain
  import opened HistoryKeys
  import opened HistoryScan
  import opened ChainIndex
  import opened UnspentOutputs
  import opened Wrappers

  // ----- Storing outputs ----------------------------------------------------------------------------------------

  predicate Offers(tx: Tx, o: OutPoint) { o.txid == tx.txid && o.vout < |tx.outputs| && tx.outputs[o.vout].spendable }

  /** The stored outputs are what they are for everyone. */
  ghost predicate TxosRight(l: Ledger, txos: map<OutPoint, TxOut>) {
    forall o :: o in txos ==> txos[o] == TxoOf(l, o)
  }

  ghost predicate OutputsRight(l: Ledger, tx: Tx) {
    forall v {:trigger tx.outputs[v]} :: 0 <= v < |tx.outputs| ==> tx.outputs[v] == TxoOf(l, OutPoint(tx.txid, v))
  }

  /** `add_transaction` stores the spendable outputs. */
  method AddTransaction(l: Ledger, tx: Tx, txos: map<OutPoint, TxOut>) returns (txos': map<OutPoint, TxOut>)
    requires TxosRight(l, txos) && OutputsRight(l, tx)
    ensures TxosRight(l, txos') && forall o :: o in txos' <==> o in txos || Offers(tx, o)
  {
    txos' := txos;
    for v := 0 to |tx.outputs|
      invariant TxosRight(l, txos')
      invariant forall o :: o in txos' <==> o in txos || (Offers(tx, o) && o.vout < v)
    {
      if tx.outputs[v].spendable { txos' := txos'[OutPoint(tx.txid, v) := tx.outputs[v]]; }
    }
  }

  ghost predicate BlockOffers(txs: seq<Tx>, n: nat, o: OutPoint) {
    exists t :: 0 <= t < n <= |txs| && Offers(txs[t], o)
  }

  method AddBlock(l: Ledger, txs: seq<Tx>, txos: map<OutPoint, TxOut>) returns (txos': map<OutPoint, TxOut>)
    requires TxosRight(l, txos) && forall t :: 0 <= t < |txs| ==> OutputsRight(l, txs[t])
    ensures TxosRight(l, txos') && forall o :: o in txos' <==> o in txos || BlockOffers(txs, |txs|, o)
  {
    txos' := txos;
    for t := 0 to |txs|
      invariant TxosRight(l, txos')
      invariant forall o :: o in txos' <==> o in txos || BlockOffers(txs, t, o)
    {
      txos' := AddTransaction(l, txs[t], txos');
    }
  }

  ghost predicate ChainOffers(l: Ledger, chain: seq<Header>, n: nat, o: OutPoint) {
    exists h {:trigger TxsAt(l, chain, h)} ::
      0 <= h < n <= |chain| && BlockOffers(TxsAt(l, chain, h), |TxsAt(l, chain, h)|, o)
  }

  lemma {:induction false} OffersNext(l: Ledger, chain: seq<Header>, h: nat, n: nat, o: OutPoint)
    requires n == h + 1 <= |chain|
    ensures ChainOffers(l, chain, n, o) <==>
              ChainOffers(l, chain, h, o) || BlockOffers(TxsAt(l, chain, h), |TxsAt(l, chain, h)|, o)
  {
  }

  lemma {:induction false} BlockOutputsRight(l: Ledger, chain: seq<Header>, h: nat)
    requires ValidChain(l, chain) && h < |chain|
    ensures forall t :: 0 <= t < |TxsAt(l, chain, h)| ==> OutputsRight(l, TxsAt(l, chain, h)[t])
  {
    forall t: nat, v | t < |TxsAt(l, chain, h)| && 0 <= v < |TxsAt(l, chain, h)[t].outputs|
      ensures TxsAt(l, chain, h)[t].outputs[v] == TxoOf(l, OutPoint(TxsAt(l, chain, h)[t].txid, v))
    {
      assert TxAt(l, chain, h, t) == TxsAt(l, chain, h)[t];
      assert MakesAt(l, chain, |chain|, h, t, OutPoint(TxAt(l, chain, h, t).txid, v));
    }
  }

  /** `add_blocks`: exactly the spendable outputs of the chain are stored. */
  method AddBlocks(l: Ledger, chain: seq<Header>) returns (txos: map<OutPoint, TxOut>)
    requires ValidChain(l, chain)
    ensures TxosRight(l, txos) && OutputsOf(l, chain, txos.Keys)
  {
    txos := map[];
    for h := 0 to |chain|
      invariant TxosRight(l, txos) && forall o :: o in txos <==> ChainOffers(l, chain, h, o)
    {
      BlockOutputsRight(l, chain, h);
      txos := AddBlock(l, TxsAt(l, chain, h), txos);
      forall o ensures ChainOffers(l, chain, h + 1, o) <==>
                         ChainOffers(l, chain, h, o) || BlockOffers(TxsAt(l, chain, h), |TxsAt(l, chain, h)|, o)
      {
        OffersNext(l, chain, h, h + 1, o);
      }
    }
    forall o ensures ChainOffers(l, chain, |chain|, o) <==> exists h, t :: MakesSpendable(l, chain, h, t, o) {
      OffersAre(l, chain, o);
    }
  }

  lemma {:induction false} OffersAre(l: Ledger, chain: seq<Header>, o: OutPoint)
    ensures ChainOffers(l, chain, |chain|, o) <==> exists h, t :: MakesSpendable(l, chain, h, t, o)
  {
    if ChainOffers(l, chain, |chain|, o) {
      var h: nat :| h < |chain| && BlockOffers(TxsAt(l, chain, h), |TxsAt(l, chain, h)|, o);
      var t: nat :| t < |TxsAt(l, chain, h)| && Offers(TxsAt(l, chain, h)[t], o);
      assert MakesSpendable(l, chain, h, t, o);
    }
    if h: nat, t: nat :| MakesSpendable(l, chain, h, t, o) {
      assert Offers(TxsAt(l, chain, h)[t], o);
      assert BlockOffers(TxsAt(l, chain, h), |TxsAt(l, chain, h)|, o);
    }
  }

  /** On a valid chain every output a block spends has been stored. */
  lemma {:induction false} BlockResolves(l: Ledger, chain: seq<Header>, h: nat, txos: map<OutPoint, TxOut>)
    requires ValidChain(l, chain) && h < |chain| && TxosRight(l, txos) && OutputsOf(l, chain, txos.Keys)
    ensures forall t :: 0 <= t < |TxsAt(l, chain, h)| ==> Resolved(l, TxsAt(l, chain, h)[t], txos)
  {
    forall t: nat, i: nat | t < |TxsAt(l, chain, h)| && i < |TxsAt(l, chain, h)[t].inputs|
                            && TxsAt(l, chain, h)[t].inputs[i].Spends?
      ensures TxsAt(l, chain, h)[t].inputs[i].prev in txos
    {
      var o := TxsAt(l, chain, h)[t].inputs[i].prev;
      assert SpendsAt(l, chain, |chain|, h, t, i, o);
      var h': nat, t': nat :| Earlier(h', t', h, t) && MakesAt(l, chain, |chain|, h', t', o)
                              && TxAt(l, chain, h', t').outputs[o.vout].spendable;
      assert MakesSpendable(l, chain, h', t', o);
    }
  }

  // ----- Keys in order ------------------------------------------------------------------------------------------

  const CONF: Byte := 67   // 'C'
  const DONE: Byte := 68   // 'D'
  const EDGE: Byte := 83   // 'S'

  function HashBytes(l: Ledger, hash: Hash): seq<Byte> { l.hashBytes(hash) }

  /** The key a row is stored under. */
  function KeyOf(l: Ledger, r: DbRow): seq<Byte> {
    match r
    case ConfRow(txid, _) => [CONF] + txid
    case DoneRow(hash, _) => [DONE] + HashBytes(l, hash)
    case HistoryRow(scripthash, row) => Encode(Key(HISTORY, scripthash, row))
    case EdgeRow(prev, _, _, _) => [EDGE] + (prev.txid + Reversed(BigEndian(prev.vout, 4)))
  }

  /** A key in its place; putting it again changes nothing. */
  function Put(keys: seq<seq<Byte>>, key: seq<Byte>): seq<seq<Byte>> {
    if keys == [] || Less(key, keys[0]) then [key] + keys
    else if keys[0] == key then keys
    else [keys[0]] + Put(keys[1..], key)
  }

  lemma {:induction false} PutHolds(keys: seq<seq<Byte>>, key: seq<Byte>)
    ensures forall k :: k in Put(keys, key) <==> k in keys || k == key
  {
    if keys != [] && !Less(key, keys[0]) && keys[0] != key {
      PutHolds(keys[1..], key);
      assert keys == [keys[0]] + keys[1..];
    }
  }

  lemma {:induction false} PutAscends(keys: seq<seq<Byte>>, key: seq<Byte>)
    requires Ascending(keys)
    ensures Ascending(Put(keys, key))
  {
    if keys == [] {
    } else if Less(key, keys[0]) {
      FirstBelow(key, keys);
    } else if keys[0] != key {
      var rest := Put(keys[1..], key);
      PutAscends(keys[1..], key);
      PutHolds(keys[1..], key);
      LessTotal(keys[0], key);
      forall j | 0 <= j < |rest| ensures Less(keys[0], rest[j]) {
        assert rest[j] in rest;
        if rest[j] != key { assert rest[j] in keys[1..]; }
      }
    }
  }

  lemma {:induction false} FirstBelow(key: seq<Byte>, keys: seq<seq<Byte>>)
    requires keys != [] && Less(key, keys[0]) && Ascending(keys)
    ensures Ascending([key] + keys)
  {
    forall j | 0 <= j < |keys| ensures Less(key, keys[j]) {
      if j > 0 { LessTransitive(key, keys[0], keys[j]); }
    }
  }

  /** The keys, and the value stored with each confirmation. */
  datatype Db = Db(keys: seq<seq<Byte>>, confirmations: map<Txid, nat>)

  /** The database holds exactly these rows. */
  ghost predicate Stored(l: Ledger, db: Db, rows: set<DbRow>) {
    && Ascending(db.keys)
    && (forall r :: r in rows ==> KeyOf(l, r) in db.keys)
    && (forall k :: k in db.keys ==> exists r :: r in rows && KeyOf(l, r) == k)
    && (forall t :: t in db.confirmations ==> ConfRow(t, db.confirmations[t]) in rows)
    && (forall t, h :: ConfRow(t, h) in rows ==> t in db.confirmations)
  }

  function PutRow(l: Ledger, db: Db, r: DbRow): Db {
    Db(Put(db.keys, KeyOf(l, r)),
       if r.ConfRow? then db.confirmations[r.txid := r.height] else db.confirmations)
  }

  lemma {:induction false} PutRowStores(l: Ledger, db: Db, r: DbRow, rows: set<DbRow>)
    requires Stored(l, db, rows)
    ensures Stored(l, PutRow(l, db, r), rows + {r})
  {
    var db', rows', key := PutRow(l, db, r), rows + {r}, KeyOf(l, r);
    hide KeyOf;
    hide Put;
    hide Ascending;
    PutHolds(db.keys, key);
    PutAscends(db.keys, key);
    forall k | k in db'.keys ensures exists x :: x in rows' && KeyOf(l, x) == k {
      if k == key {
        assert r in rows' && KeyOf(l, r) == k;
      } else {
        var x :| x in rows && KeyOf(l, x) == k;
        assert x in rows';
      }
    }
  }

  ghost function Rows(rows: seq<DbRow>, n: nat): set<DbRow>
    requires n <= |rows|
  {
    set i | 0 <= i < n :: rows[i]
  }

  lemma {:induction false} RowsNext(before: set<DbRow>, rows: seq<DbRow>, m: nat, n: nat)
    requires n == m + 1 <= |rows|
    ensures before + Rows(rows, m) + {rows[m]} == before + Rows(rows, n)
  {
    assert Rows(rows, n) == Rows(rows, m) + {rows[m]};
  }

  method WriteRows(l: Ledger, db: Db, rows: seq<DbRow>, ghost before: set<DbRow>) returns (db': Db)
    requires Stored(l, db, before)
    ensures Stored(l, db', before + Rows(rows, |rows|))
  {
    db' := db;
    assert before + Rows(rows, 0) == before;
    hide *;
    for i := 0 to |rows|
      invariant Stored(l, db', before + Rows(rows, i))
    {
      RowsNext(before, rows, i, i + 1);
      PutRowStores(l, db', rows[i], before + Rows(rows, i));
      db' := PutRow(l, db', rows[i]);
    }
  }

  // ----- Indexing a chain -----------------------------------------------------------------------------------------

  ghost predicate RowAt(l: Ledger, chain: seq<Header>, h: nat, r: DbRow)
    requires h < |chain|
  {
    BlockRow(l, TxsAt(l, chain, h), h, |TxsAt(l, chain, h)|, r) || r == DoneRow(l.hash(chain[h]), h)
  }

  ghost predicate ChainRow(l: Ledger, chain: seq<Header>, n: nat, r: DbRow) {
    n <= |chain| && exists h :: 0 <= h < n && RowAt(l, chain, h, r)
  }

  lemma {:induction false} ChainRowNext(l: Ledger, chain: seq<Header>, h: nat, n: nat, r: DbRow)
    requires n == h + 1 <= |chain|
    ensures ChainRow(l, chain, n, r) <==> ChainRow(l, chain, h, r) || RowAt(l, chain, h, r)
  {
  }

  /** The database is that of the chain: its rows are exactly those of the chain's blocks. */
  ghost predicate IndexedDb(l: Ledger, chain: seq<Header>, db: Db, rows: set<DbRow>) {
    Stored(l, db, rows) && forall r :: r in rows <==> ChainRow(l, chain, |chain|, r)
  }

  /** A key is there exactly if it is that of a row of the chain. */
  ghost predicate KeysOfChain(l: Ledger, chain: seq<Header>, keys: seq<seq<Byte>>) {
    forall k :: k in keys <==> exists r :: ChainRow(l, chain, |chain|, r) && KeyOf(l, r) == k
  }

  lemma {:induction false} IndexedKeys(l: Ledger, chain: seq<Header>, db: Db, rows: set<DbRow>)
    requires IndexedDb(l, chain, db, rows)
    ensures Ascending(db.keys) && KeysOfChain(l, chain, db.keys)
  {
    hide KeyOf;
    hide ChainRow;
    hide Ascending;
    forall k ensures k in db.keys <==> exists r :: ChainRow(l, chain, |chain|, r) && KeyOf(l, r) == k {
      if k in db.keys {
        var r :| r in rows && KeyOf(l, r) == k;
        assert ChainRow(l, chain, |chain|, r);
      }
      if r :| ChainRow(l, chain, |chain|, r) && KeyOf(l, r) == k { assert r in rows; }
    }
  }

  /** Indexing the blocks of a valid chain one after the other. */
  method IndexChain(l: Ledger, chain: seq<Header>) returns (db: Db, ghost rows: set<DbRow>)
    requires ValidChain(l, chain)
    ensures Ascending(db.keys) && KeysOfChain(l, chain, db.keys)
    ensures IndexedDb(l, chain, db, rows)
  {
    hide Stored;
    hide ValidChain;
    hide RowAt;
    hide TxosRight;
    hide OutputsOf;
    var txos := AddBlocks(l, chain);
    db, rows := Db([], map[]), {};
    NothingStored(l);
    for h := 0 to |chain|
      invariant Stored(l, db, rows) && forall r :: r in rows <==> ChainRow(l, chain, h, r)
    {
      var found := IndexNext(l, chain, h, txos);
      db := WriteRows(l, db, found, rows);
      rows := rows + Rows(found, |found|);
      forall r ensures r in rows <==> ChainRow(l, chain, h + 1, r) { ChainRowNext(l, chain, h, h + 1, r); }
    }
    IndexedKeys(l, chain, db, rows);
  }

  lemma {:induction false} NothingStored(l: Ledger)
    ensures Stored(l, Db([], map[]), {})
  {
  }

  method IndexNext(l: Ledger, chain: seq<Header>, h: nat, txos: map<OutPoint, TxOut>) returns (rows: seq<DbRow>)
    requires ValidChain(l, chain) && h < |chain| && TxosRight(l, txos) && OutputsOf(l, chain, txos.Keys)
    ensures forall r :: r in rows <==> RowAt(l, chain, h, r)
  {
    BlockResolves(l, chain, h, txos);
    hide ValidChain;
    rows := IndexBlock(l, l.hash(chain[h]), TxsAt(l, chain, h), h, txos);
  }

  // ----- What the scans rely on -------------------------------------------------------------------------------------

  lemma {:induction false} IndexedIsIndexOf(l: Ledger, chain: seq<Header>, db: Db, rows: set<DbRow>)
    requires IndexedDb(l, chain, db, rows)
    ensures IndexOf(l, chain, rows)
  {
    hide Stored;
    forall h, script, i | 0 <= h < |chain|
      ensures HistoryRow(script, Row(h, i)) in rows <==>
                BlockRow(l, TxsAt(l, chain, h), h, |TxsAt(l, chain, h)|, HistoryRow(script, Row(h, i)))
    {
      var r := HistoryRow(script, Row(h, i));
      if BlockRow(l, TxsAt(l, chain, h), h, |TxsAt(l, chain, h)|, r) { assert RowAt(l, chain, h, r); }
      if r in rows {
        var h': nat :| h' < |chain| && RowAt(l, chain, h', r);
        BlockRowsAreInfos(l, script, TxsAt(l, chain, h'), h', h, i);
      }
    }
  }

  /** The fields of a transaction fit their encodings. */
  ghost predicate SizedTx(l: Ledger, tx: Tx) {
    && |tx.txid| == 32
    && (forall v :: 0 <= v < |tx.outputs| ==> Fits(v, 4) && SizedOut(l, tx.outputs[v]))
    && (forall i :: 0 <= i < |tx.inputs| && tx.inputs[i].Spends? ==>
          Fits(i, 4) && |tx.inputs[i].prev.txid| == 32 && Fits(tx.inputs[i].prev.vout, 4)
          && SizedOut(l, TxoOf(l, tx.inputs[i].prev)))
  }

  ghost predicate SizedOut(l: Ledger, o: TxOut) { Fits(o.value, 8) && |HashOf(l, o)| == 32 }

  ghost predicate SizedChain(l: Ledger, chain: seq<Header>) {
    && |chain| < 0xFFFF_FFFF
    && forall h, t {:trigger TxsAt(l, chain, h)[t]} :: 0 <= h < |chain| && 0 <= t < |TxsAt(l, chain, h)| ==>
         SizedTx(l, TxsAt(l, chain, h)[t])
  }

  lemma {:induction false} SizedTxRow(l: Ledger, tx: Tx, height: nat, scripthash: seq<Byte>, row: Row)
    requires SizedTx(l, tx) && Fits(height, 4) && TxRow(l, tx, height, HistoryRow(scripthash, row))
    ensures |scripthash| == 32 && Sized(row) && row.height == height && row.info.txid == tx.txid
  {
    hide Fits;
    var r := HistoryRow(scripthash, row);
    if IsFunding(l, tx, height, |tx.outputs|, r) {
      var v :| 0 <= v < |tx.outputs| && Indexed(l, tx.outputs[v]) && r == FundingRow(l, tx, height, v);
    } else {
      var i :| 0 <= i < |tx.inputs| && tx.inputs[i].Spends? && r == SpendingRow(l, tx, height, i);
    }
  }

  /** A history row is of a transaction of the block at its height, and has its fields' sizes. */
  lemma {:induction false} HistoryRowIs(l: Ledger, chain: seq<Header>, db: Db, rows: set<DbRow>, scripthash: seq<Byte>,
                                        row: Row)
    returns (t: nat)
    requires IndexedDb(l, chain, db, rows) && SizedChain(l, chain) && HistoryRow(scripthash, row) in rows
    ensures |scripthash| == 32 && Sized(row) && row.height < |chain|
    ensures t < |TxsAt(l, chain, row.height)| && TxsAt(l, chain, row.height)[t].txid == row.info.txid
  {
    hide Stored;
    hide Sized;
    hide TxRow;
    hide SizedTx;
    var r := HistoryRow(scripthash, row);
    var h: nat :| h < |chain| && RowAt(l, chain, h, r);
    t :| 0 <= t < |TxsAt(l, chain, h)| && TxRow(l, TxsAt(l, chain, h)[t], h, r);
    FourBytes(h);
    SizedTxRow(l, TxsAt(l, chain, h)[t], h, scripthash, row);
  }

  /** Only the script's own history keys start like them. */
  lemma {:induction false} OtherKeys(l: Ledger, r: DbRow, script: seq<Byte>)
    requires |script| == 32 && (r.HistoryRow? ==> |r.scripthash| == 32) && OfScript(KeyOf(l, r), script)
    ensures r.HistoryRow? && r.scripthash == script
  {
    var key := KeyOf(l, r);
    assert key[0] == HISTORY;
    if r.HistoryRow? {
      assert key[1..33] == r.scripthash;
      assert Filter(HISTORY, script)[1..33] == script;
    }
  }

  /** The keys of an indexed chain hold, for every script, exactly its rows. */
  lemma {:induction false} IndexedHolds(l: Ledger, chain: seq<Header>, db: Db, rows: set<DbRow>, script: seq<Byte>)
    requires IndexedDb(l, chain, db, rows) && SizedChain(l, chain) && |script| == 32
    ensures Holds(db.keys, script, RowsOf(rows, script))
  {
    var own := RowsOf(rows, script);
    forall r | r in own ensures Sized(r) && Encode(Key(HISTORY, script, r)) in db.keys {
      var d :| d in rows && d.HistoryRow? && d.scripthash == script && d.row == r;
      var t := HistoryRowIs(l, chain, db, rows, script, r);
      assert KeyOf(l, d) in db.keys;
    }
    forall i | 0 <= i < |db.keys| && OfScript(db.keys[i], script)
      ensures exists r :: r in own && db.keys[i] == Encode(Key(HISTORY, script, r))
    {
      assert db.keys[i] in db.keys;
      var d :| d in rows && KeyOf(l, d) == db.keys[i];
      if d.HistoryRow? { var t := HistoryRowIs(l, chain, db, rows, d.scripthash, d.row); }
      OtherKeys(l, d, script);
      assert d.row in own;
    }
  }
}
