/**
 The fee kept for a mempool transaction agrees with the history kept beside it: it is what the
 transaction's spending entries are worth, less the value of its outputs.
 */
module MempoolFees {
  import opened HistoryKeys
  import opened HistoryScan
  import opened ChainIndex
  import opened ScriptStats
  import opened Mempool

  function SpendEntry(l: Ledger, tx: Tx, n: nat): Info
    requires n < |tx.inputs| && tx.inputs[n].Spends?
  {
    Spending(tx.txid, n, tx.inputs[n].prev, TxoOf(l, tx.inputs[n].prev).value)
  }

  ghost function SpendEntries(l: Ledger, tx: Tx, n: nat): set<Info>
    requires n <= |tx.inputs|
  {
    set i | 0 <= i < n && tx.inputs[i].Spends? :: SpendEntry(l, tx, i)
  }

  lemma {:induction false} BroughtByEntries(l: Ledger, tx: Tx, n: nat)
    requires n <= |tx.inputs|
    ensures Worth(SpendEntries(l, tx, n)) == Brought(l, tx, n)
  {
    if n == 0 {
      assert SpendEntries(l, tx, 0) == {};
    } else {
      BroughtByEntries(l, tx, n - 1);
      var before := SpendEntries(l, tx, n - 1);
      if tx.inputs[n - 1].Spends? {
        assert SpendEntries(l, tx, n) == before + {SpendEntry(l, tx, n - 1)};
        WorthAdd(before, SpendEntry(l, tx, n - 1));
      } else {
        assert SpendEntries(l, tx, n) == before;
      }
    }
  }

  /** The first `n` outputs of a transaction. */
  function Makes(tx: Tx, n: nat): set<OutPoint> { set v | 0 <= v < n :: OutPoint(tx.txid, v) }

  lemma {:induction false} TakenByOutputs(l: Ledger, tx: Tx, n: nat)
    requires Genuine(l, tx) && n <= |tx.outputs|
    ensures ValueOf(l, Makes(tx, n)) == Taken(tx, n)
  {
    if n == 0 {
      assert Makes(tx, 0) == {};
    } else {
      TakenByOutputs(l, tx, n - 1);
      var o := OutPoint(tx.txid, n - 1);
      assert Makes(tx, n) - {o} == Makes(tx, n - 1);
      ValueTake(l, Makes(tx, n), o);
    }
  }

  /** Exactly the spending entries of the transaction in the pool's history, whatever the script. */
  ghost predicate SpendsListed(p: Pool, t: Txid, entries: set<Info>) {
    forall i :: i in entries <==> i.Spending? && i.txid == t && exists s :: Has(p.history, s, i)
  }

  lemma {:induction false} ListedEntries(l: Ledger, p: Pool, t: Txid)
    requires PoolOk(l, p) && t in p.txstore
    ensures SpendsListed(p, t, SpendEntries(l, p.txstore[t], |p.txstore[t].inputs|))
  {
    var tx := p.txstore[t];
    var entries := SpendEntries(l, tx, |tx.inputs|);
    forall i ensures i in entries <==> i.Spending? && i.txid == t && exists s :: Has(p.history, s, i) {
      if i in entries {
        assert Live(l, p.txstore, HashOf(l, TxoOf(l, i.prev)), i);
        assert Has(p.history, HashOf(l, TxoOf(l, i.prev)), i);
      }
      if i.Spending? && i.txid == t {
        if s :| Has(p.history, s, i) {
          assert Live(l, p.txstore, s, i);
          assert i == SpendEntry(l, tx, i.vin);
        }
      }
    }
  }

  /** Main result: the fee is what the listed spends bring less what the outputs take. */
  lemma {:induction false} FeeFromHistory(l: Ledger, p: Pool, t: Txid, entries: set<Info>)
    requires PoolOk(l, p) && t in p.txstore && SpendsListed(p, t, entries)
    ensures p.feeinfo[t] == Worth(entries) - ValueOf(l, Makes(p.txstore[t], |p.txstore[t].outputs|))
  {
    var tx := p.txstore[t];
    var all := SpendEntries(l, tx, |tx.inputs|);
    ListedEntries(l, p, t);
    assert entries == all by {
      hide SpendEntries;
      forall i ensures i in entries <==> i in all {}
    }
    BroughtByEntries(l, tx, |tx.inputs|);
    TakenByOutputs(l, tx, |tx.outputs|);
  }
}
