/**
 What a script's statistics count on a valid chain: the transactions that pay the script or spend
 from it, the outputs paid to it, those of them that are spent, and the values of both.
 */
module ScriptStats {
  import opened HeaderChain
  import opened HistoryKeys
  import opened HistoryScan
  import opened ChainIndex
  import opened UnspentOutputs
  import opened Wrappers

  // ----- Adding up values -----------------------------------------------------------------------------------

  /** The sum of the outputs' values. */
  ghost function ValueOf(l: Ledger, outs: set<OutPoint>): nat {
    if outs == {} then 0 else
    var o :| o in outs;
    TxoOf(l, o).value + ValueOf(l, outs - {o})
  }

  lemma {:induction false} ValueTake(l: Ledger, outs: set<OutPoint>, o: OutPoint)
    requires o in outs
    ensures ValueOf(l, outs) == TxoOf(l, o).value + ValueOf(l, outs - {o})
    decreases |outs|
  {
    var p :| p in outs && ValueOf(l, outs) == TxoOf(l, p).value + ValueOf(l, outs - {p});
    if p != o {
      ValueTake(l, outs - {p}, o);
      ValueTake(l, outs - {o}, p);
      assert outs - {p} - {o} == outs - {o} - {p};
    }
  }

  lemma {:induction false} ValueJoin(l: Ledger, a: set<OutPoint>, b: set<OutPoint>)
    requires a !! b
    ensures ValueOf(l, a + b) == ValueOf(l, a) + ValueOf(l, b)
    decreases |b|
  {
    if b == {} {
      assert a + b == a;
    } else {
      var o :| o in b;
      ValueTake(l, b, o);
      ValueTake(l, a + b, o);
      assert a + b - {o} == a + (b - {o});
      ValueJoin(l, a, b - {o});
    }
  }

  lemma {:induction false} SizeJoin<T>(a: set<T>, b: set<T>)
    requires a !! b
    ensures |a + b| == |a| + |b|
  {
  }

  function Outs(infos: set<Info>): set<OutPoint> { set x | x in infos :: x.Out() }

  /** Each row is about its own output, and states its value. */
  ghost predicate OneRowEach(l: Ledger, infos: set<Info>) {
    && (forall x, y :: x in infos && y in infos && x.Out() == y.Out() ==> x == y)
    && (forall x :: x in infos ==> x.value == TxoOf(l, x.Out()).value)
  }

  lemma {:induction false} OutsTake(l: Ledger, infos: set<Info>, x: Info)
    requires OneRowEach(l, infos) && x in infos
    ensures x.Out() in Outs(infos) && Outs(infos) - {x.Out()} == Outs(infos - {x})
    ensures |Outs(infos)| == |Outs(infos - {x})| + 1
  {
    assert Outs(infos) == Outs(infos - {x}) + {x.Out()};
    assert x.Out() !in Outs(infos - {x});
  }

  lemma {:induction false} RowsAreOuts(l: Ledger, infos: set<Info>)
    requires OneRowEach(l, infos)
    ensures |Outs(infos)| == |infos| && ValueOf(l, Outs(infos)) == Worth(infos)
    decreases |infos|
  {
    if infos == {} {
      assert Outs(infos) == {};
    } else {
      var x :| x in infos;
      var rest := infos - {x};
      RowsAreOuts(l, rest);
      WorthTake(infos, x);
      OutsTake(l, infos, x);
      ValueTake(l, Outs(infos), x.Out());
    }
  }

  lemma {:induction false} RowsJoin(l: Ledger, outs: set<OutPoint>, infos: set<Info>)
    requires OneRowEach(l, infos) && outs !! Outs(infos)
    ensures |outs + Outs(infos)| == |outs| + |infos|
    ensures ValueOf(l, outs + Outs(infos)) == ValueOf(l, outs) + Worth(infos)
  {
    hide *;
    RowsAreOuts(l, infos);
    ValueJoin(l, outs, Outs(infos));
    SizeJoin(outs, Outs(infos));
  }

  // ----- One block --------------------------------------------------------------------------------------------

  lemma {:induction false} FundingRows(w: World, l: Ledger, script: seq<Byte>, chain: seq<Header>, h: nat)
    requires Describes(w, l, script, chain) && h < |chain|
    ensures OneRowEach(l, Fundings(Infos(w, chain, h)))
    ensures Outs(Fundings(Infos(w, chain, h))) == Funded(Infos(w, chain, h))
  {
    var infos := Infos(w, chain, h);
    BlockClean(w, l, script, chain, h);
    forall x | x in Fundings(infos) ensures x.value == TxoOf(l, x.Out()).value {
      var t := FundingMade(w, l, script, chain, h, x);
    }
  }

  lemma {:induction false} SpendingRows(w: World, l: Ledger, script: seq<Byte>, chain: seq<Header>, h: nat)
    requires Describes(w, l, script, chain) && h < |chain|
    ensures OneRowEach(l, Spendings(Infos(w, chain, h)))
    ensures Outs(Spendings(Infos(w, chain, h))) == Spent(Infos(w, chain, h))
  {
    var infos := Infos(w, chain, h);
    forall x, y | x in Spendings(infos) && y in Spendings(infos) && x.Out() == y.Out() ensures x == y {
      var t, i := SpendingMade(w, l, script, chain, h, x);
      var t', i' := SpendingMade(w, l, script, chain, h, y);
    }
    forall x | x in Spendings(infos) ensures x.value == TxoOf(l, x.Out()).value {
      var t, i := SpendingMade(w, l, script, chain, h, x);
    }
  }

  // ----- Outputs paid and spent -------------------------------------------------------------------------------

  /** Exactly these outputs were paid to the script in the first `n` blocks. */
  ghost predicate AllPaid(l: Ledger, script: seq<Byte>, chain: seq<Header>, n: nat, outs: set<OutPoint>) {
    forall o :: o in outs <==> Paid(l, script, chain, n, o)
  }

  /** Exactly these outputs were paid to the script and spent in the first `n` blocks. */
  ghost predicate AllSpent(l: Ledger, script: seq<Byte>, chain: seq<Header>, n: nat, outs: set<OutPoint>) {
    forall o :: o in outs <==> Paid(l, script, chain, n, o) && SpentIn(l, chain, n, o)
  }

  lemma {:induction false} PaidNext(w: World, l: Ledger, script: seq<Byte>, chain: seq<Header>, m: nat, n: nat,
                                    outs: set<OutPoint>)
    requires Describes(w, l, script, chain) && n == m + 1 <= |chain| && AllPaid(l, script, chain, m, outs)
    ensures AllPaid(l, script, chain, n, outs + Funded(Infos(w, chain, m))) && outs !! Funded(Infos(w, chain, m))
  {
    forall o
      ensures Paid(l, script, chain, n, o) <==> o in outs || o in Funded(Infos(w, chain, m))
      ensures !(o in outs && o in Funded(Infos(w, chain, m)))
    {
      PaidStep(l, script, chain, m, o);
      FundedIff(w, l, script, chain, m, o);
      if o in outs && o in Funded(Infos(w, chain, m)) { PaidTwice(l, script, chain, m, o); }
    }
  }

  lemma {:induction false} PaidTwice(l: Ledger, script: seq<Byte>, chain: seq<Header>, m: nat, o: OutPoint)
    requires ValidChain(l, chain) && m < |chain| && Paid(l, script, chain, m, o)
    ensures !PaidBy(l, script, chain, m, o)
  {
    var h: nat, t: nat :| PaysAt(l, script, chain, m, h, t, o);
    assert MakesAt(l, chain, |chain|, h, t, o);
    forall t' ensures !PaysAt(l, script, chain, |chain|, m, t', o) { MadeOnce(l, chain, h, t, m, t', o); }
  }

  /** What is spent from the script was paid to it before. */
  lemma {:induction false} SpentWasPaid(l: Ledger, script: seq<Byte>, chain: seq<Header>, m: nat, n: nat, o: OutPoint)
    requires ValidChain(l, chain) && n == m + 1 <= |chain|
    requires HashOf(l, TxoOf(l, o)) == script && SpentBy(l, chain, m, o)
    ensures Paid(l, script, chain, n, o)
  {
    var t: nat, i: nat :| SpendsAt(l, chain, |chain|, m, t, i, o);
    var h': nat, t': nat :| Earlier(h', t', m, t) && MakesAt(l, chain, |chain|, h', t', o)
                            && TxAt(l, chain, h', t').outputs[o.vout].spendable;
    assert PaysAt(l, script, chain, n, h', t', o);
  }

  lemma {:induction false} SpentTwice(l: Ledger, chain: seq<Header>, m: nat, o: OutPoint)
    requires ValidChain(l, chain) && m < |chain| && SpentIn(l, chain, m, o)
    ensures !SpentBy(l, chain, m, o)
  {
    var h: nat, t: nat, i: nat :| SpendsAt(l, chain, m, h, t, i, o);
    assert SpendsAt(l, chain, |chain|, h, t, i, o);
  }

  lemma {:induction false} SpentNext(w: World, l: Ledger, script: seq<Byte>, chain: seq<Header>, m: nat, n: nat,
                                     outs: set<OutPoint>)
    requires Describes(w, l, script, chain) && n == m + 1 <= |chain| && AllSpent(l, script, chain, m, outs)
    ensures AllSpent(l, script, chain, n, outs + Spent(Infos(w, chain, m))) && outs !! Spent(Infos(w, chain, m))
  {
    forall o
      ensures Paid(l, script, chain, n, o) && SpentIn(l, chain, n, o) <==> o in outs || o in Spent(Infos(w, chain, m))
      ensures !(o in outs && o in Spent(Infos(w, chain, m)))
    {
      SpentOne(w, l, script, chain, m, n, o);
    }
  }

  lemma {:induction false} SpentOne(w: World, l: Ledger, script: seq<Byte>, chain: seq<Header>, m: nat, n: nat,
                                    o: OutPoint)
    requires Describes(w, l, script, chain) && n == m + 1 <= |chain|
    ensures var before := Paid(l, script, chain, m, o) && SpentIn(l, chain, m, o);
            && (Paid(l, script, chain, n, o) && SpentIn(l, chain, n, o) <==> before || o in Spent(Infos(w, chain, m)))
            && !(before && o in Spent(Infos(w, chain, m)))
  {
    PaidStep(l, script, chain, m, o);
    SpentStep(l, chain, m, o);
    SpentIff(w, l, script, chain, m, o);
    if Paid(l, script, chain, n, o) { PaidScript(l, script, chain, n, o); }
    if o in Spent(Infos(w, chain, m)) { SpentWasPaid(l, script, chain, m, n, o); }
    if SpentIn(l, chain, m, o) {
      SpentTwice(l, chain, m, o);
      if t: nat :| PaysAt(l, script, chain, |chain|, m, t, o) { NotSpentBefore(l, chain, m, t, o); }
    }
  }

  // ----- Transactions taking part --------------------------------------------------------------------------------

  /** Transaction `t` of block `h` pays the script, or spends an output paid to it. */
  ghost predicate PartakesAt(l: Ledger, script: seq<Byte>, chain: seq<Header>, n: nat, h: nat, t: nat) {
    || (exists o :: PaysAt(l, script, chain, n, h, t, o))
    || (exists i, o :: SpendsAt(l, chain, n, h, t, i, o) && Paid(l, script, chain, n, o))
  }

  ghost predicate HasId(l: Ledger, chain: seq<Header>, n: nat, h: nat, t: nat, id: Txid) {
    InChain(l, chain, n, h, t) && TxAt(l, chain, h, t).txid == id
  }

  ghost predicate Partakes(l: Ledger, script: seq<Byte>, chain: seq<Header>, n: nat, id: Txid) {
    exists h, t :: HasId(l, chain, n, h, t, id) && PartakesAt(l, script, chain, n, h, t)
  }

  ghost predicate AllPartake(l: Ledger, script: seq<Byte>, chain: seq<Header>, n: nat, ids: set<Txid>) {
    forall id :: id in ids <==> Partakes(l, script, chain, n, id)
  }

  /** A transaction of the block has this id and takes part. */
  ghost predicate PartakesIn(l: Ledger, script: seq<Byte>, chain: seq<Header>, h: nat, id: Txid) {
    exists t :: HasId(l, chain, |chain|, h, t, id) && PartakesAt(l, script, chain, |chain|, h, t)
  }

  lemma {:induction false} RowPartakes(w: World, l: Ledger, script: seq<Byte>, chain: seq<Header>, h: nat, x: Info)
    requires Describes(w, l, script, chain) && h < |chain| && x in Infos(w, chain, h)
    ensures PartakesIn(l, script, chain, h, x.txid)
  {
    if x.Funding? {
      var t := FundingMade(w, l, script, chain, h, x);
      assert PaysAt(l, script, chain, |chain|, h, t, x.Out());
      assert HasId(l, chain, |chain|, h, t, x.txid);
    } else {
      var t, i := SpendingMade(w, l, script, chain, h, x);
      var o := x.Out();
      assert SpentBy(l, chain, h, o);
      SpentWasPaid(l, script, chain, h, h + 1, o);
      PaidLonger(l, script, chain, h + 1, |chain|, o);
      assert SpendsAt(l, chain, |chain|, h, t, i, o) && Paid(l, script, chain, |chain|, o);
      assert HasId(l, chain, |chain|, h, t, x.txid);
    }
  }

  lemma {:induction false} PaidLonger(l: Ledger, script: seq<Byte>, chain: seq<Header>, m: nat, n: nat, o: OutPoint)
    requires Paid(l, script, chain, m, o) && m <= n <= |chain|
    ensures Paid(l, script, chain, n, o)
  {
    var h: nat, t: nat :| PaysAt(l, script, chain, m, h, t, o);
    assert PaysAt(l, script, chain, n, h, t, o);
  }

  lemma {:induction false} PartakerRow(w: World, l: Ledger, script: seq<Byte>, chain: seq<Header>, h: nat, t: nat)
    requires Describes(w, l, script, chain) && PartakesAt(l, script, chain, |chain|, h, t) && h < |chain|
    ensures InChain(l, chain, |chain|, h, t) && TxAt(l, chain, h, t).txid in Txids(Infos(w, chain, h))
  {
    var txs := TxsAt(l, chain, h);
    if o :| PaysAt(l, script, chain, |chain|, h, t, o) {
      MadeFunding(w, l, script, chain, h, t, o);
      assert Funding(o.txid, o.vout, TxoOf(l, o).value).txid == TxAt(l, chain, h, t).txid;
    } else {
      var i: nat, o :| SpendsAt(l, chain, |chain|, h, t, i, o) && Paid(l, script, chain, |chain|, o);
      PaidScript(l, script, chain, |chain|, o);
      assert Takes(l, script, txs, t, i);
      assert SpendInfo(l, txs, t, i) in BlockInfos(l, script, txs);
      assert SpendInfo(l, txs, t, i).txid == TxAt(l, chain, h, t).txid;
    }
  }

  /** A block's rows carry the ids of its transactions that take part. */
  lemma {:induction false} IdsOfBlock(w: World, l: Ledger, script: seq<Byte>, chain: seq<Header>, h: nat, id: Txid)
    requires Describes(w, l, script, chain) && h < |chain|
    ensures id in Txids(Infos(w, chain, h)) <==> PartakesIn(l, script, chain, h, id)
  {
    if id in Txids(Infos(w, chain, h)) {
      var x :| x in Infos(w, chain, h) && x.txid == id;
      RowPartakes(w, l, script, chain, h, x);
    }
    if t: nat :| HasId(l, chain, |chain|, h, t, id) && PartakesAt(l, script, chain, |chain|, h, t) {
      PartakerRow(w, l, script, chain, h, t);
    }
  }

  /** Taking part does not depend on later blocks: what is spent was paid before. */
  lemma {:induction false} PartakesEarly(l: Ledger, script: seq<Byte>, chain: seq<Header>, n: nat, h: nat, t: nat)
    requires ValidChain(l, chain) && h < n <= |chain|
    ensures PartakesAt(l, script, chain, n, h, t) <==> PartakesAt(l, script, chain, |chain|, h, t)
  {
    if PartakesAt(l, script, chain, n, h, t) {
      if o :| PaysAt(l, script, chain, n, h, t, o) {
        assert PaysAt(l, script, chain, |chain|, h, t, o);
      } else {
        var i: nat, o :| SpendsAt(l, chain, n, h, t, i, o) && Paid(l, script, chain, n, o);
        PaidLonger(l, script, chain, n, |chain|, o);
        assert SpendsAt(l, chain, |chain|, h, t, i, o);
      }
    }
    if PartakesAt(l, script, chain, |chain|, h, t) {
      if o :| PaysAt(l, script, chain, |chain|, h, t, o) {
        assert PaysAt(l, script, chain, n, h, t, o);
      } else {
        var i: nat, o :| SpendsAt(l, chain, |chain|, h, t, i, o) && Paid(l, script, chain, |chain|, o);
        PaidScript(l, script, chain, |chain|, o);
        assert SpentBy(l, chain, h, o);
        SpentWasPaid(l, script, chain, h, h + 1, o);
        PaidLonger(l, script, chain, h + 1, n, o);
        assert SpendsAt(l, chain, n, h, t, i, o);
      }
    }
  }

  lemma {:induction false} PartakesStep(l: Ledger, script: seq<Byte>, chain: seq<Header>, m: nat, n: nat, id: Txid)
    requires ValidChain(l, chain) && n == m + 1 <= |chain|
    ensures Partakes(l, script, chain, n, id) <==>
            Partakes(l, script, chain, m, id) || PartakesIn(l, script, chain, m, id)
    ensures !(Partakes(l, script, chain, m, id) && PartakesIn(l, script, chain, m, id))
  {
    if Partakes(l, script, chain, n, id) {
      var h: nat, t: nat :| HasId(l, chain, n, h, t, id) && PartakesAt(l, script, chain, n, h, t);
      PartakesEarly(l, script, chain, n, h, t);
      if h < m {
        PartakesEarly(l, script, chain, m, h, t);
        assert HasId(l, chain, m, h, t, id);
      } else {
        assert HasId(l, chain, |chain|, m, t, id);
      }
    }
    if h: nat, t: nat :| HasId(l, chain, m, h, t, id) && PartakesAt(l, script, chain, m, h, t) {
      PartakesEarly(l, script, chain, m, h, t);
      PartakesEarly(l, script, chain, n, h, t);
      assert HasId(l, chain, n, h, t, id);
      forall t': nat ensures !HasId(l, chain, |chain|, m, t', id) { IdOnce(l, chain, h, t, m, t', id); }
    }
    if t: nat :| HasId(l, chain, |chain|, m, t, id) && PartakesAt(l, script, chain, |chain|, m, t) {
      PartakesEarly(l, script, chain, n, m, t);
      assert HasId(l, chain, n, m, t, id);
    }
  }

  lemma {:induction false} IdOnce(l: Ledger, chain: seq<Header>, h: nat, t: nat, m: nat, t': nat, id: Txid)
    requires ValidChain(l, chain) && h < m < |chain| && HasId(l, chain, m, h, t, id)
    ensures !HasId(l, chain, |chain|, m, t', id)
  {
    assert HasId(l, chain, |chain|, h, t, id);
  }

  lemma {:induction false} PartakeNext(w: World, l: Ledger, script: seq<Byte>, chain: seq<Header>, m: nat, n: nat,
                                       ids: set<Txid>)
    requires Describes(w, l, script, chain) && n == m + 1 <= |chain| && AllPartake(l, script, chain, m, ids)
    ensures AllPartake(l, script, chain, n, ids + Txids(Infos(w, chain, m))) && ids !! Txids(Infos(w, chain, m))
  {
    forall id
      ensures Partakes(l, script, chain, n, id) <==> id in ids || id in Txids(Infos(w, chain, m))
      ensures !(id in ids && id in Txids(Infos(w, chain, m)))
    {
      PartakesStep(l, script, chain, m, n, id);
      IdsOfBlock(w, l, script, chain, m, id);
    }
  }

  // ----- The statistics -------------------------------------------------------------------------------------------

  /** The statistics are those of these transactions and outputs. */
  ghost predicate Counts(l: Ledger, s: Stats, ids: set<Txid>, paid: set<OutPoint>, spent: set<OutPoint>) {
    && s.txCount == |ids|
    && s.fundedCount == |paid| && s.fundedSum == ValueOf(l, paid)
    && s.spentCount == |spent| && s.spentSum == ValueOf(l, spent)
  }

  /**
   The statistics of a script after `n` blocks of the chain: how many transactions pay it or spend
   from it, how many outputs were paid to it and of what value, and how many of these were spent.
   */
  ghost predicate StatsAre(l: Ledger, script: seq<Byte>, chain: seq<Header>, n: nat, s: Stats) {
    exists ids, paid, spent :: CountsAll(l, script, chain, n, s, ids, paid, spent)
  }

  ghost predicate CountsAll(l: Ledger, script: seq<Byte>, chain: seq<Header>, n: nat, s: Stats, ids: set<Txid>,
                            paid: set<OutPoint>, spent: set<OutPoint>) {
    && AllPartake(l, script, chain, n, ids) && AllPaid(l, script, chain, n, paid)
    && AllSpent(l, script, chain, n, spent) && Counts(l, s, ids, paid, spent)
  }

  lemma {:induction false} CountNext(l: Ledger, s: Stats, infos: set<Info>, ids: set<Txid>, paid: set<OutPoint>,
                                     spent: set<OutPoint>)
    requires Counts(l, s, ids, paid, spent)
    requires ids !! Txids(infos) && paid !! Funded(infos) && spent !! Spent(infos)
    requires OneRowEach(l, Fundings(infos)) && Outs(Fundings(infos)) == Funded(infos)
    requires OneRowEach(l, Spendings(infos)) && Outs(Spendings(infos)) == Spent(infos)
    ensures Counts(l, StatsBlock(s, infos), ids + Txids(infos), paid + Funded(infos), spent + Spent(infos))
  {
    hide ValueOf;
    hide Worth;
    hide OneRowEach;
    hide Outs;
    hide Funded;
    hide Spent;
    hide Fundings;
    hide Spendings;
    hide Txids;
    SizeJoin(ids, Txids(infos));
    RowsJoin(l, paid, Fundings(infos));
    RowsJoin(l, spent, Spendings(infos));
  }

  lemma {:induction false} NothingCounted(w: World, l: Ledger, script: seq<Byte>, chain: seq<Header>)
    ensures StatsAre(l, script, chain, 0, StatsOf(w, chain, 0))
  {
    assert CountsAll(l, script, chain, 0, NO_STATS, {}, {}, {});
  }

  lemma {:induction false} CountBlock(w: World, l: Ledger, script: seq<Byte>, chain: seq<Header>, m: nat, n: nat,
                                      s: Stats, ids: set<Txid>, paid: set<OutPoint>, spent: set<OutPoint>)
    requires Describes(w, l, script, chain) && n == m + 1 <= |chain|
    requires CountsAll(l, script, chain, m, s, ids, paid, spent)
    ensures StatsAre(l, script, chain, n, StatsBlock(s, Infos(w, chain, m)))
  {
    hide AllPaid;
    hide AllSpent;
    hide AllPartake;
    hide Counts;
    hide Describes;
    var infos := Infos(w, chain, m);
    PartakeNext(w, l, script, chain, m, n, ids);
    PaidNext(w, l, script, chain, m, n, paid);
    SpentNext(w, l, script, chain, m, n, spent);
    FundingRows(w, l, script, chain, m);
    SpendingRows(w, l, script, chain, m);
    CountNext(l, s, infos, ids, paid, spent);
    assert CountsAll(l, script, chain, n, StatsBlock(s, infos), ids + Txids(infos), paid + Funded(infos),
                     spent + Spent(infos));
  }

  lemma {:induction false} StatsNext(w: World, l: Ledger, script: seq<Byte>, chain: seq<Header>, m: nat, n: nat)
    requires Describes(w, l, script, chain) && n == m + 1 <= |chain|
    requires StatsAre(l, script, chain, m, StatsOf(w, chain, m))
    ensures StatsAre(l, script, chain, n, StatsOf(w, chain, n))
  {
    hide CountsAll;
    hide Describes;
    hide StatsBlock;
    var s := StatsOf(w, chain, m);
    var ids, paid, spent :| CountsAll(l, script, chain, m, s, ids, paid, spent);
    CountBlock(w, l, script, chain, m, n, s, ids, paid, spent);
  }

  /** Main result: on a valid chain the statistics count exactly what their names say. */
  lemma {:induction false} StatsMean(w: World, l: Ledger, script: seq<Byte>, chain: seq<Header>, n: nat)
    requires Describes(w, l, script, chain) && n <= |chain|
    ensures StatsAre(l, script, chain, n, StatsOf(w, chain, n))
  {
    hide *;
    if n == 0 {
      NothingCounted(w, l, script, chain);
    } else {
      StatsMean(w, l, script, chain, n - 1);
      StatsNext(w, l, script, chain, n - 1, n);
    }
  }
}
