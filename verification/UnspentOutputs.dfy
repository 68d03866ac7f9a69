/**
 The meaning of a script's unspent set and statistics for a valid chain: the set is exactly the
 indexed outputs paying the script that no transaction of the chain spends, and its size and value
 are what was funded less what was spent.
 */
module UnspentOutputs {
  import opened HeaderChain
  import opened HistoryKeys
  import opened HistoryScan
  import opened ChainIndex
  import opened Wrappers

  predicate InChain(l: Ledger, chain: seq<Header>, n: nat, h: nat, t: nat) {
    h < n <= |chain| && t < |TxsAt(l, chain, h)|
  }

  function TxAt(l: Ledger, chain: seq<Header>, h: nat, t: nat): Tx
    requires InChain(l, chain, |chain|, h, t)
  {
    TxsAt(l, chain, h)[t]
  }

  predicate Earlier(h: nat, t: nat, h': nat, t': nat) { h < h' || (h == h' && t < t') }

  /** Input `i` of transaction `t` in block `h` spends `o`. */
  predicate SpendsAt(l: Ledger, chain: seq<Header>, n: nat, h: nat, t: nat, i: nat, o: OutPoint) {
    InChain(l, chain, n, h, t) && i < |TxAt(l, chain, h, t).inputs| && TxAt(l, chain, h, t).inputs[i] == Spends(o)
  }

  /** Transaction `t` in block `h` makes the output `o`. */
  predicate MakesAt(l: Ledger, chain: seq<Header>, n: nat, h: nat, t: nat, o: OutPoint) {
    InChain(l, chain, n, h, t) && TxAt(l, chain, h, t).txid == o.txid && o.vout < |TxAt(l, chain, h, t).outputs|
  }

  ghost predicate MadeBefore(l: Ledger, chain: seq<Header>, h: nat, t: nat, o: OutPoint) {
    exists h', t' ::
      Earlier(h', t', h, t) && MakesAt(l, chain, |chain|, h', t', o) && TxAt(l, chain, h', t').outputs[o.vout].spendable
  }

  /** Transaction ids are unique; inputs spend earlier, spendable outputs; and nothing is spent twice. */
  ghost predicate ValidChain(l: Ledger, chain: seq<Header>) {
    && (forall h, t, h', t' {:trigger TxAt(l, chain, h, t), TxAt(l, chain, h', t')} ::
          InChain(l, chain, |chain|, h, t) && InChain(l, chain, |chain|, h', t')
          && TxAt(l, chain, h, t).txid == TxAt(l, chain, h', t').txid
          ==> h == h' && t == t')
    && (forall h, t, i, o {:trigger SpendsAt(l, chain, |chain|, h, t, i, o)} ::
          SpendsAt(l, chain, |chain|, h, t, i, o) ==> MadeBefore(l, chain, h, t, o))
    && (forall h, t, i, h', t', i', o
          {:trigger SpendsAt(l, chain, |chain|, h, t, i, o), SpendsAt(l, chain, |chain|, h', t', i', o)} ::
          SpendsAt(l, chain, |chain|, h, t, i, o) && SpendsAt(l, chain, |chain|, h', t', i', o) ==>
            h == h' && t == t' && i == i')
    && (forall h, t, o {:trigger MakesAt(l, chain, |chain|, h, t, o)} ::
          MakesAt(l, chain, |chain|, h, t, o) ==> TxoOf(l, o) == TxAt(l, chain, h, t).outputs[o.vout])
  }

  /** Transaction `t` in block `h` makes the spendable output `o`. */
  predicate MakesSpendable(l: Ledger, chain: seq<Header>, h: nat, t: nat, o: OutPoint) {
    MakesAt(l, chain, |chain|, h, t, o) && TxAt(l, chain, h, t).outputs[o.vout].spendable
  }

  /** The spendable outputs of a chain, which are those kept for looking up. */
  ghost predicate OutputsOf(l: Ledger, chain: seq<Header>, outputs: set<OutPoint>) {
    forall o :: o in outputs <==> exists h, t :: MakesSpendable(l, chain, h, t, o)
  }

  /** `o` is an indexed output of the script, made within the first `n` blocks. */
  predicate PaysAt(l: Ledger, script: seq<Byte>, chain: seq<Header>, n: nat, h: nat, t: nat, o: OutPoint) {
    MakesAt(l, chain, n, h, t, o)
    && var txo := TxAt(l, chain, h, t).outputs[o.vout];
       (txo.spendable || l.indexUnspendables) && l.scripthash(txo.script) == script
  }

  ghost predicate Paid(l: Ledger, script: seq<Byte>, chain: seq<Header>, n: nat, o: OutPoint) {
    exists h, t :: PaysAt(l, script, chain, n, h, t, o)
  }

  ghost predicate SpentIn(l: Ledger, chain: seq<Header>, n: nat, o: OutPoint) {
    exists h, t, i :: SpendsAt(l, chain, n, h, t, i, o)
  }

  /** `w` is the world of the ledger's history for the script. */
  ghost predicate Describes(w: World, l: Ledger, script: seq<Byte>, chain: seq<Header>) {
    && ValidChain(l, chain)
    && forall h {:trigger Infos(w, chain, h)} :: 0 <= h < |chain| ==>
         Infos(w, chain, h) == BlockInfos(l, script, TxsAt(l, chain, h))
  }

  lemma {:induction false} WorldDescribes(l: Ledger, script: seq<Byte>, chain: seq<Header>)
    requires ValidChain(l, chain)
    ensures Describes(WorldOf(l, script), l, script, chain)
  {
  }

  // ----- One block ----------------------------------------------------------------------------------

  /** A block's funding rows are the indexed outputs it makes for the script, with their values. */
  lemma {:induction false} FundingMade(w: World, l: Ledger, script: seq<Byte>, chain: seq<Header>, h: nat, x: Info)
    returns (t: nat)
    requires Describes(w, l, script, chain) && h < |chain| && x in Infos(w, chain, h) && x.Funding?
    ensures PaysAt(l, script, chain, |chain|, h, t, x.Out()) && x.value == TxoOf(l, x.Out()).value
  {
    var txs := TxsAt(l, chain, h);
    var v: nat;
    t, v :| t < |txs| && v < |txs[t].outputs| && Funds(l, script, txs, t, v) && x == FundInfo(txs, t, v);
    assert MakesAt(l, chain, |chain|, h, t, x.Out());
  }

  lemma {:induction false} MadeFunding(w: World, l: Ledger, script: seq<Byte>, chain: seq<Header>, h: nat, t: nat,
                                       o: OutPoint)
    requires Describes(w, l, script, chain) && PaysAt(l, script, chain, |chain|, h, t, o)
    ensures Funding(o.txid, o.vout, TxoOf(l, o).value) in Infos(w, chain, h)
  {
    var txs := TxsAt(l, chain, h);
    assert MakesAt(l, chain, |chain|, h, t, o);
    assert FundInfo(txs, t, o.vout) in BlockInfos(l, script, txs);
  }

  /** A block's spending rows are its inputs that spend outputs of the script. */
  lemma {:induction false} SpendingMade(w: World, l: Ledger, script: seq<Byte>, chain: seq<Header>, h: nat, x: Info)
    returns (t: nat, i: nat)
    requires Describes(w, l, script, chain) && h < |chain| && x in Infos(w, chain, h) && x.Spending?
    ensures SpendsAt(l, chain, |chain|, h, t, i, x.Out()) && HashOf(l, TxoOf(l, x.Out())) == script
    ensures x == Spending(TxAt(l, chain, h, t).txid, i, x.Out(), TxoOf(l, x.Out()).value)
  {
    var txs := TxsAt(l, chain, h);
    t, i :| t < |txs| && i < |txs[t].inputs| && Takes(l, script, txs, t, i) && x == SpendInfo(l, txs, t, i);
  }

  lemma {:induction false} MadeSpending(w: World, l: Ledger, script: seq<Byte>, chain: seq<Header>, h: nat, t: nat,
                                        i: nat, o: OutPoint)
    requires Describes(w, l, script, chain) && SpendsAt(l, chain, |chain|, h, t, i, o)
    requires HashOf(l, TxoOf(l, o)) == script
    ensures o in Spent(Infos(w, chain, h))
  {
    var txs := TxsAt(l, chain, h);
    assert Takes(l, script, txs, t, i);
    assert SpendInfo(l, txs, t, i) in BlockInfos(l, script, txs);
    assert SpendInfo(l, txs, t, i).Out() == o;
  }

  ghost predicate PaidBy(l: Ledger, script: seq<Byte>, chain: seq<Header>, h: nat, o: OutPoint) {
    exists t :: PaysAt(l, script, chain, |chain|, h, t, o)
  }

  ghost predicate SpentBy(l: Ledger, chain: seq<Header>, h: nat, o: OutPoint) {
    exists t, i :: SpendsAt(l, chain, |chain|, h, t, i, o)
  }

  lemma {:induction false} FundedIff(w: World, l: Ledger, script: seq<Byte>, chain: seq<Header>, h: nat, o: OutPoint)
    requires Describes(w, l, script, chain) && h < |chain|
    ensures o in Funded(Infos(w, chain, h)) <==> PaidBy(l, script, chain, h, o)
  {
    var infos := Infos(w, chain, h);
    if o in Funded(infos) {
      var x :| x in infos && x.Funding? && x.Out() == o;
      var t := FundingMade(w, l, script, chain, h, x);
    }
    if t: nat :| PaysAt(l, script, chain, |chain|, h, t, o) {
      MadeFunding(w, l, script, chain, h, t, o);
      assert Funding(o.txid, o.vout, TxoOf(l, o).value).Out() == o;
    }
  }

  lemma {:induction false} SpentIff(w: World, l: Ledger, script: seq<Byte>, chain: seq<Header>, h: nat, o: OutPoint)
    requires Describes(w, l, script, chain) && h < |chain|
    ensures o in Spent(Infos(w, chain, h)) <==> HashOf(l, TxoOf(l, o)) == script && SpentBy(l, chain, h, o)
  {
    var infos := Infos(w, chain, h);
    if o in Spent(infos) {
      var x :| x in infos && x.Spending? && x.Out() == o;
      var t, i := SpendingMade(w, l, script, chain, h, x);
    }
    if HashOf(l, TxoOf(l, o)) == script {
      if t: nat, i: nat :| SpendsAt(l, chain, |chain|, h, t, i, o) { MadeSpending(w, l, script, chain, h, t, i, o); }
    }
  }

  // ----- The unspent set ----------------------------------------------------------------------------

  /** The set after `n` blocks is what was paid and not spent in them. */
  ghost predicate ExactAt(w: World, l: Ledger, script: seq<Byte>, chain: seq<Header>, n: nat, o: OutPoint)
    requires n <= |chain|
  {
    o in UtxosOf(w, chain, n) <==> Paid(l, script, chain, n, o) && !SpentIn(l, chain, n, o)
  }

  lemma {:induction false} PaidStep(l: Ledger, script: seq<Byte>, chain: seq<Header>, n: nat, o: OutPoint)
    requires n < |chain|
    ensures Paid(l, script, chain, n + 1, o) <==>
              Paid(l, script, chain, n, o) || PaidBy(l, script, chain, n, o)
  {
    if Paid(l, script, chain, n + 1, o) {
      var h: nat, t: nat :| PaysAt(l, script, chain, n + 1, h, t, o);
      assert if h < n then PaysAt(l, script, chain, n, h, t, o) else PaysAt(l, script, chain, |chain|, n, t, o);
    }
    if h: nat, t: nat :| PaysAt(l, script, chain, n, h, t, o) { assert PaysAt(l, script, chain, n + 1, h, t, o); }
    if t: nat :| PaysAt(l, script, chain, |chain|, n, t, o) { assert PaysAt(l, script, chain, n + 1, n, t, o); }
  }

  lemma {:induction false} SpentStep(l: Ledger, chain: seq<Header>, n: nat, o: OutPoint)
    requires n < |chain|
    ensures SpentIn(l, chain, n + 1, o) <==> SpentIn(l, chain, n, o) || SpentBy(l, chain, n, o)
  {
    if SpentIn(l, chain, n + 1, o) {
      var h: nat, t: nat, i: nat :| SpendsAt(l, chain, n + 1, h, t, i, o);
      assert if h < n then SpendsAt(l, chain, n, h, t, i, o) else SpendsAt(l, chain, |chain|, n, t, i, o);
    }
    if h: nat, t: nat, i: nat :| SpendsAt(l, chain, n, h, t, i, o) { assert SpendsAt(l, chain, n + 1, h, t, i, o); }
    if t: nat, i: nat :| SpendsAt(l, chain, |chain|, n, t, i, o) { assert SpendsAt(l, chain, n + 1, n, t, i, o); }
  }

  /** Only one transaction makes an output. */
  lemma {:induction false} OneMaker(l: Ledger, chain: seq<Header>, h: nat, t: nat, h': nat, t': nat, o: OutPoint)
    requires ValidChain(l, chain) && MakesAt(l, chain, |chain|, h, t, o) && MakesAt(l, chain, |chain|, h', t', o)
    ensures h == h' && t == t'
  {
    assert TxAt(l, chain, h, t).txid == TxAt(l, chain, h', t').txid;
  }

  lemma {:induction false} MakerFirst(l: Ledger, chain: seq<Header>, n: nat, t: nat, h: nat, t': nat, i: nat,
                                      o: OutPoint)
    requires ValidChain(l, chain) && MakesAt(l, chain, |chain|, n, t, o) && SpendsAt(l, chain, |chain|, h, t', i, o)
    ensures Earlier(n, t, h, t')
  {
    var h1: nat, t1: nat :| Earlier(h1, t1, h, t') && MakesAt(l, chain, |chain|, h1, t1, o);
    OneMaker(l, chain, n, t, h1, t1, o);
  }

  /** What a block makes was not spent before it. */
  lemma {:induction false} NotSpentBefore(l: Ledger, chain: seq<Header>, n: nat, t: nat, o: OutPoint)
    requires ValidChain(l, chain) && MakesAt(l, chain, |chain|, n, t, o)
    ensures !SpentIn(l, chain, n, o)
  {
    forall h: nat, t': nat, i: nat ensures !SpendsAt(l, chain, n, h, t', i, o) {
      if SpendsAt(l, chain, |chain|, h, t', i, o) { MakerFirst(l, chain, n, t, h, t', i, o); }
    }
  }

  /** The script of an output found by outpoint is the script it pays. */
  lemma {:induction false} PaidScript(l: Ledger, script: seq<Byte>, chain: seq<Header>, n: nat, o: OutPoint)
    requires ValidChain(l, chain) && n <= |chain| && Paid(l, script, chain, n, o)
    ensures HashOf(l, TxoOf(l, o)) == script
  {
    var h: nat, t: nat :| PaysAt(l, script, chain, n, h, t, o);
    assert MakesAt(l, chain, |chain|, h, t, o);
  }

  lemma {:induction false} UnspentStep(w: World, l: Ledger, script: seq<Byte>, chain: seq<Header>, m: nat, n: nat,
                                       o: OutPoint)
    requires Describes(w, l, script, chain) && n == m + 1 <= |chain|
    ensures ExactAt(w, l, script, chain, m, o) ==> ExactAt(w, l, script, chain, n, o)
  {
    FundedIff(w, l, script, chain, m, o);
    SpentIff(w, l, script, chain, m, o);
    PaidStep(l, script, chain, m, o);
    SpentStep(l, chain, m, o);
    if t: nat :| PaysAt(l, script, chain, |chain|, m, t, o) { NotSpentBefore(l, chain, m, t, o); }
    if Paid(l, script, chain, n, o) { PaidScript(l, script, chain, n, o); }
  }

  /** The unspent outputs of a script are exactly those paying it that no transaction of the chain spends. */
  lemma {:induction false} UnspentExactly(w: World, l: Ledger, script: seq<Byte>, chain: seq<Header>, n: nat,
                                          o: OutPoint)
    requires Describes(w, l, script, chain) && n <= |chain|
    ensures ExactAt(w, l, script, chain, n, o)
  {
    if n == 0 {
      assert !Paid(l, script, chain, 0, o);
    } else {
      hide *;
      UnspentExactly(w, l, script, chain, n - 1, o);
      UnspentStep(w, l, script, chain, n - 1, n, o);
    }
  }

  lemma {:induction false} BlockClean(w: World, l: Ledger, script: seq<Byte>, chain: seq<Header>, h: nat)
    requires Describes(w, l, script, chain) && h < |chain|
    ensures Clean(Infos(w, chain, h))
  {
    var infos := Infos(w, chain, h);
    forall x, y | x in infos && y in infos && x.Funding? && y.Funding? && x.Out() == y.Out() ensures x == y {
      var t := FundingMade(w, l, script, chain, h, x);
      var t' := FundingMade(w, l, script, chain, h, y);
    }
  }

  /** A coin, while it is in the set, is `c`. */
  ghost predicate HasCoin(w: World, chain: seq<Header>, n: nat, o: OutPoint, c: Coin)
    requires n <= |chain|
  {
    o in UtxosOf(w, chain, n) ==> UtxosOf(w, chain, n)[o] == c
  }

  lemma {:induction false} CoinFirst(w: World, l: Ledger, script: seq<Byte>, chain: seq<Header>, n: nat, o: OutPoint,
                                     h: nat, t: nat)
    requires Describes(w, l, script, chain) && PaysAt(l, script, chain, |chain|, h, t, o) && n == h + 1
    ensures HasCoin(w, chain, n, o, Coin(BlockIdAt(w, chain, h), TxoOf(l, o).value))
  {
    var infos := Infos(w, chain, h);
    BlockClean(w, l, script, chain, h);
    MadeFunding(w, l, script, chain, h, t, o);
    var i := Funding(o.txid, o.vout, TxoOf(l, o).value);
    assert i in infos && i.Out() == o;
    FundedAt(infos, i);
  }

  lemma {:induction false} FundedAt(infos: set<Info>, i: Info)
    requires Clean(infos) && i in infos && i.Funding?
    ensures i.Out() in Funded(infos) && FundedValue(infos, i.Out()) == i.value
  {
  }

  lemma {:induction false} CoinNext(w: World, chain: seq<Header>, m: nat, n: nat, o: OutPoint, c: Coin)
    requires n == m + 1 <= |chain| && o !in Funded(Infos(w, chain, m))
    ensures HasCoin(w, chain, m, o, c) ==> HasCoin(w, chain, n, o, c)
  {
  }

  ghost predicate NotFunded(w: World, chain: seq<Header>, from: nat, n: nat, o: OutPoint) {
    n <= |chain| && forall m {:trigger Infos(w, chain, m)} :: from <= m < n ==> o !in Funded(Infos(w, chain, m))
  }

  lemma {:induction false} CoinStays(w: World, chain: seq<Header>, from: nat, n: nat, o: OutPoint, c: Coin)
    requires from <= n <= |chain|
    ensures NotFunded(w, chain, from, n, o) && HasCoin(w, chain, from, o, c) ==> HasCoin(w, chain, n, o, c)
  {
    if from < n && NotFunded(w, chain, from, n, o) {
      CoinStays(w, chain, from, n - 1, o, c);
      CoinNext(w, chain, n - 1, n, o, c);
    }
  }

  lemma {:induction false} NotMadeAt(w: World, l: Ledger, script: seq<Byte>, chain: seq<Header>, n: nat, o: OutPoint,
                                     h: nat, t: nat)
    requires Describes(w, l, script, chain) && MakesAt(l, chain, |chain|, h, t, o) && h != n < |chain|
    ensures o !in Funded(Infos(w, chain, n))
  {
    FundedIff(w, l, script, chain, n, o);
    forall t' ensures !PaysAt(l, script, chain, |chain|, n, t', o) { MadeOnce(l, chain, h, t, n, t', o); }
  }

  lemma {:induction false} NotFundedAgain(w: World, l: Ledger, script: seq<Byte>, chain: seq<Header>, n: nat,
                                          o: OutPoint, h: nat, t: nat)
    requires Describes(w, l, script, chain) && PaysAt(l, script, chain, |chain|, h, t, o) && n <= |chain|
    ensures NotFunded(w, chain, h + 1, n, o)
  {
    forall m | h + 1 <= m < n ensures o !in Funded(Infos(w, chain, m)) { NotMadeAt(w, l, script, chain, m, o, h, t); }
  }

  lemma {:induction false} MadeOnce(l: Ledger, chain: seq<Header>, h: nat, t: nat, h': nat, t': nat, o: OutPoint)
    requires ValidChain(l, chain) && MakesAt(l, chain, |chain|, h, t, o) && h != h'
    ensures !MakesAt(l, chain, |chain|, h', t', o)
  {
    if MakesAt(l, chain, |chain|, h', t', o) {
      OneMaker(l, chain, h, t, h', t', o);
      assert false;
    }
  }

  /** A coin is of the block that made it, and worth what the output says. */
  lemma {:induction false} CoinIs(w: World, l: Ledger, script: seq<Byte>, chain: seq<Header>, n: nat, o: OutPoint,
                                  h: nat, t: nat)
    requires Describes(w, l, script, chain) && PaysAt(l, script, chain, |chain|, h, t, o) && h < n <= |chain|
    ensures HasCoin(w, chain, n, o, Coin(BlockIdAt(w, chain, h), TxoOf(l, o).value))
  {
    hide *;
    CoinFirst(w, l, script, chain, h + 1, o, h, t);
    NotFundedAgain(w, l, script, chain, n, o, h, t);
    CoinStays(w, chain, h + 1, n, o, Coin(BlockIdAt(w, chain, h), TxoOf(l, o).value));
  }

  /** The rows indexed for a valid chain are what a scan of the script's history relies on. */
  lemma {:induction false} ValidIndexIsPublished(l: Ledger, script: seq<Byte>, chain: seq<Header>, db: set<DbRow>)
    requires ValidChain(l, chain) && IndexOf(l, chain, db)
    ensures Published(WorldOf(l, script), chain, RowsOf(db, script))
  {
    var w := WorldOf(l, script);
    WorldDescribes(l, script, chain);
    forall h | 0 <= h < |chain| ensures Clean(BlockInfos(l, script, TxsAt(l, chain, h))) {
      assert Infos(w, chain, h) == BlockInfos(l, script, TxsAt(l, chain, h));
      BlockClean(w, l, script, chain, h);
    }
    IndexIsPublished(l, script, chain, db);
  }

  // ----- Funded less spent ------------------------------------------------------------------------------

  ghost function Total(u: Utxos): nat {
    if u == map[] then 0 else
    var o :| o in u;
    u[o].value + Total(u - {o})
  }

  lemma {:induction false} TotalOfNothing()
    ensures Total(map[]) == 0
  {
  }

  lemma {:induction false} TotalTake(u: Utxos, o: OutPoint)
    requires o in u
    ensures Total(u) == u[o].value + Total(u - {o})
    decreases |u|
  {
    var p :| p in u && Total(u) == u[p].value + Total(u - {p});
    if p != o {
      TotalTake(u - {p}, o);
      TotalTake(u - {o}, p);
      assert u - {p} - {o} == u - {o} - {p};
    }
  }

  lemma {:induction false} TotalAdd(u: Utxos, o: OutPoint, c: Coin)
    requires o !in u
    ensures Total(u[o := c]) == Total(u) + c.value && |u[o := c]| == |u| + 1
  {
    PutAndTake(u, o, c);
    TotalTake(u[o := c], o);
    hide Total;
  }

  lemma {:induction false} PutAndTake(u: Utxos, o: OutPoint, c: Coin)
    requires o !in u
    ensures u[o := c] - {o} == u && |u[o := c]| == |u| + 1
  {
    assert u[o := c].Keys == u.Keys + {o};
  }

  /**
   Every output a block spends is there to be spent, at that value, and spent once; none it funds
   is there already.
   */
  ghost predicate Balanced(u: Utxos, infos: set<Info>) {
    && Clean(infos) && Funded(infos) !! u.Keys
    && (forall i, j :: i in infos && j in infos && i.Spending? && j.Spending? && i.Out() == j.Out() ==> i == j)
    && (forall i :: i in infos && i.Spending? ==> Backed(u, infos, i))
  }

  ghost predicate Backed(u: Utxos, infos: set<Info>, i: Info) {
    || (i.Out() in u && u[i.Out()].value == i.value)
    || exists f :: f in infos && f.Funding? && f.Out() == i.Out() && f.value == i.value
  }

  /** Size and value after a block, against what it funds and spends. */
  ghost predicate Conserved(u: Utxos, b: BlockId, infos: set<Info>) {
    && |UtxoBlock(u, b, infos)| + |Spendings(infos)| == |u| + |Fundings(infos)|
    && Total(UtxoBlock(u, b, infos)) + Worth(Spendings(infos)) == Total(u) + Worth(Fundings(infos))
  }

  lemma {:induction false} SpendOne(u: Utxos, b: BlockId, infos: set<Info>, i: Info)
    requires Balanced(u, infos) && i in infos && i.Spending?
    ensures Conserved(u, b, infos - {i}) ==> Conserved(u, b, infos)
  {
    var rest := infos - {i};
    assert infos == rest + {i};
    BackedCoin(u, b, rest, i);
    AddSpending(u, b, rest, i);
    TotalRemove(UtxoBlock(u, b, rest), i.Out());
    CountFundings(rest, i);
    CountSpendings(rest, i);
  }

  lemma {:induction false} TotalRemove(u: Utxos, o: OutPoint)
    requires o in u
    ensures Total(u - {o}) + u[o].value == Total(u) && |u - {o}| + 1 == |u|
  {
    TotalTake(u, o);
    assert (u - {o}).Keys == u.Keys - {o};
  }

  lemma {:induction false} StillBalanced(u: Utxos, infos: set<Info>, i: Info)
    requires Balanced(u, infos) && i in infos && (i.Funding? ==> Spendings(infos) == {})
    ensures Balanced(u, infos - {i})
  {
    var rest := infos - {i};
    assert Funded(rest) <= Funded(infos);
    forall j | j in rest && j.Spending? ensures Backed(u, rest, j) {
      assert j in Spendings(infos) && Backed(u, infos, j);
    }
  }

  lemma {:induction false} BackedCoin(u: Utxos, b: BlockId, rest: set<Info>, i: Info)
    requires Balanced(u, rest + {i}) && i !in rest && i.Spending?
    ensures i.Out() in UtxoBlock(u, b, rest) && UtxoBlock(u, b, rest)[i.Out()].value == i.value
  {
    var infos, o := rest + {i}, i.Out();
    assert Backed(u, infos, i);
    assert Funded(rest) == Funded(infos);
    forall j | j in rest && j.Spending? ensures j.Out() != o { assert j in infos && i in infos; }
    assert o !in Spent(rest);
    if f :| f in infos && f.Funding? && f.Out() == o && f.value == i.value {
      assert f in rest;
      assert FundedValue(rest, o) == f.value;
    }
  }

  lemma {:induction false} FundOne(u: Utxos, b: BlockId, infos: set<Info>, i: Info)
    requires Balanced(u, infos) && i in infos && i.Funding? && Spendings(infos) == {}
    ensures Conserved(u, b, infos - {i}) ==> Conserved(u, b, infos)
  {
    var rest := infos - {i};
    assert infos == rest + {i};
    forall j | j in infos ensures j.Funding? { assert j.Funding? || j in Spendings(infos); }
    assert Spent(rest) == {};
    assert i.Out() in Funded(infos);
    assert i.Out() !in Funded(rest);
    AddFunding(u, b, rest, i);
    TotalAdd(UtxoBlock(u, b, rest), i.Out(), Coin(b, i.value));
    CountFundings(rest, i);
    CountSpendings(rest, i);
  }

  lemma {:induction false} BlockConserves(u: Utxos, b: BlockId, infos: set<Info>)
    requires Balanced(u, infos)
    ensures Conserved(u, b, infos)
    decreases |infos|
  {
    if infos == {} {
      NothingToAdd(u, b, infos);
      assert Fundings(infos) == {} && Spendings(infos) == {};
    } else if i :| i in infos && i.Spending? {
      StillBalanced(u, infos, i);
      SpendOne(u, b, infos, i);
      BlockConserves(u, b, infos - {i});
    } else {
      var i :| i in infos;
      assert Spendings(infos) == {};
      StillBalanced(u, infos, i);
      FundOne(u, b, infos, i);
      BlockConserves(u, b, infos - {i});
    }
  }

  /** Whatever a block of a valid chain spends is there to be spent. */
  lemma {:induction false} SpendBacked(w: World, l: Ledger, script: seq<Byte>, chain: seq<Header>, n: nat, x: Info)
    requires Describes(w, l, script, chain) && n < |chain| && x in Infos(w, chain, n) && x.Spending?
    ensures Backed(UtxosOf(w, chain, n), Infos(w, chain, n), x)
  {
    var o := x.Out();
    var t, i := SpendingMade(w, l, script, chain, n, x);
    var h: nat, t': nat :| Earlier(h, t', n, t) && MakesAt(l, chain, |chain|, h, t', o)
                           && TxAt(l, chain, h, t').outputs[o.vout].spendable;
    assert PaysAt(l, script, chain, |chain|, h, t', o);
    if h == n {
      MadeFunding(w, l, script, chain, n, t', o);
      assert Funding(o.txid, o.vout, TxoOf(l, o).value).Out() == o;
    } else {
      assert PaysAt(l, script, chain, n, h, t', o);
      NotSpentEarlier(l, chain, n, t, i, o);
      UnspentExactly(w, l, script, chain, n, o);
      CoinIs(w, l, script, chain, n, o, h, t');
    }
  }

  /** What a block spends was not spent before it. */
  lemma {:induction false} NotSpentEarlier(l: Ledger, chain: seq<Header>, n: nat, t: nat, i: nat, o: OutPoint)
    requires ValidChain(l, chain) && SpendsAt(l, chain, |chain|, n, t, i, o)
    ensures !SpentIn(l, chain, n, o)
  {
    forall h: nat, t': nat, i': nat ensures !SpendsAt(l, chain, n, h, t', i', o) {
      assert SpendsAt(l, chain, |chain|, h, t', i', o) ==> h == n;
    }
  }

  /** The blocks of a valid chain are balanced. */
  lemma {:induction false} BlockBalanced(w: World, l: Ledger, script: seq<Byte>, chain: seq<Header>, n: nat)
    requires Describes(w, l, script, chain) && n < |chain|
    ensures Balanced(UtxosOf(w, chain, n), Infos(w, chain, n))
  {
    var u, infos := UtxosOf(w, chain, n), Infos(w, chain, n);
    BlockClean(w, l, script, chain, n);
    forall o | o in u ensures o !in Funded(infos) {
      UnspentExactly(w, l, script, chain, n, o);
      var h: nat, t: nat :| PaysAt(l, script, chain, n, h, t, o);
      assert MakesAt(l, chain, |chain|, h, t, o);
      NotMadeAt(w, l, script, chain, n, o, h, t);
    }
    forall x, y | x in infos && y in infos && x.Spending? && y.Spending? && x.Out() == y.Out() ensures x == y {
      var t, i := SpendingMade(w, l, script, chain, n, x);
      var t', i' := SpendingMade(w, l, script, chain, n, y);
    }
    forall x | x in infos && x.Spending? ensures Backed(u, infos, x) { SpendBacked(w, l, script, chain, n, x); }
  }

  /** The set is what the statistics say was funded less what was spent, in number and in value. */
  ghost predicate AddsUp(u: Utxos, s: Stats) {
    |u| + s.spentCount == s.fundedCount && Total(u) + s.spentSum == s.fundedSum
  }

  lemma {:induction false} AddsNext(u: Utxos, s: Stats, b: BlockId, infos: set<Info>)
    ensures AddsUp(u, s) && Conserved(u, b, infos) ==> AddsUp(UtxoBlock(u, b, infos), StatsBlock(s, infos))
  {
  }

  ghost predicate BalancedAt(w: World, chain: seq<Header>, n: nat)
    requires n < |chain|
  {
    Balanced(UtxosOf(w, chain, n), Infos(w, chain, n))
  }

  ghost predicate AddsUpAt(w: World, chain: seq<Header>, n: nat)
    requires n <= |chain|
  {
    AddsUp(UtxosOf(w, chain, n), StatsOf(w, chain, n))
  }

  lemma {:induction false} BlockAddsUp(w: World, chain: seq<Header>, m: nat, n: nat)
    requires n == m + 1 <= |chain|
    ensures BalancedAt(w, chain, m) && AddsUpAt(w, chain, m) ==> AddsUpAt(w, chain, n)
  {
    if BalancedAt(w, chain, m) { BlockConserves(UtxosOf(w, chain, m), BlockIdAt(w, chain, m), Infos(w, chain, m)); }
    AddsNext(UtxosOf(w, chain, m), StatsOf(w, chain, m), BlockIdAt(w, chain, m), Infos(w, chain, m));
  }

  lemma {:induction false} NothingAddsUp(w: World, chain: seq<Header>)
    ensures AddsUpAt(w, chain, 0)
  {
    assert UtxosOf(w, chain, 0) == map[] && StatsOf(w, chain, 0) == NO_STATS;
    TotalOfNothing();
    hide Total;
    hide UtxosOf;
    hide StatsOf;
  }

  lemma {:induction false} BlocksAddUp(w: World, chain: seq<Header>, n: nat)
    requires n <= |chain| && forall m {:trigger BalancedAt(w, chain, m)} :: 0 <= m < n ==> BalancedAt(w, chain, m)
    ensures AddsUpAt(w, chain, n)
  {
    hide *;
    if n == 0 {
      NothingAddsUp(w, chain);
    } else {
      BlocksAddUp(w, chain, n - 1);
      BlockAddsUp(w, chain, n - 1, n);
    }
  }

  /** For every valid chain the unspent set and the statistics agree. */
  lemma {:induction false} FundedLessSpent(w: World, l: Ledger, script: seq<Byte>, chain: seq<Header>, n: nat)
    requires Describes(w, l, script, chain) && n <= |chain|
    ensures AddsUpAt(w, chain, n)
  {
    forall m | 0 <= m < n ensures BalancedAt(w, chain, m) { BlockBalanced(w, l, script, chain, m); }
    BlocksAddUp(w, chain, n);
  }
}
