/**
 The in-memory view of unconfirmed transactions: five maps that `add` and `remove` keep in step.

 A transaction id names its transaction, so an output is a function of its outpoint (`Ledger.txo`);
 `Genuine` says that of a transaction. Mempool transactions have no coinbase input.
 */
module Mempool {
  import opened HistoryKeys
  import opened ChainIndex
  import opened Sorting
  import opened Wrappers

  type ScriptHash = seq<Byte>

  /** Which input of which transaction spends an output. */
  datatype Edge = Edge(txid: Txid, vin: nat)

  ghost predicate Genuine(l: Ledger, tx: Tx) {
    && (forall v {:trigger TxoOf(l, OutPoint(tx.txid, v))} :: 0 <= v < |tx.outputs| ==>
          TxoOf(l, OutPoint(tx.txid, v)) == tx.outputs[v])
    && (forall i :: 0 <= i < |tx.inputs| ==> tx.inputs[i].Spends?)
  }

  /** What a transaction's first `v` outputs and first `n` inputs add to the history of a script. */
  predicate GivesUpTo(l: Ledger, tx: Tx, v: nat, n: nat, s: ScriptHash, i: Info) {
    && i.txid == tx.txid
    && match i
       case Funding(_, vout, value) =>
         vout < v && vout < |tx.outputs| && Indexed(l, tx.outputs[vout]) && HashOf(l, tx.outputs[vout]) == s
         && value == tx.outputs[vout].value
       case Spending(_, vin, prev, value) =>
         vin < n && vin < |tx.inputs| && tx.inputs[vin] == Spends(prev) && HashOf(l, TxoOf(l, prev)) == s
         && value == TxoOf(l, prev).value
  }

  predicate Gives(l: Ledger, tx: Tx, s: ScriptHash, i: Info) { GivesUpTo(l, tx, |tx.outputs|, |tx.inputs|, s, i) }

  /** Some live transaction adds this entry. */
  predicate Live(l: Ledger, txstore: map<Txid, Tx>, s: ScriptHash, i: Info) {
    i.txid in txstore && Gives(l, txstore[i.txid], s, i)
  }

  predicate Has(history: map<ScriptHash, seq<Info>>, s: ScriptHash, i: Info) { s in history && i in history[s] }

  /** No bucket is empty, and none lists an entry twice. */
  ghost predicate Tidy(history: map<ScriptHash, seq<Info>>) {
    forall s :: s in history ==> history[s] != [] && NoDuplicates(history[s])
  }

  // ----- The invariant --------------------------------------------------------------------------------

  /** Each bucket holds exactly the entries its live transactions generate. */
  ghost predicate HistoryOk(l: Ledger, txstore: map<Txid, Tx>, history: map<ScriptHash, seq<Info>>) {
    Tidy(history) && forall s, i {:trigger Has(history, s, i)} {:trigger Live(l, txstore, s, i)} ::
      Has(history, s, i) <==> Live(l, txstore, s, i)
  }

  /** A transaction's scripts are those it adds an entry to. */
  ghost predicate ScriptsOf(l: Ledger, tx: Tx, scripts: set<ScriptHash>) {
    && (forall s :: s in scripts ==> exists i :: Gives(l, tx, s, i))
    && (forall s, i {:trigger Gives(l, tx, s, i)} :: Gives(l, tx, s, i) ==> s in scripts)
  }

  ghost predicate ScriptsOk(l: Ledger, txstore: map<Txid, Tx>, scripts: map<Txid, set<ScriptHash>>) {
    scripts.Keys == txstore.Keys && forall t :: t in txstore ==> ScriptsOf(l, txstore[t], scripts[t])
  }

  /** Every edge names a live transaction whose input spends that output. */
  ghost predicate EdgesOk(txstore: map<Txid, Tx>, edges: map<OutPoint, Edge>) {
    forall o :: o in edges ==> edges[o].txid in txstore && SpendsVia(txstore[edges[o].txid], edges[o].vin, o)
  }

  predicate SpendsVia(tx: Tx, vin: nat, o: OutPoint) { vin < |tx.inputs| && tx.inputs[vin] == Spends(o) }

  ghost predicate TxsOk(l: Ledger, txstore: map<Txid, Tx>) {
    forall t :: t in txstore ==> txstore[t].txid == t && Genuine(l, txstore[t])
  }

  /** Fee: what the inputs bring less what the outputs take. */
  function Brought(l: Ledger, tx: Tx, n: nat): int
    requires n <= |tx.inputs|
  {
    if n == 0 then 0
    else Brought(l, tx, n - 1) + if tx.inputs[n - 1].Spends? then TxoOf(l, tx.inputs[n - 1].prev).value else 0
  }

  function Taken(tx: Tx, n: nat): int
    requires n <= |tx.outputs|
  {
    if n == 0 then 0 else Taken(tx, n - 1) + tx.outputs[n - 1].value
  }

  function FeeOf(l: Ledger, tx: Tx): int { Brought(l, tx, |tx.inputs|) - Taken(tx, |tx.outputs|) }

  ghost predicate FeesOk(l: Ledger, txstore: map<Txid, Tx>, feeinfo: map<Txid, int>) {
    feeinfo.Keys == txstore.Keys && forall t :: t in txstore ==> feeinfo[t] == FeeOf(l, txstore[t])
  }

  // ----- Pushing a transaction's entries -----------------------------------------------------------------

  /** In the middle of adding `tx`: the live entries, and those of its first outputs and inputs. */
  ghost predicate Pushing(l: Ledger, txstore: map<Txid, Tx>, tx: Tx, v: nat, n: nat,
                          history: map<ScriptHash, seq<Info>>) {
    && tx.txid !in txstore && Tidy(history)
    && forall s, i {:trigger Has(history, s, i)} ::
         Has(history, s, i) <==> Live(l, txstore, s, i) || GivesUpTo(l, tx, v, n, s, i)
  }

  function Pushed(history: map<ScriptHash, seq<Info>>, s: ScriptHash, i: Info): map<ScriptHash, seq<Info>> {
    history[s := (if s in history then history[s] else []) + [i]]
  }

  lemma {:induction false} PushedHas(history: map<ScriptHash, seq<Info>>, s: ScriptHash, i: Info)
    requires Tidy(history) && !Has(history, s, i)
    ensures Tidy(Pushed(history, s, i))
    ensures forall s', i' {:trigger Has(Pushed(history, s, i), s', i')} ::
              Has(Pushed(history, s, i), s', i') <==> Has(history, s', i') || (s' == s && i' == i)
  {
  }

  lemma {:induction false} PushFunding(l: Ledger, txstore: map<Txid, Tx>, tx: Tx, v: nat,
                                       history: map<ScriptHash, seq<Info>>)
    requires Pushing(l, txstore, tx, v, 0, history) && v < |tx.outputs|
    ensures var s, i := HashOf(l, tx.outputs[v]), Funding(tx.txid, v, tx.outputs[v].value);
            Pushing(l, txstore, tx, v + 1, 0, if Indexed(l, tx.outputs[v]) then Pushed(history, s, i) else history)
  {
    var s, i := HashOf(l, tx.outputs[v]), Funding(tx.txid, v, tx.outputs[v].value);
    assert !Has(history, s, i);
    if Indexed(l, tx.outputs[v]) { PushedHas(history, s, i); }
  }

  lemma {:induction false} PushSpending(l: Ledger, txstore: map<Txid, Tx>, tx: Tx, n: nat,
                                        history: map<ScriptHash, seq<Info>>)
    requires Pushing(l, txstore, tx, |tx.outputs|, n, history) && n < |tx.inputs| && tx.inputs[n].Spends?
    ensures var prev := tx.inputs[n].prev;
            var s, i := HashOf(l, TxoOf(l, prev)), Spending(tx.txid, n, prev, TxoOf(l, prev).value);
            Pushing(l, txstore, tx, |tx.outputs|, n + 1, Pushed(history, s, i))
  {
    var prev := tx.inputs[n].prev;
    var s, i := HashOf(l, TxoOf(l, prev)), Spending(tx.txid, n, prev, TxoOf(l, prev).value);
    assert !Has(history, s, i);
    PushedHas(history, s, i);
  }

  /** The history after pushing the entries of the first `v` outputs. */
  function FundingsPushed(l: Ledger, tx: Tx, v: nat, history: map<ScriptHash, seq<Info>>): map<ScriptHash, seq<Info>>
    requires v <= |tx.outputs|
  {
    if v == 0 then history
    else
      var before, txo := FundingsPushed(l, tx, v - 1, history), tx.outputs[v - 1];
      if Indexed(l, txo) then Pushed(before, HashOf(l, txo), Funding(tx.txid, v - 1, txo.value)) else before
  }

  /** The history after pushing also the entries of the first `n` inputs. */
  function SpendingsPushed(l: Ledger, tx: Tx, n: nat, history: map<ScriptHash, seq<Info>>): map<ScriptHash, seq<Info>>
    requires n <= |tx.inputs|
  {
    if n == 0 then history
    else
      var before := SpendingsPushed(l, tx, n - 1, history);
      if tx.inputs[n - 1].Coinbase? then before
      else
        var prev := tx.inputs[n - 1].prev;
        Pushed(before, HashOf(l, TxoOf(l, prev)), Spending(tx.txid, n - 1, prev, TxoOf(l, prev).value))
  }

  function AllPushed(l: Ledger, tx: Tx, history: map<ScriptHash, seq<Info>>): map<ScriptHash, seq<Info>> {
    SpendingsPushed(l, tx, |tx.inputs|, FundingsPushed(l, tx, |tx.outputs|, history))
  }

  lemma {:induction false} PushingOutputs(l: Ledger, txstore: map<Txid, Tx>, tx: Tx, v: nat,
                                          history: map<ScriptHash, seq<Info>>)
    requires Pushing(l, txstore, tx, 0, 0, history) && v <= |tx.outputs|
    ensures Pushing(l, txstore, tx, v, 0, FundingsPushed(l, tx, v, history))
  {
    if v > 0 {
      PushingOutputs(l, txstore, tx, v - 1, history);
      PushFunding(l, txstore, tx, v - 1, FundingsPushed(l, tx, v - 1, history));
    }
  }

  lemma {:induction false} PushingInputs(l: Ledger, txstore: map<Txid, Tx>, tx: Tx, n: nat,
                                         history: map<ScriptHash, seq<Info>>)
    requires Pushing(l, txstore, tx, |tx.outputs|, 0, history) && n <= |tx.inputs| && Genuine(l, tx)
    ensures Pushing(l, txstore, tx, |tx.outputs|, n, SpendingsPushed(l, tx, n, history))
  {
    if n > 0 {
      PushingInputs(l, txstore, tx, n - 1, history);
      PushSpending(l, txstore, tx, n - 1, SpendingsPushed(l, tx, n - 1, history));
    }
  }

  /** Pushing a new transaction's entries keeps every bucket exact. */
  lemma {:induction false} PushedAll(l: Ledger, txstore: map<Txid, Tx>, tx: Tx, history: map<ScriptHash, seq<Info>>)
    requires HistoryOk(l, txstore, history) && tx.txid !in txstore && Genuine(l, tx)
    ensures HistoryOk(l, txstore[tx.txid := tx], AllPushed(l, tx, history))
  {
    PushingOutputs(l, txstore, tx, |tx.outputs|, history);
    PushingInputs(l, txstore, tx, |tx.inputs|, FundingsPushed(l, tx, |tx.outputs|, history));
    PushingDone(l, txstore, tx, AllPushed(l, tx, history));
  }

  lemma {:induction false} PushingDone(l: Ledger, txstore: map<Txid, Tx>, tx: Tx, history: map<ScriptHash, seq<Info>>)
    requires Pushing(l, txstore, tx, |tx.outputs|, |tx.inputs|, history)
    ensures HistoryOk(l, txstore[tx.txid := tx], history)
  {
  }

  /** The scripts of the first `v` outputs that are indexed, and of the outputs the first `n` inputs spend. */
  function Scripts(l: Ledger, tx: Tx, v: nat, n: nat): set<ScriptHash>
    requires v <= |tx.outputs| && n <= |tx.inputs|
  {
    (set k | 0 <= k < v && Indexed(l, tx.outputs[k]) :: HashOf(l, tx.outputs[k]))
    + (set k | 0 <= k < n && tx.inputs[k].Spends? :: HashOf(l, TxoOf(l, tx.inputs[k].prev)))
  }

  function AllScripts(l: Ledger, tx: Tx): set<ScriptHash> { Scripts(l, tx, |tx.outputs|, |tx.inputs|) }

  lemma {:induction false} ScriptsAll(l: Ledger, tx: Tx)
    ensures ScriptsOf(l, tx, AllScripts(l, tx))
  {
    forall s | s in AllScripts(l, tx) ensures exists i :: Gives(l, tx, s, i) {
      if v :| 0 <= v < |tx.outputs| && Indexed(l, tx.outputs[v]) && HashOf(l, tx.outputs[v]) == s {
        assert Gives(l, tx, s, Funding(tx.txid, v, tx.outputs[v].value));
      } else {
        var n :| 0 <= n < |tx.inputs| && tx.inputs[n].Spends? && HashOf(l, TxoOf(l, tx.inputs[n].prev)) == s;
        var prev := tx.inputs[n].prev;
        assert Gives(l, tx, s, Spending(tx.txid, n, prev, TxoOf(l, prev).value));
      }
    }
  }

  method PushFundings(l: Ledger, tx: Tx, history: map<ScriptHash, seq<Info>>)
    returns (history': map<ScriptHash, seq<Info>>, scripts: set<ScriptHash>)
    ensures history' == FundingsPushed(l, tx, |tx.outputs|, history) && scripts == Scripts(l, tx, |tx.outputs|, 0)
  {
    history', scripts := history, {};
    for v := 0 to |tx.outputs|
      invariant history' == FundingsPushed(l, tx, v, history) && scripts == Scripts(l, tx, v, 0)
    {
      var txo := tx.outputs[v];
      if Indexed(l, txo) {
        scripts := scripts + {HashOf(l, txo)};
        history' := Pushed(history', HashOf(l, txo), Funding(tx.txid, v, txo.value));
      }
    }
  }

  /** The outputs spent were looked up, and are the right ones. */
  ghost predicate LookedUp(l: Ledger, tx: Tx, txos: map<OutPoint, TxOut>) {
    forall n :: 0 <= n < |tx.inputs| && tx.inputs[n].Spends? ==>
      tx.inputs[n].prev in txos && txos[tx.inputs[n].prev] == TxoOf(l, tx.inputs[n].prev)
  }

  method PushSpendings(l: Ledger, tx: Tx, txos: map<OutPoint, TxOut>, history: map<ScriptHash, seq<Info>>,
                       scripts: set<ScriptHash>)
    returns (history': map<ScriptHash, seq<Info>>, scripts': set<ScriptHash>)
    requires LookedUp(l, tx, txos) && scripts == Scripts(l, tx, |tx.outputs|, 0)
    ensures history' == SpendingsPushed(l, tx, |tx.inputs|, history) && scripts' == AllScripts(l, tx)
  {
    history', scripts' := history, scripts;
    for n := 0 to |tx.inputs|
      invariant history' == SpendingsPushed(l, tx, n, history) && scripts' == Scripts(l, tx, |tx.outputs|, n)
    {
      if tx.inputs[n].Spends? {
        var prev := tx.inputs[n].prev;
        var prevout := txos[prev];
        scripts' := scripts' + {HashOf(l, prevout)};
        history' := Pushed(history', HashOf(l, prevout), Spending(tx.txid, n, prev, prevout.value));
      }
    }
  }

  // ----- Edges ---------------------------------------------------------------------------------------------

  /** One of the first `n` inputs spends `o`. */
  ghost predicate SpentWithin(tx: Tx, n: nat, o: OutPoint) { exists i :: 0 <= i < n && SpendsVia(tx, i, o) }

  /** The transaction's spends take over their outputs; the other edges stay. */
  ghost predicate EdgesTaken(tx: Tx, n: nat, edges: map<OutPoint, Edge>, edges': map<OutPoint, Edge>) {
    forall o :: TakenAt(tx, n, edges, edges', o)
  }

  ghost predicate TakenAt(tx: Tx, n: nat, edges: map<OutPoint, Edge>, edges': map<OutPoint, Edge>, o: OutPoint) {
    if SpentWithin(tx, n, o) then o in edges' && edges'[o].txid == tx.txid && SpendsVia(tx, edges'[o].vin, o)
    else SameEdge(edges, edges', o)
  }

  predicate SameEdge(edges: map<OutPoint, Edge>, edges': map<OutPoint, Edge>, o: OutPoint) {
    (o in edges <==> o in edges') && (o in edges ==> edges[o] == edges'[o])
  }

  /** The edges after the first `n` inputs of the transaction took theirs. */
  function EdgesWith(tx: Tx, n: nat, edges: map<OutPoint, Edge>): map<OutPoint, Edge>
    requires n <= |tx.inputs|
  {
    if n == 0 then edges
    else
      var before := EdgesWith(tx, n - 1, edges);
      if tx.inputs[n - 1].Spends? then before[tx.inputs[n - 1].prev := Edge(tx.txid, n - 1)] else before
  }

  lemma {:induction false} EdgesWithTaken(tx: Tx, n: nat, edges: map<OutPoint, Edge>)
    requires n <= |tx.inputs| && forall i :: 0 <= i < n ==> tx.inputs[i].Spends?
    ensures EdgesTaken(tx, n, edges, EdgesWith(tx, n, edges))
  {
    if n > 0 {
      EdgesWithTaken(tx, n - 1, edges);
      TakeEdge(tx, n - 1, edges, EdgesWith(tx, n - 1, edges));
    }
  }

  method InsertEdges(tx: Tx, edges: map<OutPoint, Edge>) returns (edges': map<OutPoint, Edge>)
    ensures edges' == EdgesWith(tx, |tx.inputs|, edges)
  {
    edges' := edges;
    for i := 0 to |tx.inputs|
      invariant edges' == EdgesWith(tx, i, edges)
    {
      if tx.inputs[i].Spends? { edges' := edges'[tx.inputs[i].prev := Edge(tx.txid, i)]; }
    }
  }

  lemma {:induction false} TakeEdge(tx: Tx, i: nat, edges: map<OutPoint, Edge>, edges': map<OutPoint, Edge>)
    requires i < |tx.inputs| && tx.inputs[i].Spends? && EdgesTaken(tx, i, edges, edges')
    ensures EdgesTaken(tx, i + 1, edges, edges'[tx.inputs[i].prev := Edge(tx.txid, i)])
  {
    var n := i + 1;
    SpentNext(tx, i, n);
    var prev := tx.inputs[i].prev;
    var next := edges'[prev := Edge(tx.txid, i)];
    forall o ensures TakenAt(tx, n, edges, next, o) {
      assert TakenAt(tx, i, edges, edges', o);
    }
  }

  lemma {:induction false} SpentNext(tx: Tx, i: nat, n: nat)
    requires n == i + 1 <= |tx.inputs| && tx.inputs[i].Spends?
    ensures forall o :: SpentWithin(tx, n, o) <==> SpentWithin(tx, i, o) || o == tx.inputs[i].prev
  {
    var prev := tx.inputs[i].prev;
    forall o ensures SpentWithin(tx, n, o) <==> SpentWithin(tx, i, o) || o == prev {
      if SpentWithin(tx, n, o) {
        var k :| 0 <= k < n && SpendsVia(tx, k, o);
        assert k < i || o == prev;
      }
      if k :| 0 <= k < i && SpendsVia(tx, k, o) { assert k < n; }
      if o == prev { assert SpendsVia(tx, i, o); }
    }
  }

  /** The transaction's own edges go; edges taken over by a conflicting transaction stay. */
  ghost predicate EdgesDropped(tx: Tx, n: nat, edges: map<OutPoint, Edge>, edges': map<OutPoint, Edge>) {
    forall o ::
      if o in edges && edges[o].txid == tx.txid && SpentWithin(tx, n, o) then o !in edges'
      else SameEdge(edges, edges', o)
  }

  /** The edges after the first `n` inputs of the transaction gave up those still theirs. */
  function EdgesWithout(tx: Tx, n: nat, edges: map<OutPoint, Edge>): map<OutPoint, Edge>
    requires n <= |tx.inputs|
  {
    if n == 0 then edges
    else
      var before := EdgesWithout(tx, n - 1, edges);
      if tx.inputs[n - 1].Spends? && Owns(tx, before, tx.inputs[n - 1].prev) then before - {tx.inputs[n - 1].prev}
      else before
  }

  predicate Owns(tx: Tx, edges: map<OutPoint, Edge>, o: OutPoint) { o in edges && edges[o].txid == tx.txid }

  lemma {:induction false} EdgesWithoutDropped(tx: Tx, n: nat, edges: map<OutPoint, Edge>)
    requires n <= |tx.inputs| && forall i :: 0 <= i < n ==> tx.inputs[i].Spends?
    ensures EdgesDropped(tx, n, edges, EdgesWithout(tx, n, edges))
  {
    if n > 0 {
      EdgesWithoutDropped(tx, n - 1, edges);
      SpentNext(tx, n - 1, n);
    }
  }

  method RemoveEdges(tx: Tx, edges: map<OutPoint, Edge>) returns (edges': map<OutPoint, Edge>)
    ensures edges' == EdgesWithout(tx, |tx.inputs|, edges)
  {
    edges' := edges;
    for i := 0 to |tx.inputs|
      invariant edges' == EdgesWithout(tx, i, edges)
    {
      if tx.inputs[i].Spends? && Owns(tx, edges', tx.inputs[i].prev) {
        edges' := edges' - {tx.inputs[i].prev};
      }
    }
  }

  lemma {:induction false} TakenEdgesOk(txstore: map<Txid, Tx>, tx: Tx, edges: map<OutPoint, Edge>,
                                        edges': map<OutPoint, Edge>)
    requires EdgesOk(txstore, edges) && tx.txid !in txstore && EdgesTaken(tx, |tx.inputs|, edges, edges')
    ensures EdgesOk(txstore[tx.txid := tx], edges')
  {
    forall o | o in edges'
      ensures edges'[o].txid in txstore[tx.txid := tx]
      ensures SpendsVia(txstore[tx.txid := tx][edges'[o].txid], edges'[o].vin, o)
    {
      assert TakenAt(tx, |tx.inputs|, edges, edges', o);
    }
  }

  lemma {:induction false} OwnSpend(tx: Tx, vin: nat, o: OutPoint)
    requires SpendsVia(tx, vin, o)
    ensures SpentWithin(tx, |tx.inputs|, o)
  {
  }

  lemma {:induction false} DroppedEdgesOk(txstore: map<Txid, Tx>, tx: Tx, edges: map<OutPoint, Edge>,
                                          edges': map<OutPoint, Edge>)
    requires EdgesOk(txstore, edges) && tx.txid in txstore && txstore[tx.txid] == tx
    requires EdgesDropped(tx, |tx.inputs|, edges, edges')
    ensures EdgesOk(txstore - {tx.txid}, edges')
  {
    forall o | o in edges'
      ensures edges'[o].txid in txstore - {tx.txid} && SpendsVia(txstore[edges'[o].txid], edges'[o].vin, o)
    {
      assert SameEdge(edges, edges', o);
      if edges[o].txid == tx.txid {
        OwnSpend(tx, edges[o].vin, o);
        assert false;
      }
    }
  }

  // ----- Pruning history -----------------------------------------------------------------------------------

  function Without(b: seq<Info>, t: Txid): seq<Info> {
    if b == [] then [] else if b[0].txid != t then [b[0]] + Without(b[1..], t) else Without(b[1..], t)
  }

  lemma {:induction false} WithoutKeeps(b: seq<Info>, t: Txid)
    ensures forall i :: i in Without(b, t) <==> i in b && i.txid != t
    ensures |Without(b, t)| <= |b| && (|Without(b, t)| == |b| <==> forall i :: i in b ==> i.txid != t)
    ensures NoDuplicates(b) ==> NoDuplicates(Without(b, t))
  {
    if b != [] {
      WithoutKeeps(b[1..], t);
      var rest := Without(b[1..], t);
      assert forall i :: i in b <==> i == b[0] || i in b[1..];
      if NoDuplicates(b) { assert b[0] !in b[1..] && NoDuplicates(b[1..]); }
    }
  }

  /** Every named bucket is there and holds an entry of the transaction: otherwise pruning panics. */
  predicate CanPrune(history: map<ScriptHash, seq<Info>>, scripts: set<ScriptHash>, t: Txid) {
    forall s :: s in scripts ==> s in history && |Without(history[s], t)| < |history[s]|
  }

  /** The named buckets without the transaction's entries; emptied buckets go. */
  function Pruned(history: map<ScriptHash, seq<Info>>, scripts: set<ScriptHash>, t: Txid): map<ScriptHash, seq<Info>> {
    map s | s in history && (s in scripts ==> Without(history[s], t) != []) ::
      if s in scripts then Without(history[s], t) else history[s]
  }

  /** Exactly the entries of the transaction go. */
  lemma {:induction false} PrunedHas(history: map<ScriptHash, seq<Info>>, scripts: set<ScriptHash>, t: Txid)
    requires Tidy(history)
    ensures Tidy(Pruned(history, scripts, t))
    ensures forall s, i {:trigger Has(Pruned(history, scripts, t), s, i)} ::
              Has(Pruned(history, scripts, t), s, i) <==> Has(history, s, i) && !(s in scripts && i.txid == t)
  {
    forall s | s in history
      ensures forall i :: i in Without(history[s], t) <==> i in history[s] && i.txid != t
      ensures NoDuplicates(Without(history[s], t))
    {
      WithoutKeeps(history[s], t);
    }
  }

  /** Pruning a live transaction's buckets cannot panic and leaves every bucket exact. */
  lemma {:induction false} PrunedAll(l: Ledger, txstore: map<Txid, Tx>, t: Txid, scripts: set<ScriptHash>,
                                     history: map<ScriptHash, seq<Info>>)
    requires HistoryOk(l, txstore, history) && t in txstore && txstore[t].txid == t
    requires ScriptsOf(l, txstore[t], scripts)
    ensures CanPrune(history, scripts, t) && HistoryOk(l, txstore - {t}, Pruned(history, scripts, t))
  {
    forall s | s in scripts ensures s in history && |Without(history[s], t)| < |history[s]| {
      var i :| Gives(l, txstore[t], s, i);
      assert Live(l, txstore, s, i);
      assert Has(history, s, i);
      WithoutKeeps(history[s], t);
    }
    PrunedHas(history, scripts, t);
    PrunedLive(l, txstore, t, scripts, history);
  }

  lemma {:induction false} PrunedLive(l: Ledger, txstore: map<Txid, Tx>, t: Txid, scripts: set<ScriptHash>,
                                      history: map<ScriptHash, seq<Info>>)
    requires HistoryOk(l, txstore, history) && t in txstore && ScriptsOf(l, txstore[t], scripts)
    ensures forall s, i {:trigger Live(l, txstore - {t}, s, i)} ::
              Live(l, txstore - {t}, s, i) <==> Has(history, s, i) && !(s in scripts && i.txid == t)
  {
    forall s, i ensures Live(l, txstore - {t}, s, i) <==> Has(history, s, i) && !(s in scripts && i.txid == t) {
      assert Has(history, s, i) <==> Live(l, txstore, s, i);
      assert Gives(l, txstore[t], s, i) ==> s in scripts;
    }
  }

  method PruneHistoryEntries(history: map<ScriptHash, seq<Info>>, scripts: set<ScriptHash>, t: Txid)
    returns (history': map<ScriptHash, seq<Info>>)
    requires CanPrune(history, scripts, t)
    ensures history' == Pruned(history, scripts, t)
  {
    history' := history;
    var todo := scripts;
    while todo != {}
      invariant todo <= scripts && history' == Pruned(history, scripts - todo, t)
      decreases todo
    {
      var s :| s in todo;
      var entries := Without(history'[s], t);
      PrunedNext(history, scripts, todo, s, t);
      history' := if entries == [] then history' - {s} else history'[s := entries];
      todo := todo - {s};
    }
    assert scripts - {} == scripts;
  }

  lemma {:induction false} PrunedNext(history: map<ScriptHash, seq<Info>>, scripts: set<ScriptHash>,
                                      todo: set<ScriptHash>, s: ScriptHash, t: Txid)
    requires s in todo && todo <= scripts && s in history
    ensures var before, entries := Pruned(history, scripts - todo, t), Without(history[s], t);
            && s in before && before[s] == history[s]
            && (if entries == [] then before - {s} else before[s := entries]) ==
               Pruned(history, scripts - (todo - {s}), t)
  {
    assert scripts - (todo - {s}) == scripts - todo + {s};
  }

  // ----- Looking up what a batch spends ------------------------------------------------------------------

  type Batch = map<Txid, Tx>

  /** `get_prev_outpoints`. */
  function Prevouts(tx: Tx): set<OutPoint> { set n | 0 <= n < |tx.inputs| && tx.inputs[n].Spends? :: tx.inputs[n].prev }

  /** A transaction of the set makes this output. */
  predicate Makes(txs: map<Txid, Tx>, o: OutPoint) { o.txid in txs && o.vout < |txs[o.txid].outputs| }

  /** Everything the batch spends is made in it, in the mempool, or on chain. */
  ghost predicate Resolves(batch: Batch, txstore: map<Txid, Tx>, onChain: set<OutPoint>) {
    forall t, o :: t in batch && o in Prevouts(batch[t]) ==> Makes(batch, o) || Makes(txstore, o) || o in onChain
  }

  ghost predicate BatchOk(l: Ledger, batch: Batch) {
    forall t :: t in batch ==> batch[t].txid == t && Genuine(l, batch[t])
  }

  /** Looks an output up in the batch, then in the mempool, then on chain. */
  function Lookup(l: Ledger, batch: Batch, txstore: map<Txid, Tx>, o: OutPoint): TxOut {
    if Makes(batch, o) then batch[o.txid].outputs[o.vout]
    else if Makes(txstore, o) then txstore[o.txid].outputs[o.vout]
    else TxoOf(l, o)
  }

  lemma {:induction false} LookupRight(l: Ledger, batch: Batch, txstore: map<Txid, Tx>, o: OutPoint)
    requires BatchOk(l, batch) && TxsOk(l, txstore)
    ensures Lookup(l, batch, txstore, o) == TxoOf(l, o)
  {
    assert OutPoint(o.txid, o.vout) == o;
  }

  /** Finds every output a batch spends, or fails if one is missing. */
  method LookupBatch(l: Ledger, batch: Batch, txstore: map<Txid, Tx>, onChain: set<OutPoint>) returns (ok: bool,
                     txos: map<OutPoint, TxOut>)
    requires BatchOk(l, batch) && TxsOk(l, txstore)
    ensures ok <==> Resolves(batch, txstore, onChain)
    ensures ok ==> forall t :: t in batch ==> LookedUp(l, batch[t], txos)
  {
    hide Genuine;
    var spent := set t, o | t in batch && o in Prevouts(batch[t]) :: o;
    var missing := set o | o in spent && !Makes(batch, o) && !Makes(txstore, o) && o !in onChain;
    if missing != {} {
      var o :| o in missing;
      return false, map[];
    }
    txos := map o | o in spent :: Lookup(l, batch, txstore, o);
    AllLookedUp(l, batch, txstore, spent, txos);
    forall t, o | t in batch && o in Prevouts(batch[t]) ensures Makes(batch, o) || Makes(txstore, o) || o in onChain {
      assert o in spent && o !in missing;
    }
    ok := true;
  }

  // ----- The five maps as one value ---------------------------------------------------------------------

  datatype Pool = Pool(txstore: map<Txid, Tx>, feeinfo: map<Txid, int>, scripts: map<Txid, set<ScriptHash>>,
                       history: map<ScriptHash, seq<Info>>, edges: map<OutPoint, Edge>)

  const EMPTY_POOL: Pool := Pool(map[], map[], map[], map[], map[])

  /** The five maps are in step. */
  ghost predicate PoolOk(l: Ledger, p: Pool) {
    && TxsOk(l, p.txstore) && FeesOk(l, p.txstore, p.feeinfo) && ScriptsOk(l, p.txstore, p.scripts)
    && HistoryOk(l, p.txstore, p.history) && EdgesOk(p.txstore, p.edges)
  }

  /** What adding one transaction does to each map. */
  function AddTx(l: Ledger, p: Pool, tx: Tx): Pool {
    Pool(p.txstore[tx.txid := tx], p.feeinfo[tx.txid := FeeOf(l, tx)], p.scripts[tx.txid := AllScripts(l, tx)],
         AllPushed(l, tx, p.history), EdgesWith(tx, |tx.inputs|, p.edges))
  }

  lemma {:induction false} AddTxOk(l: Ledger, p: Pool, tx: Tx)
    requires PoolOk(l, p) && Genuine(l, tx) && tx.txid !in p.txstore
    ensures PoolOk(l, AddTx(l, p, tx))
  {
    PushedAll(l, p.txstore, tx, p.history);
    EdgesWithTaken(tx, |tx.inputs|, p.edges);
    TakenEdgesOk(p.txstore, tx, p.edges, EdgesWith(tx, |tx.inputs|, p.edges));
    ScriptsAll(l, tx);
    Added(l, p.txstore, p.feeinfo, p.scripts, tx, AllScripts(l, tx));
  }

  /** No map misses an entry that evicting the transaction looks for. */
  predicate CanRemove(p: Pool, t: Txid) {
    t in p.txstore && t in p.feeinfo && t in p.scripts && CanPrune(p.history, p.scripts[t], t)
  }

  /** What evicting one transaction does to each map. */
  function RemoveTx(p: Pool, t: Txid): Pool
    requires CanRemove(p, t)
  {
    var tx := p.txstore[t];
    Pool(p.txstore - {t}, p.feeinfo - {t}, p.scripts - {t}, Pruned(p.history, p.scripts[t], t),
         EdgesWithout(tx, |tx.inputs|, p.edges))
  }

  lemma {:induction false} RemoveTxOk(l: Ledger, p: Pool, t: Txid)
    requires PoolOk(l, p) && t in p.txstore
    ensures CanRemove(p, t) && PoolOk(l, RemoveTx(p, t))
  {
    var tx := p.txstore[t];
    PrunedAll(l, p.txstore, t, p.scripts[t], p.history);
    EdgesWithoutDropped(tx, |tx.inputs|, p.edges);
    DroppedEdgesOk(p.txstore, tx, p.edges, EdgesWithout(tx, |tx.inputs|, p.edges));
    Removed(l, p.txstore, p.feeinfo, p.scripts, t);
  }

  /** A listing of a set, in any order. */
  ghost predicate Enumerates(order: seq<Txid>, ids: set<Txid>) {
    NoDuplicates(order) && forall t :: t in order <==> t in ids
  }

  /** The pool after adding the listed transactions of a batch, in that order. */
  function AddAll(l: Ledger, p: Pool, batch: Batch, order: seq<Txid>): Pool
    requires forall t :: t in order ==> t in batch
  {
    if order == [] then p
    else
      var n := |order| - 1;
      assert order[n] in order;
      AddTx(l, AddAll(l, p, batch, order[..n]), batch[order[n]])
  }

  /** The pool after evicting the listed transactions, in that order; `None` if something is missing. */
  function RemoveAll(p: Pool, order: seq<Txid>): Option<Pool> {
    if order == [] then Some(p)
    else
      var n := |order| - 1;
      match RemoveAll(p, order[..n])
      case None => None
      case Some(q) => if CanRemove(q, order[n]) then Some(RemoveTx(q, order[n])) else None
  }

  function Part(batch: Batch, order: seq<Txid>): Batch { map t | t in batch && t in order :: batch[t] }

  lemma {:induction false} PartNext(a: map<Txid, Tx>, batch: Batch, rest: seq<Txid>, t: Txid)
    requires t in batch && t !in a
    ensures (a + Part(batch, rest))[t := batch[t]] == a + Part(batch, rest + [t])
    ensures t !in rest ==> t !in a + Part(batch, rest)
  {
  }

  /** Adding new transactions keeps the maps in step, whatever the order. */
  lemma {:induction false} AddAllOk(l: Ledger, p: Pool, batch: Batch, order: seq<Txid>)
    requires PoolOk(l, p) && BatchOk(l, batch) && batch.Keys !! p.txstore.Keys
    requires NoDuplicates(order) && forall t :: t in order ==> t in batch
    ensures var q := AddAll(l, p, batch, order); PoolOk(l, q) && q.txstore == p.txstore + Part(batch, order)
  {
    if order == [] {
    } else {
      hide PoolOk;
      hide Genuine;
      hide Part;
      var n := |order| - 1;
      var rest, t := order[..n], order[n];
      assert order == rest + [t];
      assert t in order && t !in rest && NoDuplicates(rest);
      AddAllOk(l, p, batch, rest);
      hide AddAll;
      AddOneMore(l, p, batch, rest, t, order);
    }
  }

  lemma {:induction false} AddOneMore(l: Ledger, p: Pool, batch: Batch, rest: seq<Txid>, t: Txid, order: seq<Txid>)
    requires BatchOk(l, batch) && batch.Keys !! p.txstore.Keys && t in batch && t !in rest && order == rest + [t]
    requires (forall x :: x in rest ==> x in batch) && (forall x :: x in order ==> x in batch)
    requires PoolOk(l, AddAll(l, p, batch, rest))
    requires AddAll(l, p, batch, rest).txstore == p.txstore + Part(batch, rest)
    ensures var q := AddAll(l, p, batch, order); PoolOk(l, q) && q.txstore == p.txstore + Part(batch, order)
  {
    hide PoolOk;
    hide Genuine;
    hide Part;
    assert order[..|rest|] == rest;
    PartNext(p.txstore, batch, rest, t);
    AddTxOk(l, AddAll(l, p, batch, rest), batch[t]);
    StoreGrows(l, AddAll(l, p, batch, rest), batch[t]);
    hide AddTx;
  }

  lemma {:induction false} StoreGrows(l: Ledger, p: Pool, tx: Tx)
    ensures AddTx(l, p, tx).txstore == p.txstore[tx.txid := tx]
  {
  }

  function Ids(order: seq<Txid>): set<Txid> { set t | t in order }

  lemma {:induction false} LessNext(a: map<Txid, Tx>, rest: seq<Txid>, t: Txid)
    requires t in a
    ensures (a - Ids(rest)) - {t} == a - Ids(rest + [t])
    ensures t !in rest ==> t in a - Ids(rest)
  {
  }

  lemma {:induction false} StoreShrinks(p: Pool, t: Txid)
    requires CanRemove(p, t)
    ensures RemoveTx(p, t).txstore == p.txstore - {t}
  {
  }

  /** Evicting live transactions finds everything it looks for and keeps the maps in step, whatever the order. */
  lemma {:induction false} RemoveAllOk(l: Ledger, p: Pool, order: seq<Txid>)
    requires PoolOk(l, p) && NoDuplicates(order) && forall t :: t in order ==> t in p.txstore
    ensures var q := RemoveAll(p, order); q.Some? && PoolOk(l, q.value) && q.value.txstore == p.txstore - Ids(order)
  {
    if order == [] {
      assert p.txstore - {} == p.txstore;
    } else {
      hide PoolOk;
      hide CanRemove;
      hide Ids;
      hide RemoveAll;
      var n := |order| - 1;
      var rest, t := order[..n], order[n];
      assert order == rest + [t];
      assert t in order && t !in rest && NoDuplicates(rest);
      RemoveAllOk(l, p, rest);
      RemoveOneMore(l, p, rest, t);
    }
  }

  lemma {:induction false} RemoveOneMore(l: Ledger, p: Pool, rest: seq<Txid>, t: Txid)
    requires RemoveAll(p, rest).Some? && PoolOk(l, RemoveAll(p, rest).value) && t in p.txstore && t !in rest
    requires RemoveAll(p, rest).value.txstore == p.txstore - Ids(rest)
    ensures var q := RemoveAll(p, rest + [t]);
            q.Some? && PoolOk(l, q.value) && q.value.txstore == p.txstore - Ids(rest + [t])
  {
    hide PoolOk;
    hide CanRemove;
    hide Ids;
    hide RemoveTx;
    assert (rest + [t])[..|rest|] == rest;
    LessNext(p.txstore, rest, t);
    RemoveTxOk(l, RemoveAll(p, rest).value, t);
    StoreShrinks(RemoveAll(p, rest).value, t);
  }

  class Mempool {
    const l: Ledger
    var txstore: map<Txid, Tx>
    var feeinfo: map<Txid, int>
    var scripthashes: map<Txid, set<ScriptHash>>
    var history: map<ScriptHash, seq<Info>>
    var edges: map<OutPoint, Edge>

    ghost function Contents(): Pool
      reads this
    {
      Pool(txstore, feeinfo, scripthashes, history, edges)
    }

    ghost predicate Valid()
      reads this
    {
      PoolOk(l, Contents())
    }

    constructor (l: Ledger)
      ensures Valid() && Contents() == EMPTY_POOL && this.l == l
    {
      this.l := l;
      txstore, feeinfo, scripthashes, history, edges := map[], map[], map[], map[], map[];
    }

    /** Indexes one transaction of a batch whose spent outputs were looked up. */
    method AddOne(tx: Tx, txos: map<OutPoint, TxOut>)
      requires LookedUp(l, tx, txos)
      modifies this
      ensures Contents() == AddTx(l, old(Contents()), tx)
    {
      hide FundingsPushed;
      hide SpendingsPushed;
      hide EdgesWith;
      hide Scripts;
      txstore := txstore[tx.txid := tx];
      feeinfo := feeinfo[tx.txid := FeeOf(l, tx)];
      var scripts;
      history, scripts := PushFundings(l, tx, history);
      history, scripts := PushSpendings(l, tx, txos, history, scripts);
      scripthashes := scripthashes[tx.txid := scripts];
      edges := InsertEdges(tx, edges);
    }

    /** `add`: all of the batch, or, if an output it spends cannot be found, nothing. */
    method Add(batch: Batch, onChain: set<OutPoint>) returns (ok: bool, ghost order: seq<Txid>)
      requires Valid() && BatchOk(l, batch) && batch.Keys !! txstore.Keys
      modifies this
      ensures Valid()
      ensures ok <==> Resolves(batch, old(txstore), onChain)
      ensures ok ==> txstore == old(txstore) + batch
      ensures ok ==> Enumerates(order, batch.Keys) && Contents() == AddAll(l, old(Contents()), batch, order)
      ensures !ok ==> unchanged(this)
    {
      var txos;
      order := [];
      ok, txos := LookupBatch(l, batch, txstore, onChain);
      if ok { order := Insert(batch, txos); }
    }

    /** The batch's transactions are taken in whatever order the map yields them. */
    method Insert(batch: Batch, txos: map<OutPoint, TxOut>) returns (ghost order: seq<Txid>)
      requires Valid() && BatchOk(l, batch) && batch.Keys !! txstore.Keys
      requires forall t :: t in batch ==> LookedUp(l, batch[t], txos)
      modifies this
      ensures Valid() && txstore == old(txstore) + batch
      ensures Enumerates(order, batch.Keys) && Contents() == AddAll(l, old(Contents()), batch, order)
    {
      hide PoolOk;
      hide Genuine;
      hide LookedUp;
      hide AddTx;
      var todo := batch.Keys;
      order := [];
      while todo != {}
        invariant todo <= batch.Keys && Enumerates(order, batch.Keys - todo)
        invariant Contents() == AddAll(l, old(Contents()), batch, order)
        decreases todo
      {
        var t :| t in todo;
        AddOne(batch[t], txos);
        AddedNext(l, old(Contents()), batch, order, t);
        todo, order := todo - {t}, order + [t];
      }
      AddAllOk(l, old(Contents()), batch, order);
      assert Part(batch, order) == batch;
    }

    /** Evicts one transaction. */
    method RemoveOne(t: Txid)
      requires CanRemove(Contents(), t)
      modifies this
      ensures Contents() == RemoveTx(old(Contents()), t)
    {
      var tx := txstore[t];
      txstore := txstore - {t};
      feeinfo := feeinfo - {t};
      var scripts := scripthashes[t];
      scripthashes := scripthashes - {t};
      history := PruneHistoryEntries(history, scripts, t);
      edges := RemoveEdges(tx, edges);
    }

    /** `remove`. Asking for live transactions only, no lookup in it can miss. */
    method Remove(toRemove: set<Txid>) returns (ghost order: seq<Txid>)
      requires Valid() && toRemove <= txstore.Keys
      modifies this
      ensures Valid() && txstore == old(txstore) - toRemove
      ensures Enumerates(order, toRemove) && RemoveAll(old(Contents()), order) == Some(Contents())
    {
      hide PoolOk;
      hide CanRemove;
      hide RemoveTx;
      var todo := toRemove;
      order := [];
      while todo != {}
        invariant todo <= toRemove && Enumerates(order, toRemove - todo)
        invariant RemoveAll(old(Contents()), order) == Some(Contents())
        decreases todo
      {
        var t :| t in todo;
        RemovableNext(l, old(Contents()), order, t);
        RemoveOne(t);
        todo, order := todo - {t}, order + [t];
      }
      RemoveAllOk(l, old(Contents()), order);
      assert Ids(order) == toRemove;
    }
  }

  lemma {:induction false} AddedNext(l: Ledger, p: Pool, batch: Batch, order: seq<Txid>, t: Txid)
    requires t in batch && t !in order && NoDuplicates(order) && forall x :: x in order ==> x in batch
    ensures NoDuplicates(order + [t]) && (forall x :: x in order + [t] <==> x in order || x == t)
    ensures AddAll(l, p, batch, order + [t]) == AddTx(l, AddAll(l, p, batch, order), batch[t])
  {
    hide AddTx;
    assert (order + [t])[..|order|] == order;
  }

  /** After evicting some live transactions, another one can go. */
  lemma {:induction false} RemovableNext(l: Ledger, p: Pool, order: seq<Txid>, t: Txid)
    requires PoolOk(l, p) && NoDuplicates(order) && t !in order && t in p.txstore
    requires forall x :: x in order ==> x in p.txstore
    ensures NoDuplicates(order + [t]) && (forall x :: x in order + [t] <==> x in order || x == t)
    ensures RemoveAll(p, order).Some? && CanRemove(RemoveAll(p, order).value, t)
    ensures RemoveAll(p, order + [t]) == Some(RemoveTx(RemoveAll(p, order).value, t))
  {
    hide PoolOk;
    hide CanRemove;
    RemoveAllOk(l, p, order);
    RemoveTxOk(l, RemoveAll(p, order).value, t);
    assert (order + [t])[..|order|] == order;
  }

  lemma {:induction false} Added(l: Ledger, txstore: map<Txid, Tx>, feeinfo: map<Txid, int>,
                                 scripts: map<Txid, set<ScriptHash>>, tx: Tx, own: set<ScriptHash>)
    requires TxsOk(l, txstore) && FeesOk(l, txstore, feeinfo) && ScriptsOk(l, txstore, scripts)
    requires Genuine(l, tx) && ScriptsOf(l, tx, own)
    ensures var more := txstore[tx.txid := tx];
            TxsOk(l, more) && FeesOk(l, more, feeinfo[tx.txid := FeeOf(l, tx)])
            && ScriptsOk(l, more, scripts[tx.txid := own])
  {
  }

  lemma {:induction false} Removed(l: Ledger, txstore: map<Txid, Tx>, feeinfo: map<Txid, int>,
                                   scripts: map<Txid, set<ScriptHash>>, t: Txid)
    requires TxsOk(l, txstore) && FeesOk(l, txstore, feeinfo) && ScriptsOk(l, txstore, scripts)
    ensures TxsOk(l, txstore - {t}) && FeesOk(l, txstore - {t}, feeinfo - {t})
    ensures ScriptsOk(l, txstore - {t}, scripts - {t})
  {
  }

  lemma {:induction false} AllLookedUp(l: Ledger, batch: Batch, txstore: map<Txid, Tx>, spent: set<OutPoint>,
                                       txos: map<OutPoint, TxOut>)
    requires BatchOk(l, batch) && TxsOk(l, txstore) && spent == set t, o | t in batch && o in Prevouts(batch[t]) :: o
    requires txos == map o | o in spent :: Lookup(l, batch, txstore, o)
    ensures forall t :: t in batch ==> LookedUp(l, batch[t], txos)
  {
    forall t, n | t in batch && 0 <= n < |batch[t].inputs| && batch[t].inputs[n].Spends?
      ensures batch[t].inputs[n].prev in txos && txos[batch[t].inputs[n].prev] == TxoOf(l, batch[t].inputs[n].prev)
    {
      assert batch[t].inputs[n].prev in Prevouts(batch[t]);
      LookupRight(l, batch, txstore, batch[t].inputs[n].prev);
    }
  }
}
