/**
 Syncing the mempool view with the daemon: the two closure loops that leave out transactions with
 missing ancestors, and runs of one updater with any number of broadcasting threads.
 */
module MempoolSync {
  import opened HistoryKeys
  import opened HeaderChain
  import opened ChainIndex
  import opened UnspentOutputs
  import opened Mempool
  import opened Wrappers

  // ----- Descendants ---------------------------------------------------------------------------------

  /** Some input spends from one of these transactions. */
  predicate ChildOf(tx: Tx, ids: set<Txid>) {
    exists n :: 0 <= n < |tx.inputs| && tx.inputs[n].Spends? && tx.inputs[n].prev.txid in ids
  }

  ghost predicate Closed(batch: Batch, d: set<Txid>) {
    forall t :: t in batch && ChildOf(batch[t], d) ==> t in d
  }

  /** `d` is `base` with all its descendants in the batch, and nothing more. */
  ghost predicate Descendants(batch: Batch, base: set<Txid>, d: set<Txid>) {
    && base <= d && Closed(batch, d)
    && forall x {:trigger Closed(batch, x)} :: base <= x && Closed(batch, x) ==> d <= x
  }

  function Children(batch: Batch, ids: set<Txid>): set<Txid> { set t | t in batch && ChildOf(batch[t], ids) }

  /** While the loop runs: nothing superfluous, and only children of the frontier still to find. */
  ghost predicate Spreading(batch: Batch, base: set<Txid>, d: set<Txid>, frontier: set<Txid>) {
    && base <= d && frontier <= d
    && (forall t :: t in batch && ChildOf(batch[t], d) ==> t in d || ChildOf(batch[t], frontier))
    && (forall x {:trigger Closed(batch, x)} :: base <= x && Closed(batch, x) ==> d <= x)
  }

  lemma {:induction false} SpreadMore(batch: Batch, base: set<Txid>, d: set<Txid>, frontier: set<Txid>)
    requires Spreading(batch, base, d, frontier)
    ensures Spreading(batch, base, d + Children(batch, frontier), Children(batch, frontier) - d)
  {
    var next := Children(batch, frontier) - d;
    var d' := d + Children(batch, frontier);
    forall t | t in batch && ChildOf(batch[t], d') ensures t in d' || ChildOf(batch[t], next) {
      var n :| 0 <= n < |batch[t].inputs| && batch[t].inputs[n].Spends? && batch[t].inputs[n].prev.txid in d';
      assert batch[t].inputs[n].prev.txid in d ==> ChildOf(batch[t], d);
    }
    forall x | base <= x && Closed(batch, x) ensures d' <= x {
      forall t | t in Children(batch, frontier) ensures t in x {
        var n :| 0 <= n < |batch[t].inputs| && batch[t].inputs[n].Spends? && batch[t].inputs[n].prev.txid in frontier;
        assert ChildOf(batch[t], x);
      }
    }
  }

  lemma {:induction false} SpreadDone(batch: Batch, base: set<Txid>, d: set<Txid>)
    requires Spreading(batch, base, d, {})
    ensures Descendants(batch, base, d)
  {
  }

  // ----- Dropping what cannot be resolved -----------------------------------------------------------------

  predicate Found(txstore: map<Txid, Tx>, onChain: set<OutPoint>, o: OutPoint) { Makes(txstore, o) || o in onChain }

  /** It spends an output that neither the batch nor the mempool nor the chain has. */
  predicate Unresolvable(batch: Batch, txstore: map<Txid, Tx>, onChain: set<OutPoint>, tx: Tx) {
    exists o :: o in Prevouts(tx) && !Makes(batch, o) && !Found(txstore, onChain, o)
  }

  function Hopeless(batch: Batch, txstore: map<Txid, Tx>, onChain: set<OutPoint>): set<Txid> {
    set t | t in batch && Unresolvable(batch, txstore, onChain, batch[t])
  }

  /** `drop_unresolvable` removes the hopeless transactions and all their descendants in the batch. */
  method DropUnresolvable(batch: Batch, txstore: map<Txid, Tx>, onChain: set<OutPoint>) returns (kept: Batch,
                          dropped: set<Txid>)
    ensures Descendants(batch, Hopeless(batch, txstore, onChain), dropped) && dropped <= batch.Keys
    ensures kept == batch - dropped
  {
    dropped := Hopeless(batch, txstore, onChain);
    ghost var base := dropped;
    var frontier := dropped;
    while frontier != {}
      invariant Spreading(batch, base, dropped, frontier) && dropped <= batch.Keys
      decreases batch.Keys - dropped, frontier
    {
      SpreadMore(batch, base, dropped, frontier);
      ghost var before := dropped;
      assert dropped + Children(batch, frontier) == dropped + (Children(batch, frontier) - dropped);
      frontier := Children(batch, frontier) - dropped;
      dropped := dropped + frontier;
      assert frontier != {} ==> batch.Keys - dropped < batch.Keys - before;
    }
    SpreadDone(batch, base, dropped);
    kept := batch - dropped;
  }

  /** What remains can be added. */
  lemma {:induction false} RemainderResolves(batch: Batch, txstore: map<Txid, Tx>, onChain: set<OutPoint>, d: set<Txid>)
    requires Descendants(batch, Hopeless(batch, txstore, onChain), d)
    ensures Resolves(batch - d, txstore, onChain)
  {
    forall t, o | t in batch - d && o in Prevouts((batch - d)[t])
      ensures Makes(batch - d, o) || Makes(txstore, o) || o in onChain
    {
      var tx := batch[t];
      var n :| 0 <= n < |tx.inputs| && tx.inputs[n].Spends? && tx.inputs[n].prev == o;
      assert t !in Hopeless(batch, txstore, onChain);
      assert o.txid in d ==> ChildOf(tx, d);
    }
  }

  /** Part of a batch. */
  ghost predicate PartOf(sub: Batch, batch: Batch) { forall t :: t in sub ==> t in batch && sub[t] == batch[t] }

  /** Some output of this transaction is on chain. */
  predicate OutputOnChain(onChain: set<OutPoint>, t: Txid) { exists o :: o in onChain && o.txid == t }

  /** A transaction of the batch with an output on chain has there all it spends, too. */
  ghost predicate AncestorClosed(batch: Batch, onChain: set<OutPoint>) {
    forall t, o :: t in batch && OutputOnChain(onChain, t) && o in Prevouts(batch[t]) ==> o in onChain
  }

  /** A transaction id names the same transaction in the batch and on chain. */
  ghost predicate SameIds(l: Ledger, chain: seq<Header>, batch: Batch) {
    forall h, t {:trigger TxAt(l, chain, h, t)} ::
      InChain(l, chain, |chain|, h, t) && TxAt(l, chain, h, t).txid in batch ==>
        batch[TxAt(l, chain, h, t).txid] == TxAt(l, chain, h, t)
  }

  /** On a valid chain everything a transaction spends was made earlier, so what is found is closed under ancestors. */
  lemma {:induction false} ChainIsAncestorClosed(l: Ledger, chain: seq<Header>, batch: Batch, onChain: set<OutPoint>)
    requires ValidChain(l, chain) && OutputsOf(l, chain, onChain) && SameIds(l, chain, batch)
    ensures AncestorClosed(batch, onChain)
  {
    forall t, o | t in batch && OutputOnChain(onChain, t) && o in Prevouts(batch[t]) ensures o in onChain {
      var made :| made in onChain && made.txid == t;
      var h: nat, k: nat :| MakesSpendable(l, chain, h, k, made);
      assert TxAt(l, chain, h, k) == batch[t];
      var i: nat :| i < |batch[t].inputs| && batch[t].inputs[i] == Spends(o);
      assert SpendsAt(l, chain, |chain|, h, k, i, o);
      var h': nat, k': nat :| Earlier(h', k', h, k) && MakesAt(l, chain, |chain|, h', k', o)
                              && TxAt(l, chain, h', k').outputs[o.vout].spendable;
      assert MakesSpendable(l, chain, h', k', o);
    }
  }

  /** No output of a dropped transaction is found outside the batch. */
  lemma {:induction false} DroppedNotFound(batch: Batch, txstore: map<Txid, Tx>, onChain: set<OutPoint>, d: set<Txid>)
    requires Descendants(batch, Hopeless(batch, txstore, onChain), d)
    requires AncestorClosed(batch, onChain) && batch.Keys !! txstore.Keys
    ensures forall o: OutPoint {:trigger Found(txstore, onChain, o)} :: o.txid in d ==> !Found(txstore, onChain, o)
  {
    var x := set t | t in d && !OutputOnChain(onChain, t);
    AllInBatch(batch, Hopeless(batch, txstore, onChain), d);
    forall t | t in Hopeless(batch, txstore, onChain) ensures t in x {
      var o :| o in Prevouts(batch[t]) && !Makes(batch, o) && !Found(txstore, onChain, o);
    }
    forall t | t in batch && ChildOf(batch[t], x) ensures t in x {
      var n :| 0 <= n < |batch[t].inputs| && batch[t].inputs[n].Spends? && batch[t].inputs[n].prev.txid in x;
      assert ChildOf(batch[t], d) && batch[t].inputs[n].prev in Prevouts(batch[t]);
    }
    assert Closed(batch, x);
  }

  /** For every batch whose found ancestors are closed, no part that can be added loses anything. */
  lemma {:induction false} RemainderIsGreatest(batch: Batch, txstore: map<Txid, Tx>, onChain: set<OutPoint>,
                                               d: set<Txid>, sub: Batch)
    requires Descendants(batch, Hopeless(batch, txstore, onChain), d)
    requires AncestorClosed(batch, onChain) && batch.Keys !! txstore.Keys
    requires PartOf(sub, batch) && Resolves(sub, txstore, onChain)
    ensures sub.Keys !! d && PartOf(sub, batch - d)
  {
    var x := d - sub.Keys;
    AllInBatch(batch, Hopeless(batch, txstore, onChain), d);
    HopelessOutside(batch, txstore, onChain, sub);
    DroppedNotFound(batch, txstore, onChain, d);
    forall t | t in batch && ChildOf(batch[t], x) ensures t in x {
      var n :| 0 <= n < |batch[t].inputs| && batch[t].inputs[n].Spends? && batch[t].inputs[n].prev.txid in x;
      var o := batch[t].inputs[n].prev;
      assert ChildOf(batch[t], d) && o in Prevouts(batch[t]);
      assert !Found(txstore, onChain, o);
    }
    assert Closed(batch, x);
  }

  /** `kept` can be added, and every part of the batch that can be added is part of it. */
  ghost predicate GreatestAddable(batch: Batch, txstore: map<Txid, Tx>, onChain: set<OutPoint>, kept: Batch) {
    && PartOf(kept, batch) && Resolves(kept, txstore, onChain)
    && forall sub {:trigger PartOf(sub, batch)} :: PartOf(sub, batch) && Resolves(sub, txstore, onChain) ==>
         PartOf(sub, kept)
  }

  /**
   Main result: with the outputs of a valid chain, `drop_unresolvable` leaves the greatest part of
   the batch that can be added.
   */
  lemma {:induction false} DropIsGreatest(l: Ledger, chain: seq<Header>, batch: Batch, txstore: map<Txid, Tx>,
                                          onChain: set<OutPoint>, d: set<Txid>)
    requires ValidChain(l, chain) && OutputsOf(l, chain, onChain) && SameIds(l, chain, batch)
    requires batch.Keys !! txstore.Keys && Descendants(batch, Hopeless(batch, txstore, onChain), d)
    ensures GreatestAddable(batch, txstore, onChain, batch - d)
  {
    ChainIsAncestorClosed(l, chain, batch, onChain);
    RemainderResolves(batch, txstore, onChain, d);
    forall sub | PartOf(sub, batch) && Resolves(sub, txstore, onChain) ensures PartOf(sub, batch - d) {
      RemainderIsGreatest(batch, txstore, onChain, d, sub);
    }
  }

  lemma {:induction false} AllInBatch(batch: Batch, base: set<Txid>, d: set<Txid>)
    requires Descendants(batch, base, d) && base <= batch.Keys
    ensures d <= batch.Keys
  {
    assert Closed(batch, batch.Keys);
  }

  lemma {:induction false} HopelessOutside(batch: Batch, txstore: map<Txid, Tx>, onChain: set<OutPoint>, sub: Batch)
    requires PartOf(sub, batch) && Resolves(sub, txstore, onChain)
    ensures Hopeless(batch, txstore, onChain) !! sub.Keys
  {
    forall t | t in sub ensures t !in Hopeless(batch, txstore, onChain) {
      forall o | o in Prevouts(batch[t]) ensures Makes(batch, o) || Found(txstore, onChain, o) {
        assert o in Prevouts(sub[t]);
        assert Makes(sub, o) ==> Makes(batch, o);
      }
    }
  }

  // ----- For outputs found anywhere -------------------------------------------------------------------------

  /** It needs an output of one of these transactions, found nowhere else. */
  predicate Needs(tx: Tx, txstore: map<Txid, Tx>, onChain: set<OutPoint>, ids: set<Txid>) {
    exists o :: o in Prevouts(tx) && o.txid in ids && !Found(txstore, onChain, o)
  }

  ghost predicate NeedClosed(batch: Batch, txstore: map<Txid, Tx>, onChain: set<OutPoint>, d: set<Txid>) {
    forall t :: t in batch && Needs(batch[t], txstore, onChain, d) ==> t in d
  }

  /** The hopeless transactions, and those that need them in turn. */
  ghost predicate Lost(batch: Batch, txstore: map<Txid, Tx>, onChain: set<OutPoint>, lost: set<Txid>) {
    && Hopeless(batch, txstore, onChain) <= lost && NeedClosed(batch, txstore, onChain, lost)
    && forall x {:trigger NeedClosed(batch, txstore, onChain, x)} ::
         Hopeless(batch, txstore, onChain) <= x && NeedClosed(batch, txstore, onChain, x) ==> lost <= x
  }

  /** Without the lost transactions, and only without them, a batch can be added. */
  lemma {:induction false} LostIsExact(batch: Batch, txstore: map<Txid, Tx>, onChain: set<OutPoint>, lost: set<Txid>,
                                       sub: Batch)
    requires Lost(batch, txstore, onChain, lost)
    ensures Resolves(batch - lost, txstore, onChain)
    ensures PartOf(sub, batch) && Resolves(sub, txstore, onChain) ==> sub.Keys !! lost
  {
    forall t, o | t in batch - lost && o in Prevouts((batch - lost)[t])
      ensures Makes(batch - lost, o) || Makes(txstore, o) || o in onChain
    {
      var tx := batch[t];
      assert t !in Hopeless(batch, txstore, onChain);
      assert o.txid in lost && !Found(txstore, onChain, o) ==> Needs(tx, txstore, onChain, lost);
    }
    if PartOf(sub, batch) && Resolves(sub, txstore, onChain) {
      var x := lost - sub.Keys;
      HopelessOutside(batch, txstore, onChain, sub);
      forall t | t in batch && Needs(batch[t], txstore, onChain, x) ensures t in x {
        var o :| o in Prevouts(batch[t]) && o.txid in x && !Found(txstore, onChain, o);
        assert Needs(batch[t], txstore, onChain, lost);
        assert !Makes(sub, o);
      }
      assert NeedClosed(batch, txstore, onChain, x);
    }
  }

  /**
   Whatever the found outputs, what `drop_unresolvable` leaves is the greatest part that can be
   added exactly if every child of a lost transaction is itself lost, that is, spends no output
   that was found elsewhere.
   */
  lemma {:induction false} GreatestIff(batch: Batch, txstore: map<Txid, Tx>, onChain: set<OutPoint>, lost: set<Txid>,
                                       d: set<Txid>)
    requires Lost(batch, txstore, onChain, lost) && Descendants(batch, Hopeless(batch, txstore, onChain), d)
    ensures lost <= d
    ensures d == lost <==> Closed(batch, lost)
  {
    forall t | t in batch && Needs(batch[t], txstore, onChain, d) ensures t in d {
      var o :| o in Prevouts(batch[t]) && o.txid in d && !Found(txstore, onChain, o);
      var n :| 0 <= n < |batch[t].inputs| && batch[t].inputs[n].Spends? && batch[t].inputs[n].prev == o;
      assert ChildOf(batch[t], d);
    }
    assert NeedClosed(batch, txstore, onChain, d);
  }

  // ----- Replaced parents -----------------------------------------------------------------------------------

  /** The loop over replaced transactions removes exactly their descendants among those fetched. */
  method DropReplaced(fetched: Batch, replacedTxids: set<Txid>) returns (kept: Batch, ghost d: set<Txid>)
    requires replacedTxids !! fetched.Keys
    ensures Descendants(fetched, replacedTxids, d) && kept == fetched - d
  {
    var replaced := replacedTxids;
    kept, d := fetched, replaced;
    assert kept == fetched - d;
    while replaced != {}
      invariant Spreading(fetched, replacedTxids, d, replaced) && kept == fetched - d
      decreases kept.Keys, replaced
    {
      SpreadMore(fetched, replacedTxids, d, replaced);
      var descendants := Children(kept, replaced);
      assert descendants == Children(fetched, replaced) - d;
      assert d + Children(fetched, replaced) == d + descendants;
      d := d + descendants;
      kept := kept - descendants;
      assert fetched - d == kept;
      replaced := descendants;
    }
    SpreadDone(fetched, replacedTxids, d);
  }

  // ----- Updates and broadcasts -------------------------------------------------------------------------------

  /**
   Adding what was fetched; if that fails, dropping what cannot be resolved and adding the rest,
   which then succeeds.
   */
  method AddFetched(mempool: Mempool, fetched: Batch, onChain: set<OutPoint>)
    returns (complete: bool, ghost d: set<Txid>, ghost order: seq<Txid>)
    requires mempool.Valid() && BatchOk(mempool.l, fetched)
    modifies mempool
    ensures mempool.Valid()
    ensures AddsFetched(mempool.l, old(mempool.Contents()), fetched, onChain, d, order, mempool.Contents())
    ensures complete == Resolves(fetched - old(mempool.txstore).Keys, old(mempool.txstore), onChain)
    ensures mempool.txstore == old(mempool.txstore) + (fetched - old(mempool.txstore).Keys - d)
  {
    hide PoolOk;
    hide Genuine;
    hide Resolves;
    hide Descendants;
    hide AddAll;
    d := {};
    var batch := fetched - mempool.txstore.Keys;
    complete, order := mempool.Add(batch, onChain);
    if complete {
      assert batch - {} == batch;
    } else {
      var kept, dropped := DropUnresolvable(batch, mempool.txstore, onChain);
      RemainderResolves(batch, mempool.txstore, onChain, dropped);
      var ok;
      ok, order := mempool.Add(kept, onChain);
      assert ok;
      d := dropped;
    }
  }

  /** Everything new is added, or, if an output is missing, everything but what `drop_unresolvable` drops. */
  ghost predicate AddsFetched(l: Ledger, p: Pool, fetched: Batch, onChain: set<OutPoint>, d: set<Txid>,
                              order: seq<Txid>, p': Pool)
  {
    var batch := fetched - p.txstore.Keys;
    && (if Resolves(batch, p.txstore, onChain) then d == {}
        else Descendants(batch, Hopeless(batch, p.txstore, onChain), d))
    && Enumerates(order, (batch - d).Keys) && p' == AddAll(l, p, batch - d, order)
  }

  /** A broadcast adds everything new, or nothing if an output is missing. */
  ghost predicate AddsBroadcast(l: Ledger, p: Pool, sent: Batch, onChain: set<OutPoint>, order: seq<Txid>, p': Pool) {
    var batch := sent - p.txstore.Keys;
    if Resolves(batch, p.txstore, onChain) then Enumerates(order, batch.Keys) && p' == AddAll(l, p, batch, order)
    else p' == p
  }

  /** Adding what a broadcast sent. */
  method AddMissing(mempool: Mempool, sent: Batch, onChain: set<OutPoint>) returns (ok: bool, ghost order: seq<Txid>)
    requires mempool.Valid() && BatchOk(mempool.l, sent)
    modifies mempool
    ensures mempool.Valid()
    ensures AddsBroadcast(mempool.l, old(mempool.Contents()), sent, onChain, order, mempool.Contents())
    ensures ok == Resolves(sent - old(mempool.txstore).Keys, old(mempool.txstore), onChain)
  {
    ok, order := mempool.Add(sent - mempool.txstore.Keys, onChain);
  }

  /** The updater is between cycles, or has listed the indexed transactions, or has evicted. */
  datatype Updater = Idle | Listed(indexed: set<Txid>) | Evicted

  datatype State = State(pool: Pool, updater: Updater, panicked: bool)

  /** A lock is held for each of these; broadcasts come from any thread at any time. */
  datatype Action =
    | List
    | Evict(daemon: set<Txid>, order: seq<Txid>)
    | AddNew(fetched: Batch, onChain: set<OutPoint>, dropped: set<Txid>, order: seq<Txid>)
    | GiveUp
    | Broadcast(sent: Batch, onChain: set<OutPoint>, order: seq<Txid>)

  /** Each step does to the five maps what the method of that step does; evicting panics if a lookup misses. */
  ghost predicate Step(l: Ledger, s: State, a: Action, s': State) {
    match a
    case List => s.updater.Idle? && s' == s.(updater := Listed(s.pool.txstore.Keys))
    case Evict(daemon, order) =>
      && s.updater.Listed? && Enumerates(order, s.updater.indexed - daemon)
      && (match RemoveAll(s.pool, order)
          case None => s' == s.(panicked := true)
          case Some(q) => s' == State(q, Evicted, s.panicked))
    case AddNew(fetched, onChain, dropped, order) =>
      && s.updater.Evicted? && BatchOk(l, fetched)
      && AddsFetched(l, s.pool, fetched, onChain, dropped, order, s'.pool) && s' == State(s'.pool, Idle, s.panicked)
    case GiveUp => s' == s.(updater := Idle)
    case Broadcast(sent, onChain, order) =>
      && BatchOk(l, sent) && AddsBroadcast(l, s.pool, sent, onChain, order, s'.pool) && s' == s.(pool := s'.pool)
  }

  ghost predicate Inv(l: Ledger, s: State) {
    PoolOk(l, s.pool) && !s.panicked && (s.updater.Listed? ==> s.updater.indexed <= s.pool.txstore.Keys)
  }

  lemma {:induction false} AddingKeeps(l: Ledger, p: Pool, batch: Batch, order: seq<Txid>)
    requires PoolOk(l, p) && BatchOk(l, batch) && batch.Keys !! p.txstore.Keys && Enumerates(order, batch.Keys)
    ensures var q := AddAll(l, p, batch, order); PoolOk(l, q) && p.txstore.Keys <= q.txstore.Keys
  {
    hide PoolOk;
    hide BatchOk;
    AddAllOk(l, p, batch, order);
  }

  lemma {:induction false} StepKeepsInv(l: Ledger, s: State, a: Action, s': State)
    requires Inv(l, s) && Step(l, s, a, s')
    ensures Inv(l, s')
  {
    match a
    case List =>
    case GiveUp =>
    case Evict(daemon, order) =>
      RemoveAllOk(l, s.pool, order);
    case AddNew(fetched, onChain, dropped, order) =>
      AddingKeeps(l, s.pool, fetched - s.pool.txstore.Keys - dropped, order);
    case Broadcast(sent, onChain, order) =>
      if Resolves(sent - s.pool.txstore.Keys, s.pool.txstore, onChain) {
        AddingKeeps(l, s.pool, sent - s.pool.txstore.Keys, order);
      }
  }

  ghost predicate StepAt(l: Ledger, states: seq<State>, actions: seq<Action>, k: nat)
    requires k < |actions| && |states| == |actions| + 1
  {
    Step(l, states[k], actions[k], states[k + 1])
  }

  ghost predicate Run(l: Ledger, states: seq<State>, actions: seq<Action>) {
    && |states| == |actions| + 1 && states[0] == State(EMPTY_POOL, Idle, false)
    && forall k {:trigger StepAt(l, states, actions, k)} :: 0 <= k < |actions| ==> StepAt(l, states, actions, k)
  }

  /**
   In every run of one updater and any number of broadcasting threads the five maps stay in step,
   and no eviction ever looks for something that is not there.
   */
  lemma {:induction false} AlwaysInStep(l: Ledger, states: seq<State>, actions: seq<Action>, k: nat)
    requires Run(l, states, actions) && k < |states|
    ensures Inv(l, states[k])
  {
    if k > 0 {
      hide PoolOk;
      hide Step;
      AlwaysInStep(l, states, actions, k - 1);
      assert StepAt(l, states, actions, k - 1);
      StepFrom(l, states, actions, k - 1, k);
    }
  }

  lemma {:induction false} StepFrom(l: Ledger, states: seq<State>, actions: seq<Action>, j: nat, k: nat)
    requires k == j + 1 < |states| == |actions| + 1
    ensures StepAt(l, states, actions, j) && Inv(l, states[j]) ==> Inv(l, states[k])
  {
    if StepAt(l, states, actions, j) && Inv(l, states[j]) {
      hide PoolOk;
      StepKeepsInv(l, states[j], actions[j], states[k]);
    }
  }
}
