/**
 What a reorg does to a `utxo` or `stats` call in flight: when exactly restoring its checkpoint
 panics, and when exactly its answer is still right for the list.
 */
module ReorgRaces {
  import opened HeaderChain
  import opened HistoryKeys
  import opened HistoryScan
  import opened HistoryDelta
  import opened Checkpoints
  import opened CheckpointRuns
  import opened Wrappers

  // ----- Statistics of a longer chain ------------------------------------------------------------------------

  /** Blocks `m..n` hold no row of the script. */
  ghost predicate NoRows(w: World, chain: seq<Header>, m: nat, n: nat) {
    n <= |chain| && forall h :: m <= h < n ==> Infos(w, chain, h) == {}
  }

  /** The number of rows counted grows with every block that holds any. */
  lemma {:induction false} CountsGrow(w: World, chain: seq<Header>, m: nat, n: nat)
    requires m <= n <= |chain|
    ensures var a, b := StatsOf(w, chain, m), StatsOf(w, chain, n);
            && a.fundedCount + a.spentCount <= b.fundedCount + b.spentCount
            && if NoRows(w, chain, m, n) then a == b else a.fundedCount + a.spentCount < b.fundedCount + b.spentCount
  {
    if m < n {
      CountsGrow(w, chain, m, n - 1);
      var infos := Infos(w, chain, n - 1);
      if infos == {} {
        NothingToCount(StatsOf(w, chain, n - 1), infos);
      } else {
        var i :| i in infos;
        assert i in Fundings(infos) || i in Spendings(infos);
      }
    }
  }

  // ----- Unspent outputs of a longer chain ---------------------------------------------------------------------

  /** Block `h` funds or spends the output. */
  ghost predicate Touches(w: World, chain: seq<Header>, h: nat, o: OutPoint)
    requires h < |chain|
  {
    o in Funded(Infos(w, chain, h)) || o in Spent(Infos(w, chain, h))
  }

  /** Blocks `m..n` leave the output alone. */
  ghost predicate LeftAlone(w: World, chain: seq<Header>, m: nat, n: nat, o: OutPoint) {
    n <= |chain| && forall h :: m <= h < n ==> !Touches(w, chain, h, o)
  }

  /** No coin was made at height `m` or above. */
  ghost predicate NoCoinFrom(u: Utxos, m: nat) {
    forall o :: o in u ==> u[o].block.height < m
  }

  /** A coin that is there after `m` blocks is there later, unchanged, exactly if nothing touched it since. */
  lemma {:induction false} CoinLater(w: World, chain: seq<Header>, m: nat, n: nat, o: OutPoint)
    requires m <= n <= |chain| && o in UtxosOf(w, chain, m)
    ensures var now := UtxosOf(w, chain, n);
            if LeftAlone(w, chain, m, n, o) then o in now && now[o] == UtxosOf(w, chain, m)[o]
            else o in now ==> now[o].block.height >= m
  {
    if m < n {
      CoinLater(w, chain, m, n - 1, o);
      assert LeftAlone(w, chain, m, n, o) <==> LeftAlone(w, chain, m, n - 1, o) && !Touches(w, chain, n - 1, o);
    }
  }

  /** A coin made below `m` was there at `m`. */
  lemma {:induction false} CoinEarlier(w: World, chain: seq<Header>, m: nat, n: nat, o: OutPoint)
    requires m <= n <= |chain| && o in UtxosOf(w, chain, n) && UtxosOf(w, chain, n)[o].block.height < m
    ensures o in UtxosOf(w, chain, m) && UtxosOf(w, chain, m)[o] == UtxosOf(w, chain, n)[o]
  {
    if m < n { CoinEarlier(w, chain, m, n - 1, o); }
  }

  /**
   The unspent outputs of a chain and of its first `m` blocks are the same exactly if none of them
   was made above and the blocks above leave all that were unspent alone.
   */
  lemma {:induction false} SameUtxos(w: World, chain: seq<Header>, m: nat)
    requires m <= |chain|
    ensures UtxosOf(w, chain, |chain|) == UtxosOf(w, chain, m) <==>
              NoCoinFrom(UtxosOf(w, chain, |chain|), m)
              && forall o :: o in UtxosOf(w, chain, m) ==> LeftAlone(w, chain, m, |chain|, o)
  {
    var now, below := UtxosOf(w, chain, |chain|), UtxosOf(w, chain, m);
    CoinsOfChain(w, chain, m);
    forall o | o in below
      ensures if LeftAlone(w, chain, m, |chain|, o) then o in now && now[o] == below[o]
              else o in now ==> now[o].block.height >= m
    {
      CoinLater(w, chain, m, |chain|, o);
    }
    forall o | o in now && now[o].block.height < m ensures o in below && below[o] == now[o] {
      CoinEarlier(w, chain, m, |chain|, o);
    }
  }

  // ----- A call in flight ---------------------------------------------------------------------------------------

  /** The value of `base` is also that of its first `m` blocks. */
  ghost predicate StillRight(kind: Kind, w: World, base: seq<Header>, m: nat) {
    m < |base| ==>
      match kind
      case Totals => NoRows(w, base, m, |base|)
      case Unspent =>
        && NoCoinFrom(UtxosOf(w, base, |base|), m)
        && forall o :: o in UtxosOf(w, base, m) ==> LeftAlone(w, base, m, |base|, o)
  }

  /**
   Main result: in every run, a scan that is not stopped gives the value of the list as it is at
   that moment if and only if the list still reaches the call's checkpoint, or the blocks taken off
   change nothing: for statistics, they hold no row of the script; for unspent outputs, they made
   none of the coins and touched none of those that were unspent below them.
   */
  lemma {:induction false} StaleAnswerIff(w: World, limit: nat, states: seq<State>, actions: seq<Action>, k: nat,
                                          c: Call)
    requires ScanAt(w, limit, states, actions, k, c) && actions[k].end.stop.None?
    ensures actions[k].end.result == ResultOf(c.kind, w, states[k].chain) <==>
              StillRight(c.kind, w, c.stage.base, |states[k].chain|)
  {
    EveryCompletedScan(w, limit, states, actions, k, c);
    hide Run;
    var chain, base := states[k].chain, c.stage.base;
    if |chain| < |base| {
      assert chain <= base;
      SamePrefix(w, chain, base, |chain|);
      match c.kind
      case Totals => CountsGrow(w, base, |chain|, |base|);
      case Unspent => SameUtxos(w, base, |chain|);
    }
  }

  /** The block of a coin still to be looked up is not in the list. */
  ghost predicate Blocked(s: State, id: nat, o: OutPoint) {
    && id < |s.calls| && s.calls[id].stage.Located? && ToLookUp(s.calls[id].stage, o)
    && s.calls[id].stage.cp.utxos[o].height >= |s.chain|
  }

  /**
   In every run, looking up a cached coin's block panics if and only if the coin was made at a height
   the list no longer has at that moment. That takes a reorg during the call.
   */
  lemma {:induction false} LookUpPanicsIff(w: World, limit: nat, states: seq<State>, actions: seq<Action>, k: nat,
                                           id: nat, o: OutPoint)
    requires GoodHash(w.hash) && Run(w, limit, states, actions) && k < |states|
    requires id < |states[k].calls| && states[k].calls[id].stage.Located? && ToLookUp(states[k].calls[id].stage, o)
    ensures var s, stage := states[k], states[k].calls[id].stage;
            var coins := UtxosOf(w, stage.base, |stage.base|);
            && o in coins
            && (LookUpStage(w, s.chain, stage, o).Panicked? <==> coins[o].block.height >= |s.chain|)
            && (LookUpStage(w, s.chain, stage, o).Panicked? ==> s.dirty && |s.chain| < |stage.base|)
  {
    RunKeepsInv(w, limit, states, actions, k);
    hide Run;
    LocatedCoin(w, states[k], id, o);
  }

  lemma {:induction false} LocatedCoin(w: World, s: State, id: nat, o: OutPoint)
    requires Inv(w, s) && id < |s.calls| && s.calls[id].stage.Located? && ToLookUp(s.calls[id].stage, o)
    ensures var stage := s.calls[id].stage;
            var coins := UtxosOf(w, stage.base, |stage.base|);
            && o in coins && stage.cp.utxos[o].height == coins[o].block.height < |stage.base|
            && (Blocked(s, id, o) ==> s.dirty && |s.chain| < |stage.base|)
  {
    assert CallOk(w, s, s.calls[id]);
    var base := s.calls[id].stage.base;
    CoinsOfChain(w, base, |base|);
    hide UtxosOf;
  }

  /** The call waits for a coin it will not find, or has panicked. */
  ghost predicate NeverRestores(s: State, id: nat, o: OutPoint) {
    id < |s.calls| && (Blocked(s, id, o) || s.calls[id].stage.Panicked?)
  }

  lemma {:induction false} StillBlocked(w: World, limit: nat, s: State, a: Action, id: nat, o: OutPoint)
    requires Inv(w, s) && Enabled(w, limit, s, a) && NeverRestores(s, id, o)
    ensures NeverRestores(Apply(w, s, a), id, o)
  {
    OtherCallsStay(w, limit, s, a);
    if Blocked(s, id, o) { LocatedCoin(w, s, id, o); }
    hide UtxosOf;
    if IsCallStep(a) && a.id == id {
      BlockedCallStep(w, limit, s, a, o);
    } else {
      BlockedOtherStep(w, limit, s, a, id, o);
    }
  }

  lemma {:induction false} BlockedCallStep(w: World, limit: nat, s: State, a: Action, o: OutPoint)
    requires Enabled(w, limit, s, a) && IsCallStep(a) && NeverRestores(s, a.id, o)
    ensures NeverRestores(Apply(w, s, a), a.id, o)
  {
    hide MayEnd;
    assert Blocked(s, a.id, o) ==> ToLookUp(s.calls[a.id].stage, o);
  }

  lemma {:induction false} BlockedOtherStep(w: World, limit: nat, s: State, a: Action, id: nat, o: OutPoint)
    requires Enabled(w, limit, s, a) && NeverRestores(s, id, o) && (IsCallStep(a) ==> a.id != id)
    requires Blocked(s, id, o) ==> s.dirty
    requires id < |Apply(w, s, a).calls| && Apply(w, s, a).calls[id] == s.calls[id]
    ensures NeverRestores(Apply(w, s, a), id, o)
  {
    hide MayEnd;
    hide Published;
    hide LocateStage;
    assert Blocked(s, id, o) ==> s.calls[id].InFlight();
  }

  /**
   In every run, a call with a coin whose block is not in the list never gets past restoring: it
   panics at that coin, or at another one. The list cannot grow back while the call is in flight.
   */
  lemma {:induction false} BlockedForGood(w: World, limit: nat, states: seq<State>, actions: seq<Action>, j: nat,
                                          k: nat, id: nat, o: OutPoint)
    requires GoodHash(w.hash) && Run(w, limit, states, actions) && j <= k < |states| && Blocked(states[j], id, o)
    ensures NeverRestores(states[k], id, o)
    decreases k
  {
    if j < k {
      BlockedForGood(w, limit, states, actions, j, k - 1, id, o);
      RunKeepsInv(w, limit, states, actions, k - 1);
      assert StepAt(w, limit, states, actions, k - 1);
      hide Enabled;
      hide Apply;
      hide Inv;
      StillBlocked(w, limit, states[k - 1], actions[k - 1], id, o);
    }
  }
}
