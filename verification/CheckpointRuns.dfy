/**
 Any number of `utxo` and `stats` calls on one script, interleaved with block appends, reorgs and
 the cleanup after them.

 A call holds the history cache lock for reading from start to end, and takes the header list's
 lock to find its checkpoint's height, again for each cached coin it restores, and for the scan.
 Cleanup after a reorg needs the cache lock for writing, so it waits for calls to end; popping
 headers does not. No block is appended between a pop and the cleanup after it.
 */
module CheckpointRuns {
  import opened HeaderChain
  import opened HistoryKeys
  import opened HistoryScan
  import opened HistoryDelta
  import opened Checkpoints
  import opened Wrappers

  /** A computed value, as a call holds it in memory. */
  datatype Result = Coins(utxos: Utxos) | Counts(stats: Stats)

  /** A saved value, tagged with the hash of its block. */
  datatype Checkpoint = SavedCoins(utxos: CachedUtxos, hash: Hash) | SavedCounts(stats: Stats, hash: Hash)

  ghost function ResultOf(kind: Kind, w: World, chain: seq<Header>): Result {
    match kind
    case Unspent => Coins(UtxosOf(w, chain, |chain|))
    case Totals => Counts(StatsOf(w, chain, |chain|))
  }

  function Saved(r: Result, hash: Hash): Checkpoint {
    match r
    case Coins(u) => SavedCoins(MakeUtxoCache(u), hash)
    case Counts(s) => SavedCounts(s, hash)
  }

  /** A checkpoint is the value of the chain ending in its block. */
  ghost predicate Right(kind: Kind, w: World, cp: Checkpoint) {
    exists c :: RightFor(kind, w, cp, c)
  }

  ghost predicate RightFor(kind: Kind, w: World, cp: Checkpoint, c: seq<Header>) {
    Ends(w, c, cp.hash) && cp == Saved(ResultOf(kind, w, c), cp.hash)
  }

  // ----- The machine --------------------------------------------------------------------------------------

  /** How a scan ended: its result, its tag, and why it stopped if it did. */
  datatype Ending = Ending(result: Result, last: Option<Hash>, stop: Option<Stop>)

  datatype Stage =
    | Asked
    | Fetched(found: Option<Checkpoint>)
    | Located(cp: Checkpoint, base: seq<Header>, coins: Utxos)
    | Restored(result: Result, base: seq<Header>)
    | Scanned(end: Ending, of: seq<Header>, from: nat)
    | Answered(result: Result, of: seq<Header>)
    | GaveUp
    | Panicked

  datatype Call = Call(kind: Kind, stage: Stage) {
    /** The call still holds the cache lock. */
    predicate InFlight() { !stage.Answered? && !stage.GaveUp? && !stage.Panicked? }
  }

  datatype State = State(chain: seq<Header>, rows: set<Row>, dirty: bool, saved: map<Kind, Checkpoint>,
                         calls: seq<Call>)

  datatype Action =
    | Append(header: Header, rows: set<Row>)
    | Touch(rows: set<Row>)
    | Pop(height: nat)
    | Cleanup(forget: set<Kind>)
    | Ask(kind: Kind)
    | Fetch(id: nat)
    | Locate(id: nat)
    | LookUp(id: nat, coin: OutPoint)
    | Restore(id: nat)
    | Scan(id: nat, end: Ending)
    | Save(id: nat, write: bool)

  /** Rows below a height are untouched. */
  ghost predicate SameBelow(a: set<Row>, b: set<Row>, height: nat) {
    forall r: Row :: r.height < height ==> (r in a <==> r in b)
  }

  ghost function Fold(kind: Kind, w: World, chain: seq<Header>, from: Result, scan: seq<Row>, n: nat): Result
    requires Visible(chain, scan, n) && (kind.Unspent? <==> from.Coins?)
  {
    match kind
    case Unspent => Coins(FoldUtxos(w, chain, from.utxos, scan, n))
    case Totals => Counts(FoldStats(from.stats, scan, n))
  }

  /** What the two scans promise of their result. */
  ghost predicate Gives(kind: Kind, w: World, chain: seq<Header>, rows: set<Row>, start: nat, limit: nat, from: Result,
                        e: Ending, scan: seq<Row>, n: nat) {
    && Lists(scan, RowsFrom(rows, start)) && EndsAfter(w, chain, scan, limit, n, e.last, e.stop)
    && (kind.Unspent? <==> from.Coins?) && e.result == Fold(kind, w, chain, from, scan, n)
  }

  ghost predicate MayEnd(kind: Kind, w: World, chain: seq<Header>, rows: set<Row>, start: nat, limit: nat, from: Result,
                         e: Ending) {
    || (e.stop == Some(CheckpointLimit) && e.last == None)
    || (kind.Totals? && limit == 0 && e.stop == Some(ScanLimit) && e.last == None)
    || exists scan, n :: Gives(kind, w, chain, rows, start, limit, from, e, scan, n)
  }

  ghost predicate Enabled(w: World, limit: nat, s: State, a: Action) {
    match a
    case Append(header, rows) =>
      !s.dirty && header.prev == TipHash(w.hash, s.chain) && SameBelow(s.rows, rows, |s.chain|)
      && Published(w, s.chain + [header], rows)
    case Touch(rows) => SameBelow(s.rows, rows, |s.chain|)
    case Pop(height) => height <= |s.chain|
    case Cleanup(_) => forall i :: 0 <= i < |s.calls| ==> !s.calls[i].InFlight()
    case Ask(_) => true
    case Fetch(id) => id < |s.calls| && s.calls[id].stage.Asked?
    case Locate(id) => id < |s.calls| && s.calls[id].stage.Fetched?
    case LookUp(id, o) => id < |s.calls| && s.calls[id].stage.Located? && ToLookUp(s.calls[id].stage, o)
    case Restore(id) => id < |s.calls| && s.calls[id].stage.Located? && forall o :: !ToLookUp(s.calls[id].stage, o)
    case Scan(id, e) =>
      && id < |s.calls| && s.calls[id].stage.Restored?
      && MayEnd(s.calls[id].kind, w, s.chain, s.rows, |s.calls[id].stage.base|, limit, s.calls[id].stage.result, e)
    case Save(id, write) =>
      && id < |s.calls| && s.calls[id].stage.Scanned?
      && (write ==> s.calls[id].stage.end.last.Some?)
      && (s.calls[id].stage.end.stop == Some(ScanLimit) && s.calls[id].stage.end.last.Some? ==> write)
  }

  /** Finding the checkpoint's block; without one, the call starts from nothing. */
  ghost function LocateStage(kind: Kind, w: World, chain: seq<Header>, cp: Option<Checkpoint>): Stage {
    var none := Restored(ResultOf(kind, w, []), []);
    if cp.None? then none else
    var height := HeightByHash(w, chain, cp.value.hash);
    if height.None? then none else Located(cp.value, chain[..height.value + 1], map[])
  }

  /** The cached coin's block has not been looked up yet. */
  predicate ToLookUp(stage: Stage, o: OutPoint)
    requires stage.Located?
  {
    stage.cp.SavedCoins? && o in stage.cp.utxos && o !in stage.coins
  }

  /** Looking up the block of one cached coin; the source expects it to be in the list and panics otherwise. */
  function LookUpStage(w: World, chain: seq<Header>, stage: Stage, o: OutPoint): Stage
    requires stage.Located? && ToLookUp(stage, o)
  {
    var cached := stage.cp.utxos[o];
    if cached.height >= |chain| then Panicked
    else stage.(coins := stage.coins[o := Coin(BlockIdAt(w, chain, cached.height), cached.value)])
  }

  /** Once every coin has its block. */
  function RestoreStage(stage: Stage): Stage
    requires stage.Located?
  {
    Restored(if stage.cp.SavedCoins? then Coins(stage.coins) else Counts(stage.cp.stats), stage.base)
  }

  function SavedStage(e: Ending, of: seq<Header>): Stage {
    if e.stop.Some? then GaveUp else Answered(e.result, of)
  }

  predicate IsCallStep(a: Action) {
    a.Fetch? || a.Locate? || a.LookUp? || a.Restore? || a.Scan? || a.Save?
  }

  ghost function Apply(w: World, s: State, a: Action): State
    requires IsCallStep(a) ==> a.id < |s.calls|
    requires a.Locate? ==> s.calls[a.id].stage.Fetched?
    requires a.LookUp? || a.Restore? ==> s.calls[a.id].stage.Located?
    requires a.LookUp? ==> ToLookUp(s.calls[a.id].stage, a.coin)
    requires a.Scan? ==> s.calls[a.id].stage.Restored?
    requires a.Save? ==> s.calls[a.id].stage.Scanned? && (a.write ==> s.calls[a.id].stage.end.last.Some?)
    requires a.Pop? ==> a.height <= |s.chain|
  {
    match a
    case Append(header, rows) => s.(chain := s.chain + [header], rows := rows)
    case Touch(rows) => s.(rows := rows)
    case Pop(height) => s.(chain := s.chain[..height], dirty := true)
    case Cleanup(forget) => s.(dirty := false, saved := s.saved - forget)
    case Ask(kind) => s.(calls := s.calls + [Call(kind, Asked)])
    case Fetch(id) =>
      var kind := s.calls[id].kind;
      Move(s, id, Fetched(if kind in s.saved then Some(s.saved[kind]) else None))
    case Locate(id) => Move(s, id, LocateStage(s.calls[id].kind, w, s.chain, s.calls[id].stage.found))
    case LookUp(id, o) => Move(s, id, LookUpStage(w, s.chain, s.calls[id].stage, o))
    case Restore(id) => Move(s, id, RestoreStage(s.calls[id].stage))
    case Scan(id, e) =>
      var base := s.calls[id].stage.base;
      Move(s, id, if e.stop == Some(CheckpointLimit) then GaveUp else Scanned(e, Subject(s.chain, base), |base|))
    case Save(id, write) =>
      var call := s.calls[id];
      var moved := Move(s, id, SavedStage(call.stage.end, call.stage.of));
      if write then moved.(saved := SavedNow(s, call)) else moved
  }

  /** What is saved once the call has saved. */
  function SavedNow(s: State, call: Call): map<Kind, Checkpoint>
    requires call.stage.Scanned? && call.stage.end.last.Some?
  {
    s.saved[call.kind := Saved(call.stage.end.result, call.stage.end.last.value)]
  }

  function Move(s: State, id: nat, stage: Stage): State
    requires id < |s.calls|
  {
    s.(calls := s.calls[id := s.calls[id].(stage := stage)])
  }

  /** The chain a scan's result is about: the list, unless a reorg took the checkpoint's block off it. */
  function Subject(chain: seq<Header>, base: seq<Header>): seq<Header> {
    if |base| <= |chain| then chain else base
  }

  /** A step of a call changes that call alone, and no step takes a call away. */
  lemma {:induction false} OtherCallsStay(w: World, limit: nat, s: State, a: Action)
    requires Enabled(w, limit, s, a)
    ensures var s' := Apply(w, s, a);
            && |s'.calls| >= |s.calls|
            && (forall i :: 0 <= i < |s.calls| && (IsCallStep(a) ==> i != a.id) ==> s'.calls[i] == s.calls[i])
            && (IsCallStep(a) ==>
                  && s'.chain == s.chain && s'.dirty == s.dirty && |s'.calls| == |s.calls|
                  && s'.calls[a.id].kind == s.calls[a.id].kind && (!a.Save? ==> s'.saved == s.saved))
  {
    hide MayEnd;
    hide Published;
    hide LocateStage;
  }

  // ----- What always holds ----------------------------------------------------------------------------------

  /** The checkpointed chain is still the beginning of the list, or the list was cut back into it. */
  ghost predicate Near(s: State, base: seq<Header>) {
    base <= s.chain || (s.dirty && s.chain <= base)
  }

  /** The coins looked up so far are coins of the checkpoint's chain. */
  ghost predicate FoundSoFar(w: World, cp: Checkpoint, base: seq<Header>, coins: Utxos) {
    cp.SavedCoins? ==>
      var all := UtxosOf(w, base, |base|);
      forall o :: o in coins ==> o in all && coins[o] == all[o]
  }

  ghost predicate CallOk(w: World, s: State, c: Call) {
    match c.stage
    case Asked => true
    case Fetched(cp) => cp.Some? ==> Right(c.kind, w, cp.value)
    case Located(cp, base, coins) => RightFor(c.kind, w, cp, base) && Near(s, base) && FoundSoFar(w, cp, base, coins)
    case Restored(result, base) => result == ResultOf(c.kind, w, base) && Near(s, base)
    case Scanned(e, of, from) =>
      && (e.stop.None? ==> e.result == ResultOf(c.kind, w, of))
      && (e.last.Some? ==> Right(c.kind, w, Saved(e.result, e.last.value)))
    case Answered(result, of) => result == ResultOf(c.kind, w, of)
    case GaveUp => true
    case Panicked => true
  }

  ghost predicate Inv(w: World, s: State) {
    && Linked(w.hash, s.chain) && Published(w, s.chain, s.rows)
    && (forall k :: k in s.saved ==> Right(k, w, s.saved[k]))
    && (forall i :: 0 <= i < |s.calls| ==> CallOk(w, s, s.calls[i]))
  }

  /** A scan from the value of `base` on a list that still contains it. */
  lemma {:induction false} ScanOnList(kind: Kind, w: World, chain: seq<Header>, rows: set<Row>, base: seq<Header>,
                                      limit: nat, from: Result, e: Ending, scan: seq<Row>, n: nat)
    returns (cut: nat)
    requires GoodHash(w.hash) && Linked(w.hash, chain) && Published(w, chain, rows) && base <= chain
    requires from == ResultOf(kind, w, base) && Gives(kind, w, chain, rows, |base|, limit, from, e, scan, n)
    ensures e.stop.None? ==> e.result == ResultOf(kind, w, chain)
    ensures e.stop.Some? ==> e.last.Some?
    ensures e.last.Some? ==> |base| < cut <= |chain| && RightFor(kind, w, Saved(e.result, e.last.value), chain[..cut])
  {
    SamePrefix(w, base, chain, |base|);
    cut := EndOfScan(kind, w, chain, rows, scan, |base|, limit, n, e.last, e.stop);
    if e.last.Some? {
      PrefixEnds(w, chain, cut);
      assert |chain[..cut]| == cut;
    }
  }

  /** On a list cut back into `base` there is nothing to see. */
  lemma {:induction false} ScanOffList(kind: Kind, w: World, chain: seq<Header>, rows: set<Row>, base: seq<Header>,
                                       limit: nat, from: Result, e: Ending, scan: seq<Row>, n: nat)
    requires |chain| < |base| && Gives(kind, w, chain, rows, |base|, limit, from, e, scan, n)
    ensures e.stop.None? && e.last.None? && e.result == from
  {
    NothingVisible(chain, rows, scan, |base|, n);
    assert 0 < |scan| ==> scan[0] in RowsFrom(rows, |base|);
  }

  // ----- Every step keeps it ------------------------------------------------------------------------------

  lemma {:induction false} PublishedSame(w: World, chain: seq<Header>, a: set<Row>, b: set<Row>)
    requires Published(w, chain, a) && SameBelow(a, b, |chain|)
    ensures Published(w, chain, b)
  {
    forall h | 0 <= h < |chain| ensures Clean(Infos(w, chain, h)) && RowsMatch(b, h, Infos(w, chain, h)) {
      assert RowsMatch(a, h, Infos(w, chain, h));
      forall i ensures Row(h, i) in b <==> i in Infos(w, chain, h) { assert Row(h, i).height < |chain|; }
    }
  }

  lemma {:induction false} PublishedPrefix(w: World, chain: seq<Header>, rows: set<Row>, n: nat)
    requires Published(w, chain, rows) && n <= |chain|
    ensures Published(w, chain[..n], rows)
  {
    forall h | 0 <= h < n ensures Clean(Infos(w, chain[..n], h)) && RowsMatch(rows, h, Infos(w, chain[..n], h)) {
      assert Infos(w, chain[..n], h) == Infos(w, chain, h);
    }
  }

  /** Calls do not notice a step that keeps the list near their checkpoints. */
  lemma {:induction false} CallsKeep(w: World, s: State, s': State)
    requires Inv(w, s) && s'.calls == s.calls
    requires forall base :: Near(s, base) ==> Near(s', base)
    ensures forall i :: 0 <= i < |s'.calls| ==> CallOk(w, s', s'.calls[i])
  {
    forall i | 0 <= i < |s'.calls| ensures CallOk(w, s', s'.calls[i]) {
      assert CallOk(w, s, s.calls[i]);
    }
  }

  lemma {:induction false} AppendKeeps(w: World, s: State, header: Header, rows: set<Row>)
    requires Inv(w, s) && !s.dirty && header.prev == TipHash(w.hash, s.chain) && Published(w, s.chain + [header], rows)
    ensures Inv(w, s.(chain := s.chain + [header], rows := rows))
  {
    LinkedJoin(w.hash, s.chain, [header]);
    CallsKeep(w, s, s.(chain := s.chain + [header], rows := rows));
  }

  lemma {:induction false} TouchKeeps(w: World, s: State, rows: set<Row>)
    requires Inv(w, s) && SameBelow(s.rows, rows, |s.chain|)
    ensures Inv(w, s.(rows := rows))
  {
    PublishedSame(w, s.chain, s.rows, rows);
    CallsKeep(w, s, s.(rows := rows));
  }

  lemma {:induction false} PopKeeps(w: World, s: State, height: nat)
    requires Inv(w, s) && height <= |s.chain|
    ensures Inv(w, s.(chain := s.chain[..height], dirty := true))
  {
    var s' := s.(chain := s.chain[..height], dirty := true);
    LinkedPrefix(w.hash, s.chain, height);
    PublishedPrefix(w, s.chain, s.rows, height);
    forall base | Near(s, base) ensures Near(s', base) {
      if base <= s.chain {
        assert |base| <= height ==> base == s'.chain[..|base|];
        assert |base| > height ==> s'.chain == base[..height];
      } else {
        assert s'.chain == base[..height];
      }
    }
    CallsKeep(w, s, s');
  }

  lemma {:induction false} CleanupKeeps(w: World, s: State, forget: set<Kind>)
    requires Inv(w, s) && forall i :: 0 <= i < |s.calls| ==> !s.calls[i].InFlight()
    ensures Inv(w, s.(dirty := false, saved := s.saved - forget))
  {
    var s' := s.(dirty := false, saved := s.saved - forget);
    forall i | 0 <= i < |s'.calls| ensures CallOk(w, s', s'.calls[i]) {
      assert CallOk(w, s, s.calls[i]) && !s.calls[i].InFlight();
    }
  }

  lemma {:induction false} MoveKeeps(w: World, s: State, id: nat, stage: Stage)
    requires Inv(w, s) && id < |s.calls| && CallOk(w, s, s.calls[id].(stage := stage))
    ensures Inv(w, Move(s, id, stage))
  {
    var s' := Move(s, id, stage);
    forall i | 0 <= i < |s'.calls| ensures CallOk(w, s', s'.calls[i]) {
      assert i != id ==> CallOk(w, s, s.calls[i]);
      SameView(w, s, s', s'.calls[i]);
    }
  }

  lemma {:induction false} SameView(w: World, s: State, s': State, c: Call)
    requires s'.chain == s.chain && s'.dirty == s.dirty
    ensures CallOk(w, s, c) == CallOk(w, s', c)
  {
  }

  lemma {:induction false} LocateOk(w: World, s: State, kind: Kind, cp: Option<Checkpoint>)
    requires GoodHash(w.hash) && Inv(w, s) && (cp.Some? ==> Right(kind, w, cp.value))
    ensures CallOk(w, s, Call(kind, LocateStage(kind, w, s.chain, cp)))
  {
    if cp.Some? {
      var height := HeightByHash(w, s.chain, cp.value.hash);
      if height.Some? {
        var c :| RightFor(kind, w, cp.value, c);
        TagPins(w, s.chain, c, cp.value.hash, height.value);
      }
    }
  }

  /** A coin found in a list near the checkpoint's chain gets the block it had there. */
  lemma {:induction false} LookUpOk(w: World, s: State, kind: Kind, stage: Stage, o: OutPoint)
    requires stage.Located? && ToLookUp(stage, o) && CallOk(w, s, Call(kind, stage))
    ensures CallOk(w, s, Call(kind, LookUpStage(w, s.chain, stage, o)))
  {
    var cp, base := stage.cp, stage.base;
    var all := UtxosOf(w, base, |base|);
    CoinsOfChain(w, base, |base|);
    hide UtxosOf;
    assert o in all && cp.utxos[o] == CachedCoin(all[o].block.height, all[o].value);
    if cp.utxos[o].height < |s.chain| {
      assert s.chain[cp.utxos[o].height] == base[cp.utxos[o].height];
    }
  }

  lemma {:induction false} RestoreOk(w: World, s: State, kind: Kind, stage: Stage)
    requires stage.Located? && CallOk(w, s, Call(kind, stage)) && forall o :: !ToLookUp(stage, o)
    ensures CallOk(w, s, Call(kind, RestoreStage(stage)))
  {
    if stage.cp.SavedCoins? {
      var all := UtxosOf(w, stage.base, |stage.base|);
      hide UtxosOf;
      forall o | o in all ensures o in stage.coins {
        assert o in MakeUtxoCache(all) && !ToLookUp(stage, o);
      }
      assert stage.coins == all;
    }
  }

  lemma {:induction false} ScanOk(w: World, limit: nat, s: State, kind: Kind, from: Result, base: seq<Header>,
                                  e: Ending)
    requires GoodHash(w.hash) && Inv(w, s) && from == ResultOf(kind, w, base) && Near(s, base)
    requires MayEnd(kind, w, s.chain, s.rows, |base|, limit, from, e) && e.stop != Some(CheckpointLimit)
    ensures CallOk(w, s, Call(kind, Scanned(e, Subject(s.chain, base), |base|)))
  {
    if scan, n :| Gives(kind, w, s.chain, s.rows, |base|, limit, from, e, scan, n) {
      if |base| <= |s.chain| {
        assert base <= s.chain;
        var cut := ScanOnList(kind, w, s.chain, s.rows, base, limit, from, e, scan, n);
      } else {
        ScanOffList(kind, w, s.chain, s.rows, base, limit, from, e, scan, n);
      }
    }
  }

  lemma {:induction false} SaveKeeps(w: World, s: State, id: nat)
    requires Inv(w, s) && id < |s.calls| && s.calls[id].stage.Scanned? && s.calls[id].stage.end.last.Some?
    ensures Inv(w, s.(saved := SavedNow(s, s.calls[id])))
  {
    var s' := s.(saved := SavedNow(s, s.calls[id]));
    assert CallOk(w, s, s.calls[id]);
    CallsKeep(w, s, s');
  }

  lemma {:induction false} CallStepKeeps(w: World, limit: nat, s: State, a: Action)
    requires GoodHash(w.hash) && Inv(w, s) && Enabled(w, limit, s, a)
    requires IsCallStep(a)
    ensures Inv(w, Apply(w, s, a))
  {
    var call := s.calls[a.id];
    assert CallOk(w, s, call);
    match a
    case Fetch(id) =>
      MoveKeeps(w, s, id, Fetched(if call.kind in s.saved then Some(s.saved[call.kind]) else None));
    case Locate(id) =>
      LocateOk(w, s, call.kind, call.stage.found);
      MoveKeeps(w, s, id, LocateStage(call.kind, w, s.chain, call.stage.found));
    case LookUp(id, o) =>
      LookUpOk(w, s, call.kind, call.stage, o);
      MoveKeeps(w, s, id, LookUpStage(w, s.chain, call.stage, o));
    case Restore(id) =>
      RestoreOk(w, s, call.kind, call.stage);
      MoveKeeps(w, s, id, RestoreStage(call.stage));
    case Scan(id, e) =>
      if e.stop == Some(CheckpointLimit) {
        MoveKeeps(w, s, id, GaveUp);
      } else {
        ScanOk(w, limit, s, call.kind, call.stage.result, call.stage.base, e);
        MoveKeeps(w, s, id, Scanned(e, Subject(s.chain, call.stage.base), |call.stage.base|));
      }
    case Save(id, write) =>
      var stage := SavedStage(call.stage.end, call.stage.of);
      if write {
        SaveKeeps(w, s, id);
        MoveKeeps(w, s.(saved := SavedNow(s, call)), id, stage);
      } else {
        MoveKeeps(w, s, id, stage);
      }
  }

  lemma {:induction false} StepKeepsInv(w: World, limit: nat, s: State, a: Action)
    requires GoodHash(w.hash) && Inv(w, s) && Enabled(w, limit, s, a)
    ensures Inv(w, Apply(w, s, a))
  {
    match a
    case Append(header, rows) => AppendKeeps(w, s, header, rows);
    case Touch(rows) => TouchKeeps(w, s, rows);
    case Pop(height) => PopKeeps(w, s, height);
    case Cleanup(forget) => CleanupKeeps(w, s, forget);
    case Ask(kind) => AskKeeps(w, s, kind);
    case _ => CallStepKeeps(w, limit, s, a);
  }

  lemma {:induction false} AskKeeps(w: World, s: State, kind: Kind)
    requires Inv(w, s)
    ensures Inv(w, s.(calls := s.calls + [Call(kind, Asked)]))
  {
    var s' := s.(calls := s.calls + [Call(kind, Asked)]);
    forall i | 0 <= i < |s'.calls| ensures CallOk(w, s', s'.calls[i]) {
      assert i < |s.calls| ==> CallOk(w, s, s.calls[i]);
      SameView(w, s, s', s'.calls[i]);
    }
  }

  // ----- Whole runs -------------------------------------------------------------------------------------------

  ghost predicate StepAt(w: World, limit: nat, states: seq<State>, actions: seq<Action>, k: nat)
    requires k < |actions| && |states| == |actions| + 1
  {
    Enabled(w, limit, states[k], actions[k]) && states[k + 1] == Apply(w, states[k], actions[k])
  }

  /** From an empty index, nothing saved and nobody asking. */
  ghost predicate Run(w: World, limit: nat, states: seq<State>, actions: seq<Action>) {
    && |states| == |actions| + 1
    && states[0].chain == [] && !states[0].dirty && states[0].saved == map[] && states[0].calls == []
    && forall k {:trigger StepAt(w, limit, states, actions, k)} :: 0 <= k < |actions| ==>
         StepAt(w, limit, states, actions, k)
  }

  lemma {:induction false} RunKeepsInv(w: World, limit: nat, states: seq<State>, actions: seq<Action>, k: nat)
    requires GoodHash(w.hash) && Run(w, limit, states, actions) && k < |states|
    ensures Inv(w, states[k])
  {
    if k > 0 {
      RunKeepsInv(w, limit, states, actions, k - 1);
      assert StepAt(w, limit, states, actions, k - 1);
      StepKeepsInv(w, limit, states[k - 1], actions[k - 1]);
    }
  }

  /** In every run, every saved checkpoint is the value of the whole chain up to the block it is tagged with. */
  lemma {:induction false} EveryCheckpointIsRight(w: World, limit: nat, states: seq<State>, actions: seq<Action>,
                                                  k: nat, kind: Kind)
    requires GoodHash(w.hash) && Run(w, limit, states, actions) && k < |states| && kind in states[k].saved
    ensures Right(kind, w, states[k].saved[kind])
  {
    RunKeepsInv(w, limit, states, actions, k);
  }

  /** A scan about to be made in a run: by which call, and from which checkpointed chain. */
  ghost predicate ScanAt(w: World, limit: nat, states: seq<State>, actions: seq<Action>, k: nat, c: Call) {
    && GoodHash(w.hash) && Run(w, limit, states, actions) && k < |actions| && actions[k].Scan?
    && actions[k].id < |states[k].calls| && c == states[k].calls[actions[k].id] && c.stage.Restored?
  }

  /**
   In every run, a scan that is not stopped gives the value of the list as it is at that moment
   from scratch, provided the list still reaches the call's checkpoint. If a reorg has cut it
   back below, the call gives the value of the chain up to its checkpoint, whose front the list now is.
   */
  lemma {:induction false} EveryCompletedScan(w: World, limit: nat, states: seq<State>, actions: seq<Action>, k: nat,
                                              c: Call)
    requires ScanAt(w, limit, states, actions, k, c) && actions[k].end.stop.None?
    ensures var s, base := states[k], c.stage.base;
            && Near(s, base)
            && actions[k].end.result == ResultOf(c.kind, w, if |base| <= |s.chain| then s.chain else base)
            && actions[k].id < |states[k + 1].calls|
            && states[k + 1].calls[actions[k].id].stage == Scanned(actions[k].end, Subject(s.chain, base), |base|)
  {
    RunKeepsInv(w, limit, states, actions, k);
    assert StepAt(w, limit, states, actions, k);
    assert CallOk(w, states[k], c);
    ScanOk(w, limit, states[k], c.kind, c.stage.result, c.stage.base, actions[k].end);
  }

  /** A call no reorg interferes with gives the value of the list from scratch. */
  lemma {:induction false} UndisturbedCall(w: World, limit: nat, states: seq<State>, actions: seq<Action>, k: nat,
                                           c: Call)
    requires ScanAt(w, limit, states, actions, k, c) && actions[k].end.stop.None? && !states[k].dirty
    ensures actions[k].end.result == ResultOf(c.kind, w, states[k].chain)
  {
    EveryCompletedScan(w, limit, states, actions, k, c);
  }

  /** A call that gives up for the scan limit saves a checkpoint strictly above the one it started from. */
  lemma {:induction false} GivingUpProgresses(w: World, limit: nat, states: seq<State>, actions: seq<Action>, k: nat,
                                              c: Call)
    returns (cut: nat)
    requires ScanAt(w, limit, states, actions, k, c) && actions[k].end.stop == Some(ScanLimit) && limit > 0
    ensures |c.stage.base| < cut <= |states[k].chain| && actions[k].end.last.Some?
    ensures RightFor(c.kind, w, Saved(actions[k].end.result, actions[k].end.last.value), states[k].chain[..cut])
  {
    RunKeepsInv(w, limit, states, actions, k);
    assert StepAt(w, limit, states, actions, k);
    var s, e, base := states[k], actions[k].end, c.stage.base;
    assert CallOk(w, s, c);
    var scan, n :| Gives(c.kind, w, s.chain, s.rows, |base|, limit, c.stage.result, e, scan, n);
    if |base| <= |s.chain| {
      assert base <= s.chain;
      cut := ScanOnList(c.kind, w, s.chain, s.rows, base, limit, c.stage.result, e, scan, n);
    } else {
      ScanOffList(c.kind, w, s.chain, s.rows, base, limit, c.stage.result, e, scan, n);
      assert false;
    }
  }

  // ----- Reachable states -------------------------------------------------------------------------------------

  /** Some run ends in this state. */
  ghost predicate Reachable(w: World, limit: nat, s: State) {
    exists states, actions :: RunTo(w, limit, states, actions, s)
  }

  ghost predicate RunTo(w: World, limit: nat, states: seq<State>, actions: seq<Action>, s: State) {
    Run(w, limit, states, actions) && states[|actions|] == s
  }

  lemma {:induction false} ReachStart(w: World, limit: nat, rows: set<Row>)
    ensures Reachable(w, limit, State([], rows, false, map[], []))
  {
    assert RunTo(w, limit, [State([], rows, false, map[], [])], [], State([], rows, false, map[], []));
  }

  lemma {:induction false} ReachNext(w: World, limit: nat, s: State, a: Action)
    requires Reachable(w, limit, s) && Enabled(w, limit, s, a)
    ensures Reachable(w, limit, Apply(w, s, a))
  {
    var states, actions :| RunTo(w, limit, states, actions, s);
    hide Enabled;
    hide Apply;
    var states', actions' := states + [Apply(w, s, a)], actions + [a];
    forall k | 0 <= k < |actions'| ensures StepAt(w, limit, states', actions', k) {
      if k < |actions| { assert StepAt(w, limit, states, actions, k); }
    }
    assert RunTo(w, limit, states', actions', Apply(w, s, a));
  }

  lemma {:induction false} ReachableInv(w: World, limit: nat, s: State)
    requires GoodHash(w.hash) && Reachable(w, limit, s)
    ensures Inv(w, s)
  {
    var states, actions :| RunTo(w, limit, states, actions, s);
    RunKeepsInv(w, limit, states, actions, |actions|);
  }
}
