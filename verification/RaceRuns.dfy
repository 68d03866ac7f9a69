/**
 Runs that show what concurrent calls can come to: a stale answer, a panic, and a checkpoint
 replaced by an older one. Each step is one the source takes: with a scan limit of one row, every
 call here stops at a block boundary and must save.
 */
module RaceRuns {
  import opened HeaderChain
  import opened HistoryKeys
  import opened HistoryScan
  import opened HistoryDelta
  import opened Checkpoints
  import opened CheckpointRuns
  import opened ReorgRaces
  import opened Wrappers

  /** A chain of four blocks, each but the first paying the script once. */
  datatype Four = Four(g: Header, b: Header, c: Header, d: Header, x: Info, y: Info, z: Info) {
    function Chain(): seq<Header> { [g, b, c, d] }

    function Rows(): set<Row> { {Row(1, x), Row(2, y), Row(3, z)} }

    ghost predicate Ok(w: World) {
      && GoodHash(w.hash) && g.prev == DEFAULT_BLOCKHASH
      && b.prev == w.hash(g) && c.prev == w.hash(b) && d.prev == w.hash(c)
      && w.history(g) == {} && w.history(b) == {x} && w.history(c) == {y} && w.history(d) == {z}
      && x.Funding? && y.Funding? && z.Funding?
    }
  }

  // ----- Indexing the chain ------------------------------------------------------------------------------------

  lemma {:induction false} FourPublished(w: World, f: Four, n: nat)
    requires f.Ok(w) && n <= 4
    ensures Published(w, f.Chain()[..n], f.Rows())
  {
    var chain := f.Chain()[..n];
    forall h | 0 <= h < n ensures Clean(Infos(w, chain, h)) && RowsMatch(f.Rows(), h, Infos(w, chain, h)) {
      assert chain[h] == f.Chain()[h];
    }
  }

  /** The chain is indexed, nothing is saved, nobody asks. */
  function Indexed(f: Four): State { State(f.Chain(), f.Rows(), false, map[], []) }

  lemma {:induction false} ReachPrefix(w: World, f: Four, n: nat)
    requires f.Ok(w) && n <= 4
    ensures Reachable(w, 1, State(f.Chain()[..n], f.Rows(), false, map[], []))
  {
    if n == 0 {
      ReachStart(w, 1, f.Rows());
    } else {
      ReachPrefix(w, f, n - 1);
      var s := State(f.Chain()[..n - 1], f.Rows(), false, map[], []);
      var header := f.Chain()[n - 1];
      assert s.chain + [header] == f.Chain()[..n];
      FourPublished(w, f, n);
      ReachNext(w, 1, s, Append(header, f.Rows()));
    }
  }

  lemma {:induction false} ReachIndexed(w: World, f: Four)
    requires f.Ok(w)
    ensures Reachable(w, 1, Indexed(f))
  {
    ReachPrefix(w, f, 4);
    assert f.Chain()[..4] == f.Chain();
  }

  // ----- Steps of a call ----------------------------------------------------------------------------------------

  function WithCall(s: State, c: Call): State { s.(calls := s.calls + [c]) }

  lemma {:induction false} AskAndFetch(w: World, s: State, kind: Kind)
    requires Reachable(w, 1, s)
    ensures Reachable(w, 1, WithCall(s, Call(kind, Fetched(if kind in s.saved then Some(s.saved[kind]) else None))))
  {
    var id := |s.calls|;
    ReachNext(w, 1, s, Ask(kind));
    var s1 := WithCall(s, Call(kind, Asked));
    ReachNext(w, 1, s1, Fetch(id));
    var found := if kind in s.saved then Some(s.saved[kind]) else None;
    assert Move(s1, id, Fetched(found)) == WithCall(s, Call(kind, Fetched(found)));
  }

  /** Without a checkpoint a call starts from nothing. */
  lemma {:induction false} FreshCall(w: World, s: State, kind: Kind)
    requires Reachable(w, 1, s) && kind !in s.saved
    ensures Reachable(w, 1, WithCall(s, Call(kind, Restored(ResultOf(kind, w, []), []))))
  {
    AskAndFetch(w, s, kind);
    var id, s1 := |s.calls|, WithCall(s, Call(kind, Fetched(None)));
    ReachNext(w, 1, s1, Locate(id));
    var stage := Restored(ResultOf(kind, w, []), []);
    assert Move(s1, id, stage) == WithCall(s, Call(kind, stage));
  }

  /** With one, it finds the block it is tagged with. */
  lemma {:induction false} ResumedCall(w: World, s: State, kind: Kind, n: nat)
    requires GoodHash(w.hash) && Linked(w.hash, s.chain) && Reachable(w, 1, s)
    requires kind in s.saved && 0 < n <= |s.chain| && s.saved[kind].hash == BlockIdAt(w, s.chain, n - 1).hash
    ensures Reachable(w, 1, WithCall(s, Call(kind, Located(s.saved[kind], s.chain[..n], map[]))))
  {
    AskAndFetch(w, s, kind);
    var cp := s.saved[kind];
    var id, s1 := |s.calls|, WithCall(s, Call(kind, Fetched(Some(cp))));
    ReachNext(w, 1, s1, Locate(id));
    var height := HeightByHash(w, s.chain, cp.hash);
    HashTellsHeight(w, s.chain, height.value, n - 1);
    var stage := Located(cp, s.chain[..n], map[]);
    assert LocateStage(kind, w, s.chain, Some(cp)) == stage;
    assert Move(s1, id, stage) == WithCall(s, Call(kind, stage));
  }

  /** A scan limited to one row stops after the first block it finds, and saves. */
  ghost function Stopped(w: World, kind: Kind, chain: seq<Header>, from: Result, scan: seq<Row>): Ending
    requires scan != [] && scan[0].height < |chain| && (kind.Unspent? <==> from.Coins?)
  {
    Ending(Fold(kind, w, chain, from, scan, 1), Some(BlockIdAt(w, chain, scan[0].height).hash), Some(ScanLimit))
  }

  lemma {:induction false} ScanStops(w: World, s: State, id: nat, scan: seq<Row>)
    requires Reachable(w, 1, s) && id < |s.calls| && s.calls[id].stage.Restored?
    requires Lists(scan, RowsFrom(s.rows, |s.calls[id].stage.base|))
    requires (s.calls[id].kind.Unspent? <==> s.calls[id].stage.result.Coins?)
    requires |scan| > 1 && scan[0].height < scan[1].height < |s.chain|
    ensures var c := s.calls[id];
            var e := Stopped(w, c.kind, s.chain, c.stage.result, scan);
            Reachable(w, 1, Move(s, id, Scanned(e, Subject(s.chain, c.stage.base), |c.stage.base|)))
  {
    var c := s.calls[id];
    var e := Stopped(w, c.kind, s.chain, c.stage.result, scan);
    assert Boundary(scan, 1);
    assert Gives(c.kind, w, s.chain, s.rows, |c.stage.base|, 1, c.stage.result, e, scan, 1);
    ReachNext(w, 1, s, Scan(id, e));
  }

  lemma {:induction false} SaveStopped(w: World, s: State, id: nat)
    requires Reachable(w, 1, s) && id < |s.calls| && s.calls[id].stage.Scanned?
    requires s.calls[id].stage.end.stop == Some(ScanLimit) && s.calls[id].stage.end.last.Some?
    ensures var e := s.calls[id].stage.end;
            Reachable(w, 1, Move(s, id, GaveUp).(saved := s.saved[s.calls[id].kind := Saved(e.result, e.last.value)]))
  {
    ReachNext(w, 1, s, Save(id, true));
  }

  // ----- The rows of the four blocks ------------------------------------------------------------------------------

  function AllRows(f: Four): seq<Row> { [Row(1, f.x), Row(2, f.y), Row(3, f.z)] }

  function LaterRows(f: Four): seq<Row> { [Row(2, f.y), Row(3, f.z)] }

  lemma {:induction false} RowsListed(f: Four)
    ensures Lists(AllRows(f), RowsFrom(f.Rows(), 0)) && Lists(LaterRows(f), RowsFrom(f.Rows(), 2))
  {
    var all, later := AllRows(f), LaterRows(f);
    assert all[0] == Row(1, f.x) && all[1] == Row(2, f.y) && all[2] == Row(3, f.z);
    assert later[0] == Row(2, f.y) && later[1] == Row(3, f.z);
  }

  // ----- The runs -----------------------------------------------------------------------------------------------

  /** What a call from nothing saves. */
  ghost function FirstEnd(w: World, f: Four, kind: Kind): Ending {
    Stopped(w, kind, f.Chain(), ResultOf(kind, w, []), AllRows(f))
  }

  ghost function FirstSaved(w: World, f: Four, kind: Kind): Checkpoint {
    Saved(FirstEnd(w, f, kind).result, w.hash(f.b))
  }

  /** One call has scanned from nothing up to the second block, and has yet to save. */
  ghost function FirstScanned(w: World, f: Four, kind: Kind): State {
    WithCall(Indexed(f), Call(kind, Scanned(FirstEnd(w, f, kind), f.Chain(), 0)))
  }

  lemma {:induction false} ReachFirstScanned(w: World, f: Four, kind: Kind)
    requires f.Ok(w)
    ensures Reachable(w, 1, FirstScanned(w, f, kind))
  {
    ReachIndexed(w, f);
    FreshCall(w, Indexed(f), kind);
    RowsListed(f);
    var s := WithCall(Indexed(f), Call(kind, Restored(ResultOf(kind, w, []), [])));
    ScanStops(w, s, 0, AllRows(f));
    assert Move(s, 0, Scanned(FirstEnd(w, f, kind), f.Chain(), 0)) == FirstScanned(w, f, kind);
  }

  /** Several calls on the four blocks, and what is saved. */
  function Calls(f: Four, saved: map<Kind, Checkpoint>, calls: seq<Call>): State {
    State(f.Chain(), f.Rows(), false, saved, calls)
  }

  lemma {:induction false} FourLinked(w: World, f: Four)
    requires f.Ok(w)
    ensures Linked(w.hash, f.Chain())
  {
    ReachIndexed(w, f);
    ReachableInv(w, 1, Indexed(f));
  }

  /** One call has saved, another has found what it saved. */
  ghost function SecondLocated(w: World, f: Four, kind: Kind): State {
    var cp := FirstSaved(w, f, kind);
    Calls(f, map[kind := cp], [Call(kind, GaveUp), Call(kind, Located(cp, [f.g, f.b], map[]))])
  }

  /** A second call finds what the first saved, at the second block. */
  lemma {:induction false} ReachLocated(w: World, f: Four, kind: Kind)
    requires f.Ok(w)
    ensures Reachable(w, 1, SecondLocated(w, f, kind))
  {
    ReachFirstScanned(w, f, kind);
    var cp := FirstSaved(w, f, kind);
    SaveStopped(w, FirstScanned(w, f, kind), 0);
    var s := Calls(f, map[kind := cp], [Call(kind, GaveUp)]);
    assert Move(FirstScanned(w, f, kind), 0, GaveUp).(saved := map[kind := cp]) == s;
    FourLinked(w, f);
    ResumedCall(w, s, kind, 2);
    assert f.Chain()[..2] == [f.g, f.b];
    assert WithCall(s, Call(kind, Located(cp, [f.g, f.b], map[]))) == SecondLocated(w, f, kind);
  }

  /** The first block alone, after a reorg that the cleanup has not followed yet. */
  function CutBack(s: State, f: Four): State { s.(chain := [f.g], dirty := true) }

  lemma {:induction false} ReachCutBack(w: World, f: Four, s: State)
    requires Reachable(w, 1, s) && s.chain == f.Chain()
    ensures Reachable(w, 1, CutBack(s, f))
  {
    ReachNext(w, 1, s, Pop(1));
    assert s.chain[..1] == [f.g];
  }

  /** A run in which restoring a checkpoint panics. */
  lemma {:induction false} PanicRun(w: World, f: Four) returns (s: State)
    requires f.Ok(w)
    ensures Reachable(w, 1, s) && |s.calls| == 2 && s.calls[1].stage.Panicked?
  {
    ReachLocated(w, f, Unspent);
    var cut := CutBack(SecondLocated(w, f, Unspent), f);
    ReachCutBack(w, f, SecondLocated(w, f, Unspent));
    FirstCoin(w, f);
    ReachNext(w, 1, cut, LookUp(1, f.x.Out()));
    s := Apply(w, cut, LookUp(1, f.x.Out()));
  }

  lemma {:induction false} FirstCoin(w: World, f: Four)
    requires f.Ok(w)
    ensures FirstSaved(w, f, Unspent) == SavedCoins(map[f.x.Out() := CachedCoin(1, f.x.value)], w.hash(f.b))
  {
    var e := FirstEnd(w, f, Unspent);
    var none := UtxosOf(w, [], 0);
    assert FoldUtxos(w, f.Chain(), none, AllRows(f), 1) ==
           AddRow(FoldUtxos(w, f.Chain(), none, AllRows(f), 0), BlockIdAt(w, f.Chain(), 1), f.x);
    assert e.result.utxos == map[f.x.Out() := Coin(BlockIdAt(w, f.Chain(), 1), f.x.value)];
    assert MakeUtxoCache(e.result.utxos) == map[f.x.Out() := CachedCoin(1, f.x.value)];
  }

  /** On the whole chain, looking up every coin of what the first call saved succeeds. */
  lemma {:induction false} LookUpAll(w: World, f: Four, kind: Kind, s: State, id: nat) returns (stage: Stage)
    requires f.Ok(w) && Reachable(w, 1, s) && s.chain == f.Chain() && id < |s.calls| && s.calls[id].kind == kind
    requires s.calls[id].stage == Located(FirstSaved(w, f, kind), [f.g, f.b], map[])
    ensures stage.Located? && stage.cp == FirstSaved(w, f, kind) && stage.base == [f.g, f.b]
    ensures Reachable(w, 1, Move(s, id, stage)) && forall o :: !ToLookUp(stage, o)
  {
    stage := s.calls[id].stage;
    match kind
    case Totals => assert Move(s, id, stage) == s;
    case Unspent =>
      FirstCoin(w, f);
      var o := f.x.Out();
      ReachNext(w, 1, s, LookUp(id, o));
      stage := LookUpStage(w, s.chain, stage, o);
  }

  /** So restoring it succeeds. */
  lemma {:induction false} RestoreCall(w: World, f: Four, kind: Kind, s: State, id: nat)
    requires f.Ok(w) && Reachable(w, 1, s) && s.chain == f.Chain() && id < |s.calls| && s.calls[id].kind == kind
    requires s.calls[id].stage == Located(FirstSaved(w, f, kind), [f.g, f.b], map[])
    ensures Reachable(w, 1, Move(s, id, Restored(ResultOf(kind, w, [f.g, f.b]), [f.g, f.b])))
  {
    var stage := LookUpAll(w, f, kind, s, id);
    var ready := Move(s, id, stage);
    ReachableInv(w, 1, ready);
    assert CallOk(w, ready, ready.calls[id]);
    RestoreOk(w, ready, kind, stage);
    ReachNext(w, 1, ready, Restore(id));
    assert RestoreStage(stage) == Restored(ResultOf(kind, w, [f.g, f.b]), [f.g, f.b]);
    assert Move(ready, id, RestoreStage(stage)) == Move(s, id, RestoreStage(stage));
  }

  /** A run in which a call answers with the value of a block that is no longer in the list. */
  lemma {:induction false} StaleRun(w: World, f: Four, kind: Kind) returns (s: State)
    requires f.Ok(w)
    ensures Reachable(w, 1, s) && |s.calls| == 2 && s.calls[1].kind == kind && s.calls[1].stage.Answered?
    ensures s.calls[1].stage.result != ResultOf(kind, w, s.chain)
  {
    ReachLocated(w, f, kind);
    var located, base := SecondLocated(w, f, kind), [f.g, f.b];
    RestoreCall(w, f, kind, located, 1);
    var from := ResultOf(kind, w, base);
    var restored := Move(located, 1, Restored(from, base));
    ReachCutBack(w, f, restored);
    var cut := CutBack(restored, f);
    var e := Ending(from, None, None);
    RowsListed(f);
    assert Gives(kind, w, [f.g], f.Rows(), 2, 1, from, e, LaterRows(f), 0);
    ReachNext(w, 1, cut, Scan(1, e));
    var scanned := Apply(w, cut, Scan(1, e));
    ReachNext(w, 1, scanned, Save(1, false));
    s := Apply(w, scanned, Save(1, false));
    SecondBlockCounts(w, f, kind);
  }

  lemma {:induction false} SecondBlockCounts(w: World, f: Four, kind: Kind)
    requires f.Ok(w)
    ensures ResultOf(kind, w, [f.g, f.b]) != ResultOf(kind, w, [f.g])
  {
    var base := [f.g, f.b];
    SamePrefix(w, [f.g], base, 1);
    assert Infos(w, base, 1) == {f.x};
    match kind
    case Totals => CountsGrow(w, base, 1, 2);
    case Unspent =>
      assert f.x.Out() in Funded({f.x});
      assert f.x.Out() in UtxosOf(w, base, 2);
      CoinsOfChain(w, base, 1);
  }

  // ----- An older checkpoint over a newer one -----------------------------------------------------------------------

  lemma {:induction false} ReachSecondSaved(w: World, f: Four, kind: Kind)
    requires f.Ok(w)
    ensures Reachable(w, 1, Calls(f, map[kind := FirstSaved(w, f, kind)],
                                  [FirstScanned(w, f, kind).calls[0], Call(kind, GaveUp)]))
  {
    ReachFirstScanned(w, f, kind);
    var s0 := FirstScanned(w, f, kind);
    FreshCall(w, s0, kind);
    RowsListed(f);
    var s1 := WithCall(s0, Call(kind, Restored(ResultOf(kind, w, []), [])));
    ScanStops(w, s1, 1, AllRows(f));
    var s2 := Move(s1, 1, Scanned(FirstEnd(w, f, kind), f.Chain(), 0));
    SaveStopped(w, s2, 1);
    assert Move(s2, 1, GaveUp).calls == [s0.calls[0], Call(kind, GaveUp)];
  }

  /** A third call has restored what the second saved, while the first has yet to save. */
  ghost function ThirdRestored(w: World, f: Four, kind: Kind): State {
    var base := [f.g, f.b];
    Calls(f, map[kind := FirstSaved(w, f, kind)],
          [FirstScanned(w, f, kind).calls[0], Call(kind, GaveUp), Call(kind, Restored(ResultOf(kind, w, base), base))])
  }

  lemma {:induction false} ReachThirdRestored(w: World, f: Four, kind: Kind)
    requires f.Ok(w)
    ensures Reachable(w, 1, ThirdRestored(w, f, kind))
  {
    ReachSecondSaved(w, f, kind);
    FourLinked(w, f);
    var cp, slow := FirstSaved(w, f, kind), FirstScanned(w, f, kind).calls[0];
    var s1 := Calls(f, map[kind := cp], [slow, Call(kind, GaveUp)]);
    ResumedCall(w, s1, kind, 2);
    assert f.Chain()[..2] == [f.g, f.b];
    var s2 := WithCall(s1, Call(kind, Located(cp, [f.g, f.b], map[])));
    RestoreCall(w, f, kind, s2, 2);
    assert Move(s2, 2, Restored(ResultOf(kind, w, [f.g, f.b]), [f.g, f.b])) == ThirdRestored(w, f, kind);
  }

  /**
   A run in which a slow call, having started from nothing, saves the value at the second block
   over the one another call has meanwhile saved for the third.
   */
  lemma {:induction false} LoweringRun(w: World, f: Four, kind: Kind) returns (s: State)
    requires f.Ok(w)
    ensures Reachable(w, 1, s) && !s.dirty && s.chain == f.Chain() && Enabled(w, 1, s, Save(0, true))
    ensures kind in s.saved && RowHeight(w, s.chain, Some(s.saved[kind].hash)) == 2
    ensures var s' := Apply(w, s, Save(0, true));
            kind in s'.saved && RowHeight(w, s'.chain, Some(s'.saved[kind].hash)) == 1
  {
    ReachThirdRestored(w, f, kind);
    var s3, from := ThirdRestored(w, f, kind), ResultOf(kind, w, [f.g, f.b]);
    RowsListed(f);
    ScanStops(w, s3, 2, LaterRows(f));
    var e := Stopped(w, kind, f.Chain(), from, LaterRows(f));
    var s4 := Move(s3, 2, Scanned(e, f.Chain(), 2));
    SaveStopped(w, s4, 2);
    s := Move(s4, 2, GaveUp).(saved := s4.saved[kind := Saved(e.result, e.last.value)]);
    FourLinked(w, f);
    TagHeight(w, f.Chain(), 3);
    TagHeight(w, f.Chain(), 2);
  }

  // ----- There are such blocks ------------------------------------------------------------------------------------

  /** A number for every pair, and no number for two. */
  function Paired(x: nat, y: nat): (r: nat)
    ensures r > 0
  {
    if x == 0 then 2 * y + 1 else 2 * Paired(x - 1, y)
  }

  lemma {:induction false} PairedOnce(x: nat, y: nat, x': nat, y': nat)
    requires Paired(x, y) == Paired(x', y')
    ensures x == x' && y == y'
    decreases x
  {
    if x > 0 && x' > 0 { PairedOnce(x - 1, y, x' - 1, y'); }
  }

  function Folded(i: int): nat { if i >= 0 then 2 * i else -2 * i - 1 }

  function HashOf(h: Header): Hash { Paired(Folded(h.prev), Paired(h.time, Folded(h.rest))) }

  lemma {:induction false} HashOnce(a: Header, b: Header)
    requires HashOf(a) == HashOf(b)
    ensures a == b
  {
    PairedOnce(Folded(a.prev), Paired(a.time, Folded(a.rest)), Folded(b.prev), Paired(b.time, Folded(b.rest)));
    PairedOnce(a.time, Folded(a.rest), b.time, Folded(b.rest));
  }

  ghost function HeaderWith(hash: Hash): Header {
    if h: Header :| HashOf(h) == hash then h else Header(0, 0, 0)
  }

  lemma {:induction false} HashIsGood()
    ensures GoodHash(HashOf)
  {
    forall a ensures HeaderWith(HashOf(a)) == a { HashOnce(HeaderWith(HashOf(a)), a); }
    assert Inverts(h => HeaderWith(h), HashOf);
  }

  /** The runs above are runs of something: here are a hash, four blocks and their rows. */
  lemma {:induction false} SomeBlocks() returns (w: World, f: Four)
    ensures f.Ok(w)
  {
    var g := Header(DEFAULT_BLOCKHASH, 0, 0);
    var b := Header(HashOf(g), 0, 0);
    var c := Header(HashOf(b), 0, 0);
    var d := Header(HashOf(c), 0, 0);
    var x, y, z := Funding([], 0, 1), Funding([], 1, 1), Funding([], 2, 1);
    var history := (h: Header) => if h == b then {x} else if h == c then {y} else if h == d then {z} else {};
    w, f := World(HashOf, history), Four(g, b, c, d, x, y, z);
    HashIsGood();
    if c == b { HashOnce(b, g); }
    if d == b { HashOnce(c, g); }
    if d == c { HashOnce(c, b); }
  }
}
