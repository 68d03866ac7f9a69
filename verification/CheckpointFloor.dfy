/**
 What makes retrying end when several calls on one script run at once. A call that saves may
 replace a newer checkpoint by an older one, but as long as no reorg intervenes, the least of
 the saved level and the levels the calls in flight started from never falls, and it rises once
 the calls that started from it are done.

 The level of a checkpoint is the number of blocks it covers.
 */
module CheckpointFloor {
  import opened HeaderChain
  import opened HistoryKeys
  import opened HistoryScan
  import opened HistoryDelta
  import opened Checkpoints
  import opened CheckpointRuns
  import opened Wrappers

  /** The blocks covered by a checkpoint with this tag; none if its block is not in the list. */
  function Level(w: World, chain: seq<Header>, tag: Option<Hash>): nat { RowHeight(w, chain, tag) + 1 }

  function TagOf(cp: Option<Checkpoint>): Option<Hash> { if cp.None? then None else Some(cp.value.hash) }

  function SavedTag(s: State, kind: Kind): Option<Hash> {
    if kind in s.saved then Some(s.saved[kind].hash) else None
  }

  /** The level a call in flight starts from, once it has read the checkpoint. */
  function StartLevel(w: World, chain: seq<Header>, stage: Stage): Option<nat> {
    match stage
    case Fetched(found) => Some(Level(w, chain, TagOf(found)))
    case Located(_, base, _) => Some(|base|)
    case Restored(_, base) => Some(|base|)
    case Scanned(_, _, from) => Some(from)
    case _ => None
  }

  predicate StartsAbove(w: World, chain: seq<Header>, stage: Stage, floor: nat) {
    var level := StartLevel(w, chain, stage);
    level.Some? ==> level.value >= floor
  }

  /** The saved level is at least `saved`, and every call of this kind started from at least `floor`. */
  ghost predicate Above(w: World, s: State, kind: Kind, floor: nat, saved: nat) {
    && Level(w, s.chain, SavedTag(s, kind)) >= saved
    && forall i :: 0 <= i < |s.calls| && s.calls[i].kind == kind ==> StartsAbove(w, s.chain, s.calls[i].stage, floor)
  }

  ghost predicate AtLeast(w: World, s: State, kind: Kind, floor: nat) { Above(w, s, kind, floor, floor) }

  /** What a scan is about to save is further along than where it started. */
  ghost predicate Ahead(w: World, chain: seq<Header>, stage: Stage) {
    stage.Scanned? && stage.end.last.Some? ==> Level(w, chain, stage.end.last) > stage.from
  }

  ghost predicate AllAhead(w: World, s: State) {
    !s.dirty ==> forall i :: 0 <= i < |s.calls| ==> Ahead(w, s.chain, s.calls[i].stage)
  }

  // ----- Scans save further along ------------------------------------------------------------------------------

  lemma {:induction false} LevelGrows(w: World, chain: seq<Header>, header: Header, tag: Option<Hash>)
    ensures Level(w, chain + [header], tag) >= Level(w, chain, tag)
  {
    var more := chain + [header];
    assert more[..|more| - 1] == chain;
  }

  lemma {:induction false} ScanIsAhead(w: World, limit: nat, s: State, kind: Kind, from: Result, base: seq<Header>,
                                       e: Ending)
    requires GoodHash(w.hash) && Inv(w, s) && !s.dirty && from == ResultOf(kind, w, base) && base <= s.chain
    requires MayEnd(kind, w, s.chain, s.rows, |base|, limit, from, e)
    ensures e.last.Some? ==> Level(w, s.chain, e.last) > |base|
  {
    if scan, n :| Gives(kind, w, s.chain, s.rows, |base|, limit, from, e, scan, n) {
      var cut := ScanOnList(kind, w, s.chain, s.rows, base, limit, from, e, scan, n);
      if e.last.Some? {
        assert TipHash(w.hash, s.chain[..cut]) == BlockIdAt(w, s.chain, cut - 1).hash;
        TagHeight(w, s.chain, cut);
      }
    }
  }

  lemma {:induction false} MoveAhead(w: World, s: State, s': State, id: nat)
    requires AllAhead(w, s) && s'.chain == s.chain && s'.dirty == s.dirty && |s'.calls| == |s.calls| && id < |s.calls|
    requires forall i :: 0 <= i < |s.calls| && i != id ==> s'.calls[i] == s.calls[i]
    requires !s.dirty ==> Ahead(w, s.chain, s'.calls[id].stage)
    ensures AllAhead(w, s')
  {
  }

  lemma {:induction false} StepKeepsAhead(w: World, limit: nat, s: State, a: Action)
    requires GoodHash(w.hash) && Inv(w, s) && AllAhead(w, s) && Enabled(w, limit, s, a)
    ensures AllAhead(w, Apply(w, s, a))
  {
    hide Level;
    match a
    case Append(header, rows) =>
      forall tag
        ensures Level(w, s.chain + [header], tag) >= Level(w, s.chain, tag)
      {
        LevelGrows(w, s.chain, header, tag);
      }
    case Scan(id, e) =>
      var call := s.calls[id];
      assert CallOk(w, s, call);
      if !s.dirty { ScanIsAhead(w, limit, s, call.kind, call.stage.result, call.stage.base, e); }
      MoveAhead(w, s, Apply(w, s, a), id);
    case Fetch(id) => MoveAhead(w, s, Apply(w, s, a), id);
    case Locate(id) => MoveAhead(w, s, Apply(w, s, a), id);
    case LookUp(id, _) => MoveAhead(w, s, Apply(w, s, a), id);
    case Restore(id) => MoveAhead(w, s, Apply(w, s, a), id);
    case Save(id, write) => MoveAhead(w, s, Apply(w, s, a), id);
    case _ =>
  }

  lemma {:induction false} RunKeepsAhead(w: World, limit: nat, states: seq<State>, actions: seq<Action>, k: nat)
    requires GoodHash(w.hash) && Run(w, limit, states, actions) && k < |states|
    ensures AllAhead(w, states[k])
  {
    if k > 0 {
      RunKeepsAhead(w, limit, states, actions, k - 1);
      RunKeepsInv(w, limit, states, actions, k - 1);
      assert StepAt(w, limit, states, actions, k - 1);
      StepKeepsAhead(w, limit, states[k - 1], actions[k - 1]);
    }
  }

  // ----- The floor ------------------------------------------------------------------------------------------------

  /** A call of this kind saves. */
  predicate SavesKind(s: State, a: Action, kind: Kind) {
    a.Save? && a.write && a.id < |s.calls| && s.calls[a.id].kind == kind
  }

  lemma {:induction false} MoveAbove(w: World, s: State, s': State, id: nat, kind: Kind, floor: nat, saved: nat)
    requires Above(w, s, kind, floor, saved) && s'.chain == s.chain && |s'.calls| == |s.calls| && id < |s.calls|
    requires forall i :: 0 <= i < |s.calls| && i != id ==> s'.calls[i] == s.calls[i]
    requires s'.calls[id].kind == kind ==> StartsAbove(w, s.chain, s'.calls[id].stage, floor)
    ensures Level(w, s.chain, SavedTag(s', kind)) >= saved ==> Above(w, s', kind, floor, saved)
  {
  }

  /** One step of a call, none of them a save, keeps the floor. */
  lemma {:induction false} CallKeepsFloor(w: World, limit: nat, s: State, a: Action, kind: Kind, floor: nat, saved: nat)
    requires Enabled(w, limit, s, a) && IsCallStep(a) && !a.Save?
    requires Above(w, s, kind, floor, saved) && floor <= saved
    ensures Above(w, Apply(w, s, a), kind, floor, saved)
  {
    if s.calls[a.id].kind == kind { StageKeepsFloor(w, limit, s, a, kind, floor, saved); }
    OtherCallsStay(w, limit, s, a);
    hide Enabled;
    hide Apply;
    hide Level;
    hide StartsAbove;
    MoveAbove(w, s, Apply(w, s, a), a.id, kind, floor, saved);
  }

  /** A call starts from what is saved, and keeps that start. */
  lemma {:induction false} StageKeepsFloor(w: World, limit: nat, s: State, a: Action, kind: Kind, floor: nat,
                                           saved: nat)
    requires Enabled(w, limit, s, a) && IsCallStep(a) && !a.Save? && s.calls[a.id].kind == kind
    requires Above(w, s, kind, floor, saved) && floor <= saved
    ensures StartsAbove(w, s.chain, Apply(w, s, a).calls[a.id].stage, floor)
  {
    hide ResultOf;
    hide MayEnd;
    hide HeightByHash;
    assert StartsAbove(w, s.chain, s.calls[a.id].stage, floor);
  }

  /** A save lifts the saved level above the floor, or is of the other kind. */
  lemma {:induction false} SaveKeepsFloor(w: World, limit: nat, s: State, a: Action, kind: Kind, floor: nat, saved: nat)
    requires Enabled(w, limit, s, a) && a.Save? && !s.dirty && AllAhead(w, s)
    requires Above(w, s, kind, floor, saved) && floor <= saved <= floor + 1
    ensures Above(w, Apply(w, s, a), kind, floor, if SavesKind(s, a, kind) then floor + 1 else saved)
  {
    hide Level;
    var s', c := Apply(w, s, a), s.calls[a.id];
    assert Ahead(w, s.chain, c.stage);
    if SavesKind(s, a, kind) {
      assert StartsAbove(w, s.chain, c.stage, floor);
      assert SavedTag(s', kind) == c.stage.end.last;
    } else {
      assert SavedTag(s', kind) == SavedTag(s, kind);
    }
    MoveAbove(w, s, s', a.id, kind, floor, saved);
  }

  lemma {:induction false} AppendKeepsFloor(w: World, s: State, header: Header, rows: set<Row>, kind: Kind, floor: nat,
                                            saved: nat)
    requires Above(w, s, kind, floor, saved)
    ensures Above(w, s.(chain := s.chain + [header], rows := rows), kind, floor, saved)
  {
    hide Level;
    var s' := s.(chain := s.chain + [header], rows := rows);
    LevelGrows(w, s.chain, header, SavedTag(s, kind));
    forall i | 0 <= i < |s'.calls| && s'.calls[i].kind == kind
      ensures StartsAbove(w, s'.chain, s'.calls[i].stage, floor)
    {
      assert StartsAbove(w, s.chain, s.calls[i].stage, floor);
      if s.calls[i].stage.Fetched? { LevelGrows(w, s.chain, header, TagOf(s.calls[i].stage.found)); }
    }
  }

  lemma {:induction false} StepKeepsFloor(w: World, limit: nat, s: State, a: Action, kind: Kind, floor: nat, saved: nat)
    requires Enabled(w, limit, s, a) && !a.Pop? && !a.Cleanup? && !s.dirty && AllAhead(w, s)
    requires Above(w, s, kind, floor, saved) && floor <= saved <= floor + 1
    ensures Above(w, Apply(w, s, a), kind, floor, if SavesKind(s, a, kind) then floor + 1 else saved)
    ensures !Apply(w, s, a).dirty
  {
    hide Level;
    match a
    case Append(header, rows) => AppendKeepsFloor(w, s, header, rows, kind, floor, saved);
    case Touch(rows) =>
    case Ask(_) =>
    case Save(_, _) => SaveKeepsFloor(w, limit, s, a, kind, floor, saved);
    case _ => CallKeepsFloor(w, limit, s, a, kind, floor, saved);
  }

  // ----- Between reorgs ---------------------------------------------------------------------------------------------

  /** From state `i` to state `j` of a run nothing is popped, and no cleanup is due. */
  ghost predicate Quiet(w: World, limit: nat, states: seq<State>, actions: seq<Action>, i: nat, j: nat) {
    && GoodHash(w.hash) && Run(w, limit, states, actions) && i <= j < |states| && !states[i].dirty
    && forall k :: i <= k < j ==> !actions[k].Pop? && !actions[k].Cleanup?
  }

  /** Some call of this kind saves between these states. */
  ghost predicate SavedWithin(states: seq<State>, actions: seq<Action>, i: nat, j: nat, kind: Kind) {
    |states| == |actions| + 1 && j < |states| && exists k :: i <= k < j && SavesKind(states[k], actions[k], kind)
  }

  lemma {:induction false} FloorBetween(w: World, limit: nat, states: seq<State>, actions: seq<Action>, i: nat, j: nat,
                                        kind: Kind, floor: nat)
    requires Quiet(w, limit, states, actions, i, j) && AtLeast(w, states[i], kind, floor)
    ensures !states[j].dirty
    ensures Above(w, states[j], kind, floor, if SavedWithin(states, actions, i, j, kind) then floor + 1 else floor)
    decreases j
  {
    if i < j {
      var m := j - 1;
      FloorBetween(w, limit, states, actions, i, m, kind, floor);
      RunKeepsAhead(w, limit, states, actions, m);
      assert StepAt(w, limit, states, actions, m);
      hide Above;
      hide AllAhead;
      hide Enabled;
      hide Apply;
      var saved := if SavedWithin(states, actions, i, m, kind) then floor + 1 else floor;
      StepKeepsFloor(w, limit, states[m], actions[m], kind, floor, saved);
      SavedNext(states, actions, i, m, j, kind);
    }
  }

  lemma {:induction false} SavedNext(states: seq<State>, actions: seq<Action>, i: nat, m: nat, j: nat, kind: Kind)
    requires |states| == |actions| + 1 && i <= m && j == m + 1 < |states|
    ensures SavedWithin(states, actions, i, j, kind) <==>
              SavedWithin(states, actions, i, m, kind) || SavesKind(states[m], actions[m], kind)
  {
  }

  /** Main result: between reorgs the floor never falls. */
  lemma {:induction false} FloorNeverFalls(w: World, limit: nat, states: seq<State>, actions: seq<Action>, i: nat,
                                           j: nat, kind: Kind, floor: nat)
    requires Quiet(w, limit, states, actions, i, j) && AtLeast(w, states[i], kind, floor)
    ensures AtLeast(w, states[j], kind, floor) && floor <= |states[j].chain|
  {
    FloorBetween(w, limit, states, actions, i, j, kind, floor);
  }

  /** And once some call has saved and the calls that started from the floor are done, it has risen. */
  lemma {:induction false} FloorRises(w: World, limit: nat, states: seq<State>, actions: seq<Action>, i: nat, j: nat,
                                      kind: Kind, floor: nat)
    requires Quiet(w, limit, states, actions, i, j) && AtLeast(w, states[i], kind, floor)
    requires SavedWithin(states, actions, i, j, kind)
    requires forall n :: 0 <= n < |states[j].calls| && states[j].calls[n].kind == kind ==>
                           StartLevel(w, states[j].chain, states[j].calls[n].stage) != Some(floor)
    ensures AtLeast(w, states[j], kind, floor + 1)
  {
    FloorBetween(w, limit, states, actions, i, j, kind, floor);
  }
}
