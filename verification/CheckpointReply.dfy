/**
 Checkpoint proofs under concurrency. Any number of `blockchain.block.header(s)` requests run
 against a header chain that may be replaced at any moment, sharing trees through the cache and
 the per-height retained tree. Whatever the interleaving, a reply that is sent is right for the
 chain that was current when it was sent.
 */
module CheckpointReply {
  import HC = HeaderChain
  import MT = MerkleTree

  type Hash = int

  /** A built tree, tagged with the hash of its checkpoint block. */
  datatype Tree = Tree(cpHash: Hash, levels: seq<seq<Hash>>)

  /** What is asked: headers `start..=height`, proved at `height` against checkpoint `cp`. */
  datatype Ask = Ask(start: nat, height: nat, cp: nat)

  datatype Reply = Reply(headers: seq<HC.Header>, branch: seq<Hash>, root: Hash)

  datatype Request =
    | Waiting(ask: Ask)
    | Snapshotted(ask: Ask, cpHash: Hash, sibling: Hash)
    | HasTree(ask: Ask, tree: Tree, sibling: Hash)
    | Replied(ask: Ask, reply: Reply)
    | Failed

  /** `shared` holds the trees other requests can find: cache entries and retained trees. */
  datatype State = State(chain: seq<HC.Header>, shared: set<(nat, Tree)>, requests: seq<Request>)

  datatype Hashing = Hashing(hash: HC.Header -> Hash, merge: (Hash, Hash) -> Hash)

  ghost predicate Good(f: Hashing) { HC.GoodHash(f.hash) }

  function Leaves(f: Hashing, chain: seq<HC.Header>, cp: nat): (r: seq<Hash>)
    requires cp < |chain|
    ensures |r| == cp + 1 && forall i :: 0 <= i <= cp ==> r[i] == f.hash(chain[i])
  {
    seq(cp + 1, i requires 0 <= i <= cp => f.hash(chain[i]))
  }

  /** The chain of headers whose block at height `cp` has hash `cpHash`. */
  ghost predicate Ends(f: Hashing, chain: seq<HC.Header>, cp: nat, cpHash: Hash) {
    HC.Linked(f.hash, chain) && cp < |chain| && f.hash(chain[cp]) == cpHash
  }

  function SiblingLeaf(f: Hashing, chain: seq<HC.Header>, ask: Ask): Hash
    requires ask.height <= ask.cp < |chain|
  {
    var s := MT.SiblingIndex(ask.height);
    f.hash(chain[if s < ask.cp then s else ask.cp])
  }

  // ----- Steps ----------------------------------------------------------------------------------

  ghost predicate Update1(s: State, s': State, i: nat, r: Request) {
    i < |s.requests| && s'.requests == s.requests[i := r]
  }

  /** The indexer replaces the chain: any pops, any appends. */
  ghost predicate Reorg(f: Hashing, s: State, s': State) {
    HC.Linked(f.hash, s'.chain) && s'.shared == s.shared && s'.requests == s.requests
  }

  /** Trees are evicted, or dropped with the last guard of their build slot. */
  ghost predicate Forget(s: State, s': State) {
    s'.shared <= s.shared && s'.chain == s.chain && s'.requests == s.requests
  }

  /** A request arrives; heights above the checkpoint, or a checkpoint above the tip, are refused. */
  ghost predicate Arrive(s: State, s': State, ask: Ask) {
    && s'.chain == s.chain && s'.shared == s.shared
    && 1 <= ask.cp < |s.chain| && ask.start <= ask.height <= ask.cp
    && s'.requests == s.requests + [Waiting(ask)]
  }

  /** The checkpoint hash and the sibling leaf are read under one lock. */
  ghost predicate Snapshot(f: Hashing, s: State, s': State, i: nat) {
    && s'.chain == s.chain && s'.shared == s.shared
    && i < |s.requests| && s.requests[i].Waiting?
    && var ask := s.requests[i].ask;
       if ask.height <= ask.cp < |s.chain|
       then Update1(s, s', i, Snapshotted(ask, f.hash(s.chain[ask.cp]), SiblingLeaf(f, s.chain, ask)))
       else Update1(s, s', i, Failed)
  }

  /** A shared tree for the same height and the same checkpoint hash is used as it is. */
  ghost predicate Hit(s: State, s': State, i: nat, tree: Tree) {
    && s'.chain == s.chain && s'.shared == s.shared
    && i < |s.requests| && s.requests[i].Snapshotted?
    && (s.requests[i].ask.cp, tree) in s.shared && tree.cpHash == s.requests[i].cpHash
    && Update1(s, s', i, HasTree(s.requests[i].ask, tree, s.requests[i].sibling))
  }

  /**
   A rebuild re-reads checkpoint hash, leaves and sibling under one lock, then offers its tree to
   the cache (which may keep it, and evict others) and retains it.
   */
  ghost predicate Build(f: Hashing, s: State, s': State, i: nat) {
    && s'.chain == s.chain
    && i < |s.requests| && s.requests[i].Snapshotted?
    && var ask := s.requests[i].ask;
       if ask.height <= ask.cp < |s.chain|
       then
         var tree := Tree(f.hash(s.chain[ask.cp]), MT.Levels(f.merge, Leaves(f, s.chain, ask.cp)));
         s'.shared <= s.shared + {(ask.cp, tree)}
         && Update1(s, s', i, HasTree(ask, tree, SiblingLeaf(f, s.chain, ask)))
       else s'.shared == s.shared && Update1(s, s', i, Failed)
  }

  /** What `extract_branch_and_root` reads out of a tree. */
  ghost predicate Extracted(tree: Tree, sibling: Hash, height: nat, reply: Reply) {
    && tree.levels != [] && MT.NonEmptyLevels(tree.levels)
    && reply.branch == [sibling] + MT.UpperSiblings(tree.levels, height / 2)
    && var top := tree.levels[|tree.levels| - 1]; reply.root == top[|top| - 1]
  }

  /** The reply is sent only if the checkpoint block is still the one the tree was built for. */
  ghost predicate Send(f: Hashing, s: State, s': State, i: nat, reply: Reply) {
    && s'.chain == s.chain && s'.shared == s.shared
    && i < |s.requests| && s.requests[i].HasTree?
    && var r := s.requests[i];
       if r.ask.cp < |s.chain| && f.hash(s.chain[r.ask.cp]) == r.tree.cpHash
       then
         && Extracted(r.tree, r.sibling, r.ask.height, reply)
         && r.ask.start <= r.ask.height < |s.chain|
         && reply.headers == s.chain[r.ask.start..r.ask.height + 1]
         && Update1(s, s', i, Replied(r.ask, reply))
       else Update1(s, s', i, Failed)
  }

  datatype Action =
    | DoReorg
    | DoForget
    | DoArrive(ask: Ask)
    | DoSnapshot(i: nat)
    | DoHit(i: nat, tree: Tree)
    | DoBuild(i: nat)
    | DoSend(i: nat, reply: Reply)

  ghost predicate Does(f: Hashing, s: State, s': State, a: Action) {
    match a
    case DoReorg => Reorg(f, s, s')
    case DoForget => Forget(s, s')
    case DoArrive(ask) => Arrive(s, s', ask)
    case DoSnapshot(i) => Snapshot(f, s, s', i)
    case DoHit(i, tree) => Hit(s, s', i, tree)
    case DoBuild(i) => Build(f, s, s', i)
    case DoSend(i, reply) => Send(f, s, s', i, reply)
  }

  ghost predicate Step(f: Hashing, s: State, s': State) {
    exists a :: Does(f, s, s', a)
  }

  // ----- What holds in every reachable state ---------------------------------------------------

  /** A tree really is the tree over some chain ending at its checkpoint hash. */
  ghost predicate TreeOver(f: Hashing, chain: seq<HC.Header>, cp: nat, tree: Tree) {
    Ends(f, chain, cp, tree.cpHash) && tree.levels == MT.Levels(f.merge, Leaves(f, chain, cp))
  }

  ghost predicate GoodTree(f: Hashing, cp: nat, tree: Tree) {
    exists chain :: TreeOver(f, chain, cp, tree)
  }

  ghost predicate SiblingOver(f: Hashing, chain: seq<HC.Header>, ask: Ask, cpHash: Hash, sibling: Hash) {
    Ends(f, chain, ask.cp, cpHash) && ask.height <= ask.cp && sibling == SiblingLeaf(f, chain, ask)
  }

  ghost predicate GoodSibling(f: Hashing, ask: Ask, cpHash: Hash, sibling: Hash) {
    exists chain :: SiblingOver(f, chain, ask, cpHash, sibling)
  }

  ghost predicate GoodAsk(ask: Ask) { ask.cp >= 1 && ask.start <= ask.height <= ask.cp }

  ghost predicate GoodRequest(f: Hashing, r: Request) {
    match r
    case Waiting(ask) => GoodAsk(ask)
    case Snapshotted(ask, cpHash, sibling) => GoodAsk(ask) && GoodSibling(f, ask, cpHash, sibling)
    case HasTree(ask, tree, sibling) =>
      GoodAsk(ask) && GoodTree(f, ask.cp, tree) && GoodSibling(f, ask, tree.cpHash, sibling)
    case Replied(_, _) => true
    case Failed => true
  }

  ghost predicate Inv(f: Hashing, s: State) {
    && HC.Linked(f.hash, s.chain)
    && (forall e :: e in s.shared ==> GoodTree(f, e.0, e.1))
    && (forall i :: 0 <= i < |s.requests| ==> GoodRequest(f, s.requests[i]))
  }

  /**
   What a client can check of a reply, stated against a chain: the headers are that chain's, and
   hashing the last of them along the branch gives the root over block hashes 0..cp.
   */
  ghost predicate RightFor(f: Hashing, chain: seq<HC.Header>, ask: Ask, reply: Reply) {
    && ask.start <= ask.height <= ask.cp < |chain|
    && reply.headers == chain[ask.start..ask.height + 1]
    && reply.root == MT.Root(f.merge, Leaves(f, chain, ask.cp))
    && MT.Fold(f.merge, f.hash(reply.headers[|reply.headers| - 1]), reply.branch, ask.height) == reply.root
  }

  /** Chains with the same block at `cp` have the same leaves, hence the same tree and siblings. */
  lemma {:induction false} SameLeaves(f: Hashing, a: seq<HC.Header>, b: seq<HC.Header>, cp: nat, cpHash: Hash)
    requires Good(f) && Ends(f, a, cp, cpHash) && Ends(f, b, cp, cpHash)
    ensures Leaves(f, a, cp) == Leaves(f, b, cp)
  {
    HC.HashPinsPrefix(f.hash, a, b, cp + 1, cp + 1);
    forall i | 0 <= i <= cp ensures a[i] == b[i] {
      assert a[..cp + 1][i] == b[..cp + 1][i];
    }
  }

  lemma {:induction false} SiblingIsClamped(f: Hashing, chain: seq<HC.Header>, ask: Ask)
    requires ask.height <= ask.cp < |chain|
    ensures SiblingLeaf(f, chain, ask) == MT.Clamp(Leaves(f, chain, ask.cp), MT.SiblingIndex(ask.height))
  {
  }

  /**
   The reply read out of a good tree with a good sibling is right for any chain that still has the
   checkpoint block.
   */
  lemma {:induction false} ExtractIsRight(f: Hashing, chain: seq<HC.Header>, ask: Ask, tree: Tree, sibling: Hash,
                                          reply: Reply)
    requires Good(f) && GoodAsk(ask) && GoodTree(f, ask.cp, tree) && GoodSibling(f, ask, tree.cpHash, sibling)
    requires Ends(f, chain, ask.cp, tree.cpHash) && Extracted(tree, sibling, ask.height, reply)
    requires reply.headers == chain[ask.start..ask.height + 1]
    ensures RightFor(f, chain, ask, reply)
  {
    hide MT.Levels;
    hide MT.Root;
    hide MT.Fold;
    hide Extracted;
    var leaves := Leaves(f, chain, ask.cp);
    assert tree.levels == MT.Levels(f.merge, leaves) by {
      var a :| TreeOver(f, a, ask.cp, tree);
      SameLeaves(f, chain, a, ask.cp, tree.cpHash);
    }
    assert sibling == MT.Clamp(leaves, MT.SiblingIndex(ask.height)) by {
      var b :| SiblingOver(f, b, ask, tree.cpHash, sibling);
      SiblingIsClamped(f, b, ask);
      SameLeaves(f, chain, b, ask.cp, tree.cpHash);
    }
    ExtractOverLeaves(f, leaves, ask.height, tree, sibling, reply);
    assert reply.headers[|reply.headers| - 1] == chain[ask.height];
  }

  lemma {:induction false} ExtractOverLeaves(f: Hashing, leaves: seq<Hash>, height: nat, tree: Tree, sibling: Hash,
                                             reply: Reply)
    requires |leaves| >= 2 && height < |leaves|
    ensures tree.levels == MT.Levels(f.merge, leaves) && sibling == MT.Clamp(leaves, MT.SiblingIndex(height))
            && Extracted(tree, sibling, height, reply) ==>
              reply.root == MT.Root(f.merge, leaves)
              && MT.Fold(f.merge, leaves[height], reply.branch, height) == reply.root
  {
    MT.StoredFormAgrees(f.merge, leaves, height);
  }

  lemma {:induction false} BuildGivesGood(f: Hashing, chain: seq<HC.Header>, ask: Ask)
    requires HC.Linked(f.hash, chain) && ask.height <= ask.cp < |chain|
    ensures var tree := Tree(f.hash(chain[ask.cp]), MT.Levels(f.merge, Leaves(f, chain, ask.cp)));
            GoodTree(f, ask.cp, tree) && GoodSibling(f, ask, tree.cpHash, SiblingLeaf(f, chain, ask))
  {
    var tree := Tree(f.hash(chain[ask.cp]), MT.Levels(f.merge, Leaves(f, chain, ask.cp)));
    assert TreeOver(f, chain, ask.cp, tree);
    assert SiblingOver(f, chain, ask, tree.cpHash, SiblingLeaf(f, chain, ask));
  }

  lemma {:induction false} StepKeepsInv(f: Hashing, s: State, s': State)
    requires Good(f) && Inv(f, s) && Step(f, s, s')
    ensures Inv(f, s')
  {
    hide Extracted;
    hide GoodTree;
    hide GoodSibling;
    var a :| Does(f, s, s', a);
    if a.DoSnapshot? || a.DoBuild? {
      var ask := s.requests[a.i].ask;
      assert GoodRequest(f, s.requests[a.i]);
      if ask.cp < |s.chain| { BuildGivesGood(f, s.chain, ask); }
    } else if a.DoHit? {
      assert GoodRequest(f, s.requests[a.i]);
    }
  }

  /** A reply appears only in a `Send` step, and is then right for the chain of that moment. */
  lemma {:induction false} NewReplyIsRight(f: Hashing, s: State, s': State, i: nat)
    requires Good(f) && Inv(f, s) && i < |s'.requests| && s'.requests[i].Replied?
    requires i < |s.requests| ==> s.requests[i] != s'.requests[i]
    ensures Step(f, s, s') ==> RightFor(f, s'.chain, s'.requests[i].ask, s'.requests[i].reply)
  {
    hide RightFor;
    hide Extracted;
    hide GoodTree;
    hide GoodSibling;
    if a :| Does(f, s, s', a) {
      if a.DoSend? {
        var r := s.requests[a.i];
        assert GoodRequest(f, r);
        if a.i == i { ExtractIsRight(f, s.chain, r.ask, r.tree, r.sibling, a.reply); }
      }
    }
  }

  ghost predicate Initial(f: Hashing, s: State) {
    HC.Linked(f.hash, s.chain) && s.shared == {} && s.requests == []
  }

  ghost predicate StepAt(f: Hashing, states: seq<State>, k: nat)
    requires 0 < k < |states|
  {
    Step(f, states[k - 1], states[k])
  }

  ghost predicate Run(f: Hashing, states: seq<State>) {
    states != [] && Initial(f, states[0]) && forall k :: 0 < k < |states| ==> StepAt(f, states, k)
  }

  lemma {:induction false} RunKeepsInv(f: Hashing, states: seq<State>, n: nat)
    requires Good(f) && Run(f, states) && n < |states|
    ensures Inv(f, states[n])
  {
    if n > 0 {
      RunKeepsInv(f, states, n - 1);
      assert StepAt(f, states, n);
      StepKeepsInv(f, states[n - 1], states[n]);
    }
  }

  /**
   Main result. In every run, every reply ever sent is right for the chain that was the current
   one when it was sent, in step `k`.
   */
  lemma {:induction false} EveryReplyIsRight(f: Hashing, states: seq<State>, n: nat, i: nat) returns (k: nat)
    requires Good(f) && Run(f, states) && n < |states|
    requires i < |states[n].requests| && states[n].requests[i].Replied?
    ensures 0 < k <= n && RightFor(f, states[k].chain, states[n].requests[i].ask, states[n].requests[i].reply)
    ensures i < |states[k].requests| && states[k].requests[i] == states[n].requests[i]
    ensures i < |states[k - 1].requests| ==> states[k - 1].requests[i] != states[n].requests[i]
    decreases n
  {
    assert n > 0;
    RunKeepsInv(f, states, n - 1);
    assert StepAt(f, states, n);
    if i < |states[n - 1].requests| && states[n - 1].requests[i] == states[n].requests[i] {
      k := EveryReplyIsRight(f, states, n - 1, i);
    } else {
      NewReplyIsRight(f, states[n - 1], states[n], i);
      k := n;
    }
  }

  // ----- Nothing but a change of the chain fails a request -----------------------------------------

  /** What the request holds is of this chain. */
  ghost predicate OnTrack(f: Hashing, chain: seq<HC.Header>, r: Request) {
    match r
    case Waiting(ask) => ask.cp < |chain|
    case Snapshotted(ask, cpHash, _) => ask.cp < |chain| && f.hash(chain[ask.cp]) == cpHash
    case HasTree(ask, tree, _) => ask.cp < |chain| && f.hash(chain[ask.cp]) == tree.cpHash
    case Replied(_, _) => true
    case Failed => false
  }

  lemma {:induction false} StaysOnTrack(f: Hashing, s: State, s': State, i: nat)
    requires Inv(f, s) && Step(f, s, s') && s'.chain == s.chain
    requires i < |s.requests| && OnTrack(f, s.chain, s.requests[i])
    ensures i < |s'.requests| && OnTrack(f, s'.chain, s'.requests[i])
  {
    hide Extracted;
    hide GoodTree;
    hide GoodSibling;
    assert GoodRequest(f, s.requests[i]);
    var a :| Does(f, s, s', a);
  }

  /** In every run a request fails only if the chain was changed after it arrived. */
  lemma {:induction false} UndisturbedNeverFails(f: Hashing, states: seq<State>, m: nat, n: nat, ask: Ask)
    requires Good(f) && Run(f, states) && 0 < m <= n < |states| && Arrive(states[m - 1], states[m], ask)
    requires forall k {:trigger states[k]} :: m <= k <= n ==> states[k].chain == states[m].chain
    ensures var i := |states[m - 1].requests|;
            i < |states[n].requests| && OnTrack(f, states[n].chain, states[n].requests[i])
    decreases n
  {
    if m < n {
      UndisturbedNeverFails(f, states, m, n - 1, ask);
      RunKeepsInv(f, states, n - 1);
      assert StepAt(f, states, n);
      assert states[n - 1].chain == states[m].chain && states[n].chain == states[m].chain;
      StaysOnTrack(f, states[n - 1], states[n], |states[m - 1].requests|);
    }
  }

  /** How many steps a request still has to take. */
  function Rank(r: Request): nat {
    match r
    case Waiting(_) => 3
    case Snapshotted(_, _, _) => 2
    case HasTree(_, _, _) => 1
    case Replied(_, _) => 0
    case Failed => 0
  }

  /** A good tree always has a branch and a root to read. */
  lemma {:induction false} CanExtract(f: Hashing, ask: Ask, tree: Tree, sibling: Hash, headers: seq<HC.Header>)
    returns (reply: Reply)
    requires GoodAsk(ask) && GoodTree(f, ask.cp, tree)
    ensures Extracted(tree, sibling, ask.height, reply) && reply.headers == headers
  {
    var chain :| TreeOver(f, chain, ask.cp, tree);
    MT.LevelsShape(f.merge, Leaves(f, chain, ask.cp));
    hide MT.Levels;
    var top := tree.levels[|tree.levels| - 1];
    reply := Reply(headers, [sibling] + MT.UpperSiblings(tree.levels, ask.height / 2), top[|top| - 1]);
  }

  /** An undisturbed request can always take its next step, and has at most three before its reply. */
  lemma {:induction false} CanGoOn(f: Hashing, s: State, i: nat) returns (s': State)
    requires Inv(f, s) && i < |s.requests| && OnTrack(f, s.chain, s.requests[i]) && !s.requests[i].Replied?
    ensures Step(f, s, s') && s'.chain == s.chain && |s'.requests| == |s.requests|
    ensures OnTrack(f, s'.chain, s'.requests[i]) && Rank(s'.requests[i]) < Rank(s.requests[i]) <= 3
  {
    hide Extracted;
    hide GoodTree;
    hide GoodSibling;
    var r := s.requests[i];
    assert GoodRequest(f, r);
    var ask, now := r.ask, f.hash(s.chain[r.ask.cp]);
    if r.Waiting? {
      s' := s.(requests := s.requests[i := Snapshotted(ask, now, SiblingLeaf(f, s.chain, ask))]);
      assert Does(f, s, s', DoSnapshot(i));
    } else if r.Snapshotted? {
      var tree := Tree(now, MT.Levels(f.merge, Leaves(f, s.chain, ask.cp)));
      s' := s.(requests := s.requests[i := HasTree(ask, tree, SiblingLeaf(f, s.chain, ask))]);
      assert Does(f, s, s', DoBuild(i));
    } else {
      var reply := CanExtract(f, ask, r.tree, r.sibling, s.chain[ask.start..ask.height + 1]);
      s' := s.(requests := s.requests[i := Replied(ask, reply)]);
      assert Does(f, s, s', DoSend(i, reply));
    }
  }
}
