/**
 The checkpoint Merkle tree: the levels kept in the cache, the branch read out of them, the
 one-shot branch builder, and the check an Electrum client makes on a branch.

 The pairing hash (double SHA-256 of two concatenated hashes) is a parameter, `merge`; nothing
 is known about it, so every result holds for whatever function is used.
 */
module MerkleTree {
  import opened Wrappers

  /** A hash is an opaque number: only equality is ever used. */
  type Hash = int

  const HASH_BYTES := 32
  const USIZE_MAX := 0xFFFF_FFFF_FFFF_FFFF

  // ----- Specification of one tree ------------------------------------------------------------

  /** The hash at position `i`, an odd level being completed by repeating its last hash. */
  function Clamp(level: seq<Hash>, i: nat): Hash
    requires level != []
  {
    level[if i < |level| then i else |level| - 1]
  }

  function NextLevel(merge: (Hash, Hash) -> Hash, level: seq<Hash>): (r: seq<Hash>)
    requires level != []
  {
    seq((|level| + 1) / 2, i requires 0 <= i => merge(Clamp(level, 2 * i), Clamp(level, 2 * i + 1)))
  }

  /** The levels strictly above the leaves, bottom up; empty for a single leaf. */
  function Levels(merge: (Hash, Hash) -> Hash, leaves: seq<Hash>): (r: seq<seq<Hash>>)
    decreases |leaves|
  {
    if |leaves| <= 1 then []
    else [NextLevel(merge, leaves)] + Levels(merge, NextLevel(merge, leaves))
  }

  /** The root: keep pairing until one hash is left. */
  function Root(merge: (Hash, Hash) -> Hash, leaves: seq<Hash>): Hash
    requires leaves != []
    decreases |leaves|
  {
    if |leaves| == 1 then leaves[0] else Root(merge, NextLevel(merge, leaves))
  }

  function SiblingIndex(index: nat): (r: nat)
    ensures r / 2 == index / 2 && r != index
  {
    if index % 2 == 0 then index + 1 else index - 1
  }

  /** The siblings met on the way from leaf `index` to the root. */
  function Branch(merge: (Hash, Hash) -> Hash, leaves: seq<Hash>, index: nat): seq<Hash>
    requires index < |leaves|
    decreases |leaves|
  {
    if |leaves| == 1 then []
    else [Clamp(leaves, SiblingIndex(index))] + Branch(merge, NextLevel(merge, leaves), index / 2)
  }

  /** What a client computes: hash the leaf upwards along the branch, `index` telling the side. */
  function Fold(merge: (Hash, Hash) -> Hash, leaf: Hash, branch: seq<Hash>, index: nat): Hash
    decreases |branch|
  {
    if branch == [] then leaf
    else
      var parent := if index % 2 == 0 then merge(leaf, branch[0]) else merge(branch[0], leaf);
      Fold(merge, parent, branch[1..], index / 2)
  }

  lemma {:induction false} PairAt(merge: (Hash, Hash) -> Hash, level: seq<Hash>, index: nat)
    requires index < |level|
    ensures index / 2 < |NextLevel(merge, level)|
    ensures var sibling := Clamp(level, SiblingIndex(index));
            NextLevel(merge, level)[index / 2]
              == if index % 2 == 0 then merge(level[index], sibling) else merge(sibling, level[index])
  {
    var h := index / 2;
    assert index == 2 * h || index == 2 * h + 1;
  }

  lemma {:induction false} FoldStep(merge: (Hash, Hash) -> Hash, leaf: Hash, sibling: Hash, rest: seq<Hash>, index: nat)
    ensures Fold(merge, leaf, [sibling] + rest, index)
         == Fold(merge, if index % 2 == 0 then merge(leaf, sibling) else merge(sibling, leaf), rest, index / 2)
  {
    assert ([sibling] + rest)[1..] == rest;
  }

  /** Folding a leaf along its branch gives the root: the proof a client receives checks out. */
  lemma {:induction false} FoldAlongBranchIsRoot(merge: (Hash, Hash) -> Hash, leaves: seq<Hash>, index: nat)
    requires index < |leaves|
    ensures Fold(merge, leaves[index], Branch(merge, leaves, index), index) == Root(merge, leaves)
    decreases |leaves|
  {
    if |leaves| > 1 {
      var next := NextLevel(merge, leaves);
      PairAt(merge, leaves, index);
      FoldAlongBranchIsRoot(merge, next, index / 2);
      FoldStep(merge, leaves[index], Clamp(leaves, SiblingIndex(index)), Branch(merge, next, index / 2), index);
    }
  }

  // ----- The tree from the root down -----------------------------------------------------------

  /** How many nodes a tree of `n` leaves has at a height, and how high it is. */
  function Width(n: nat, height: nat): (r: nat)
    ensures n > 0 ==> r > 0
  {
    if height == 0 then n else (Width(n, height - 1) + 1) / 2
  }

  function Height(n: nat): nat { if n <= 1 then 0 else 1 + Height((n + 1) / 2) }

  /** A node hashes the two below it, or the left one twice if there is no right one. */
  function NodeAt(merge: (Hash, Hash) -> Hash, leaves: seq<Hash>, height: nat, i: nat): Hash
    requires i < Width(|leaves|, height)
  {
    if height == 0 then leaves[i]
    else
      var left := NodeAt(merge, leaves, height - 1, 2 * i);
      if 2 * i + 1 < Width(|leaves|, height - 1) then merge(left, NodeAt(merge, leaves, height - 1, 2 * i + 1))
      else merge(left, left)
  }

  lemma {:induction false} WidthShift(n: nat, height: nat)
    ensures Width(n, height + 1) == Width((n + 1) / 2, height)
  {
    if height > 0 { WidthShift(n, height - 1); }
  }

  lemma {:induction false} TopIsOne(n: nat)
    requires n > 0
    ensures Width(n, Height(n)) == 1
  {
    if n > 1 {
      TopIsOne((n + 1) / 2);
      WidthShift(n, Height((n + 1) / 2));
    }
  }

  lemma {:induction false} NextWidth(merge: (Hash, Hash) -> Hash, leaves: seq<Hash>)
    requires leaves != []
    ensures |NextLevel(merge, leaves)| == (|leaves| + 1) / 2
  {
  }

  lemma {:induction false} FirstNodes(merge: (Hash, Hash) -> Hash, leaves: seq<Hash>, i: nat)
    requires leaves != [] && i < Width(|leaves|, 1)
    ensures i < |NextLevel(merge, leaves)| && NodeAt(merge, leaves, 1, i) == NextLevel(merge, leaves)[i]
  {
  }

  /** The nodes of `a` from height `m + 1` up stand where those of `b` from height `m` up do. */
  ghost predicate Shifted(merge: (Hash, Hash) -> Hash, a: seq<Hash>, b: seq<Hash>, m: nat, n: nat) {
    && Width(|a|, n) == Width(|b|, m)
    && forall j {:trigger NodeAt(merge, a, n, j)} :: 0 <= j < Width(|b|, m) ==>
         NodeAt(merge, a, n, j) == NodeAt(merge, b, m, j)
  }

  lemma {:induction false} ShiftedFirst(merge: (Hash, Hash) -> Hash, leaves: seq<Hash>)
    requires leaves != []
    ensures Shifted(merge, leaves, NextLevel(merge, leaves), 0, 1)
  {
    WidthShift(|leaves|, 0);
    forall j | 0 <= j < Width(|leaves|, 1) ensures NodeAt(merge, leaves, 1, j) == NextLevel(merge, leaves)[j] {
      FirstNodes(merge, leaves, j);
    }
  }

  /** Nodes over equal nodes are equal. */
  lemma {:induction false} SameAbove(merge: (Hash, Hash) -> Hash, a: seq<Hash>, b: seq<Hash>, m: nat, n: nat, o: nat,
                                     i: nat)
    requires n == m + 1 && o == n + 1 && Shifted(merge, a, b, m, n) && i < Width(|b|, n)
    ensures i < Width(|a|, o) && NodeAt(merge, a, o, i) == NodeAt(merge, b, n, i)
  {
    assert NodeAt(merge, a, n, 2 * i) == NodeAt(merge, b, m, 2 * i);
    if 2 * i + 1 < Width(|b|, m) {
      assert NodeAt(merge, a, n, 2 * i + 1) == NodeAt(merge, b, m, 2 * i + 1);
    }
  }

  lemma {:induction false} ShiftedNext(merge: (Hash, Hash) -> Hash, a: seq<Hash>, b: seq<Hash>, m: nat, n: nat, o: nat)
    requires n == m + 1 && o == n + 1 && Shifted(merge, a, b, m, n)
    ensures Shifted(merge, a, b, n, o)
  {
    hide NodeAt;
    forall i | 0 <= i < Width(|b|, n) ensures i < Width(|a|, o) && NodeAt(merge, a, o, i) == NodeAt(merge, b, n, i) {
      SameAbove(merge, a, b, m, n, o, i);
    }
  }

  lemma {:induction false} ShiftedAll(merge: (Hash, Hash) -> Hash, leaves: seq<Hash>, m: nat, n: nat)
    requires leaves != [] && n == m + 1
    ensures Shifted(merge, leaves, NextLevel(merge, leaves), m, n)
  {
    hide *;
    if m == 0 {
      ShiftedFirst(merge, leaves);
    } else {
      ShiftedAll(merge, leaves, m - 1, m);
      ShiftedNext(merge, leaves, NextLevel(merge, leaves), m - 1, m, n);
    }
  }

  /** A node above the leaves is a node one lower of the next level's tree. */
  lemma {:induction false} NodeShift(merge: (Hash, Hash) -> Hash, leaves: seq<Hash>, height: nat, i: nat)
    requires leaves != [] && i < Width(|leaves|, height + 1)
    ensures i < Width(|NextLevel(merge, leaves)|, height)
    ensures NodeAt(merge, leaves, height + 1, i) == NodeAt(merge, NextLevel(merge, leaves), height, i)
  {
    ShiftedAll(merge, leaves, height, height + 1);
    hide NodeAt;
    hide Width;
    hide NextLevel;
  }

  /** Pairing level by level ends in the top node of the tree. */
  lemma {:induction false} RootIsTop(merge: (Hash, Hash) -> Hash, leaves: seq<Hash>)
    requires leaves != []
    ensures Width(|leaves|, Height(|leaves|)) == 1
    ensures Root(merge, leaves) == NodeAt(merge, leaves, Height(|leaves|), 0)
    decreases |leaves|
  {
    TopIsOne(|leaves|);
    if |leaves| > 1 {
      RootIsTop(merge, NextLevel(merge, leaves));
      NodeShift(merge, leaves, Height(|leaves|) - 1, 0);
    }
  }

  /** The position of the node above leaf `index` at a height. */
  function Above(index: nat, height: nat): nat { if height == 0 then index else Above(index / 2, height - 1) }

  lemma {:induction false} AboveFits(n: nat, index: nat, height: nat)
    requires index < n
    ensures Above(index, height) < Width(n, height)
  {
    if height > 0 {
      AboveFits((n + 1) / 2, index / 2, height - 1);
      WidthShift(n, height - 1);
    }
  }

  /** The node beside position `i`, or the one at `i` if it is the last and has none beside it. */
  function Beside(merge: (Hash, Hash) -> Hash, leaves: seq<Hash>, height: nat, i: nat): Hash
    requires i < Width(|leaves|, height)
  {
    var j := if i % 2 == 0 then i + 1 else i - 1;
    NodeAt(merge, leaves, height, if j < Width(|leaves|, height) then j else i)
  }

  lemma {:induction false} BesideShift(merge: (Hash, Hash) -> Hash, leaves: seq<Hash>, height: nat, i: nat)
    requires leaves != [] && i < Width(|leaves|, height + 1)
    ensures i < Width(|NextLevel(merge, leaves)|, height)
    ensures Beside(merge, leaves, height + 1, i) == Beside(merge, NextLevel(merge, leaves), height, i)
  {
    WidthShift(|leaves|, height);
    var j := if i % 2 == 0 then i + 1 else i - 1;
    NodeShift(merge, leaves, height, if j < Width(|leaves|, height + 1) then j else i);
  }

  lemma {:induction false} BranchIsHigh(merge: (Hash, Hash) -> Hash, leaves: seq<Hash>, index: nat)
    requires index < |leaves|
    ensures |Branch(merge, leaves, index)| == Height(|leaves|)
    decreases |leaves|
  {
    NextWidth(merge, leaves);
    hide NextLevel;
    hide Clamp;
    if |leaves| > 1 { BranchIsHigh(merge, NextLevel(merge, leaves), index / 2); }
  }

  lemma {:induction false} LeafBeside(merge: (Hash, Hash) -> Hash, leaves: seq<Hash>, index: nat)
    requires index < |leaves|
    ensures Beside(merge, leaves, 0, index) == Clamp(leaves, SiblingIndex(index))
  {
  }

  lemma {:induction false} BranchSteps(merge: (Hash, Hash) -> Hash, leaves: seq<Hash>, index: nat, k: nat)
    requires index < |leaves| && k < Height(|leaves|)
    ensures |Branch(merge, leaves, index)| == Height(|leaves|) && |leaves| > 1
    ensures Height(|NextLevel(merge, leaves)|) == Height(|leaves|) - 1 && index / 2 < |NextLevel(merge, leaves)|
    ensures |Branch(merge, NextLevel(merge, leaves), index / 2)| == Height(|leaves|) - 1
    ensures Branch(merge, leaves, index)[k]
         == if k == 0 then Clamp(leaves, SiblingIndex(index))
            else Branch(merge, NextLevel(merge, leaves), index / 2)[k - 1]
  {
    NextWidth(merge, leaves);
    hide NextLevel;
    hide Clamp;
    BranchIsHigh(merge, leaves, index);
  }

  /** A branch holds, bottom up, the node beside each node on the way up; it is as long as the tree is high. */
  lemma {:induction false} BranchIsBeside(merge: (Hash, Hash) -> Hash, leaves: seq<Hash>, index: nat, k: nat)
    requires index < |leaves| && k < Height(|leaves|)
    ensures |Branch(merge, leaves, index)| == Height(|leaves|) && Above(index, k) < Width(|leaves|, k)
    ensures Branch(merge, leaves, index)[k] == Beside(merge, leaves, k, Above(index, k))
    decreases k
  {
    hide Branch;
    hide Beside;
    hide NextLevel;
    hide Height;
    AboveFits(|leaves|, index, k);
    BranchSteps(merge, leaves, index, k);
    if k == 0 {
      LeafBeside(merge, leaves, index);
    } else {
      BranchIsBeside(merge, NextLevel(merge, leaves), index / 2, k - 1);
      BesideShift(merge, leaves, k - 1, Above(index, k));
    }
  }

  // ----- The stored-levels form agrees with the one-shot builder ------------------------------

  predicate NonEmptyLevels(levels: seq<seq<Hash>>) {
    forall i :: 0 <= i < |levels| ==> levels[i] != []
  }

  /** What `extract_branch_and_root` collects above the sibling leaf. */
  function UpperSiblings(levels: seq<seq<Hash>>, index: nat): seq<Hash>
    requires NonEmptyLevels(levels)
    decreases |levels|
  {
    if |levels| <= 1 then []
    else [Clamp(levels[0], SiblingIndex(index))] + UpperSiblings(levels[1..], index / 2)
  }

  lemma {:induction false} LevelsShape(merge: (Hash, Hash) -> Hash, leaves: seq<Hash>)
    requires |leaves| >= 2
    ensures var ls := Levels(merge, leaves);
            ls != [] && NonEmptyLevels(ls) && ls[|ls| - 1] == [Root(merge, leaves)]
    decreases |leaves|
  {
    var next := NextLevel(merge, leaves);
    if |next| == 1 {
      assert next == [next[0]];
    } else {
      LevelsShape(merge, next);
    }
  }

  lemma {:induction false} UpperSiblingsAreBranch(merge: (Hash, Hash) -> Hash, leaves: seq<Hash>, index: nat)
    requires |leaves| >= 2 && index < |leaves|
    ensures NonEmptyLevels(Levels(merge, leaves))
    ensures UpperSiblings(Levels(merge, leaves), index / 2)
         == Branch(merge, NextLevel(merge, leaves), index / 2)
    decreases |leaves|
  {
    LevelsShape(merge, leaves);
    var next := NextLevel(merge, leaves);
    if |next| >= 2 {
      UpperSiblingsAreBranch(merge, next, index / 2);
      assert Levels(merge, leaves)[1..] == Levels(merge, next);
    }
  }

  // ----- The methods ---------------------------------------------------------------------------

  function TotalHashes(levels: seq<seq<Hash>>): nat {
    if levels == [] then 0 else TotalHashes(levels[..|levels| - 1]) + |levels[|levels| - 1]|
  }

  lemma {:induction false} TotalHashesPush(levels: seq<seq<Hash>>, level: seq<Hash>)
    ensures TotalHashes(levels + [level]) == TotalHashes(levels) + |level|
  {
    assert (levels + [level])[..|levels|] == levels;
  }

  /** Hashes an even level pair by pair (`chunks(2).map(merklize)`). */
  method Paired(merge: (Hash, Hash) -> Hash, level: seq<Hash>) returns (next: seq<Hash>)
    requires |level| % 2 == 0
    ensures 2 * |next| == |level|
    ensures forall i :: 0 <= i < |next| ==> next[i] == merge(level[2 * i], level[2 * i + 1])
  {
    next := [];
    while 2 * |next| < |level|
      invariant 2 * |next| <= |level|
      invariant forall i :: 0 <= i < |next| ==> next[i] == merge(level[2 * i], level[2 * i + 1])
      decreases |level| - |next|
    {
      next := next + [merge(level[2 * |next|], level[2 * |next| + 1])];
    }
  }

  lemma {:induction false} PairedIsNextLevel(merge: (Hash, Hash) -> Hash, level: seq<Hash>, padded: seq<Hash>,
                                             next: seq<Hash>)
    requires level != []
    requires padded == if |level| % 2 != 0 then level + [level[|level| - 1]] else level
    requires 2 * |next| == |padded|
    requires forall i :: 0 <= i < |next| ==> next[i] == merge(padded[2 * i], padded[2 * i + 1])
    ensures next == NextLevel(merge, level)
  {
    forall i | 0 <= i < |next| ensures next[i] == NextLevel(merge, level)[i] {
      assert next[i] == merge(padded[2 * i], padded[2 * i + 1]);
    }
  }

  /** One round: repeat the last hash of an odd level, then hash it pair by pair. */
  method PadAndPair(merge: (Hash, Hash) -> Hash, level: seq<Hash>) returns (padded: seq<Hash>, next: seq<Hash>)
    requires level != []
    ensures next == NextLevel(merge, level)
    ensures |padded| == 2 * |next| == |level| + |level| % 2
    ensures forall i :: 0 <= i < |padded| ==> padded[i] == Clamp(level, i)
  {
    padded := level;
    if |padded| % 2 != 0 {
      padded := padded + [padded[|padded| - 1]];
    }
    next := Paired(merge, padded);
    PairedIsNextLevel(merge, level, padded, next);
  }

  /** The working level of round `k`: the leaves, then each stored level in turn. */
  function WorkingLevel(leaves: seq<Hash>, levels: seq<seq<Hash>>, k: nat): seq<Hash>
    requires k <= |levels|
  {
    if k == 0 then leaves else levels[k - 1]
  }

  /** Hashes held while round `k` collects its level: leaves, padded working level, new level, stored levels. */
  function HeldInRound(leaves: seq<Hash>, levels: seq<seq<Hash>>, k: nat): nat
    requires k < |levels|
  {
    var n := |WorkingLevel(leaves, levels, k)|;
    |leaves| + (n + n % 2) + |levels[k]| + TotalHashes(levels[..k])
  }

  /** Hashes held once round `k` has stored its level: leaves, the new working level, stored levels. */
  function HeldAfterRound(leaves: seq<Hash>, levels: seq<seq<Hash>>, k: nat): nat
    requires k < |levels|
  {
    |leaves| + |levels[k]| + TotalHashes(levels[..k + 1])
  }

  lemma {:induction false} NextLevelSize(merge: (Hash, Hash) -> Hash, level: seq<Hash>)
    requires level != []
    ensures 2 * |NextLevel(merge, level)| == |level| + |level| % 2
  {
  }

  lemma {:induction false} LevelsOfNext(merge: (Hash, Hash) -> Hash, leaves: seq<Hash>)
    ensures |leaves| <= 1 ==> Levels(merge, leaves) == []
    ensures |leaves| > 1 ==>
              Levels(merge, leaves) == [NextLevel(merge, leaves)] + Levels(merge, NextLevel(merge, leaves))
  {
  }

  /** Round `k` pairs a working level of more than one hash. */
  ghost predicate RoundOk(merge: (Hash, Hash) -> Hash, leaves: seq<Hash>, levels: seq<seq<Hash>>, k: nat) {
    && k < |levels| && var working := WorkingLevel(leaves, levels, k);
    && |working| > 1 && levels[k] == NextLevel(merge, working) && 2 * |levels[k]| == |working| + |working| % 2
  }

  lemma {:induction false} FirstRound(merge: (Hash, Hash) -> Hash, leaves: seq<Hash>, upper: seq<seq<Hash>>)
    requires |leaves| > 1
    ensures RoundOk(merge, leaves, [NextLevel(merge, leaves)] + upper, 0)
  {
    NextLevelSize(merge, leaves);
    hide NextLevel;
  }

  lemma {:induction false} LaterRound(merge: (Hash, Hash) -> Hash, leaves: seq<Hash>, next: seq<Hash>,
                                      upper: seq<seq<Hash>>, k: nat)
    requires k > 0
    ensures RoundOk(merge, next, upper, k - 1) ==> RoundOk(merge, leaves, [next] + upper, k)
  {
    hide NextLevel;
  }

  lemma {:induction false} RoundSizes(merge: (Hash, Hash) -> Hash, leaves: seq<Hash>, k: nat)
    requires k < |Levels(merge, leaves)|
    ensures RoundOk(merge, leaves, Levels(merge, leaves), k)
    decreases |leaves|
  {
    LevelsOfNext(merge, leaves);
    NextLevelSize(merge, leaves);
    hide *;
    var next := NextLevel(merge, leaves);
    if k == 0 {
      FirstRound(merge, leaves, Levels(merge, next));
    } else {
      RoundSizes(merge, next, k - 1);
      LaterRound(merge, leaves, next, Levels(merge, next), k);
    }
  }

  lemma {:induction false} StoredSoFar(merge: (Hash, Hash) -> Hash, leaves: seq<Hash>, k: nat)
    requires k <= |Levels(merge, leaves)|
    ensures var levels := Levels(merge, leaves);
            TotalHashes(levels[..k]) + 2 * |WorkingLevel(leaves, levels, k)| <= 2 * |leaves|
  {
    hide Levels;
    hide NextLevel;
    var levels := Levels(merge, leaves);
    if k == 0 {
      assert levels[..0] == [];
    } else {
      StoredSoFar(merge, leaves, k - 1);
      RoundSizes(merge, leaves, k - 1);
      TotalHashesPush(levels[..k - 1], levels[k - 1]);
      assert levels[..k] == levels[..k - 1] + [levels[k - 1]];
      var w, n := |WorkingLevel(leaves, levels, k - 1)|, |levels[k - 1]|;
      assert 3 * n <= 2 * w;
    }
  }

  /** In every round of a build at most three hashes per leaf are held, both while it collects and after. */
  lemma {:induction false} RoundFits(merge: (Hash, Hash) -> Hash, leaves: seq<Hash>, k: nat)
    requires k < |Levels(merge, leaves)|
    ensures HeldInRound(leaves, Levels(merge, leaves), k) <= 3 * |leaves|
    ensures HeldAfterRound(leaves, Levels(merge, leaves), k) <= 3 * |leaves|
  {
    hide Levels;
    hide NextLevel;
    StoredSoFar(merge, leaves, k);
    StoredSoFar(merge, leaves, k + 1);
    RoundSizes(merge, leaves, k);
  }

  /**
   Builds the levels above the leaves. No round holds more than three hashes per leaf, and what is
   kept at the end is less than two per leaf.
   */
  method BuildLevelsAboveLeaves(merge: (Hash, Hash) -> Hash, leaves: seq<Hash>) returns (r: Outcome<seq<seq<Hash>>>)
    ensures r.Err? <==> leaves == []
    ensures r.Ok? ==> r.value == Levels(merge, leaves) && TotalHashes(r.value) <= 2 * |leaves| - 2
    ensures r.Ok? ==> forall k {:trigger HeldInRound(leaves, r.value, k)} :: 0 <= k < |r.value| ==>
                        HeldInRound(leaves, r.value, k) <= 3 * |leaves|
                        && HeldAfterRound(leaves, r.value, k) <= 3 * |leaves|
  {
    if leaves == [] { return Err; }
    var current := leaves;
    var levels: seq<seq<Hash>> := [];
    while |current| > 1
      invariant current != [] && current == WorkingLevel(leaves, levels, |levels|)
      invariant Levels(merge, leaves) == levels + Levels(merge, current)
      invariant TotalHashes(levels) + 2 * |current| <= 2 * |leaves|
      decreases |current|
    {
      var padded, next := PadAndPair(merge, current);
      LevelsPush(merge, levels, current);
      TotalHashesPush(levels, next);
      RoundHeld(merge, leaves, levels, current, padded, next);
      assert |leaves| + |padded| + |next| + TotalHashes(levels) <= 3 * |leaves|;
      current := next;
      levels := levels + [current];
      assert |leaves| + |current| + TotalHashes(levels) <= 3 * |leaves|;
    }
    assert levels + [] == levels;
    forall k | 0 <= k < |levels|
      ensures HeldInRound(leaves, levels, k) <= 3 * |leaves| && HeldAfterRound(leaves, levels, k) <= 3 * |leaves|
    {
      RoundFits(merge, leaves, k);
    }
    r := Ok(levels);
  }

  /** What the loop holds is what the round is said to hold. */
  lemma {:induction false} RoundHeld(merge: (Hash, Hash) -> Hash, leaves: seq<Hash>, levels: seq<seq<Hash>>,
                                     current: seq<Hash>, padded: seq<Hash>, next: seq<Hash>)
    requires Levels(merge, leaves) == (levels + [next]) + Levels(merge, next)
    requires current == WorkingLevel(leaves, levels, |levels|) && current != []
    requires |padded| == 2 * |next| && 2 * |next| == |current| + |current| % 2
    ensures |leaves| + |padded| + |next| + TotalHashes(levels) <= 3 * |leaves|
    ensures |leaves| + |next| + TotalHashes(levels + [next]) <= 3 * |leaves|
  {
    var all, k := Levels(merge, leaves), |levels|;
    assert all[..k] == levels && all[k] == next && all[..k + 1] == levels + [next];
    assert k > 0 ==> all[k - 1] == levels[k - 1];
    RoundFits(merge, leaves, k);
  }

  lemma {:induction false} LevelsPush(merge: (Hash, Hash) -> Hash, levels: seq<seq<Hash>>, current: seq<Hash>)
    requires |current| > 1
    ensures levels + Levels(merge, current)
         == (levels + [NextLevel(merge, current)]) + Levels(merge, NextLevel(merge, current))
  {
  }

  /** Reads a branch and the root out of stored levels; fails only on an empty tree. */
  method ExtractBranchAndRoot(levels: seq<seq<Hash>>, siblingLeaf: Hash, index: nat)
    returns (r: Outcome<(seq<Hash>, Hash)>)
    requires NonEmptyLevels(levels)
    ensures r.Err? <==> levels == []
    ensures r.Ok? ==> r.value.0 == [siblingLeaf] + UpperSiblings(levels, index / 2)
    ensures r.Ok? ==> r.value.1 == levels[|levels| - 1][|levels[|levels| - 1]| - 1]
  {
    var merkle := [siblingLeaf];
    var at: nat := index / 2;
    var k := 0;
    while k + 1 < |levels|
      invariant 0 <= k <= |levels| && (levels != [] ==> k < |levels|)
      invariant merkle + UpperSiblings(levels[k..], at) == [siblingLeaf] + UpperSiblings(levels, index / 2)
    {
      var level := levels[k];
      var siblingIndex := if at % 2 == 0 then at + 1 else at - 1;
      var sibling := if siblingIndex < |level| then level[siblingIndex] else level[|level| - 1];
      assert levels[k..][1..] == levels[k + 1..];
      merkle := merkle + [sibling];
      at := at / 2;
      k := k + 1;
    }
    if levels == [] { return Err; }
    assert merkle == merkle + [];
    var last := levels[|levels| - 1];
    r := Ok((merkle, last[|last| - 1]));
  }

  /** Part-way up: the siblings so far and the level reached lead to the branch and root of the leaves. */
  ghost predicate Leads(merge: (Hash, Hash) -> Hash, leaves: seq<Hash>, position: nat, merkle: seq<Hash>,
                        hashes: seq<Hash>, index: nat)
    requires position < |leaves|
  {
    && index < |hashes| && Root(merge, hashes) == Root(merge, leaves)
    && merkle + Branch(merge, hashes, index) == Branch(merge, leaves, position)
  }

  /** One round of the one-shot builder: complete the level, take the sibling, move up. */
  method BranchRound(merge: (Hash, Hash) -> Hash, ghost leaves: seq<Hash>, ghost position: nat, merkle: seq<Hash>,
                     hashes: seq<Hash>, index: nat)
    returns (branch: seq<Hash>, next: seq<Hash>, up: nat)
    requires position < |leaves| && Leads(merge, leaves, position, merkle, hashes, index) && |hashes| > 1
    ensures Leads(merge, leaves, position, branch, next, up) && |next| < |hashes|
  {
    var padded;
    padded, next := PadAndPair(merge, hashes);
    BranchPush(merge, merkle, hashes, index);
    var sibling := SiblingIndex(index);
    branch := merkle + [padded[sibling]];
    up := sibling / 2;
  }

  /** The one-shot builder used for transaction proofs. */
  method CreateMerkleBranchAndRoot(merge: (Hash, Hash) -> Hash, leaves: seq<Hash>, position: nat)
    returns (merkle: seq<Hash>, root: Hash)
    requires position < |leaves|
    ensures merkle == Branch(merge, leaves, position)
    ensures root == Root(merge, leaves)
    ensures Fold(merge, leaves[position], merkle, position) == root
    ensures Width(|leaves|, Height(|leaves|)) == 1 && root == NodeAt(merge, leaves, Height(|leaves|), 0)
  {
    RootIsTop(merge, leaves);
    hide NodeAt;
    hide Height;
    var hashes, index: nat := leaves, position;
    merkle := [];
    Start(merge, leaves, position);
    while |hashes| > 1
      invariant Leads(merge, leaves, position, merkle, hashes, index)
      decreases |hashes|
    {
      merkle, hashes, index := BranchRound(merge, leaves, position, merkle, hashes, index);
    }
    Arrived(merge, leaves, position, merkle, hashes, index);
    root := hashes[0];
  }

  lemma {:induction false} Arrived(merge: (Hash, Hash) -> Hash, leaves: seq<Hash>, position: nat, merkle: seq<Hash>,
                                   hashes: seq<Hash>, index: nat)
    requires position < |leaves| && Leads(merge, leaves, position, merkle, hashes, index) && |hashes| == 1
    ensures merkle == Branch(merge, leaves, position) && hashes[0] == Root(merge, leaves)
    ensures Fold(merge, leaves[position], merkle, position) == hashes[0]
  {
    assert merkle + [] == merkle;
    FoldAlongBranchIsRoot(merge, leaves, position);
  }

  lemma {:induction false} Start(merge: (Hash, Hash) -> Hash, leaves: seq<Hash>, position: nat)
    requires position < |leaves|
    ensures Leads(merge, leaves, position, [], leaves, position)
  {
  }

  lemma {:induction false} BranchPush(merge: (Hash, Hash) -> Hash, merkle: seq<Hash>, hashes: seq<Hash>, index: nat)
    requires index < |hashes| && |hashes| > 1
    ensures index / 2 < |NextLevel(merge, hashes)|
    ensures merkle + Branch(merge, hashes, index)
         == (merkle + [Clamp(hashes, SiblingIndex(index))]) + Branch(merge, NextLevel(merge, hashes), index / 2)
  {
    PairAt(merge, hashes, index);
    Push(merkle, Clamp(hashes, SiblingIndex(index)), Branch(merge, NextLevel(merge, hashes), index / 2));
  }

  lemma {:induction false} Push(a: seq<Hash>, x: Hash, b: seq<Hash>)
    ensures a + ([x] + b) == (a + [x]) + b
  {
  }

  /**
   Fast form and one-shot form agree: for every list of at least two leaves and every position,
   reading the stored levels with the clamped sibling leaf gives exactly what the one-shot
   builder gives, and the branch folds to the root.
   */
  lemma {:induction false} StoredFormAgrees(merge: (Hash, Hash) -> Hash, leaves: seq<Hash>, index: nat)
    requires |leaves| >= 2 && index < |leaves|
    ensures var levels := Levels(merge, leaves);
            levels != [] && NonEmptyLevels(levels)
            && [Clamp(leaves, SiblingIndex(index))] + UpperSiblings(levels, index / 2)
               == Branch(merge, leaves, index)
            && levels[|levels| - 1][|levels[|levels| - 1]| - 1] == Root(merge, leaves)
    ensures Fold(merge, leaves[index], Branch(merge, leaves, index), index) == Root(merge, leaves)
  {
    LevelsShape(merge, leaves);
    UpperSiblingsAreBranch(merge, leaves, index);
    FoldAlongBranchIsRoot(merge, leaves, index);
  }

  // ----- The reserved estimate ------------------------------------------------------------------

  function SaturatingMul(a: nat, b: nat): nat {
    if a * b > USIZE_MAX then USIZE_MAX else a * b
  }

  /** Three hashes for every header up to the checkpoint, saturating like `usize`. */
  function EstimatedPeakBuildBytes(cpHeight: nat): (r: nat)
    ensures forall hashes: nat :: hashes <= 3 * (cpHeight + 1) && hashes * HASH_BYTES <= USIZE_MAX
              ==> hashes * HASH_BYTES <= r
  {
    SaturatingMul(SaturatingMul(cpHeight + 1, HASH_BYTES), 3)
  }
}
