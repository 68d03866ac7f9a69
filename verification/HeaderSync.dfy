/**
 Following the daemon: the walk back from the daemon's tip to a known header, the check made on
 a full header download, and one index update built from them.
 */
module HeaderSync {
  import opened HeaderChain
  import opened Wrappers

  /** The daemon's answers. Each may be an error; what is assumed of the others is in `Honest`. */
  datatype Daemon = Daemon(
    best: Hash,
    headerOf: Hash -> Outcome<Header>,
    heightOf: Hash -> Outcome<nat>,
    headersIn: (nat, nat) -> Outcome<seq<Header>>)

  const CHUNK_SIZE := 100_000

  /**
   The daemon's best block ends some chain, and a header served for a hash has that hash.
   Nothing is assumed of headers served by height: those are checked.
   */
  ghost predicate Honest(hash: Header -> Hash, daemon: Daemon, chain: seq<Header>) {
    && chain != [] && Linked(hash, chain) && TipHash(hash, chain) == daemon.best
    && forall h :: daemon.headerOf(h).Ok? ==> hash(daemon.headerOf(h).value) == h
  }

  /** The daemon knows the best block's height and serves the chain's headers by height. */
  ghost predicate ServesByHeight(daemon: Daemon, chain: seq<Header>) {
    && chain != [] && daemon.heightOf(daemon.best) == Ok(|chain| - 1)
    && forall a: nat, b: nat :: a <= b < |chain| ==> daemon.headersIn(a, b) == Ok(chain[a..b + 1])
  }

  /**
   Whatever the daemon serves by height, a download is accepted only if it is the best chain; and
   the best chain, if served, is accepted.
   */
  method GetAllHeaders(hash: Header -> Hash, daemon: Daemon, ghost chain: seq<Header>)
    returns (r: Outcome<seq<Header>>)
    ensures r.Ok? ==> r.value != [] && Linked(hash, r.value) && TipHash(hash, r.value) == daemon.best
    ensures ServesByHeight(daemon, chain) && Linked(hash, chain) && TipHash(hash, chain) == daemon.best ==>
              r == Ok(chain)
  {
    var height := daemon.heightOf(daemon.best);
    if height.Err? { return Err; }
    var tipHeight := height.value;
    var result: seq<Header> := [];
    while |result| <= tipHeight
      invariant |result| <= tipHeight + 1
      invariant ServesByHeight(daemon, chain) ==> tipHeight == |chain| - 1 && result == chain[..|result|]
      decreases tipHeight + 1 - |result|
    {
      var start := |result|;
      var end := if start + (CHUNK_SIZE - 1) < tipHeight then start + (CHUNK_SIZE - 1) else tipHeight;
      var headers := daemon.headersIn(start, end);
      if headers.Err? || |headers.value| != end - start + 1 { return Err; }
      result := result + headers.value;
    }
    assert ServesByHeight(daemon, chain) ==> result == chain[..|chain|] == chain;
    var blockhash := DEFAULT_BLOCKHASH;
    var k := 0;
    while k < |result|
      invariant 0 <= k <= |result|
      invariant blockhash == ParentHash(hash, result, k)
      invariant forall j {:trigger ParentHash(hash, result, j)} ::
                  0 <= j < k ==> result[j].prev == ParentHash(hash, result, j)
    {
      assert Linked(hash, result) ==> result[k].prev == ParentHash(hash, result, k);
      if result[k].prev != blockhash { return Err; }
      blockhash := hash(result[k]);
      k := k + 1;
    }
    if blockhash != daemon.best { return Err; }
    r := Ok(result);
  }

  /** Where the walk back stops: nothing above `fork` is known, and `fork` itself is (or is genesis). */
  ghost predicate StopsAt(list: HeaderList, chain: seq<Header>, fork: nat)
    reads list
  {
    && fork <= |chain|
    && (fork == 0 || ParentHash(list.hash, chain, fork) in list.heights)
    && forall j {:trigger ParentHash(list.hash, chain, j)} ::
         fork < j <= |chain| ==> ParentHash(list.hash, chain, j) !in list.heights
  }

  /** Neither this block of the daemon's chain nor any above it is in the list. */
  ghost predicate UnknownFrom(list: HeaderList, chain: seq<Header>, j: nat)
    reads list
  {
    0 < j <= |chain| && forall i {:trigger ParentHash(list.hash, chain, i)} ::
      j <= i <= |chain| ==> ParentHash(list.hash, chain, i) !in list.heights
  }

  /** The daemon serves what is asked of it: all headers to an empty list, otherwise those above the fork. */
  ghost predicate Serves(list: HeaderList, daemon: Daemon, chain: seq<Header>)
    reads list
  {
    if list.headers == [] then ServesByHeight(daemon, chain)
    else forall j {:trigger UnknownFrom(list, chain, j)} ::
           UnknownFrom(list, chain, j) ==> daemon.headerOf(ParentHash(list.hash, chain, j)).Ok?
  }

  /**
   The new headers are exactly the daemon's chain above the fork, oldest first. If the daemon serves
   the headers there is no failure, and on a list that is not empty there is one otherwise.
   */
  method GetNewHeaders(list: HeaderList, daemon: Daemon, ghost chain: seq<Header>)
    returns (r: Outcome<seq<Header>>, ghost fork: nat)
    requires list.Valid() && GoodHash(list.hash) && Honest(list.hash, daemon, chain)
    ensures r.Ok? ==> StopsAt(list, chain, fork) && r.value == chain[fork..]
    ensures Serves(list, daemon, chain) ==> r.Ok?
    ensures list.headers != [] && r.Ok? ==> Serves(list, daemon, chain)
  {
    fork := 0;
    if list.headers == [] {
      r := GetAllHeaders(list.hash, daemon, chain);
      if r.Ok? {
        HashPinsPrefix(list.hash, r.value, chain, |r.value|, |chain|);
        assert r.value[..|r.value|] == r.value && chain[..|chain|] == chain == chain[0..];
      }
      return;
    }
    var newHeaders: seq<Header> := [];
    var blockhash := daemon.best;
    fork := |chain|;
    while blockhash != DEFAULT_BLOCKHASH
      invariant fork <= |chain| && blockhash == ParentHash(list.hash, chain, fork)
      invariant |newHeaders| == |chain| - fork
      invariant forall i :: 0 <= i < |newHeaders| ==> newHeaders[i] == chain[|chain| - 1 - i]
      invariant forall j {:trigger ParentHash(list.hash, chain, j)} ::
                  fork < j <= |chain| ==> ParentHash(list.hash, chain, j) !in list.heights
      invariant forall j {:trigger UnknownFrom(list, chain, j)} ::
                  fork < j <= |chain| && UnknownFrom(list, chain, j) ==>
                    daemon.headerOf(ParentHash(list.hash, chain, j)).Ok?
      decreases fork
    {
      if list.HeaderByBlockhash(blockhash).Some? { break; }
      assert UnknownFrom(list, chain, fork);
      var header := daemon.headerOf(blockhash);
      if header.Err? { return Err, fork; }
      assert header.value == chain[fork - 1];
      assert chain[fork - 1].prev == ParentHash(list.hash, chain, fork - 1);
      blockhash := header.value.prev;
      newHeaders := newHeaders + [header.value];
      fork := fork - 1;
    }
    var n := |newHeaders|;
    r := Ok(seq(n, i requires 0 <= i < n => newHeaders[n - 1 - i]));
  }

  /** Below the fork the list and the daemon's chain are the same. */
  lemma {:induction false} SharedPrefix(list: HeaderList, chain: seq<Header>, fork: nat)
    requires list.Valid() && GoodHash(list.hash) && Linked(list.hash, chain)
    requires StopsAt(list, chain, fork)
    ensures fork <= |list.headers| && list.Chain()[..fork] == chain[..fork]
  {
    if fork > 0 {
      var k := list.heights[ParentHash(list.hash, chain, fork)];
      HashPinsPrefix(list.hash, list.Chain(), chain, k + 1, fork);
    }
  }

  /** The stored headers still hold everything below position `k`. */
  ghost predicate StoredUpTo(hash: Header -> Hash, stored: map<Hash, Header>, chain: seq<Header>, k: nat) {
    k <= |chain| && forall j :: 0 <= j < k ==> hash(chain[j]) in stored && stored[hash(chain[j])] == chain[j]
  }

  /** Follows the parents from the saved tip, taking each header out of the stored ones. */
  method CollectBack(hash: Header -> Hash, stored: map<Hash, Header>, tipHash: Hash, ghost chain: seq<Header>)
    returns (headersChain: seq<Header>)
    requires GoodHash(hash) && Linked(hash, chain) && TipHash(hash, chain) == tipHash
    requires StoredUpTo(hash, stored, chain, |chain|)
    ensures |headersChain| == |chain|
    ensures forall i :: 0 <= i < |chain| ==> headersChain[i] == chain[|chain| - 1 - i]
  {
    var headersMap, blockhash := stored, tipHash;
    headersChain := [];
    ghost var k: nat := |chain|;
    while blockhash != DEFAULT_BLOCKHASH
      invariant k <= |chain| && blockhash == ParentHash(hash, chain, k) && StoredUpTo(hash, headersMap, chain, k)
      invariant |headersChain| == |chain| - k
      invariant forall i :: 0 <= i < |headersChain| ==> headersChain[i] == chain[|chain| - 1 - i]
      decreases k
    {
      var header := headersMap[blockhash];
      TakeOne(hash, headersMap, chain, k);
      headersMap := headersMap - {blockhash};
      blockhash := header.prev;
      headersChain := headersChain + [header];
      k := k - 1;
    }
  }

  lemma {:induction false} TakeOne(hash: Header -> Hash, stored: map<Hash, Header>, chain: seq<Header>, k: nat)
    requires GoodHash(hash) && Linked(hash, chain) && 0 < k && StoredUpTo(hash, stored, chain, k)
    ensures chain[k - 1].prev == ParentHash(hash, chain, k - 1)
    ensures StoredUpTo(hash, stored - {ParentHash(hash, chain, k)}, chain, k - 1)
  {
    DistinctBelow(hash, chain, k - 1);
    assert chain[k - 1].prev == ParentHash(hash, chain, k - 1);
  }

  /** Rebuilds the list from stored headers: collect back from the saved tip, reverse, append. */
  method Load(hash: Header -> Hash, stored: map<Hash, Header>, tipHash: Hash, ghost chain: seq<Header>)
    returns (list: HeaderList)
    requires GoodHash(hash) && chain != [] && Linked(hash, chain) && TipHash(hash, chain) == tipHash
    requires StoredUpTo(hash, stored, chain, |chain|)
    ensures fresh(list) && list.Valid() && list.hash == hash && list.Chain() == chain
  {
    var headersChain := CollectBack(hash, stored, tipHash, chain);
    var n := |headersChain|;
    var ordered := seq(n, i requires 0 <= i < n => headersChain[n - 1 - i]);
    assert ordered == chain;
    list := Appended(hash, ordered, tipHash);
  }

  method Appended(hash: Header -> Hash, chain: seq<Header>, tipHash: Hash) returns (list: HeaderList)
    requires GoodHash(hash) && chain != [] && Linked(hash, chain) && TipHash(hash, chain) == tipHash
    ensures fresh(list) && list.Valid() && list.hash == hash && list.Chain() == chain
  {
    list := new HeaderList.Empty(hash);
    NewHeadersFit(hash, chain, 0);
    assert chain[0..] == chain;
    var entries, _, _ := list.Preprocess(chain, tipHash);
    assert list.Chain() == [];
    NothingBefore(list.Chain(), chain);
    list.Append(entries);
  }

  lemma {:induction false} NothingBefore<T>(a: seq<T>, b: seq<T>)
    requires a == []
    ensures a + b == b
  {
  }

  lemma {:induction false} DistinctBelow(hash: Header -> Hash, chain: seq<Header>, k: nat)
    requires GoodHash(hash) && Linked(hash, chain) && k < |chain|
    ensures forall j :: 0 <= j < k ==> hash(chain[j]) != hash(chain[k])
  {
    forall j | 0 <= j < k ensures hash(chain[j]) != hash(chain[k]) {
      if hash(chain[j]) == hash(chain[k]) { HashPinsPrefix(hash, chain, chain, j + 1, k + 1); }
    }
  }

  /** The length of the leading run of headers that were both added and indexed. */
  method CompletedPrefixLen(entries: seq<HeaderEntry>, added: set<Hash>, indexed: set<Hash>) returns (n: nat)
    ensures n <= |entries|
    ensures forall k :: 0 <= k < n ==> entries[k].hash in added * indexed
    ensures n < |entries| ==> entries[n].hash !in added * indexed
  {
    n := 0;
    while n < |entries| && entries[n].hash in added && entries[n].hash in indexed
      invariant n <= |entries|
      invariant forall k :: 0 <= k < n ==> entries[k].hash in added * indexed
    {
      n := n + 1;
    }
  }

  /**
   What becomes of the cleanup of replaced blocks: it is put off because the last one failed a short
   while ago; it fails or is interrupted, before or after their headers are off the list; or it is done.
   */
  datatype Cleanup = PutOff | Fails(popped: bool) | Interrupted(popped: bool) | Done {
    predicate Pops() { Done? || ((Fails? || Interrupted?) && popped) }
  }

  /** The list, if it has a genesis block, has the daemon's. */
  ghost predicate SameGenesis(list: HeaderList, chain: seq<Header>)
    requires chain != []
    reads list
  {
    list.headers == [] || list.headers[0].header == chain[0]
  }

  /** The fork is at genesis exactly if the two chains share none. */
  lemma {:induction false} ForkAtGenesis(list: HeaderList, chain: seq<Header>, fork: nat)
    requires list.Valid() && GoodHash(list.hash) && Linked(list.hash, chain) && chain != []
    requires StopsAt(list, chain, fork)
    ensures (fork == 0 && list.headers != []) <==> !SameGenesis(list, chain)
  {
    SharedPrefix(list, chain, fork);
    if list.headers != [] {
      if fork == 0 {
        assert ParentHash(list.hash, chain, 1) == list.hash(chain[0]);
        assert ParentHash(list.hash, chain, 1) !in list.heights;
        assert list.headers[0].hash in list.heights;
      } else {
        assert list.Chain()[0] == list.Chain()[..fork][0] == chain[..fork][0];
      }
    }
  }

  /** Finds the new headers and, if the cleanup gets that far, takes the replaced ones off the list. */
  method PopReplaced(list: HeaderList, daemon: Daemon, cleanup: Cleanup, ghost chain: seq<Header>)
    returns (r: Outcome<seq<HeaderEntry>>, ghost fork: nat)
    requires list.Valid() && GoodHash(list.hash) && Honest(list.hash, daemon, chain)
    modifies list
    ensures list.Valid()
    ensures r.Ok? ==>
              old(StopsAt(list, chain, fork)) && Numbered(list.hash, r.value, fork) && Headers(r.value) == chain[fork..]
    ensures r.Ok? && cleanup.Pops() ==> list.Chain() == chain[..fork]
    ensures r.Err? || !cleanup.Pops() ==> list.headers == old(list.headers) && list.tip == old(list.tip)
    ensures old(Serves(list, daemon, chain) && SameGenesis(list, chain)) ==> r.Ok?
    ensures r.Ok? ==> old(SameGenesis(list, chain) && (list.headers != [] ==> Serves(list, daemon, chain)))
  {
    hide ListOk;
    hide StopsAt;
    hide Numbered;
    hide Linked;
    hide GoodHash;
    hide Consecutive;
    hide Serves;
    hide SameGenesis;
    var raw;
    raw, fork := GetNewHeaders(list, daemon, chain);
    if raw.Err? { return Err, fork; }
    SharedPrefix(list, chain, fork);
    NewHeadersFit(list.hash, chain, fork);
    var entries, reorgedSince;
    ghost var since;
    entries, reorgedSince, since := list.Preprocess(raw.value, daemon.best);
    AttachesAtFork(list, chain, fork, since);
    ForkAtGenesis(list, chain, fork);
    if reorgedSince == Some(0) { return Err, fork; }
    if cleanup.Pops() && reorgedSince.Some? {
      var _ := list.Pop(reorgedSince.value);
    }
    r := Ok(entries);
  }

  /** Appends the leading run of complete headers; a complete fetch must have completed them all. */
  method Commit(list: HeaderList, entries: seq<HeaderEntry>, best: Hash, fetched: bool, added: set<Hash>,
                indexed: set<Hash>, ghost chain: seq<Header>, ghost fork: nat)
    returns (r: Outcome<Hash>)
    requires list.Valid() && GoodHash(list.hash) && Linked(list.hash, chain) && chain != []
    requires best == TipHash(list.hash, chain)
    requires fork <= |chain| && list.Chain() == chain[..fork]
    requires Numbered(list.hash, entries, fork) && Headers(entries) == chain[fork..]
    modifies list
    ensures list.Valid()
    ensures r.Ok? ==> Committed(list, r.value, chain, fork, added * indexed)
    ensures r.Ok? && fetched ==> list.Chain() == chain && r.value == best
    ensures r.Err? ==> list.Chain() == chain[..fork]
    ensures r.Ok? <==> Commits(list.hash, chain, fork, fetched, added * indexed)
  {
    hide ListOk;
    hide GoodHash;
    hide Linked;
    hide Numbered;
    hide Commits;
    var completed := CompletedPrefixLen(entries, added, indexed);
    CommitsIff(list.hash, entries, chain, fork, fetched, completed, added * indexed);
    if fetched && completed != |entries| { return Err; }
    CompletedFits(list, entries, chain, fork, completed);
    assert |list.Chain()| == |list.headers| == fork;
    ghost var base := list.headers;
    list.Append(entries[..completed]);
    CompletedHashes(base, entries, completed, added * indexed);
    if list.headers == [] { return Err; }
    r := Ok(list.tip);
    TipOfList(list);
    assert chain[..|chain|] == chain;
  }

  lemma {:induction false} TipOfList(list: HeaderList)
    requires list.Valid()
    ensures list.tip == TipHash(list.hash, list.Chain())
  {
  }

  /** Every block above the fork is complete. */
  ghost predicate AllComplete(hash: Header -> Hash, chain: seq<Header>, fork: nat, complete: set<Hash>) {
    forall k {:trigger ParentHash(hash, chain, k)} :: fork < k <= |chain| ==> ParentHash(hash, chain, k) in complete
  }

  /** A full fetch must have completed every block, and some block must be there at the end. */
  ghost predicate Commits(hash: Header -> Hash, chain: seq<Header>, fork: nat, fetched: bool, complete: set<Hash>) {
    && (fetched ==> AllComplete(hash, chain, fork, complete))
    && chain != [] && (fork > 0 || ParentHash(hash, chain, 1) in complete)
  }

  lemma {:induction false} CommitsIff(hash: Header -> Hash, entries: seq<HeaderEntry>, chain: seq<Header>, fork: nat,
                                      fetched: bool, completed: nat, complete: set<Hash>)
    requires fork <= |chain| && chain != [] && Numbered(hash, entries, fork) && Headers(entries) == chain[fork..]
    requires completed <= |entries| && forall k :: 0 <= k < completed ==> entries[k].hash in complete
    requires completed < |entries| ==> entries[completed].hash !in complete
    ensures Commits(hash, chain, fork, fetched, complete) <==>
              (fetched ==> completed == |entries|) && fork + completed > 0
  {
    forall k | 0 <= k < |entries| ensures entries[k].hash == ParentHash(hash, chain, fork + k + 1) {
      assert Headers(entries)[k] == chain[fork..][k];
    }
    if completed < |entries| { assert ParentHash(hash, chain, fork + completed + 1) !in complete; }
    hide Numbered;
    forall k | fork < k <= fork + completed ensures ParentHash(hash, chain, k) in complete {
      assert entries[k - fork - 1].hash == ParentHash(hash, chain, k);
    }
  }

  /** The list is a prefix of the daemon's chain, and complete above the fork. */
  ghost predicate Committed(list: HeaderList, tip: Hash, chain: seq<Header>, fork: nat, complete: set<Hash>)
    reads list
  {
    && fork <= |list.headers| <= |chain| && list.Chain() == chain[..|list.headers|] && tip == list.tip
    && forall k :: fork <= k < |list.headers| ==> list.headers[k].hash in complete
  }

  /**
   One index update. `cleanup` tells what becomes of the cleanup, `fetched` whether every block
   fetch succeeded, `added` and `indexed` which blocks are complete afterwards. No assertion of
   the header list can fail; whatever happens, the list stays well formed and is as it was or a
   prefix of the daemon's chain that keeps the shared part. Without a cleanup the update ends early
   with the tip of the list as it then is; a successful update with a complete fetch ends exactly at
   the daemon's tip. If the daemon serves the headers and shares the genesis block, the update
   fails only when interrupted, when a fetch reported as complete left a block incomplete, or when
   nothing at all is complete.
   */
  method Update(list: HeaderList, daemon: Daemon, cleanup: Cleanup, fetched: bool, added: set<Hash>, indexed: set<Hash>,
                ghost chain: seq<Header>)
    returns (r: Outcome<Hash>, ghost fork: nat)
    requires list.Valid() && GoodHash(list.hash) && Honest(list.hash, daemon, chain)
    modifies list
    ensures list.Valid() && (r.Ok? ==> r.value == list.tip)
    ensures r.Ok? && cleanup.Done? ==>
              old(StopsAt(list, chain, fork)) && Committed(list, r.value, chain, fork, added * indexed)
    ensures r.Ok? && cleanup.Done? && fetched ==> list.Chain() == chain && r.value == daemon.best
    ensures r.Ok? && !cleanup.Done? ==>
              if cleanup.Pops() then old(StopsAt(list, chain, fork)) && list.Chain() == chain[..fork]
              else list.headers == old(list.headers)
    ensures old(Serves(list, daemon, chain) && SameGenesis(list, chain)) ==>
              (r.Ok? <==> !cleanup.Interrupted?
                          && (cleanup.Done? ==> Commits(list.hash, chain, fork, fetched, added * indexed)))
    ensures old(Serves(list, daemon, chain) && SameGenesis(list, chain)) && cleanup.Done? && fetched
            && AllComplete(list.hash, chain, fork, added * indexed) ==>
              r == Ok(daemon.best) && list.Chain() == chain
    ensures r.Ok? ==> old(SameGenesis(list, chain) && (list.headers != [] ==> Serves(list, daemon, chain)))
    ensures cleanup.Interrupted? ==> r.Err?
    ensures r.Err? ==> list.headers == old(list.headers)
                       || (old(StopsAt(list, chain, fork)) && list.Chain() == chain[..fork])
  {
    hide Inverse;
    hide GoodHash;
    hide Linked;
    hide Serves;
    hide SameGenesis;
    hide Commits;
    hide AllComplete;
    var popped;
    popped, fork := PopReplaced(list, daemon, cleanup, chain);
    if popped.Err? { return Err, fork; }
    match cleanup {
      case PutOff => return Ok(list.tip), fork;
      case Fails(_) => return Ok(list.tip), fork;
      case Interrupted(_) => return Err, fork;
      case Done =>
    }
    assert fork <= |chain|;
    CompleteCommits(list.hash, chain, fork, added * indexed);
    r := Commit(list, popped.value, daemon.best, fetched, added, indexed, chain, fork);
  }

  lemma {:induction false} CompleteCommits(hash: Header -> Hash, chain: seq<Header>, fork: nat, complete: set<Hash>)
    requires chain != []
    ensures AllComplete(hash, chain, fork, complete) ==> Commits(hash, chain, fork, true, complete)
  {
    if fork == 0 && AllComplete(hash, chain, fork, complete) { assert ParentHash(hash, chain, 1) in complete; }
  }

  lemma {:induction false} CompletedHashes(base: seq<HeaderEntry>, entries: seq<HeaderEntry>, completed: nat,
                                           done: set<Hash>)
    requires completed <= |entries| && forall k :: 0 <= k < completed ==> entries[k].hash in done
    ensures forall k :: |base| <= k < |base| + completed ==> (base + entries[..completed])[k].hash in done
  {
  }

  lemma {:induction false} CompletedFits(list: HeaderList, entries: seq<HeaderEntry>, chain: seq<Header>, fork: nat,
                                         completed: nat)
    requires fork <= |chain| && list.Chain() == chain[..fork] && Linked(list.hash, chain)
    requires Numbered(list.hash, entries, fork) && Headers(entries) == chain[fork..] && completed <= |entries|
    ensures Numbered(list.hash, entries[..completed], fork)
    ensures list.Chain() + Headers(entries[..completed]) == chain[..fork + completed]
    ensures Linked(list.hash, chain[..fork + completed])
  {
    LinkedPrefix(list.hash, chain, fork + completed);
    var upper := Headers(entries[..completed]);
    forall k | 0 <= k < completed ensures upper[k] == chain[fork + k] {
      assert Headers(entries)[k] == chain[fork..][k];
    }
  }

  lemma {:induction false} NewHeadersFit(hash: Header -> Hash, chain: seq<Header>, fork: nat)
    requires Linked(hash, chain) && fork <= |chain|
    ensures var upper := chain[fork..];
            && Consecutive(hash, upper)
            && (upper != [] ==>
                  TipHash(hash, upper) == TipHash(hash, chain) && upper[0].prev == ParentHash(hash, chain, fork))
  {
    var upper := chain[fork..];
    forall k | 0 < k < |upper| ensures upper[k].prev == hash(upper[k - 1]) {
      assert chain[fork + k].prev == ParentHash(hash, chain, fork + k);
    }
    if upper != [] { assert chain[fork].prev == ParentHash(hash, chain, fork); }
  }

  lemma {:induction false} AttachesAtFork(list: HeaderList, chain: seq<Header>, fork: nat, since: nat)
    requires list.Valid() && GoodHash(list.hash) && Linked(list.hash, chain) && StopsAt(list, chain, fork)
    requires since <= |list.headers| && Linked(list.hash, list.Chain()[..since] + chain[fork..])
    requires TipHash(list.hash, list.Chain()[..since] + chain[fork..]) == TipHash(list.hash, chain)
    ensures since == fork
  {
    var joined := list.Chain()[..since] + chain[fork..];
    HashPinsPrefix(list.hash, joined, chain, |joined|, |chain|);
  }
}
