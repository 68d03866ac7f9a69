/**
 The in-memory header list, the walk back to a known header, and how the two meet: `preprocess`,
 `pop` and `append` driven by a daemon's chain.

 Block hashing is a parameter, `hash`. All that is assumed of it is that different headers have
 different hashes and that no header hashes to the all-zero hash standing for "before genesis".
 */
module HeaderChain {
  import opened Wrappers

  type Hash = int

  const DEFAULT_BLOCKHASH: Hash := 0

  /** A block header: its parent's hash, its time, and whatever else it commits to. */
  datatype Header = Header(prev: Hash, time: nat, rest: int)

  datatype HeaderEntry = HeaderEntry(height: nat, hash: Hash, header: Header)

  ghost predicate Inverts(header: Hash -> Header, hash: Header -> Hash) {
    forall a :: header(hash(a)) == a
  }

  /** Injective (a header can be told from its hash), and never the all-zero hash. */
  ghost predicate GoodHash(hash: Header -> Hash) {
    && (exists header :: Inverts(header, hash))
    && (forall a :: hash(a) != DEFAULT_BLOCKHASH)
  }

  /** The hash a header at position `k` must name as its parent. */
  function ParentHash(hash: Header -> Hash, chain: seq<Header>, k: nat): Hash
    requires k <= |chain|
  {
    if k == 0 then DEFAULT_BLOCKHASH else hash(chain[k - 1])
  }

  /** Every header names the one before it, down to the all-zero hash. */
  ghost predicate Linked(hash: Header -> Hash, chain: seq<Header>) {
    forall k {:trigger ParentHash(hash, chain, k)} :: 0 <= k < |chain| ==> chain[k].prev == ParentHash(hash, chain, k)
  }

  /** Each header but the first names the one before it. */
  ghost predicate Consecutive(hash: Header -> Hash, headers: seq<Header>) {
    forall k :: 0 < k < |headers| ==> headers[k].prev == hash(headers[k - 1])
  }

  function TipHash(hash: Header -> Hash, chain: seq<Header>): Hash {
    ParentHash(hash, chain, |chain|)
  }

  /**
   A block hash pins its height and everything below it: two linked chains that contain the
   same block hash agree from genesis up to that block.
   */
  lemma {:induction false} HashPinsPrefix(hash: Header -> Hash, a: seq<Header>, b: seq<Header>, i: nat, j: nat)
    requires GoodHash(hash) && Linked(hash, a) && Linked(hash, b)
    requires i <= |a| && j <= |b| && ParentHash(hash, a, i) == ParentHash(hash, b, j)
    ensures i == j && a[..i] == b[..j]
    decreases i
  {
    if i > 0 && j > 0 {
      assert a[i - 1] == b[j - 1];
      HashPinsPrefix(hash, a, b, i - 1, j - 1);
      assert a[..i] == a[..i - 1] + [a[i - 1]];
      assert b[..j] == b[..j - 1] + [b[j - 1]];
    }
  }

  lemma {:induction false} LinkedJoin(hash: Header -> Hash, a: seq<Header>, b: seq<Header>)
    requires Linked(hash, a)
    requires b != [] ==> b[0].prev == TipHash(hash, a)
    requires Consecutive(hash, b)
    ensures Linked(hash, a + b)
  {
    var c := a + b;
    forall k | 0 <= k < |c| ensures c[k].prev == ParentHash(hash, c, k) {
      if k < |a| {
        assert a[k].prev == ParentHash(hash, a, k);
      } else if k > |a| {
        assert b[k - |a|].prev == hash(b[k - |a| - 1]);
      }
    }
  }

  lemma {:induction false} LinkedPrefix(hash: Header -> Hash, a: seq<Header>, n: nat)
    requires Linked(hash, a) && n <= |a|
    ensures Linked(hash, a[..n])
  {
    forall k | 0 <= k < n ensures a[..n][k].prev == ParentHash(hash, a[..n], k) {
      assert a[k].prev == ParentHash(hash, a, k);
    }
  }

  // ----- Entries ------------------------------------------------------------------------------

  /** `entries` are the headers of a chain, numbered from `from` and carrying their own hashes. */
  ghost predicate Numbered(hash: Header -> Hash, entries: seq<HeaderEntry>, from: nat) {
    forall k :: 0 <= k < |entries| ==> entries[k].height == from + k && entries[k].hash == hash(entries[k].header)
  }

  function EntryOf(hash: Header -> Hash, header: Header, height: nat): HeaderEntry {
    HeaderEntry(height, hash(header), header)
  }

  function Headers(entries: seq<HeaderEntry>): (r: seq<Header>)
    ensures |r| == |entries| && forall k :: 0 <= k < |r| ==> r[k] == entries[k].header
  {
    if entries == [] then [] else Headers(entries[..|entries| - 1]) + [entries[|entries| - 1].header]
  }

  /** `heights` is the exact inverse of `entries`. */
  ghost predicate Inverse(heights: map<Hash, nat>, entries: seq<HeaderEntry>) {
    && (forall h :: h in heights ==> heights[h] < |entries| && entries[heights[h]].hash == h)
    && (forall k :: 0 <= k < |entries| ==> entries[k].hash in heights && heights[entries[k].hash] == k)
  }

  lemma {:induction false} InversePrefix(heights: map<Hash, nat>, entries: seq<HeaderEntry>, n: nat)
    requires Inverse(heights, entries) && n <= |entries|
    ensures Inverse(heights - (set e | e in entries[n..] :: e.hash), entries[..n])
  {
    var gone := set e | e in entries[n..] :: e.hash;
    assert forall j :: n <= j < |entries| ==> entries[j] == entries[n..][j - n];
    assert forall j :: n <= j < |entries| ==> entries[j].hash in gone;
    forall e | e in entries[n..] ensures heights[e.hash] >= n {
      var j :| 0 <= j < |entries[n..]| && entries[n..][j] == e;
      assert e == entries[n + j];
    }
  }

  method Forget(heights: map<Hash, nat>, gone: seq<HeaderEntry>) returns (r: map<Hash, nat>)
    ensures r == heights - (set e | e in gone :: e.hash)
  {
    r := heights;
    var k := 0;
    while k < |gone|
      invariant 0 <= k <= |gone|
      invariant r == heights - (set e | e in gone[..k] :: e.hash)
    {
      assert gone[..k + 1] == gone[..k] + [gone[k]];
      r := r - {gone[k].hash};
      k := k + 1;
    }
    assert gone[..k] == gone;
  }

  lemma {:induction false} InversePush(heights: map<Hash, nat>, entries: seq<HeaderEntry>, next: HeaderEntry)
    requires Inverse(heights, entries)
    requires forall k :: 0 <= k < |entries| ==> entries[k].hash != next.hash
    ensures Inverse(heights[next.hash := |entries|], entries + [next])
  {
  }

  lemma {:induction false} PrefixPush<T>(a: seq<T>, b: seq<T>, k: nat)
    requires k < |b|
    ensures a + b[..k + 1] == a + b[..k] + [b[k]]
  {
  }

  lemma {:induction false} JoinStarts<T>(a: seq<T>, b: seq<T>)
    ensures |a + b| == |a| + |b| && (a + b)[..|a|] == a
  {
  }

  lemma {:induction false} TakeAll<T>(s: seq<T>)
    ensures s[..|s|] == s
  {
  }

  /** A header list: numbered from zero, linked, with `heights` its inverse and `tip` the last hash. */
  ghost predicate ListOk(hash: Header -> Hash, headers: seq<HeaderEntry>, heights: map<Hash, nat>, tip: Hash) {
    && Numbered(hash, headers, 0) && Linked(hash, Headers(headers))
    && Inverse(heights, headers) && tip == TipHash(hash, Headers(headers))
  }

  class HeaderList {
    const hash: Header -> Hash
    var headers: seq<HeaderEntry>
    var heights: map<Hash, nat>
    var tip: Hash

    function Chain(): (r: seq<Header>)
      reads this
    {
      Headers(headers)
    }

    ghost predicate Valid()
      reads this
    {
      ListOk(hash, headers, heights, tip)
    }

    constructor Empty(hash: Header -> Hash)
      ensures Valid() && headers == [] && this.hash == hash
    {
      this.hash := hash;
      headers := [];
      heights := map[];
      tip := DEFAULT_BLOCKHASH;
    }

    /** The entry of a block of the best chain, if it is one; the lookup's own assertion holds. */
    function HeaderByBlockhash(blockhash: Hash): (r: Option<HeaderEntry>)
      requires Valid()
      reads this
      ensures r.Some? <==> exists k :: 0 <= k < |headers| && headers[k].hash == blockhash
      ensures r.Some? ==> r.value.hash == blockhash && r.value in headers
    {
      if blockhash in heights then Some(headers[heights[blockhash]]) else None
    }

    /** Heights at and above the end are simply absent. */
    function HeaderByHeight(height: nat): (r: Option<HeaderEntry>)
      requires Valid()
      reads this
      ensures r.Some? <==> height < |headers|
      ensures r.Some? ==> r.value.height == height && r.value.header == Chain()[height]
    {
      if height < |headers| then Some(headers[height]) else None
    }

    /**
     Numbers the new headers and finds where they attach. The requires are exactly what the
     source asserts or expects: the headers link to each other, end at the new tip and attach
     to the chain (or, with no new headers, the new tip is already in the chain).
     */
    method Preprocess(newHeaders: seq<Header>, newTip: Hash)
      returns (entries: seq<HeaderEntry>, reorgedSince: Option<nat>, ghost since: nat)
      requires Valid()
      requires Consecutive(hash, newHeaders)
      requires newHeaders != [] ==> TipHash(hash, newHeaders) == newTip
      requires newHeaders != [] ==> newHeaders[0].prev == DEFAULT_BLOCKHASH || newHeaders[0].prev in heights
      requires newHeaders == [] ==> newTip in heights
      ensures Numbered(hash, entries, since) && Headers(entries) == newHeaders
      ensures since <= |headers|
      ensures Linked(hash, Chain()[..since] + newHeaders)
      ensures TipHash(hash, Chain()[..since] + newHeaders) == newTip
      ensures reorgedSince == if since < |headers| then Some(since) else None
    {
      var newHeight: nat;
      entries := [];
      if newHeaders != [] {
        var prev := newHeaders[0].prev;
        newHeight := 0;
        if prev != DEFAULT_BLOCKHASH {
          newHeight := HeaderByBlockhash(prev).value.height + 1;
        }
        while |entries| < |newHeaders|
          invariant |entries| <= |newHeaders|
          invariant Numbered(hash, entries, newHeight)
          invariant forall k :: 0 <= k < |entries| ==> entries[k].header == newHeaders[k]
          decreases |newHeaders| - |entries|
        {
          var header := newHeaders[|entries|];
          entries := entries + [EntryOf(hash, header, newHeight + |entries|)];
        }
        assert Headers(entries) == newHeaders;
        LinkedPrefix(hash, Chain(), newHeight);
        LinkedJoin(hash, Chain()[..newHeight], newHeaders);
      } else {
        newHeight := HeaderByBlockhash(newTip).value.height + 1;
        LinkedPrefix(hash, Chain(), newHeight);
        assert Chain()[..newHeight] + newHeaders == Chain()[..newHeight];
      }
      since := newHeight;
      reorgedSince := if newHeight < |headers| then Some(newHeight) else None;
    }

    /** Takes off the blocks from a height up, and forgets their hashes. */
    method Pop(sinceHeight: nat) returns (reorged: seq<HeaderEntry>)
      requires Valid() && GoodHash(hash)
      requires sinceHeight <= |headers|
      modifies this
      ensures Valid()
      ensures headers == old(headers)[..sinceHeight] && reorged == old(headers)[sinceHeight..]
    {
      reorged := headers[sinceHeight..];
      PopStep(hash, headers, heights, tip, sinceHeight);
      hide ListOk;
      hide GoodHash;
      headers := headers[..sinceHeight];
      heights := Forget(heights, reorged);
      tip := if headers == [] then DEFAULT_BLOCKHASH else headers[|headers| - 1].hash;
    }

    /** Appends entries that extend the tip; the requires are what the source asserts. */
    method Append(newHeaders: seq<HeaderEntry>)
      requires Valid() && GoodHash(hash)
      requires Numbered(hash, newHeaders, |headers|)
      requires Linked(hash, Chain() + Headers(newHeaders))
      modifies this
      ensures Valid()
      ensures headers == old(headers) + newHeaders && Chain() == old(Chain()) + Headers(newHeaders)
    {
      ghost var all := Chain() + Headers(newHeaders);
      JoinStarts(Chain(), Headers(newHeaders));
      hide ListOk;
      hide Linked;
      hide GoodHash;
      hide Numbered;
      hide Headers;
      var k := 0;
      while k < |newHeaders|
        invariant 0 <= k <= |newHeaders| && headers == old(headers) + newHeaders[..k]
        invariant ListOk(hash, headers, heights, tip) && Headers(headers) == all[..|headers|]
      {
        PrefixPush(old(headers), newHeaders, k);
        NextEntry(hash, old(Chain()), newHeaders, k);
        Push(newHeaders[k], all);
        k := k + 1;
      }
      TakeAll(newHeaders);
      TakeAll(all);
    }

    method Push(newHeader: HeaderEntry, ghost all: seq<Header>)
      requires Valid() && GoodHash(hash) && Linked(hash, all)
      requires |headers| < |all| && Chain() == all[..|headers|]
      requires newHeader == EntryOf(hash, all[|headers|], |headers|)
      modifies this
      ensures Valid()
      ensures headers == old(headers) + [newHeader] && Chain() == all[..|headers|]
    {
      PushStep(hash, all, heights, headers, tip, newHeader);
      hide ListOk;
      hide Linked;
      hide GoodHash;
      tip := newHeader.hash;
      headers := headers + [newHeader];
      heights := heights[tip := newHeader.height];
    }
  }

  lemma {:induction false} PopStep(hash: Header -> Hash, headers: seq<HeaderEntry>, heights: map<Hash, nat>, tip: Hash,
                                   n: nat)
    requires ListOk(hash, headers, heights, tip) && n <= |headers|
    ensures ListOk(hash, headers[..n], heights - (set e | e in headers[n..] :: e.hash),
                   if n == 0 then DEFAULT_BLOCKHASH else headers[n - 1].hash)
  {
    InversePrefix(heights, headers, n);
    LinkedPrefix(hash, Headers(headers), n);
    assert Headers(headers[..n]) == Headers(headers)[..n];
  }

  lemma {:induction false} NextEntry(hash: Header -> Hash, chain: seq<Header>, entries: seq<HeaderEntry>, k: nat)
    requires Numbered(hash, entries, |chain|) && k < |entries|
    ensures |chain| + k < |chain + Headers(entries)|
    ensures entries[k] == EntryOf(hash, (chain + Headers(entries))[|chain| + k], |chain| + k)
  {
  }

  lemma {:induction false} PushStep(hash: Header -> Hash, all: seq<Header>, heights: map<Hash, nat>,
                                    headers: seq<HeaderEntry>, tip: Hash, next: HeaderEntry)
    requires GoodHash(hash) && Linked(hash, all) && ListOk(hash, headers, heights, tip)
    requires |headers| < |all| && Headers(headers) == all[..|headers|]
    requires next == EntryOf(hash, all[|headers|], |headers|)
    ensures ListOk(hash, headers + [next], heights[next.hash := next.height], next.hash)
    ensures Headers(headers + [next]) == all[..|headers| + 1]
  {
    LinkedPrefix(hash, all, |headers| + 1);
    assert Headers(headers + [next]) == all[..|headers| + 1];
    FreshHash(hash, all, headers, next);
    InversePush(heights, headers, next);
  }

  /** The next block of a linked chain has a hash none of the earlier ones has. */
  lemma {:induction false} FreshHash(hash: Header -> Hash, all: seq<Header>, headers: seq<HeaderEntry>,
                                     next: HeaderEntry)
    requires GoodHash(hash) && Linked(hash, all) && Numbered(hash, headers, 0)
    requires |headers| < |all| && Headers(headers) == all[..|headers|]
    requires next.header == all[|headers|] && next.hash == hash(next.header)
    ensures forall k :: 0 <= k < |headers| ==> headers[k].hash != next.hash
  {
    forall k | 0 <= k < |headers| ensures headers[k].hash != next.hash {
      if headers[k].hash == next.hash {
        assert headers[k].header == all[..|headers|][k] == all[k];
        HashPinsPrefix(hash, all, all, k + 1, |headers| + 1);
      }
    }
  }
}
