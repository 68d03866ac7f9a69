/** The bounded cache of checkpoint trees and its all-or-nothing eviction. */
module MerkleCache {
  import Sorting
  import opened Wrappers

  const MAX_CACHE_ENTRIES := 256

  datatype Entry = Entry(height: nat, cpHash: int, size: nat)

  function Bytes(s: seq<Entry>): nat {
    if s == [] then 0 else s[0].size + Bytes(s[1..])
  }

  ghost predicate Distinct(s: seq<Entry>) {
    forall i, j :: 0 <= i < j < |s| ==> s[i].height != s[j].height
  }

  function Keep(s: seq<Entry>, f: Entry -> bool): seq<Entry> {
    if s == [] then [] else if f(s[0]) then [s[0]] + Keep(s[1..], f) else Keep(s[1..], f)
  }

  /** What survives when everything below height `t` is evicted. */
  function Above(s: seq<Entry>, t: nat): seq<Entry> {
    Keep(s, (e: Entry) => e.height >= t)
  }

  /** What `retain` keeps: neither the height being inserted nor one above the tip. */
  function Retained(s: seq<Entry>, cpHeight: nat, bestHeight: nat): seq<Entry> {
    Keep(s, (e: Entry) => e.height != cpHeight && e.height <= bestHeight)
  }

  predicate Fits(s: seq<Entry>, size: nat, capacity: nat) {
    Bytes(s) + size <= capacity && |s| < MAX_CACHE_ENTRIES
  }

  /**
   What one insert does to the retained entries, independently of how it is computed. Either the
   new entry goes in after evicting the lowest heights below it, as few as make it fit; or even
   evicting all of them would not make it fit, and then nothing is evicted.
   */
  ghost predicate Inserted(kept: seq<Entry>, e: Entry, capacity: nat, after: seq<Entry>) {
    || (after == kept && !Fits(Above(kept, e.height), e.size, capacity))
    || exists t :: EvictedBelow(kept, e, capacity, after, t)
  }

  ghost predicate EvictedBelow(kept: seq<Entry>, e: Entry, capacity: nat, after: seq<Entry>, t: nat) {
    && t <= e.height && after == Above(kept, t) + [e] && Fits(Above(kept, t), e.size, capacity)
    && forall u: nat :: u <= t && Above(kept, u) != Above(kept, t) ==> !Fits(Above(kept, u), e.size, capacity)
  }

  // ----- What an insert means, entry by entry ---------------------------------------------------------

  /** Neither of the height being inserted nor above the tip. */
  predicate Survives(x: Entry, cpHeight: nat, bestHeight: nat) { x.height != cpHeight && x.height <= bestHeight }

  /** The bytes and the number of the surviving entries at height `t` and above. */
  function BytesFrom(s: seq<Entry>, cpHeight: nat, bestHeight: nat, t: nat): nat {
    if s == [] then 0
    else BytesFrom(s[1..], cpHeight, bestHeight, t)
         + if Survives(s[0], cpHeight, bestHeight) && s[0].height >= t then s[0].size else 0
  }

  function CountFrom(s: seq<Entry>, cpHeight: nat, bestHeight: nat, t: nat): nat {
    if s == [] then 0
    else CountFrom(s[1..], cpHeight, bestHeight, t)
         + if Survives(s[0], cpHeight, bestHeight) && s[0].height >= t then 1 else 0
  }

  /** With the surviving entries below `t` gone there is room for the new one. */
  predicate RoomAbove(s: seq<Entry>, e: Entry, bestHeight: nat, capacity: nat, t: nat) {
    && BytesFrom(s, e.height, bestHeight, t) + e.size <= capacity
    && CountFrom(s, e.height, bestHeight, t) < MAX_CACHE_ENTRIES
  }

  /** Afterwards there are the surviving entries from height `t` up, and the new one if it was taken. */
  ghost predicate LeftWith(before: seq<Entry>, e: Entry, bestHeight: nat, after: seq<Entry>, t: nat, taken: bool) {
    forall x :: x in after <==> (taken && x == e) || (x in before && Survives(x, e.height, bestHeight) && x.height >= t)
  }

  /** No lower threshold that keeps another entry leaves room. */
  ghost predicate LeastEvicted(before: seq<Entry>, e: Entry, bestHeight: nat, capacity: nat, t: nat) {
    forall x {:trigger Survives(x, e.height, bestHeight)} ::
      x in before && Survives(x, e.height, bestHeight) && x.height < t ==>
        !RoomAbove(before, e, bestHeight, capacity, x.height)
  }

  /**
   An insert, entry by entry. A tree too large for the cache changes nothing. Otherwise the entries
   of its height and above the tip go. If its own height is above the tip, or there would be no
   room even without all lower entries, nothing else goes and the tree is not taken. Else it is
   taken, and just the lowest entries below it go that have to.
   */
  ghost predicate InsertedInto(before: seq<Entry>, e: Entry, bestHeight: nat, capacity: nat, after: seq<Entry>) {
    if e.size > capacity then after == before
    else if e.height > bestHeight || !RoomAbove(before, e, bestHeight, capacity, e.height)
    then LeftWith(before, e, bestHeight, after, 0, false)
    else exists t: nat {:trigger RoomAbove(before, e, bestHeight, capacity, t)} ::
           && t <= e.height && RoomAbove(before, e, bestHeight, capacity, t)
           && LeftWith(before, e, bestHeight, after, t, true) && LeastEvicted(before, e, bestHeight, capacity, t)
  }

  lemma {:induction false} SumsFrom(s: seq<Entry>, cpHeight: nat, bestHeight: nat, t: nat)
    ensures var kept := Above(Retained(s, cpHeight, bestHeight), t);
            Bytes(kept) == BytesFrom(s, cpHeight, bestHeight, t) && |kept| == CountFrom(s, cpHeight, bestHeight, t)
  {
    if s != [] {
      SumsFrom(s[1..], cpHeight, bestHeight, t);
      var rest := Retained(s[1..], cpHeight, bestHeight);
      assert Retained(s, cpHeight, bestHeight) == if Survives(s[0], cpHeight, bestHeight) then [s[0]] + rest else rest;
      assert ([s[0]] + rest)[1..] == rest;
      assert ([s[0]] + Above(rest, t))[1..] == Above(rest, t);
    }
  }

  lemma {:induction false} RetainedMembers(s: seq<Entry>, cpHeight: nat, bestHeight: nat, t: nat, x: Entry)
    ensures x in Retained(s, cpHeight, bestHeight) <==> x in s && Survives(x, cpHeight, bestHeight)
    ensures x in Above(Retained(s, cpHeight, bestHeight), t) <==>
              x in s && Survives(x, cpHeight, bestHeight) && x.height >= t
  {
    KeepMembers(s, (e: Entry) => e.height != cpHeight && e.height <= bestHeight);
    KeepMembers(Retained(s, cpHeight, bestHeight), (e: Entry) => e.height >= t);
  }

  lemma {:induction false} FitsIsRoom(s: seq<Entry>, e: Entry, bestHeight: nat, capacity: nat, t: nat)
    ensures Fits(Above(Retained(s, e.height, bestHeight), t), e.size, capacity) <==>
              RoomAbove(s, e, bestHeight, capacity, t)
  {
    SumsFrom(s, e.height, bestHeight, t);
  }

  /** The two descriptions agree. */
  lemma {:induction false} InsertedIsInto(s: seq<Entry>, e: Entry, bestHeight: nat, capacity: nat, after: seq<Entry>)
    requires e.size <= capacity && e.height <= bestHeight
    requires Inserted(Retained(s, e.height, bestHeight), e, capacity, after)
    ensures InsertedInto(s, e, bestHeight, capacity, after)
  {
    var kept := Retained(s, e.height, bestHeight);
    FitsIsRoom(s, e, bestHeight, capacity, e.height);
    if t: nat :| EvictedBelow(kept, e, capacity, after, t) {
      TakenInto(s, e, bestHeight, capacity, after, t);
    } else {
      forall x ensures x in after <==> x in s && Survives(x, e.height, bestHeight) {
        RetainedMembers(s, e.height, bestHeight, 0, x);
      }
    }
  }

  lemma {:induction false} TakenInto(s: seq<Entry>, e: Entry, bestHeight: nat, capacity: nat, after: seq<Entry>, t: nat)
    requires EvictedBelow(Retained(s, e.height, bestHeight), e, capacity, after, t)
    ensures t <= e.height && RoomAbove(s, e, bestHeight, capacity, t) && RoomAbove(s, e, bestHeight, capacity, e.height)
    ensures LeftWith(s, e, bestHeight, after, t, true) && LeastEvicted(s, e, bestHeight, capacity, t)
  {
    var kept := Retained(s, e.height, bestHeight);
    FitsIsRoom(s, e, bestHeight, capacity, t);
    RoomGrows(s, e, bestHeight, capacity, t, e.height);
    forall x ensures x in after <==> x == e || (x in s && Survives(x, e.height, bestHeight) && x.height >= t) {
      RetainedMembers(s, e.height, bestHeight, t, x);
    }
    forall x | x in s && Survives(x, e.height, bestHeight) && x.height < t
      ensures !RoomAbove(s, e, bestHeight, capacity, x.height)
    {
      RetainedMembers(s, e.height, bestHeight, t, x);
      RetainedMembers(s, e.height, bestHeight, x.height, x);
      FitsIsRoom(s, e, bestHeight, capacity, x.height);
      assert Above(kept, x.height) != Above(kept, t);
    }
  }

  lemma {:induction false} RoomGrows(s: seq<Entry>, e: Entry, bestHeight: nat, capacity: nat, t: nat, u: nat)
    requires t <= u
    ensures RoomAbove(s, e, bestHeight, capacity, t) ==> RoomAbove(s, e, bestHeight, capacity, u)
  {
    LessFrom(s, e.height, bestHeight, t, u);
  }

  lemma {:induction false} LessFrom(s: seq<Entry>, cpHeight: nat, bestHeight: nat, t: nat, u: nat)
    requires t <= u
    ensures BytesFrom(s, cpHeight, bestHeight, u) <= BytesFrom(s, cpHeight, bestHeight, t)
    ensures CountFrom(s, cpHeight, bestHeight, u) <= CountFrom(s, cpHeight, bestHeight, t)
  {
    if s != [] { LessFrom(s[1..], cpHeight, bestHeight, t, u); }
  }

  // ----- Filtering ----------------------------------------------------------------------------------

  lemma {:induction false} KeepMembers(s: seq<Entry>, f: Entry -> bool)
    ensures forall x :: x in Keep(s, f) <==> x in s && f(x)
    ensures |Keep(s, f)| <= |s| && Bytes(Keep(s, f)) <= Bytes(s)
    ensures Distinct(s) ==> Distinct(Keep(s, f))
  {
    if s != [] {
      KeepMembers(s[1..], f);
      var rest := Keep(s[1..], f);
      assert ([s[0]] + rest)[1..] == rest;
      if Distinct(s) && f(s[0]) {
        forall j | 0 <= j < |rest| ensures rest[j].height != s[0].height {
          assert rest[j] in s[1..];
        }
      }
    }
  }

  lemma {:induction false} KeepSame(s: seq<Entry>, f: Entry -> bool, g: Entry -> bool)
    requires forall i :: 0 <= i < |s| ==> f(s[i]) == g(s[i])
    ensures Keep(s, f) == Keep(s, g)
  {
    if s != [] { KeepSame(s[1..], f, g); }
  }

  lemma {:induction false} KeepAll(s: seq<Entry>, f: Entry -> bool)
    requires forall i :: 0 <= i < |s| ==> f(s[i])
    ensures Keep(s, f) == s
  {
    if s != [] { KeepAll(s[1..], f); }
  }

  lemma {:induction false} KeepConcat(a: seq<Entry>, b: seq<Entry>, f: Entry -> bool)
    ensures Keep(a + b, f) == Keep(a, f) + Keep(b, f)
  {
    if a == [] {
      assert a + b == b;
    } else {
      assert (a + b)[1..] == a[1..] + b;
      KeepConcat(a[1..], b, f);
    }
  }

  /** Dropping exactly one more entry takes exactly its bytes. */
  lemma {:induction false} KeepOneLess(s: seq<Entry>, f: Entry -> bool, g: Entry -> bool, p: nat)
    requires p < |s| && f(s[p]) && !g(s[p])
    requires forall i :: 0 <= i < |s| && i != p ==> f(s[i]) == g(s[i])
    ensures Bytes(Keep(s, f)) == Bytes(Keep(s, g)) + s[p].size
    ensures |Keep(s, f)| == |Keep(s, g)| + 1
  {
    var rest := s[1..];
    assert ([s[0]] + Keep(rest, f))[1..] == Keep(rest, f);
    assert ([s[0]] + Keep(rest, g))[1..] == Keep(rest, g);
    if p == 0 {
      KeepSame(rest, f, g);
    } else {
      KeepOneLess(rest, f, g, p - 1);
    }
  }

  // ----- The order of eviction ---------------------------------------------------------------------

  /** A candidate for eviction: its position, and the height it is sorted by. */
  datatype Victim = Victim(pos: nat, height: nat)

  /** The candidates lie below the new height, lowest first, strictly rising, and none is missing. */
  ghost predicate EvictionOrder(s: seq<Entry>, cp: nat, order: seq<Victim>) {
    && (forall k :: 0 <= k < |order| ==> order[k].pos < |s| && order[k].height == s[order[k].pos].height < cp)
    && (forall j, k :: 0 <= j < k < |order| ==> order[j].height < order[k].height)
    && (forall p :: 0 <= p < |s| && s[p].height < cp ==> Victim(p, s[p].height) in order)
  }

  /** The threshold reached after the first `n` evictions. */
  function Threshold(order: seq<Victim>, n: nat): nat
    requires n <= |order|
  {
    if n == 0 then 0 else order[n - 1].height + 1
  }

  /** The n-th threshold separates the first n evictions from everything else. */
  lemma {:induction false} ThresholdSplits(s: seq<Entry>, cp: nat, order: seq<Victim>, n: nat, p: nat)
    requires EvictionOrder(s, cp, order) && n <= |order| && p < |s|
    ensures s[p].height < Threshold(order, n) <==> exists k :: 0 <= k < n && order[k].pos == p
  {
    if s[p].height < Threshold(order, n) {
      assert s[p].height < cp;
      var k :| 0 <= k < |order| && order[k] == Victim(p, s[p].height);
      NotLater(s, cp, order, k, n - 1);
    }
  }

  lemma {:induction false} NotLater(s: seq<Entry>, cp: nat, order: seq<Victim>, j: nat, k: nat)
    requires EvictionOrder(s, cp, order) && j < |order| && k < |order| && order[j].height <= order[k].height
    ensures j <= k
  {
  }

  lemma {:induction false} NextEviction(s: seq<Entry>, cp: nat, order: seq<Victim>, n: nat)
    requires EvictionOrder(s, cp, order) && n < |order|
    ensures var t, u := Threshold(order, n), Threshold(order, n + 1);
            t < u <= cp && Bytes(Above(s, t)) == Bytes(Above(s, u)) + s[order[n].pos].size
            && |Above(s, t)| == |Above(s, u)| + 1
  {
    var t, u := Threshold(order, n), Threshold(order, n + 1);
    forall i | 0 <= i < |s| && i != order[n].pos ensures s[i].height >= t <==> s[i].height >= u {
      ThresholdSplits(s, cp, order, n, i);
      ThresholdSplits(s, cp, order, n + 1, i);
    }
    assert n > 0 ==> order[n - 1].height < order[n].height;
    KeepOneLess(s, (e: Entry) => e.height >= t, (e: Entry) => e.height >= u, order[n].pos);
  }

  /** Any threshold up to the n-th is the same, for the entries, as one of the first n+1. */
  lemma {:induction false} EveryThreshold(s: seq<Entry>, cp: nat, order: seq<Victim>, n: nat, t: nat) returns (k: nat)
    requires EvictionOrder(s, cp, order) && n <= |order| && t <= Threshold(order, n)
    ensures k <= n && Above(s, t) == Above(s, Threshold(order, k))
  {
    if t == Threshold(order, n) {
      k := n;
    } else if t <= Threshold(order, n - 1) {
      k := EveryThreshold(s, cp, order, n - 1, t);
    } else {
      k := n - 1;
      var u := Threshold(order, n - 1);
      forall i | 0 <= i < |s| ensures s[i].height >= t <==> s[i].height >= u {
        ThresholdSplits(s, cp, order, n, i);
        ThresholdSplits(s, cp, order, n - 1, i);
      }
      KeepSame(s, (e: Entry) => e.height >= t, (e: Entry) => e.height >= u);
    }
  }

  /** With everything below the new height evicted, nothing but the entries from it up is left. */
  lemma {:induction false} AllEvicted(s: seq<Entry>, cp: nat, order: seq<Victim>)
    requires EvictionOrder(s, cp, order)
    ensures Above(s, Threshold(order, |order|)) == Above(s, cp)
  {
    var t := Threshold(order, |order|);
    forall i | 0 <= i < |s| ensures s[i].height >= t <==> s[i].height >= cp {
      ThresholdSplits(s, cp, order, |order|, i);
      if s[i].height < cp { var k :| 0 <= k < |order| && order[k] == Victim(i, s[i].height); }
    }
    KeepSame(s, (e: Entry) => e.height >= t, (e: Entry) => e.height >= cp);
  }

  /** Entries below the new height, then sorted by height. */
  method EvictionPositions(s: seq<Entry>, cp: nat) returns (order: seq<Victim>)
    requires Distinct(s)
    ensures EvictionOrder(s, cp, order)
  {
    var victims: seq<Victim> := [];
    for pos := 0 to |s|
      invariant forall k :: 0 <= k < |victims| ==>
                  victims[k].pos < pos && victims[k].height == s[victims[k].pos].height < cp
      invariant forall j, k :: 0 <= j < k < |victims| ==> victims[j].pos < victims[k].pos
      invariant forall p :: 0 <= p < pos && s[p].height < cp ==> Victim(p, s[p].height) in victims
    {
      if s[pos].height < cp { victims := victims + [Victim(pos, s[pos].height)]; }
    }
    var leq := (a: Victim, b: Victim) => a.height <= b.height;
    order := Sorting.Sort(leq, victims);
    Sorting.SortSorts(leq, victims);
    Sorting.SortNoDuplicates(leq, victims);
    RisingOrder(s, cp, victims, order);
  }

  lemma {:induction false} RisingOrder(s: seq<Entry>, cp: nat, victims: seq<Victim>, order: seq<Victim>)
    requires Distinct(s) && Sorting.NoDuplicates(order) && (forall v :: v in order <==> v in victims)
    requires forall j, k :: 0 <= j < k < |order| ==> order[j].height <= order[k].height
    requires forall k :: 0 <= k < |victims| ==>
               victims[k].pos < |s| && victims[k].height == s[victims[k].pos].height < cp
    requires forall p :: 0 <= p < |s| && s[p].height < cp ==> Victim(p, s[p].height) in victims
    ensures EvictionOrder(s, cp, order)
  {
    assert forall k :: 0 <= k < |order| ==> order[k] in victims;
    forall j, k | 0 <= j < k < |order| ensures order[j].height < order[k].height {
      assert order[j] in victims && order[k] in victims && order[j] != order[k];
      assert order[j].pos != order[k].pos;
      assert s[order[j].pos].height != s[order[k].pos].height;
    }
  }


  // ----- Removing the evicted entries ----------------------------------------------------------------

  /** All positions the filter rejects, highest first. */
  ghost predicate Rejects(s: seq<Entry>, f: Entry -> bool, selected: seq<Victim>) {
    && (forall k :: 0 <= k < |selected| ==> selected[k].pos < |s| && !f(s[selected[k].pos]))
    && (forall j, k :: 0 <= j < k < |selected| ==> selected[j].pos > selected[k].pos)
    && (forall p :: 0 <= p < |s| && !f(s[p]) ==> exists k :: 0 <= k < |selected| && selected[k].pos == p)
  }

  /** How far down the first `k` removals have come. */
  function From(s: seq<Entry>, selected: seq<Victim>, k: nat): nat
    requires k <= |selected|
  {
    if k == 0 then |s| else selected[k - 1].pos
  }

  /** Between one removed position and the next, everything is kept. */
  lemma {:induction false} SkipKept(s: seq<Entry>, f: Entry -> bool, selected: seq<Victim>, k: nat)
    requires Rejects(s, f, selected) && k <= |selected|
    ensures var from, low := From(s, selected, k), if k < |selected| then selected[k].pos + 1 else 0;
            low <= from <= |s| && Keep(s[low..], f) == s[low..from] + Keep(s[from..], f)
  {
    var from, low := From(s, selected, k), if k < |selected| then selected[k].pos + 1 else 0;
    assert 0 < k < |selected| ==> selected[k - 1].pos > selected[k].pos;
    forall i | low <= i < from ensures f(s[i]) {
      forall j | 0 <= j < |selected| ensures selected[j].pos != i { Outside(s, f, selected, k, j); }
    }
    KeepRun(s, f, low, from);
  }

  lemma {:induction false} KeepRun(s: seq<Entry>, f: Entry -> bool, low: nat, from: nat)
    requires low <= from <= |s| && forall i :: low <= i < from ==> f(s[i])
    ensures Keep(s[low..], f) == s[low..from] + Keep(s[from..], f)
  {
    KeepAll(s[low..from], f);
    assert s[low..] == s[low..from] + s[from..];
    KeepConcat(s[low..from], s[from..], f);
  }

  lemma {:induction false} Outside(s: seq<Entry>, f: Entry -> bool, selected: seq<Victim>, k: nat, j: nat)
    requires Rejects(s, f, selected) && k <= |selected| && j < |selected|
    ensures selected[j].pos >= From(s, selected, k) || (k < |selected| && selected[j].pos <= selected[k].pos)
  {
  }

  /** The entries once everything rejected from position `from` up is gone. */
  function Cut(s: seq<Entry>, f: Entry -> bool, from: nat): seq<Entry>
    requires from <= |s|
  {
    s[..from] + Keep(s[from..], f)
  }

  lemma {:induction false} CutOne(s: seq<Entry>, f: Entry -> bool, from: nat, pos: nat)
    requires pos < from <= |s| && !f(s[pos])
    requires Keep(s[pos + 1..], f) == s[pos + 1..from] + Keep(s[from..], f)
    ensures Cut(s, f, from)[..pos] + Cut(s, f, from)[pos + 1..] == Cut(s, f, pos)
  {
    assert Keep(s[pos..], f) == Keep(s[pos + 1..], f) by { assert s[pos..][1..] == s[pos + 1..]; }
    Splice(s[..from], Keep(s[from..], f), pos);
    assert s[..from][..pos] == s[..pos] && s[..from][pos + 1..] == s[pos + 1..from];
  }

  lemma {:induction false} Splice(a: seq<Entry>, b: seq<Entry>, pos: nat)
    requires pos < |a|
    ensures (a + b)[..pos] + (a + b)[pos + 1..] == a[..pos] + (a[pos + 1..] + b)
  {
  }

  /** The entries once the first `k` selected positions are gone. */
  ghost predicate Cutting(s: seq<Entry>, f: Entry -> bool, selected: seq<Victim>, k: nat, r: seq<Entry>) {
    k <= |selected| && From(s, selected, k) <= |s| && r == Cut(s, f, From(s, selected, k))
  }

  lemma {:induction false} CutNext(s: seq<Entry>, f: Entry -> bool, selected: seq<Victim>, k: nat, r: seq<Entry>)
    requires Rejects(s, f, selected) && k < |selected| && Cutting(s, f, selected, k, r)
    ensures selected[k].pos < |r| && Cutting(s, f, selected, k + 1, r[..selected[k].pos] + r[selected[k].pos + 1..])
  {
    SkipKept(s, f, selected, k);
    var from, pos := From(s, selected, k), selected[k].pos;
    assert !f(s[pos]) && pos < |Cut(s, f, from)|;
    CutOne(s, f, from, pos);
    hide Rejects;
    hide Keep;
    hide Cut;
  }

  lemma {:induction false} CutEnd(s: seq<Entry>, f: Entry -> bool, selected: seq<Victim>, r: seq<Entry>)
    requires Rejects(s, f, selected) && Cutting(s, f, selected, |selected|, r)
    ensures r == Keep(s, f)
  {
    SkipKept(s, f, selected, |selected|);
    assert s[0..] == s;
  }

  lemma {:induction false} CutStart(s: seq<Entry>, f: Entry -> bool, selected: seq<Victim>)
    ensures Cutting(s, f, selected, 0, s)
  {
    assert s[..|s|] == s && s[|s|..] == [];
  }

  /** Removing positions one by one, highest first, is filtering. */
  method RemoveAll(s: seq<Entry>, selected: seq<Victim>, f: Entry -> bool) returns (r: seq<Entry>)
    requires Rejects(s, f, selected)
    ensures r == Keep(s, f)
  {
    r := s;
    CutStart(s, f, selected);
    for k := 0 to |selected|
      invariant Cutting(s, f, selected, k, r)
    {
      CutNext(s, f, selected, k, r);
      r := r[..selected[k].pos] + r[selected[k].pos + 1..];
    }
    CutEnd(s, f, selected, r);
  }

  lemma {:induction false} SelectedRejects(s: seq<Entry>, cp: nat, order: seq<Victim>, n: nat, selected: seq<Victim>)
    requires EvictionOrder(s, cp, order) && n <= |order|
    requires Sorting.NoDuplicates(selected) && (forall v :: v in selected <==> v in order[..n])
    requires forall j, k :: 0 <= j < k < |selected| ==> selected[j].pos >= selected[k].pos
    ensures Rejects(s, (e: Entry) => e.height >= Threshold(order, n), selected)
  {
    forall k | 0 <= k < |selected|
      ensures selected[k].pos < |s| && s[selected[k].pos].height < Threshold(order, n)
    {
      assert selected[k] in order[..n];
      var i :| 0 <= i < n && order[i] == selected[k];
      assert i < n - 1 ==> order[i].height < order[n - 1].height;
    }
    forall j, k | 0 <= j < k < |selected| ensures selected[j].pos > selected[k].pos {
      assert selected[j] in order[..n] && selected[k] in order[..n];
    }
    forall p | 0 <= p < |s| && s[p].height < Threshold(order, n)
      ensures exists k :: 0 <= k < |selected| && selected[k].pos == p
    {
      ThresholdSplits(s, cp, order, n, p);
      var i :| 0 <= i < n && order[i].pos == p;
      assert order[..n][i] in selected;
    }
  }

  method RemoveEvicted(s: seq<Entry>, cp: nat, order: seq<Victim>, n: nat) returns (r: seq<Entry>)
    requires EvictionOrder(s, cp, order) && n <= |order|
    ensures r == Above(s, Threshold(order, n))
  {
    var leq := (a: Victim, b: Victim) => a.pos >= b.pos;
    var selected := Sorting.Sort(leq, order[..n]);
    Sorting.SortSorts(leq, order[..n]);
    Sorting.SortNoDuplicates(leq, order[..n]);
    SelectedRejects(s, cp, order, n, selected);
    var t := Threshold(order, n);
    r := RemoveAll(s, selected, (e: Entry) => e.height >= t);
  }

  // ----- The cache -------------------------------------------------------------------------------------

  /** The entries after an insert keep every bound the entries before it had. */
  lemma {:induction false} InsertedKeepsBounds(kept: seq<Entry>, e: Entry, capacity: nat, after: seq<Entry>)
    requires Distinct(kept) && Bytes(kept) <= capacity && |kept| <= MAX_CACHE_ENTRIES
    requires (forall i :: 0 <= i < |kept| ==> kept[i].height != e.height) && Inserted(kept, e, capacity, after)
    ensures Distinct(after) && Bytes(after) <= capacity && |after| <= MAX_CACHE_ENTRIES
  {
    if t :| EvictedBelow(kept, e, capacity, after, t) {
      var low := Above(kept, t);
      KeepMembers(kept, (x: Entry) => x.height >= t);
      assert forall i :: 0 <= i < |low| ==> low[i] in kept;
      BytesPush(low, e);
    }
  }

  lemma {:induction false} BytesPush(s: seq<Entry>, e: Entry)
    ensures Bytes(s + [e]) == Bytes(s) + e.size
  {
    if s != [] {
      BytesPush(s[1..], e);
      assert (s + [e])[1..] == s[1..] + [e];
    }
  }

  /** The evictions counted by the loop: enough, and one fewer would not have been. */
  ghost predicate CountedEnough(s: seq<Entry>, e: Entry, capacity: nat, order: seq<Victim>, n: nat) {
    n <= |order| && forall k: nat :: k < n ==> !Fits(Above(s, Threshold(order, k)), e.size, capacity)
  }

  lemma {:induction false} EnoughIsEvictedBelow(s: seq<Entry>, e: Entry, capacity: nat, order: seq<Victim>, n: nat)
    requires EvictionOrder(s, e.height, order) && CountedEnough(s, e, capacity, order, n)
    requires Fits(Above(s, Threshold(order, n)), e.size, capacity)
    ensures EvictedBelow(s, e, capacity, Above(s, Threshold(order, n)) + [e], Threshold(order, n))
  {
    var t := Threshold(order, n);
    forall u: nat | u <= t && Above(s, u) != Above(s, t)
      ensures !Fits(Above(s, u), e.size, capacity)
    {
      var k := EveryThreshold(s, e.height, order, n, u);
    }
  }

  lemma {:induction false} NothingEvicted(s: seq<Entry>, order: seq<Victim>)
    ensures Above(s, Threshold(order, 0)) == s
  {
    KeepAll(s, (x: Entry) => x.height >= 0);
  }

  /** The loop's counters after `n` evictions that were not enough. */
  ghost predicate Counting(s: seq<Entry>, e: Entry, capacity: nat, order: seq<Victim>, n: nat, totalBytes: nat,
                           remaining: nat) {
    && CountedEnough(s, e, capacity, order, n)
    && totalBytes == Bytes(Above(s, Threshold(order, n))) && remaining == |Above(s, Threshold(order, n))|
  }

  /** When `n` evictions are not enough, either one more is due or no number is enough. */
  lemma {:induction false} OneMore(s: seq<Entry>, e: Entry, capacity: nat, order: seq<Victim>, n: nat, totalBytes: nat,
                                   remaining: nat)
    requires EvictionOrder(s, e.height, order) && Counting(s, e, capacity, order, n, totalBytes, remaining)
    requires totalBytes + e.size > capacity || remaining >= MAX_CACHE_ENTRIES
    ensures n == |order| ==> !Fits(Above(s, e.height), e.size, capacity)
    ensures n < |order| ==> order[n].pos < |s| && s[order[n].pos].size <= totalBytes && remaining > 0
                            && Counting(s, e, capacity, order, n + 1, totalBytes - s[order[n].pos].size, remaining - 1)
  {
    if n == |order| {
      AllEvicted(s, e.height, order);
    } else {
      NextEviction(s, e.height, order, n);
    }
  }

  /** Counts evictions until the entry fits, or finds that no number of them is enough. */
  method CountEvictions(s: seq<Entry>, e: Entry, capacity: nat, order: seq<Victim>) returns (enough: bool, needed: nat)
    requires EvictionOrder(s, e.height, order)
    ensures enough ==>
              CountedEnough(s, e, capacity, order, needed) && Fits(Above(s, Threshold(order, needed)), e.size, capacity)
    ensures !enough ==> !Fits(Above(s, e.height), e.size, capacity)
  {
    NothingEvicted(s, order);
    hide EvictionOrder;
    hide Keep;
    hide Bytes;
    var totalBytes: nat, remaining: nat := Bytes(s), |s|;
    needed := 0;
    while totalBytes + e.size > capacity || remaining >= MAX_CACHE_ENTRIES
      invariant needed <= |order| && Counting(s, e, capacity, order, needed, totalBytes, remaining)
      decreases |order| - needed
    {
      OneMore(s, e, capacity, order, needed, totalBytes, remaining);
      if needed >= |order| { return false, needed; }
      totalBytes := totalBytes - s[order[needed].pos].size;
      remaining := remaining - 1;
      needed := needed + 1;
    }
    enough := true;
  }

  method Place(kept: seq<Entry>, e: Entry, capacity: nat) returns (after: seq<Entry>)
    requires Distinct(kept)
    ensures Inserted(kept, e, capacity, after)
  {
    var order := EvictionPositions(kept, e.height);
    var enough, needed := CountEvictions(kept, e, capacity, order);
    if !enough { return kept; }
    after := RemoveEvicted(kept, e.height, order, needed);
    EnoughIsEvictedBelow(kept, e, capacity, order, needed);
    after := after + [e];
  }

  class CheckpointMerkleCache {
    var entries: seq<Entry>
    const capacityBytes: nat
    const cacheCapacityBytes: nat

    ghost predicate Valid()
      reads this
    {
      && cacheCapacityBytes <= capacityBytes
      && Distinct(entries) && Bytes(entries) <= cacheCapacityBytes && |entries| <= MAX_CACHE_ENTRIES
    }

    /** Cached trees may use half of the memory; the other half is left for rebuilding. */
    constructor (capacityBytes: nat)
      ensures Valid() && entries == [] && this.capacityBytes == capacityBytes
      ensures Bytes(entries) <= cacheCapacityBytes <= capacityBytes - cacheCapacityBytes
    {
      entries := [];
      this.capacityBytes := capacityBytes;
      cacheCapacityBytes := capacityBytes / 2;
    }

    /** A hit is an entry for that height and that very checkpoint block; there is at most one. */
    method GetValid(cpHeight: nat, cpHash: int) returns (r: Option<Entry>)
      requires Valid()
      ensures r.Some? ==> r.value in entries && r.value.height == cpHeight && r.value.cpHash == cpHash
      ensures r.None? ==> forall e :: e in entries ==> e.height != cpHeight || e.cpHash != cpHash
    {
      for i := 0 to |entries|
        invariant forall j :: 0 <= j < i ==> entries[j].height != cpHeight || entries[j].cpHash != cpHash
      {
        if entries[i].height == cpHeight && entries[i].cpHash == cpHash { return Some(entries[i]); }
      }
      r := None;
    }

    /** Inserting a tree, as `InsertedInto` says; no tree but the new one is ever added. */
    method Insert(e: Entry, bestHeight: nat)
      requires Valid()
      modifies this
      ensures Valid()
      ensures InsertedInto(old(entries), e, bestHeight, cacheCapacityBytes, entries)
      ensures forall x :: x in entries ==> x == e || x in old(entries)
      ensures forall x :: x in old(entries) && x.height != e.height && x.height <= bestHeight && x !in entries ==>
                            x.height < e.height && e in entries
    {
      if e.size > cacheCapacityBytes { return; }
      ghost var before := entries;
      KeepMembers(entries, (x: Entry) => x.height != e.height && x.height <= bestHeight);
      entries := Retained(entries, e.height, bestHeight);
      if e.height > bestHeight {
        RetainedLeft(before, e, bestHeight);
        return;
      }
      ghost var kept := entries;
      assert forall i :: 0 <= i < |kept| ==> kept[i] in kept;
      var after := Place(entries, e, cacheCapacityBytes);
      InsertedKeepsBounds(kept, e, cacheCapacityBytes, after);
      InsertedIsInto(before, e, bestHeight, cacheCapacityBytes, after);
      entries := after;
    }
  }

  lemma {:induction false} RetainedLeft(s: seq<Entry>, e: Entry, bestHeight: nat)
    ensures LeftWith(s, e, bestHeight, Retained(s, e.height, bestHeight), 0, false)
  {
    forall x { RetainedMembers(s, e.height, bestHeight, 0, x); }
  }
}
