/**
 Rebuilding checkpoint trees under concurrency: one build slot per height, shared by all the
 requests waiting for it, with byte-accounting permits for the memory in flight.
 Every step below is one atomic action of one request; a run is any interleaving of them.
 */
module MerkleSlots {
  import opened Sums

  /** A build slot. `holder` is the request inside its mutex; `retained` the bytes of the tree kept in it. */
  datatype Slot = Slot(height: nat, waiters: nat, holder: Holder, retained: nat, live: bool)

  datatype Holder = Nobody | HeldBy(request: nat)

  /** How far a request has come; each stage holds everything the stages before it hold. */
  datatype Stage =
    | Idle        // nothing
    | Leaving     // a last reference to the slot
    | Guarding    // a guard, counted in the slot's waiters
    | Locked      // the slot's mutex
    | Permitted   // a rebuild permit
    | Building    // a memory permit of `weight` bytes
    | Charged     // a charge of `charge` bytes for the tree about to be retained

  datatype Request = Request(stage: Stage, slot: nat, weight: nat, charge: nat)

  /** `limit` is the configured number of concurrent rebuilds. */
  datatype State = State(table: map<nat, nat>, slots: seq<Slot>, requests: seq<Request>, rebuilds: nat, bytes: nat,
                         limit: nat)

  predicate Guards(r: Request) { r.stage != Idle && r.stage != Leaving }
  predicate Locks(r: Request) { Guards(r) && r.stage != Guarding }
  predicate Permits(r: Request) { Locks(r) && r.stage != Locked }
  predicate Builds(r: Request) { Permits(r) && r.stage != Permitted }

  const IDLE := Request(Idle, 0, 0, 0)

  // ----- Actions ------------------------------------------------------------------------------------

  datatype Action =
    | Arrive                                  // a new request
    | Enter(i: nat, height: nat)              // build_lock_for
    | Lock(i: nat)
    | Permit(i: nat)                          // RebuildPermit::acquire succeeds
    | Reserve(i: nat, budget: nat, weight: nat) // MemoryPermit::acquire succeeds; the cache leaves `budget` bytes
    | Charge(i: nat, size: nat)               // MemoryCharge::new
    | Retain(i: nat)                          // the slot keeps the new tree and drops the old one
    | Unreserve(i: nat)
    | Unpermit(i: nat)
    | Unlock(i: nat)
    | Leave(i: nat)                           // the guard is dropped, under the table lock
    | Release(i: nat)                         // the request's reference to the slot goes

  predicate At(s: State, i: nat, stage: Stage) {
    i < |s.requests| && s.requests[i].stage == stage && (stage != Idle ==> s.requests[i].slot < |s.slots|)
  }

  predicate Enabled(s: State, a: Action) {
    match a
    case Arrive => true
    case Enter(i, h) => At(s, i, Idle) && (h in s.table ==> s.table[h] < |s.slots|)
    case Lock(i) => At(s, i, Guarding) && s.slots[s.requests[i].slot].holder == Nobody
    case Permit(i) => At(s, i, Locked) && s.rebuilds < s.limit
    case Reserve(i, budget, weight) => At(s, i, Permitted) && !(s.bytes > 0 && s.bytes + weight > budget)
    case Charge(i, size) => At(s, i, Building)
    case Retain(i) => At(s, i, Charged) && s.slots[s.requests[i].slot].retained <= s.bytes
    case Unreserve(i) => At(s, i, Building) && s.requests[i].weight <= s.bytes
    case Unpermit(i) => At(s, i, Permitted) && s.rebuilds >= 1
    case Unlock(i) => At(s, i, Locked)
    case Leave(i) => At(s, i, Guarding) && s.slots[s.requests[i].slot].waiters >= 1
    case Release(i) => At(s, i, Leaving) && s.slots[s.requests[i].slot].retained <= s.bytes
  }

  function SetRequest(s: State, i: nat, r: Request): State
    requires i < |s.requests|
  {
    s.(requests := s.requests[i := r])
  }

  function SetSlot(s: State, k: nat, slot: Slot): State
    requires k < |s.slots|
  {
    s.(slots := s.slots[k := slot])
  }

  /** Some request, or the table, still refers to the slot. */
  predicate Referenced(s: State, k: nat) {
    || (exists h :: h in s.table && s.table[h] == k)
    || (exists j :: 0 <= j < |s.requests| && s.requests[j].stage != Idle && s.requests[j].slot == k)
  }

  ghost function Apply(s: State, a: Action): State
    requires Enabled(s, a)
  {
    match a
    case Arrive => s.(requests := s.requests + [IDLE])
    case Enter(i, h) =>
      if h in s.table then
        var k := s.table[h];
        SetSlot(SetRequest(s, i, Request(Guarding, k, 0, 0)), k, s.slots[k].(waiters := s.slots[k].waiters + 1))
      else
        var k := |s.slots|;
        SetRequest(s, i, Request(Guarding, k, 0, 0))
          .(slots := s.slots + [Slot(h, 1, Nobody, 0, true)], table := s.table[h := k])
    case Lock(i) =>
      var k := s.requests[i].slot;
      SetSlot(SetRequest(s, i, s.requests[i].(stage := Locked)), k, s.slots[k].(holder := HeldBy(i)))
    case Permit(i) => SetRequest(s, i, s.requests[i].(stage := Permitted)).(rebuilds := s.rebuilds + 1)
    case Reserve(i, _, weight) =>
      SetRequest(s, i, s.requests[i].(stage := Building, weight := weight)).(bytes := s.bytes + weight)
    case Charge(i, size) =>
      SetRequest(s, i, s.requests[i].(stage := Charged, charge := size)).(bytes := s.bytes + size)
    case Retain(i) =>
      var r, k := s.requests[i], s.requests[i].slot;
      SetSlot(SetRequest(s, i, r.(stage := Building, charge := 0)), k, s.slots[k].(retained := r.charge))
        .(bytes := s.bytes - s.slots[k].retained)
    case Unreserve(i) =>
      SetRequest(s, i, s.requests[i].(stage := Permitted, weight := 0)).(bytes := s.bytes - s.requests[i].weight)
    case Unpermit(i) => SetRequest(s, i, s.requests[i].(stage := Locked)).(rebuilds := s.rebuilds - 1)
    case Unlock(i) =>
      var k := s.requests[i].slot;
      SetSlot(SetRequest(s, i, s.requests[i].(stage := Guarding)), k, s.slots[k].(holder := Nobody))
    case Leave(i) =>
      var k := s.requests[i].slot;
      var slot := s.slots[k];
      SetSlot(SetRequest(s, i, s.requests[i].(stage := Leaving)), k, slot.(waiters := slot.waiters - 1))
        .(table := if slot.waiters == 1 && slot.height in s.table && s.table[slot.height] == k
                   then s.table - {slot.height} else s.table)
    case Release(i) =>
      var k := s.requests[i].slot;
      var s' := SetRequest(s, i, IDLE);
      if Referenced(s', k) then s'
      else SetSlot(s', k, s.slots[k].(retained := 0, live := false)).(bytes := s.bytes - s.slots[k].retained)
  }

  // ----- Invariant ------------------------------------------------------------------------------------

  function GuardsSlot(k: nat): Request -> nat {
    (r: Request) => if Guards(r) && r.slot == k then 1 else 0
  }

  function Held(): Request -> nat { (r: Request) => r.weight + r.charge }

  function Kept(): Slot -> nat { (s: Slot) => s.retained }

  function Rebuilding(): Request -> nat { (r: Request) => if Permits(r) then 1 else 0 }

  /** Requests name existing live slots and hold bytes only at the stages that account for them. */
  ghost predicate RequestsOk(s: State) {
    forall i :: 0 <= i < |s.requests| ==>
      && (s.requests[i].stage != Idle ==> s.requests[i].slot < |s.slots| && s.slots[s.requests[i].slot].live)
      && (!Builds(s.requests[i]) ==> s.requests[i].weight == 0)
      && (s.requests[i].stage != Charged ==> s.requests[i].charge == 0)
      && (Locks(s.requests[i]) ==> s.slots[s.requests[i].slot].holder == HeldBy(i))
  }

  /** A height is in the table exactly while a slot for it has waiters, and then it is that slot. */
  ghost predicate TableOk(s: State) {
    && (forall h :: h in s.table ==> s.table[h] < |s.slots| && s.slots[s.table[h]].height == h
                                     && s.slots[s.table[h]].waiters > 0)
    && (forall k :: 0 <= k < |s.slots| && s.slots[k].waiters > 0 ==>
          s.slots[k].live && s.slots[k].height in s.table && s.table[s.slots[k].height] == k)
  }

  ghost predicate SlotOk(s: State, k: nat)
    requires k < |s.slots|
  {
    && s.slots[k].waiters == Sum(s.requests, GuardsSlot(k))
    && (s.slots[k].live ==> Referenced(s, k))
    && (!s.slots[k].live ==> s.slots[k].retained == 0)
  }

  ghost predicate SlotsOk(s: State) {
    forall k :: 0 <= k < |s.slots| ==> SlotOk(s, k)
  }

  ghost predicate CountersOk(s: State) {
    && s.bytes == Sum(s.requests, Held()) + Sum(s.slots, Kept())
    && s.rebuilds == Sum(s.requests, Rebuilding()) && s.rebuilds <= s.limit
  }

  ghost predicate Inv(s: State) {
    RequestsOk(s) && TableOk(s) && SlotsOk(s) && CountersOk(s)
  }

  // ----- Every action keeps it ----------------------------------------------------------------------

  lemma {:induction false} RequestSums(s: State, i: nat, r: Request)
    requires i < |s.requests|
    ensures Sum(s.requests[i := r], Held()) + s.requests[i].weight + s.requests[i].charge
         == Sum(s.requests, Held()) + r.weight + r.charge
    ensures Sum(s.requests[i := r], Rebuilding()) + Rebuilding()(s.requests[i])
         == Sum(s.requests, Rebuilding()) + Rebuilding()(r)
  {
    SumReplace(s.requests, i, r, Held());
    SumReplace(s.requests, i, r, Rebuilding());
  }

  lemma {:induction false} GuardCount(s: State, i: nat, r: Request, k: nat)
    requires i < |s.requests|
    ensures Sum(s.requests[i := r], GuardsSlot(k)) + GuardsSlot(k)(s.requests[i])
         == Sum(s.requests, GuardsSlot(k)) + GuardsSlot(k)(r)
  {
    SumReplace(s.requests, i, r, GuardsSlot(k));
  }

  /** References survive when the request keeps its slot and the table only loses nothing. */
  lemma {:induction false} StillReferenced(s: State, s': State, i: nat, k: nat)
    requires Referenced(s, k) && i < |s.requests| == |s'.requests|
    requires forall j :: 0 <= j < |s.requests| && j != i ==> s'.requests[j] == s.requests[j]
    requires s.requests[i].stage != Idle ==> s'.requests[i].stage != Idle && s'.requests[i].slot == s.requests[i].slot
    requires forall h :: h in s.table ==> h in s'.table && s'.table[h] == s.table[h]
    ensures Referenced(s', k)
  {
    if h :| h in s.table && s.table[h] == k {
      assert h in s'.table;
    } else {
      var j :| 0 <= j < |s.requests| && s.requests[j].stage != Idle && s.requests[j].slot == k;
      assert s'.requests[j].stage != Idle && s'.requests[j].slot == k;
    }
  }

  /** A step of one request that keeps its guard, its slot and the slots themselves. */
  lemma {:induction false} KeepsGuard(s: State, s': State, i: nat)
    requires Inv(s) && i < |s.requests| == |s'.requests| && s'.requests == s.requests[i := s'.requests[i]]
    requires s'.table == s.table && s'.slots == s.slots
    requires Locks(s.requests[i]) && Locks(s'.requests[i]) && s'.requests[i].slot == s.requests[i].slot
    requires !Builds(s'.requests[i]) ==> s'.requests[i].weight == 0
    requires s'.requests[i].stage != Charged ==> s'.requests[i].charge == 0
    ensures RequestsOk(s') && TableOk(s') && SlotsOk(s')
  {
    forall k | 0 <= k < |s'.slots| ensures SlotOk(s', k) {
      assert SlotOk(s, k);
      GuardCount(s, i, s'.requests[i], k);
      if s.slots[k].live { StillReferenced(s, s', i, k); }
    }
  }

  lemma {:induction false} CountersStep(s: State, s': State, a: Action)
    requires Inv(s) && Enabled(s, a) && s' == Apply(s, a)
    requires a.Permit? || a.Reserve? || a.Charge? || a.Unreserve? || a.Unpermit?
    ensures Inv(s')
  {
    var i := a.i;
    assert s.requests[i].stage != Idle;
    RequestSums(s, i, s'.requests[i]);
    KeepsGuard(s, s', i);
  }

  lemma {:induction false} KeptSum(s: State, k: nat, slot: Slot)
    requires k < |s.slots|
    ensures Sum(s.slots[k := slot], Kept()) + s.slots[k].retained == Sum(s.slots, Kept()) + slot.retained
  {
    SumReplace(s.slots, k, slot, Kept());
  }

  /** A step that keeps the table, every guard and every slot's waiters and life. */
  lemma {:induction false} KeepsSlots(s: State, s': State, i: nat)
    requires Inv(s) && i < |s.requests| == |s'.requests| && s'.requests == s.requests[i := s'.requests[i]]
    requires s'.table == s.table && |s'.slots| == |s.slots|
    requires Guards(s.requests[i]) && Guards(s'.requests[i]) && s'.requests[i].slot == s.requests[i].slot
    requires forall m :: 0 <= m < |s.slots| ==>
               s'.slots[m].waiters == s.slots[m].waiters && s'.slots[m].live == s.slots[m].live
    requires forall m :: 0 <= m < |s.slots| ==> s'.slots[m].retained == s.slots[m].retained || s.slots[m].live
    ensures SlotsOk(s')
  {
    forall m | 0 <= m < |s'.slots| ensures SlotOk(s', m) {
      assert SlotOk(s, m);
      GuardCount(s, i, s'.requests[i], m);
      if s.slots[m].live { StillReferenced(s, s', i, m); }
    }
  }

  lemma {:induction false} LockStep(s: State, s': State, i: nat)
    requires Inv(s) && Enabled(s, Lock(i)) && s' == Apply(s, Lock(i))
    ensures Inv(s')
  {
    RequestSums(s, i, s'.requests[i]);
    KeptSum(s, s.requests[i].slot, s'.slots[s.requests[i].slot]);
    KeepsSlots(s, s', i);
  }

  lemma {:induction false} UnlockStep(s: State, s': State, i: nat)
    requires Inv(s) && Enabled(s, Unlock(i)) && s' == Apply(s, Unlock(i))
    ensures Inv(s')
  {
    RequestSums(s, i, s'.requests[i]);
    KeptSum(s, s.requests[i].slot, s'.slots[s.requests[i].slot]);
    KeepsSlots(s, s', i);
  }

  lemma {:induction false} RetainCounters(s: State, s': State, i: nat)
    requires Inv(s) && Enabled(s, Retain(i)) && s' == Apply(s, Retain(i))
    ensures CountersOk(s')
  {
    hide TableOk;
    hide SlotsOk;
    RequestSums(s, i, s'.requests[i]);
    KeptSum(s, s.requests[i].slot, s'.slots[s.requests[i].slot]);
  }

  lemma {:induction false} RetainStep(s: State, s': State, i: nat)
    requires Inv(s) && Enabled(s, Retain(i)) && s' == Apply(s, Retain(i))
    ensures Inv(s')
  {
    RetainCounters(s, s', i);
    KeepsSlots(s, s', i);
    hide SlotsOk;
    hide CountersOk;
  }

  /** Requests, slots and table refer to each other as they should. */
  ghost predicate LinksOk(s: State) { RequestsOk(s) && TableOk(s) }

  lemma {:induction false} Together(s: State)
    ensures LinksOk(s) && SlotsOk(s) && CountersOk(s) ==> Inv(s)
  {
  }

  lemma {:induction false} EnterKnownLinks(s: State, s': State, a: Action)
    requires Inv(s) && a.Enter? && Enabled(s, a) && s' == Apply(s, a) && a.height in s.table
    ensures LinksOk(s')
  {
    hide SlotsOk;
    hide CountersOk;
  }

  lemma {:induction false} EnterKnownSlots(s: State, s': State, a: Action)
    requires Inv(s) && a.Enter? && Enabled(s, a) && s' == Apply(s, a) && a.height in s.table
    ensures SlotsOk(s')
  {
    hide CountersOk;
    forall m | 0 <= m < |s'.slots| ensures SlotOk(s', m) {
      assert SlotOk(s, m);
      GuardCount(s, a.i, s'.requests[a.i], m);
      if s.slots[m].live { StillReferenced(s, s', a.i, m); }
    }
  }

  lemma {:induction false} EnterKnownCounters(s: State, s': State, a: Action)
    requires Inv(s) && a.Enter? && Enabled(s, a) && s' == Apply(s, a) && a.height in s.table
    ensures CountersOk(s')
  {
    hide TableOk;
    hide SlotsOk;
    var k := s.table[a.height];
    RequestSums(s, a.i, s'.requests[a.i]);
    KeptSum(s, k, s'.slots[k]);
  }

  lemma {:induction false} EnterKnown(s: State, s': State, a: Action)
    requires Inv(s) && a.Enter? && Enabled(s, a) && s' == Apply(s, a) && a.height in s.table
    ensures Inv(s')
  {
    hide *;
    EnterKnownLinks(s, s', a);
    EnterKnownSlots(s, s', a);
    EnterKnownCounters(s, s', a);
    Together(s');
  }

  lemma {:induction false} EnterFreshLinks(s: State, s': State, a: Action)
    requires Inv(s) && a.Enter? && Enabled(s, a) && s' == Apply(s, a) && a.height !in s.table
    ensures LinksOk(s')
  {
    hide SlotsOk;
    hide CountersOk;
  }

  lemma {:induction false} EnterFreshSlots(s: State, s': State, a: Action)
    requires Inv(s) && a.Enter? && Enabled(s, a) && s' == Apply(s, a) && a.height !in s.table
    ensures SlotsOk(s')
  {
    hide CountersOk;
    hide TableOk;
    var i, k := a.i, |s.slots|;
    SumZero(s.requests, GuardsSlot(k));
    forall m | 0 <= m < |s'.slots| ensures SlotOk(s', m) {
      GuardCount(s, i, s'.requests[i], m);
      if m < k {
        assert SlotOk(s, m);
        if s.slots[m].live { StillReferenced(s, s', i, m); }
      } else {
        assert s'.requests[i].slot == m;
      }
    }
  }

  lemma {:induction false} EnterFreshCounters(s: State, s': State, a: Action)
    requires Inv(s) && a.Enter? && Enabled(s, a) && s' == Apply(s, a) && a.height !in s.table
    ensures CountersOk(s')
  {
    hide TableOk;
    hide SlotsOk;
    RequestSums(s, a.i, s'.requests[a.i]);
    SumPush(s.slots, s'.slots[|s.slots|], Kept());
  }

  lemma {:induction false} EnterFresh(s: State, s': State, a: Action)
    requires Inv(s) && a.Enter? && Enabled(s, a) && s' == Apply(s, a) && a.height !in s.table
    ensures Inv(s')
  {
    hide *;
    EnterFreshLinks(s, s', a);
    EnterFreshSlots(s, s', a);
    EnterFreshCounters(s, s', a);
    Together(s');
  }

  lemma {:induction false} LeaveLinks(s: State, s': State, a: Action)
    requires Inv(s) && a.Leave? && Enabled(s, a) && s' == Apply(s, a)
    ensures LinksOk(s')
  {
    hide SlotsOk;
    hide CountersOk;
  }

  lemma {:induction false} LeaveSlots(s: State, s': State, a: Action)
    requires Inv(s) && a.Leave? && Enabled(s, a) && s' == Apply(s, a)
    ensures SlotsOk(s')
  {
    hide CountersOk;
    var i, k := a.i, s.requests[a.i].slot;
    forall m | 0 <= m < |s'.slots| ensures SlotOk(s', m) {
      assert SlotOk(s, m);
      GuardCount(s, i, s'.requests[i], m);
      if m == k {
        assert s'.requests[i].stage != Idle && s'.requests[i].slot == k;
      } else if s.slots[m].live {
        ReferencedElsewhere(s, s', i, m);
      }
    }
  }

  lemma {:induction false} LeaveCounters(s: State, s': State, a: Action)
    requires Inv(s) && a.Leave? && Enabled(s, a) && s' == Apply(s, a)
    ensures CountersOk(s')
  {
    hide TableOk;
    hide SlotsOk;
    var k := s.requests[a.i].slot;
    RequestSums(s, a.i, s'.requests[a.i]);
    KeptSum(s, k, s'.slots[k]);
  }

  lemma {:induction false} LeaveStep(s: State, s': State, a: Action)
    requires Inv(s) && a.Leave? && Enabled(s, a) && s' == Apply(s, a)
    ensures Inv(s')
  {
    hide *;
    LeaveLinks(s, s', a);
    LeaveSlots(s, s', a);
    LeaveCounters(s, s', a);
    Together(s');
  }

  /** Losing the table entry of another slot, or a request's hold on it, does not matter. */
  lemma {:induction false} ReferencedElsewhere(s: State, s': State, i: nat, m: nat)
    requires Referenced(s, m) && i < |s.requests| == |s'.requests| && s.requests[i].slot != m
    requires forall j :: 0 <= j < |s.requests| && j != i ==> s'.requests[j] == s.requests[j]
    requires forall h :: h in s.table && s.table[h] == m ==> h in s'.table && s'.table[h] == m
    ensures Referenced(s', m)
  {
    if h :| h in s.table && s.table[h] == m {
      assert h in s'.table;
    } else {
      var j :| 0 <= j < |s.requests| && s.requests[j].stage != Idle && s.requests[j].slot == m;
      assert s'.requests[j] == s.requests[j];
    }
  }

  /** Nothing refers to the slot once the request lets go of it. */
  predicate LastOut(s: State, i: nat)
    requires i < |s.requests|
  {
    !Referenced(SetRequest(s, i, IDLE), s.requests[i].slot)
  }

  lemma {:induction false} ReleaseLinks(s: State, s': State, a: Action)
    requires Inv(s) && a.Release? && Enabled(s, a) && s' == Apply(s, a)
    ensures LinksOk(s')
  {
    hide SlotsOk;
    hide CountersOk;
    var k := s.requests[a.i].slot;
    if LastOut(s, a.i) {
      assert s.slots[k].waiters == 0;
      forall j | 0 <= j < |s'.requests| && s'.requests[j].stage != Idle ensures s'.requests[j].slot != k {
        assert SetRequest(s, a.i, IDLE).requests[j] == s'.requests[j];
      }
    }
  }

  lemma {:induction false} ReleaseSlots(s: State, s': State, a: Action)
    requires Inv(s) && a.Release? && Enabled(s, a) && s' == Apply(s, a)
    ensures SlotsOk(s')
  {
    hide CountersOk;
    hide TableOk;
    var i, k := a.i, s.requests[a.i].slot;
    forall m | 0 <= m < |s'.slots| ensures SlotOk(s', m) {
      assert SlotOk(s, m);
      GuardCount(s, i, IDLE, m);
      if m != k && s.slots[m].live { ReferencedElsewhere(s, s', i, m); }
    }
  }

  lemma {:induction false} ReleaseCounters(s: State, s': State, a: Action)
    requires Inv(s) && a.Release? && Enabled(s, a) && s' == Apply(s, a)
    ensures CountersOk(s')
  {
    hide TableOk;
    hide SlotsOk;
    var k := s.requests[a.i].slot;
    RequestSums(s, a.i, IDLE);
    KeptSum(s, k, s'.slots[k]);
  }

  lemma {:induction false} ReleaseStep(s: State, s': State, a: Action)
    requires Inv(s) && a.Release? && Enabled(s, a) && s' == Apply(s, a)
    ensures Inv(s')
  {
    hide *;
    ReleaseLinks(s, s', a);
    ReleaseSlots(s, s', a);
    ReleaseCounters(s, s', a);
    Together(s');
  }

  lemma {:induction false} ArriveStep(s: State, s': State)
    requires Inv(s) && s' == Apply(s, Arrive)
    ensures Inv(s')
  {
    SumPush(s.requests, IDLE, Held());
    SumPush(s.requests, IDLE, Rebuilding());
    forall m | 0 <= m < |s'.slots| ensures SlotOk(s', m) {
      assert SlotOk(s, m);
      SumPush(s.requests, IDLE, GuardsSlot(m));
      if s.slots[m].live && !(exists h :: h in s.table && s.table[h] == m) {
        var j :| 0 <= j < |s.requests| && s.requests[j].stage != Idle && s.requests[j].slot == m;
        assert s'.requests[j] == s.requests[j];
      }
    }
  }

  lemma {:induction false} StepKeepsInv(s: State, a: Action)
    requires Inv(s) && Enabled(s, a)
    ensures Inv(Apply(s, a))
  {
    var s' := Apply(s, a);
    match a
    case Arrive => ArriveStep(s, s');
    case Enter(_, h) => if h in s.table { EnterKnown(s, s', a); } else { EnterFresh(s, s', a); }
    case Lock(i) => LockStep(s, s', i);
    case Unlock(i) => UnlockStep(s, s', i);
    case Retain(i) => RetainStep(s, s', i);
    case Leave(_) => LeaveStep(s, s', a);
    case Release(_) => ReleaseStep(s, s', a);
    case _ => CountersStep(s, s', a);
  }

  // ----- Whole runs ---------------------------------------------------------------------------------

  function Empty(limit: nat): State { State(map[], [], [], 0, 0, limit) }

  ghost predicate StepAt(states: seq<State>, actions: seq<Action>, k: nat)
    requires k < |actions| < |states|
  {
    Enabled(states[k], actions[k]) && states[k + 1] == Apply(states[k], actions[k])
  }

  /** From nothing, with a limit on concurrent rebuilds. */
  ghost predicate Run(limit: nat, states: seq<State>, actions: seq<Action>) {
    && |states| == |actions| + 1 && states[0] == Empty(limit)
    && forall k {:trigger StepAt(states, actions, k)} :: 0 <= k < |actions| ==> StepAt(states, actions, k)
  }

  lemma {:induction false} EmptyOk(limit: nat)
    ensures Inv(Empty(limit))
  {
  }

  lemma {:induction false} SameLimit(s: State, a: Action)
    requires Enabled(s, a)
    ensures Apply(s, a).limit == s.limit
  {
  }

  lemma {:induction false} RunKeepsInv(limit: nat, states: seq<State>, actions: seq<Action>, n: nat)
    requires Run(limit, states, actions) && n < |states|
    ensures Inv(states[n]) && states[n].limit == limit
  {
    hide Inv;
    hide Enabled;
    hide Apply;
    if n == 0 {
      EmptyOk(limit);
    } else {
      RunKeepsInv(limit, states, actions, n - 1);
      assert StepAt(states, actions, n - 1);
      StepKeepsInv(states[n - 1], actions[n - 1]);
      SameLimit(states[n - 1], actions[n - 1]);
    }
  }

  /** In every run no more requests than the limit are rebuilding. */
  lemma {:induction false} RebuildsWithinLimit(limit: nat, states: seq<State>, actions: seq<Action>, n: nat)
    requires Run(limit, states, actions) && n < |states|
    ensures Sum(states[n].requests, Rebuilding()) == states[n].rebuilds <= limit
  {
    RunKeepsInv(limit, states, actions, n);
    hide Run;
  }

  /** Nobody else builds and no slot keeps a tree. */
  ghost predicate AloneWithMemory(s: State) {
    && (forall j :: 0 <= j < |s.requests| ==> s.requests[j].weight == 0 && s.requests[j].charge == 0)
    && (forall k :: 0 <= k < |s.slots| ==> s.slots[k].retained == 0)
  }

  /**
   In every run, once a build has reserved its memory the bytes in flight are within the budget the
   cache leaves, unless that build had all the memory to itself.
   */
  lemma {:induction false} ReservedWithinBudget(limit: nat, states: seq<State>, actions: seq<Action>, n: nat)
    requires Run(limit, states, actions) && n < |actions| && actions[n].Reserve?
    ensures states[n + 1].bytes <= actions[n].budget || AloneWithMemory(states[n])
  {
    RunKeepsInv(limit, states, actions, n);
    assert StepAt(states, actions, n);
    hide Run;
    if states[n].bytes == 0 { NoBytes(states[n]); }
  }

  lemma {:induction false} NoBytes(s: State)
    requires CountersOk(s) && s.bytes == 0
    ensures AloneWithMemory(s)
  {
    forall j | 0 <= j < |s.requests| ensures s.requests[j].weight == 0 && s.requests[j].charge == 0 {
      SumAtLeast(s.requests, j, Held());
    }
    forall k | 0 <= k < |s.slots| ensures s.slots[k].retained == 0 { SumAtLeast(s.slots, k, Kept()); }
  }

  /** A height is in the table exactly while some request guards a slot for it, and it is that slot. */
  lemma {:induction false} TableIsLiveGuards(s: State, h: nat)
    requires Inv(s)
    ensures h in s.table <==>
              exists i :: 0 <= i < |s.requests| && Guards(s.requests[i]) && s.slots[s.requests[i].slot].height == h
    ensures forall i :: 0 <= i < |s.requests| && Guards(s.requests[i]) && s.slots[s.requests[i].slot].height == h
              ==> h in s.table && s.requests[i].slot == s.table[h]
  {
    forall i | 0 <= i < |s.requests| && Guards(s.requests[i]) && s.slots[s.requests[i].slot].height == h
      ensures h in s.table && s.requests[i].slot == s.table[h]
    {
      var k := s.requests[i].slot;
      assert SlotOk(s, k);
      SumAtLeast(s.requests, i, GuardsSlot(k));
    }
    if h in s.table {
      var k := s.table[h];
      assert SlotOk(s, k);
      if forall i :: 0 <= i < |s.requests| ==> GuardsSlot(k)(s.requests[i]) == 0 {
        SumZero(s.requests, GuardsSlot(k));
      }
    }
  }

  /** At most one build per height at a time. */
  lemma {:induction false} OneBuildPerHeight(s: State, i: nat, j: nat)
    requires Inv(s) && i < |s.requests| && j < |s.requests|
    requires Locks(s.requests[i]) && Locks(s.requests[j])
    requires s.slots[s.requests[i].slot].height == s.slots[s.requests[j].slot].height
    ensures i == j
  {
    TableIsLiveGuards(s, s.slots[s.requests[i].slot].height);
  }

  /** At rest, the table is empty and both counters are zero: nothing leaks. */
  lemma {:induction false} NothingLeaks(s: State)
    requires Inv(s) && forall i :: 0 <= i < |s.requests| ==> s.requests[i].stage == Idle
    ensures s.table == map[] && s.bytes == 0 && s.rebuilds == 0
  {
    forall h | h in s.table ensures false { TableIsLiveGuards(s, h); }
    SumZero(s.requests, Held());
    SumZero(s.requests, Rebuilding());
    forall k | 0 <= k < |s.slots| ensures s.slots[k].retained == 0 { assert SlotOk(s, k); }
    SumZero(s.slots, Kept());
  }

  /** No counter ever underflows: what a stage is about to give back has been accounted for. */
  lemma {:induction false} NoUnderflow(s: State, i: nat)
    requires Inv(s) && i < |s.requests| && s.requests[i].stage != Idle
    ensures var r := s.requests[i];
            && r.weight + r.charge + s.slots[r.slot].retained <= s.bytes
            && (Permits(r) ==> s.rebuilds >= 1)
            && (Guards(r) ==> s.slots[r.slot].waiters >= 1)
  {
    var r := s.requests[i];
    assert SlotOk(s, r.slot);
    SumAtLeast(s.requests, i, Held());
    SumAtLeast(s.slots, r.slot, Kept());
    SumAtLeast(s.requests, i, Rebuilding());
    SumAtLeast(s.requests, i, GuardsSlot(r.slot));
  }

  /**
   In every run a request gets its rebuild permit exactly if fewer than the limit are rebuilding, and its
   memory exactly if what is held and kept leaves room for it, or is nothing at all.
   */
  lemma {:induction false} AdmittedIff(limit: nat, states: seq<State>, actions: seq<Action>, n: nat, i: nat,
                                       budget: nat, weight: nat)
    requires Run(limit, states, actions) && n < |states| && i < |states[n].requests|
    ensures var s := states[n];
            && (At(s, i, Locked) ==> (Enabled(s, Permit(i)) <==> Sum(s.requests, Rebuilding()) < limit))
            && (At(s, i, Permitted) ==>
                  (Enabled(s, Reserve(i, budget, weight)) <==>
                     AloneWithMemory(s) || Sum(s.requests, Held()) + Sum(s.slots, Kept()) + weight <= budget))
  {
    RunKeepsInv(limit, states, actions, n);
    var s := states[n];
    hide Run;
    if s.bytes == 0 { NoBytes(s); }
    if AloneWithMemory(s) {
      SumZero(s.requests, Held());
      SumZero(s.slots, Kept());
    }
  }

  /** The step by which a request gives back what it took last. */
  function Unwinds(s: State, i: nat): Action
    requires i < |s.requests| && s.requests[i].stage != Idle
  {
    match s.requests[i].stage
    case Leaving => Release(i)
    case Guarding => Leave(i)
    case Locked => Unlock(i)
    case Permitted => Unpermit(i)
    case Building => Unreserve(i)
    case Charged => Retain(i)
  }

  /** In every run a request can always give back what it holds: nobody is ever stuck. */
  lemma {:induction false} AlwaysUnwinds(limit: nat, states: seq<State>, actions: seq<Action>, n: nat, i: nat)
    requires Run(limit, states, actions) && n < |states|
    requires i < |states[n].requests| && states[n].requests[i].stage != Idle
    ensures Enabled(states[n], Unwinds(states[n], i))
  {
    RunKeepsInv(limit, states, actions, n);
    hide Run;
    NoUnderflow(states[n], i);
  }
}
