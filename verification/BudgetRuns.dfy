/**
 Many connections, one response budget: every interleaving of loads, exchanges, refusals, writes,
 rollbacks and drops, with a finite budget.
 */
module BudgetRuns {
  import opened Response
  import opened Sums

  /** Where a connection is: between reservations, or in the exchange loop with the counter it last saw. */
  datatype Place = Ready | Looping(total: nat, seen: int)

  datatype Conn = Conn(granted: nat, len: nat, capacity: nat, place: Place)

  datatype State = State(reserved: int, conns: seq<Conn>)

  datatype Action =
    | Connect(spare: nat)
    | Load(id: nat, total: nat)
    | Exchange(id: nat)
    | Reload(id: nat)
    | Refuse(id: nat)
    | Write(id: nat, len: nat, tail: nat, writerLimit: nat)
    | Truncate(id: nat, len: nat)
    | Discard(id: nat)
    | Recycle(id: nat)
    | Release(id: nat)

  predicate Enabled(limit: nat, s: State, a: Action) {
    if a.Connect? then a.spare <= BUFFER_FLOOR else a.id < |s.conns| && May(limit, s.reserved, s.conns[a.id], a)
  }

  /** A reload happens when the exchange is lost to another connection, or for no reason at all. */
  predicate May(limit: nat, reserved: int, c: Conn, a: Action) {
    match a
    case Load(_, total) => c.place.Ready? && total > c.granted
    case Exchange(_) => c.place.Looping? && c.place.seen == reserved && c.place.total - c.granted <= limit - reserved
    case Reload(_) => c.place.Looping? && c.place.total - c.granted <= limit - c.place.seen
    case Refuse(_) => c.place.Looping? && c.place.total - c.granted > limit - c.place.seen
    case Write(_, len, tail, writerLimit) =>
      c.place.Ready? && c.len < len <= writerLimit && SaturatingSub(len + tail, BUFFER_FLOOR) <= c.granted
    case Truncate(_, len) => c.place.Ready? && len <= c.len
    case Discard(_) => c.place.Ready?
    case Recycle(_) => c.place.Ready?
    case Release(_) => c.place.Ready? && c.capacity <= BUFFER_FLOOR
    case Connect(_) => false
  }

  /** Growth when a write needs more: the floor, or all that is paid for; never past the line's cap. */
  function Grown(c: Conn, len: nat, writerLimit: nat): nat {
    if len <= c.capacity then c.capacity
    else Min(if len <= BUFFER_FLOOR then BUFFER_FLOOR else c.granted + BUFFER_FLOOR, writerLimit)
  }

  function Taken(required: int, available: int): nat {
    if 0 <= required <= available then Grant(required, available) else 0
  }

  function Next(limit: nat, reserved: int, c: Conn, a: Action): Conn
    requires May(limit, reserved, c, a)
  {
    match a
    case Load(_, total) => c.(place := Looping(total, reserved))
    case Exchange(_) => c.(granted := c.granted + Taken(c.place.total - c.granted, limit - reserved), place := Ready)
    case Reload(_) => c.(place := Looping(c.place.total, reserved))
    case Refuse(_) => c.(place := Ready)
    case Write(_, len, _, writerLimit) => c.(len := len, capacity := Grown(c, len, writerLimit))
    case Truncate(_, len) => c.(len := len)
    case Discard(_) => c.(len := 0, capacity := 0)
    case Recycle(_) => c.(len := 0, capacity := if c.capacity > BUFFER_FLOOR then 0 else c.capacity)
    case Release(_) => c.(granted := 0)
  }

  ghost predicate ConnOk(limit: nat, c: Conn) {
    && c.len <= c.capacity <= c.granted + BUFFER_FLOOR
    && (c.place.Looping? ==> c.granted < c.place.total && 0 <= c.place.seen <= limit)
  }

  function Granted(c: Conn): nat { c.granted }

  function Excess(c: Conn): nat { SaturatingSub(c.capacity, BUFFER_FLOOR) }

  /** The counter is the sum of live grants, within the limit, and every buffer is paid for. */
  ghost predicate Inv(limit: nat, s: State) {
    && s.reserved == Sum(s.conns, Granted) && s.reserved <= limit
    && forall i :: 0 <= i < |s.conns| ==> ConnOk(limit, s.conns[i])
  }

  function Apply(limit: nat, s: State, a: Action): State
    requires Enabled(limit, s, a)
  {
    if a.Connect? then State(s.reserved, s.conns + [Conn(0, 0, a.spare, Ready)]) else
    var c := s.conns[a.id];
    var c' := Next(limit, s.reserved, c, a);
    State(s.reserved + (c'.granted - c.granted), s.conns[a.id := c'])
  }

  lemma {:induction false} ConnStep(limit: nat, reserved: int, c: Conn, a: Action)
    requires ConnOk(limit, c) && c.granted <= reserved <= limit && May(limit, reserved, c, a)
    ensures ConnOk(limit, Next(limit, reserved, c, a))
    ensures reserved + (Next(limit, reserved, c, a).granted - c.granted) <= limit
    ensures a.Exchange? ==> Next(limit, reserved, c, a).granted >= c.place.total
  {
  }

  lemma {:induction false} StepKeepsInv(limit: nat, s: State, a: Action)
    requires Inv(limit, s) && Enabled(limit, s, a)
    ensures Inv(limit, Apply(limit, s, a))
  {
    if a.Connect? {
      SumPush(s.conns, Conn(0, 0, a.spare, Ready), Granted);
    } else {
      var c := s.conns[a.id];
      assert ConnOk(limit, c);
      SumAtLeast(s.conns, a.id, Granted);
      ConnStep(limit, s.reserved, c, a);
      SumReplace(s.conns, a.id, Next(limit, s.reserved, c, a), Granted);
    }
  }

  predicate StepAt(limit: nat, states: seq<State>, actions: seq<Action>, k: nat)
    requires k < |actions| && |states| == |actions| + 1
  {
    Enabled(limit, states[k], actions[k]) && states[k + 1] == Apply(limit, states[k], actions[k])
  }

  ghost predicate Run(limit: nat, states: seq<State>, actions: seq<Action>) {
    && |states| == |actions| + 1 && states[0] == State(0, [])
    && forall k {:trigger StepAt(limit, states, actions, k)} :: 0 <= k < |actions| ==> StepAt(limit, states, actions, k)
  }

  /**
   In every run the counter is the sum of the live grants and never exceeds the limit, and every
   buffer is paid for.
   */
  lemma {:induction false} RunKeepsInv(limit: nat, states: seq<State>, actions: seq<Action>, k: nat)
    requires Run(limit, states, actions) && k < |states|
    ensures Inv(limit, states[k])
  {
    if k > 0 {
      RunKeepsInv(limit, states, actions, k - 1);
      assert StepAt(limit, states, actions, k - 1);
      StepKeepsInv(limit, states[k - 1], actions[k - 1]);
    }
  }

  /** In every run all the capacity above the floors is within the budget. */
  lemma {:induction false} CapacityWithinBudget(limit: nat, states: seq<State>, actions: seq<Action>, k: nat)
    requires Run(limit, states, actions) && k < |states|
    ensures Sum(states[k].conns, Excess) <= states[k].reserved <= limit
  {
    RunKeepsInv(limit, states, actions, k);
    var s := states[k];
    forall i | 0 <= i < |s.conns|
      ensures Excess(s.conns[i]) <= Granted(s.conns[i])
    {
      assert ConnOk(limit, s.conns[i]);
    }
    SumAtMost(s.conns, Excess, Granted);
  }

  /** With every connection's grant released, the counter is back to zero. */
  lemma {:induction false} NothingLeaks(limit: nat, states: seq<State>, actions: seq<Action>, k: nat)
    requires Run(limit, states, actions) && k < |states|
    requires forall i :: 0 <= i < |states[k].conns| ==> states[k].conns[i].granted == 0
    ensures states[k].reserved == 0
  {
    RunKeepsInv(limit, states, actions, k);
    SumZero(states[k].conns, Granted);
  }

  /** Connection `id` reads the counter at step `j`, and is as it left that step up to step `k`. */
  ghost predicate ReadsAt(states: seq<State>, actions: seq<Action>, j: nat, k: nat, id: nat) {
    && j < k < |states| && j < |actions| && (actions[j].Load? || actions[j].Reload?) && actions[j].id == id
    && id < |states[k].conns| && id < |states[j + 1].conns| && states[j + 1].conns[id] == states[k].conns[id]
  }

  /** What a connection in the loop last saw is what the counter was at one of its own steps. */
  lemma {:induction false} SeenWasRead(limit: nat, states: seq<State>, actions: seq<Action>, k: nat, id: nat)
    returns (j: nat)
    requires Run(limit, states, actions) && k < |states| && id < |states[k].conns|
    requires states[k].conns[id].place.Looping?
    ensures ReadsAt(states, actions, j, k, id) && states[j].reserved == states[k].conns[id].place.seen
  {
    assert StepAt(limit, states, actions, k - 1);
    var a := actions[k - 1];
    if (a.Load? || a.Reload?) && a.id == id {
      j := k - 1;
    } else {
      j := SeenWasRead(limit, states, actions, k - 1, id);
    }
  }

  /** In every run a refusal has its cause: when the connection last read the counter, what it needs did not fit. */
  lemma {:induction false} RefusedForCause(limit: nat, states: seq<State>, actions: seq<Action>, k: nat)
    returns (j: nat)
    requires Run(limit, states, actions) && k < |actions| && actions[k].Refuse?
    ensures ReadsAt(states, actions, j, k, actions[k].id)
    ensures var c := states[k].conns[actions[k].id];
            c.place.Looping? && states[j].reserved + (c.place.total - c.granted) > limit
  {
    assert StepAt(limit, states, actions, k);
    j := SeenWasRead(limit, states, actions, k, actions[k].id);
  }
}
