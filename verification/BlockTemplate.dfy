/**
 The block template cache: one shared fetch at a time, and templates served only while they are
 current for the index's tip or ahead of it.
 */
module BlockTemplate {
  import opened Wrappers

  type Hash = int

  const TTL := 15
  const FAILURE_BACKOFF := 1

  datatype Tip = Tip(hash: Hash, height: nat)

  /** A template as the daemon gives it: the block it builds on, and its own height. */
  datatype Fetched = Fetched(tip: Hash, height: nat, body: int)

  /** A validated template, with the tip it was validated against. */
  datatype Template = Template(fetched: Fetched, observed: Hash)

  datatype Relation = Current | AheadOfIndex | Stale | Invalid

  /** How a template relates to the index's tip; an error if it contradicts it. */
  function Classify(f: Fetched, tip: Tip): Relation {
    if f.height == 0 then Invalid
    else if f.tip == tip.hash then (if f.height - 1 == tip.height then Current else Invalid)
    else if f.height - 1 > tip.height then AheadOfIndex else Stale
  }

  /** A cached template may be served: fresh, and current for the tip, or ahead of an unmoved one. */
  predicate IsValid(c: Template, age: nat, tip: Tip)
    requires c.fetched.height > 0
  {
    age < TTL && if c.fetched.tip == tip.hash then c.fetched.height - 1 == tip.height
                 else c.fetched.height - 1 > tip.height && c.observed == tip.hash
  }

  /** The template builds on the tip itself, or on a block the index has yet to reach. */
  predicate FitsTip(f: Fetched, tip: Tip) {
    f.height > 0
    && ((f.tip == tip.hash && f.height - 1 == tip.height) || (f.tip != tip.hash && f.height - 1 > tip.height))
  }

  /** The template builds on another block that the index already has a height for. */
  predicate BehindTip(f: Fetched, tip: Tip) { f.height > 0 && f.tip != tip.hash && f.height - 1 <= tip.height }

  /** What a fetch may keep is exactly what fits the tip probed after it; what it may retry is what is behind. */
  lemma {:induction false} KeptFits(f: Fetched, tip: Tip)
    ensures Classify(f, tip).Current? || Classify(f, tip).AheadOfIndex? <==> FitsTip(f, tip)
    ensures Classify(f, tip).Stale? <==> BehindTip(f, tip)
  {
  }

  datatype FetchOutcome = Success(template: Template) | Failure

  /**
   The fetch loop. `answers` are the daemon's, `probes` the tip right after each. At most two
   calls, the second exactly after a stale first; a success fits the tip probed after its call.
   */
  method FetchValidTemplate(answers: nat -> Option<Fetched>, probes: nat -> Tip) returns (r: FetchOutcome, calls: nat)
    ensures 1 <= calls <= 2
    ensures calls == 2 <==> answers(0).Some? && BehindTip(answers(0).value, probes(0))
    ensures r.Success? <==> answers(calls - 1).Some? && FitsTip(answers(calls - 1).value, probes(calls - 1))
    ensures r.Success? ==> r.template == Template(answers(calls - 1).value, probes(calls - 1).hash)
  {
    calls := 0;
    for attempt := 0 to 2
      invariant calls == attempt
      invariant attempt == 1 ==> answers(0).Some? && BehindTip(answers(0).value, probes(0))
      invariant attempt < 2
    {
      var fetched := answers(attempt);
      calls := calls + 1;
      if fetched.None? { return Failure, calls; }
      var observedTip := probes(attempt);
      KeptFits(fetched.value, observedTip);
      var relation := Classify(fetched.value, observedTip);
      if relation.Current? || relation.AheadOfIndex? {
        return Success(Template(fetched.value, observedTip.hash)), calls;
      }
      if relation.Invalid? || attempt == 1 { return Failure, calls; }
    }
    assert false;
  }

  // ----- The machine ------------------------------------------------------------------------------------

  datatype Entry = Empty | Fetching(channel: nat) | Ready(template: Template, at: nat) | Failed(at: nat)

  /** A worker's progress; its channel is its number. It stores the entry, then sends the outcome. */
  datatype Stage =
    | Running(attempt: nat)
    | Finishing(outcome: FetchOutcome)
    | Stored(outcome: FetchOutcome)
    | Sent(outcome: FetchOutcome)
    | Dead

  datatype Worker = Worker(stage: Stage, calls: nat) {
    predicate Busy() { stage.Running? || stage.Finishing? }
  }

  datatype Request =
    | Waiting(channel: nat)
    | Served(template: Template, tip: Tip)
    | Refused
    | Completed(outcome: FetchOutcome)
    | Stopped

  datatype State = State(entry: Entry, workers: seq<Worker>, requests: seq<Request>, now: nat)

  datatype Action =
    | Tick
    | Ask(tip: Tip)
    | Attempt(worker: nat, answer: Option<Fetched>, probe: Tip)
    | Store(worker: nat)
    | Send(worker: nat)
    | Die(worker: nat)
    | Receive(request: nat)

  predicate Enabled(s: State, a: Action) {
    match a
    case Tick => true
    case Ask(_) => true
    case Attempt(i, _, _) => i < |s.workers| && s.workers[i].stage.Running?
    case Store(i) => i < |s.workers| && s.workers[i].stage.Finishing?
    case Send(i) => i < |s.workers| && s.workers[i].stage.Stored?
    case Die(i) => i < |s.workers| && !s.workers[i].stage.Sent? && !s.workers[i].stage.Dead?
    case Receive(r) =>
      && r < |s.requests| && s.requests[r].Waiting? && s.requests[r].channel < |s.workers|
      && (s.workers[s.requests[r].channel].stage.Sent? || s.workers[s.requests[r].channel].stage.Dead?)
  }

  /** After a daemon call and the probe that follows it. */
  function Attempted(attempt: nat, answer: Option<Fetched>, probe: Tip): Stage {
    if answer.None? then Finishing(Failure) else
    match Classify(answer.value, probe)
    case Current => Finishing(Success(Template(answer.value, probe.hash)))
    case AheadOfIndex => Finishing(Success(Template(answer.value, probe.hash)))
    case Stale => if attempt == 0 then Running(1) else Finishing(Failure)
    case Invalid => Finishing(Failure)
  }

  /**
   A worker's calls are those of the fetch loop: it finishes with the template exactly if that fits, tries
   again exactly after a first one that is behind, and else finishes with a failure.
   */
  lemma {:induction false} AttemptedIs(attempt: nat, answer: Option<Fetched>, probe: Tip)
    ensures var r := Attempted(attempt, answer, probe);
            && (r.Running? <==> attempt == 0 && answer.Some? && BehindTip(answer.value, probe))
            && (r.Running? ==> r == Running(1)) && (r.Running? || r.Finishing?)
            && (r.Finishing? ==> (r.outcome.Success? <==> answer.Some? && FitsTip(answer.value, probe)))
            && (r.Finishing? && r.outcome.Success? ==> r.outcome.template == Template(answer.value, probe.hash))
  {
    if answer.Some? { KeptFits(answer.value, probe); }
  }

  /** A request, under the entry's lock: serve, refuse, join the fetch under way, or start one. */
  function Answer(s: State, tip: Tip): State {
    if s.entry.Ready? && s.entry.template.fetched.height > 0 && s.now >= s.entry.at
       && IsValid(s.entry.template, s.now - s.entry.at, tip)
    then s.(requests := s.requests + [Served(s.entry.template, tip)])
    else if s.entry.Failed? && s.now >= s.entry.at && s.now - s.entry.at < FAILURE_BACKOFF
    then s.(requests := s.requests + [Refused])
    else if s.entry.Fetching? then s.(requests := s.requests + [Waiting(s.entry.channel)])
    else State(Fetching(|s.workers|), s.workers + [Worker(Running(0), 0)], s.requests + [Waiting(|s.workers|)], s.now)
  }

  function Apply(s: State, a: Action): State
    requires Enabled(s, a)
  {
    match a
    case Tick => s.(now := s.now + 1)
    case Ask(tip) => Answer(s, tip)
    case Attempt(i, answer, probe) =>
      var w := s.workers[i];
      s.(workers := s.workers[i := Worker(Attempted(w.stage.attempt, answer, probe), w.calls + 1)])
    case Store(i) =>
      var w := s.workers[i];
      s.(workers := s.workers[i := w.(stage := Stored(w.stage.outcome))],
         entry := if w.stage.outcome.Success? then Ready(w.stage.outcome.template, s.now) else Failed(s.now))
    case Send(i) => s.(workers := s.workers[i := s.workers[i].(stage := Sent(s.workers[i].stage.outcome))])
    case Die(i) => s.(workers := s.workers[i := s.workers[i].(stage := Dead)])
    case Receive(r) =>
      var channel := s.requests[r].channel;
      var stage := s.workers[channel].stage;
      if stage.Sent? then s.(requests := s.requests[r := Completed(stage.outcome)])
      else s.(requests := s.requests[r := Stopped], entry := if s.entry == Fetching(channel) then Empty else s.entry)
  }

  // ----- What always holds ----------------------------------------------------------------------------------

  /** The template fitted the tip it was validated against, whose hash it keeps. */
  ghost predicate Validated(t: Template) { exists tip: Tip :: tip.hash == t.observed && FitsTip(t.fetched, tip) }

  ghost predicate GoodOutcome(o: FetchOutcome) { o.Success? ==> Validated(o.template) }

  ghost predicate WorkerOk(s: State, i: nat)
    requires i < |s.workers|
  {
    var w := s.workers[i];
    && (w.Busy() ==> s.entry == Fetching(i)) && w.calls <= 2 && (w.stage.Running? ==> w.calls == w.stage.attempt < 2)
    && (w.stage.Finishing? ==> GoodOutcome(w.stage.outcome))
  }

  ghost predicate RequestOk(s: State, r: Request) {
    match r
    case Waiting(channel) => channel < |s.workers|
    case Served(template, tip) => ServedOk(template, tip)
    case _ => true
  }

  /** Current for the probed tip; or ahead of it, and validated against that very tip. */
  ghost predicate ServedOk(t: Template, tip: Tip) {
    FitsTip(t.fetched, tip) && Validated(t) && (t.fetched.tip != tip.hash ==> t.observed == tip.hash)
  }

  ghost predicate Inv(s: State) {
    && (forall i :: 0 <= i < |s.workers| ==> WorkerOk(s, i))
    && (forall r :: 0 <= r < |s.requests| ==> RequestOk(s, s.requests[r]))
    && (s.entry.Fetching? ==>
          && s.entry.channel < |s.workers|
          && (s.workers[s.entry.channel].Busy() || s.workers[s.entry.channel].stage.Dead?))
    && (s.entry.Ready? ==> Validated(s.entry.template) && s.entry.at <= s.now)
    && (s.entry.Failed? ==> s.entry.at <= s.now)
  }

  lemma {:induction false} AskKeeps(s: State, tip: Tip)
    requires Inv(s)
    ensures Inv(Answer(s, tip))
  {
    var s' := Answer(s, tip);
    forall i | 0 <= i < |s'.workers| ensures WorkerOk(s', i) {
      assert i < |s.workers| ==> WorkerOk(s, i);
    }
  }

  lemma {:induction false} WorkerStepKeeps(s: State, a: Action)
    requires Inv(s) && Enabled(s, a) && (a.Attempt? || a.Store? || a.Send? || a.Die?)
    ensures Inv(Apply(s, a))
  {
    var s' := Apply(s, a);
    assert WorkerOk(s, a.worker);
    forall i | 0 <= i < |s'.workers| ensures WorkerOk(s', i) { assert WorkerOk(s, i); }
    forall r | 0 <= r < |s'.requests| ensures RequestOk(s', s'.requests[r]) { assert RequestOk(s, s.requests[r]); }
  }

  lemma {:induction false} ReceiveKeeps(s: State, a: Action)
    requires Inv(s) && Enabled(s, a) && a.Receive?
    ensures Inv(Apply(s, a))
  {
    var s' := Apply(s, a);
    forall i | 0 <= i < |s'.workers| ensures WorkerOk(s', i) { assert WorkerOk(s, i); }
    forall r | 0 <= r < |s'.requests| ensures RequestOk(s', s'.requests[r]) { assert RequestOk(s, s.requests[r]); }
  }

  lemma {:induction false} StepKeepsInv(s: State, a: Action)
    requires Inv(s) && Enabled(s, a)
    ensures Inv(Apply(s, a))
  {
    match a
    case Tick =>
      forall i | 0 <= i < |s.workers| ensures WorkerOk(Apply(s, a), i) { assert WorkerOk(s, i); }
    case Ask(tip) => AskKeeps(s, tip);
    case Receive(_) => ReceiveKeeps(s, a);
    case _ => WorkerStepKeeps(s, a);
  }

  predicate StepAt(states: seq<State>, actions: seq<Action>, k: nat)
    requires k < |actions| && |states| == |actions| + 1
  {
    Enabled(states[k], actions[k]) && states[k + 1] == Apply(states[k], actions[k])
  }

  ghost predicate Run(states: seq<State>, actions: seq<Action>) {
    && |states| == |actions| + 1 && states[0].entry.Empty? && states[0].workers == [] && states[0].requests == []
    && forall k {:trigger StepAt(states, actions, k)} :: 0 <= k < |actions| ==> StepAt(states, actions, k)
  }

  lemma {:induction false} RunKeepsInv(states: seq<State>, actions: seq<Action>, k: nat)
    requires Run(states, actions) && k < |states|
    ensures Inv(states[k])
  {
    if k > 0 {
      RunKeepsInv(states, actions, k - 1);
      assert StepAt(states, actions, k - 1);
      StepKeepsInv(states[k - 1], actions[k - 1]);
    }
  }

  /** In every run at most one worker is fetching, and none makes more than two daemon calls. */
  lemma {:induction false} OneFetchTwoCalls(states: seq<State>, actions: seq<Action>, k: nat, i: nat, j: nat)
    requires Run(states, actions) && k < |states| && i < |states[k].workers| && j < |states[k].workers|
    ensures states[k].workers[i].Busy() && states[k].workers[j].Busy() ==> i == j
    ensures states[k].workers[i].calls <= 2
  {
    RunKeepsInv(states, actions, k);
    assert WorkerOk(states[k], i) && WorkerOk(states[k], j);
  }

  /** Worker `i` stores this outcome at step `m`. */
  ghost predicate StoresAt(states: seq<State>, actions: seq<Action>, m: nat, i: nat, o: FetchOutcome) {
    && m < |actions| < |states| && actions[m] == Store(i) && i < |states[m].workers|
    && states[m].workers[i].stage == Finishing(o)
  }

  /** Step `j` is the asking of request `r`, about this tip. */
  ghost predicate AskedAt(states: seq<State>, actions: seq<Action>, j: nat, r: nat, tip: Tip) {
    j < |actions| < |states| && actions[j] == Ask(tip) && |states[j].requests| == r
  }

  /** What the entry holds was stored by a worker, at the time it says. */
  lemma {:induction false} EntryStored(states: seq<State>, actions: seq<Action>, k: nat) returns (m: nat, i: nat)
    requires Run(states, actions) && k < |states| && (states[k].entry.Ready? || states[k].entry.Failed?)
    ensures m < k && states[m].now == states[k].entry.at
    ensures StoresAt(states, actions, m, i,
                     if states[k].entry.Ready? then Success(states[k].entry.template) else Failure)
  {
    assert StepAt(states, actions, k - 1);
    if states[k].entry == states[k - 1].entry && !actions[k - 1].Store? {
      m, i := EntryStored(states, actions, k - 1);
    } else {
      m, i := k - 1, actions[k - 1].worker;
    }
  }

  /** A request answered at once was answered when it was asked. */
  lemma {:induction false} AnsweredAsked(states: seq<State>, actions: seq<Action>, k: nat, r: nat)
    returns (j: nat, tip: Tip)
    requires Run(states, actions) && k < |states| && r < |states[k].requests|
    requires states[k].requests[r].Served? || states[k].requests[r].Refused?
    ensures j < k && AskedAt(states, actions, j, r, tip)
    ensures r < |states[j + 1].requests| && states[j + 1].requests[r] == states[k].requests[r]
  {
    assert StepAt(states, actions, k - 1);
    if r < |states[k - 1].requests| {
      j, tip := AnsweredAsked(states, actions, k - 1, r);
    } else {
      j, tip := k - 1, actions[k - 1].tip;
    }
  }

  /**
   In every run a template served from the cache is current for the tip probed for that request, or
   ahead of it and then validated against that very tip; and a worker stored it less than the time to
   live before the request.
   */
  lemma {:induction false} ServedFits(states: seq<State>, actions: seq<Action>, k: nat, r: nat)
    returns (m: nat, i: nat, j: nat)
    requires Run(states, actions) && k < |states| && r < |states[k].requests| && states[k].requests[r].Served?
    ensures ServedOk(states[k].requests[r].template, states[k].requests[r].tip)
    ensures m < j < k && StoresAt(states, actions, m, i, Success(states[k].requests[r].template))
    ensures AskedAt(states, actions, j, r, states[k].requests[r].tip) && states[j].now - states[m].now < TTL
  {
    RunKeepsInv(states, actions, k);
    assert RequestOk(states[k], states[k].requests[r]);
    var tip;
    j, tip := AnsweredAsked(states, actions, k, r);
    assert StepAt(states, actions, j);
    m, i := EntryStored(states, actions, j);
  }

  /** In every run a request is refused only just after a worker stored a failure. */
  lemma {:induction false} RefusedAfterFailure(states: seq<State>, actions: seq<Action>, k: nat, r: nat)
    returns (m: nat, i: nat, j: nat, tip: Tip)
    requires Run(states, actions) && k < |states| && r < |states[k].requests| && states[k].requests[r].Refused?
    ensures m < j < k && StoresAt(states, actions, m, i, Failure)
    ensures AskedAt(states, actions, j, r, tip) && states[j].now - states[m].now < FAILURE_BACKOFF
  {
    j, tip := AnsweredAsked(states, actions, k, r);
    assert StepAt(states, actions, j);
    m, i := EntryStored(states, actions, j);
  }

  /** A worker sends the outcome it stored. */
  lemma {:induction false} SentStored(states: seq<State>, actions: seq<Action>, k: nat, i: nat) returns (m: nat)
    requires Run(states, actions) && k < |states| && i < |states[k].workers|
    requires states[k].workers[i].stage.Stored? || states[k].workers[i].stage.Sent?
    ensures m < k && StoresAt(states, actions, m, i, states[k].workers[i].stage.outcome)
  {
    assert StepAt(states, actions, k - 1);
    if actions[k - 1] == Store(i) {
      m := k - 1;
    } else {
      m := SentStored(states, actions, k - 1, i);
    }
  }

  /** In every run a request that waited to the end has the outcome the worker it waited for stored. */
  lemma {:induction false} CompletedStored(states: seq<State>, actions: seq<Action>, k: nat, r: nat)
    returns (m: nat, i: nat, j: nat)
    requires Run(states, actions) && k < |states| && r < |states[k].requests| && states[k].requests[r].Completed?
    ensures m < j < k && StoresAt(states, actions, m, i, states[k].requests[r].outcome)
    ensures r < |states[j].requests| && states[j].requests[r] == Waiting(i) && actions[j] == Receive(r)
  {
    assert StepAt(states, actions, k - 1);
    if r < |states[k - 1].requests| && states[k - 1].requests[r].Completed? {
      m, i, j := CompletedStored(states, actions, k - 1, r);
    } else {
      j, i := k - 1, states[k - 1].requests[r].channel;
      m := SentStored(states, actions, j, i);
    }
  }

  /** The cached template may be served for this tip. */
  ghost predicate Servable(s: State, tip: Tip) {
    && s.entry.Ready? && s.now < s.entry.at + TTL && FitsTip(s.entry.template.fetched, tip)
    && (s.entry.template.fetched.tip != tip.hash ==> s.entry.template.observed == tip.hash)
  }

  ghost predicate BackingOff(s: State) { s.entry.Failed? && s.now < s.entry.at + FAILURE_BACKOFF }

  /**
   A request gets the cached template exactly if it may be served, and is refused exactly while backing
   off. A fetch starts exactly if neither holds and none is under way; else the workers stay as they are.
   */
  lemma {:induction false} AskIs(s: State, tip: Tip)
    requires Inv(s)
    ensures var s', n := Apply(s, Ask(tip)), |s.requests|;
            && |s'.requests| == n + 1 && s'.requests[..n] == s.requests && s'.now == s.now
            && (s'.requests[n].Served? <==> Servable(s, tip))
            && (Servable(s, tip) ==> s'.requests[n] == Served(s.entry.template, tip))
            && (s'.requests[n].Refused? <==> BackingOff(s))
            && (s.entry.Fetching? ==> s'.requests[n] == Waiting(s.entry.channel))
            && var idle := !s.entry.Fetching? && !Servable(s, tip) && !BackingOff(s);
               && (idle ==> s'.requests[n] == Waiting(|s.workers|) && s'.entry == Fetching(|s.workers|))
               && (idle ==> s'.workers == s.workers + [Worker(Running(0), 0)])
               && (!idle ==> s'.workers == s.workers && s'.entry == s.entry)
  {
    if s.entry.Ready? {
      var t: Tip :| t.hash == s.entry.template.observed && FitsTip(s.entry.template.fetched, t);
    }
  }

  // ----- Nobody waits in vain -------------------------------------------------------------------------------

  /** How many steps a worker may still take. */
  function Rank(w: Worker): nat {
    match w.stage
    case Running(attempt) => if attempt == 0 then 4 else 3
    case Finishing(_) => 2
    case Stored(_) => 1
    case Sent(_) => 0
    case Dead => 0
  }

  predicate ActsOn(a: Action, i: nat) { (a.Attempt? || a.Store? || a.Send? || a.Die?) && a.worker == i }

  /** Every action of a worker lowers its rank; no other action touches it. */
  lemma {:induction false} RankFalls(s: State, a: Action, i: nat)
    requires Inv(s) && Enabled(s, a) && i < |s.workers|
    ensures i < |Apply(s, a).workers|
    ensures ActsOn(a, i) ==> Rank(Apply(s, a).workers[i]) < Rank(s.workers[i])
    ensures !ActsOn(a, i) ==> Apply(s, a).workers[i] == s.workers[i]
  {
    assert WorkerOk(s, i);
  }

  /** The actions of worker `i` from step `j` up to step `k`. */
  function StepsOf(actions: seq<Action>, i: nat, j: nat, k: nat): nat
    requires j <= k <= |actions|
    decreases k
  {
    if j == k then 0 else StepsOf(actions, i, j, k - 1) + if ActsOn(actions[k - 1], i) then 1 else 0
  }

  lemma {:induction false} StepsAreBounded(states: seq<State>, actions: seq<Action>, i: nat, j: nat, k: nat)
    requires Run(states, actions) && j <= k < |states| && i < |states[j].workers|
    ensures i < |states[k].workers|
    ensures StepsOf(actions, i, j, k) + Rank(states[k].workers[i]) <= Rank(states[j].workers[i])
    decreases k
  {
    if j < k {
      StepsAreBounded(states, actions, i, j, k - 1);
      RunKeepsInv(states, actions, k - 1);
      assert StepAt(states, actions, k - 1);
      RankFalls(states[k - 1], actions[k - 1], i);
    }
  }

  /** A worker's next action, while it has one. */
  function NextOf(s: State, i: nat): Action
    requires i < |s.workers|
  {
    match s.workers[i].stage
    case Running(_) => Attempt(i, None, Tip(0, 0))
    case Finishing(_) => Store(i)
    case Stored(_) => Send(i)
    case _ => Tick
  }

  /**
   In every run a waiting request can be finished after at most four actions of its worker: until
   then the worker always has one to take, and once it has none the request can receive.
   */
  lemma {:induction false} WaitIsBounded(states: seq<State>, actions: seq<Action>, j: nat, k: nat, r: nat)
    requires Run(states, actions) && j <= k < |states| && r < |states[j].requests| && r < |states[k].requests|
    requires states[j].requests[r].Waiting? && states[k].requests[r] == states[j].requests[r]
    ensures var i := states[j].requests[r].channel;
            && i < |states[j].workers| && i < |states[k].workers|
            && StepsOf(actions, i, j, k) + Rank(states[k].workers[i]) <= Rank(states[j].workers[i]) <= 4
            && (Rank(states[k].workers[i]) > 0 ==>
                  Enabled(states[k], NextOf(states[k], i)) && ActsOn(NextOf(states[k], i), i))
            && (Rank(states[k].workers[i]) == 0 <==> Enabled(states[k], Receive(r)))
  {
    RunKeepsInv(states, actions, j);
    RunKeepsInv(states, actions, k);
    assert RequestOk(states[j], states[j].requests[r]);
    var i := states[j].requests[r].channel;
    assert WorkerOk(states[j], i);
    StepsAreBounded(states, actions, i, j, k);
    assert WorkerOk(states[k], i);
  }

  /**
   An entry left behind by a dead worker is cleared: whoever asks next joins that channel, can receive
   at once, and on receiving empties the entry, so that the request after that starts a new fetch.
   */
  lemma {:induction false} DeadFetchIsCleared(s: State, tip: Tip, later: Tip)
    requires Inv(s) && s.entry.Fetching? && s.workers[s.entry.channel].stage.Dead?
    ensures var asked := Answer(s, tip);
            && asked.requests == s.requests + [Waiting(s.entry.channel)] && asked.workers == s.workers
            && Enabled(asked, Receive(|s.requests|))
            && var received := Apply(asked, Receive(|s.requests|));
               && received.entry == Empty && received.requests[|s.requests|] == Stopped
               && Answer(received, later).entry == Fetching(|s.workers|)
               && |Answer(received, later).workers| == |s.workers| + 1
  {
  }
}
