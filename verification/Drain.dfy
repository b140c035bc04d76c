/**
 * Redelivery comes to an end: with finitely many failures, every schedule comes to rest, with the queue
 * empty or with no worker process subscribed to it any more.
 */
module Drain {
  import opened Common
  import opened Redis
  import opened Users
  import opened FeedWorker
  import opened Pipeline
  import opened PipelineSteps
  import opened PipelineTheorems

  /** Steps from outside the workers, and steps that fail: each is paid for from a finite budget. */
  predicate Costs(a: Action) {
    match a
    case Publish(_, _) => true
    case UserStep(_) => true
    case Requeue(_) => true
    case Unsubscribe => true
    case Subscribe => true
    case Deliver(_) => false
    case Work(_, op) => op.Push? && !op.outcome.Pushed?
  }

  ghost predicate Allowed(s: State, a: Action, budget: nat) {
    Enabled(s, a) && (Costs(a) ==> budget > 0) && (a.Publish? ==> a.body.parses)
  }

  function Left(a: Action, budget: nat): nat
    requires Costs(a) ==> budget > 0
  {
    if Costs(a) then budget - 1 else budget
  }

  ghost predicate AllParse(s: State) {
    && (forall m :: m in s.broker.bodies ==> s.broker.bodies[m].parses)
    && (forall d: Tag :: d < |s.workers| ==> s.workers[d].body.parses)
  }

  ghost predicate Good(s: State) {
    Inv(s) && AllParse(s)
  }

  predicate Unfinished(ws: seq<Worker>, d: Tag) {
    d < |ws| && !ws[d].pc.Acked? && !ws[d].pc.Nacked?
  }

  /** Nothing queued, nothing in flight, every message settled. */
  ghost predicate Drained(s: State) {
    && s.broker.ready == {} && s.broker.outstanding == {}
    && s.broker.settled == s.broker.bodies.Keys
    && forall d: Tag :: !Unfinished(s.workers, d)
  }

  /** Nothing in flight, every message settled or queued, and none queued while some process is subscribed. */
  ghost predicate AtRest(s: State) {
    && s.broker.outstanding == {} && (forall d: Tag :: !Unfinished(s.workers, d))
    && s.broker.ready + s.broker.settled == s.broker.bodies.Keys
    && (s.broker.listening ==> s.broker.ready == {})
  }

  // ----- the measure -----

  function Sum(ws: seq<Worker>, weight: Worker -> nat): nat {
    if ws == [] then 0 else weight(ws[0]) + Sum(ws[1..], weight)
  }

  lemma {:induction false} SumUpdate(ws: seq<Worker>, weight: Worker -> nat, d: Tag, w: Worker)
    requires d < |ws|
    ensures Sum(ws[d := w], weight) == Sum(ws, weight) - weight(ws[d]) + weight(w)
  {
    if d == 0 {
      assert ws[d := w][1..] == ws[1..];
    } else {
      assert ws[d := w][1..] == ws[1..][d - 1 := w];
      SumUpdate(ws[1..], weight, d - 1, w);
    }
  }

  lemma {:induction false} SumAppend(ws: seq<Worker>, weight: Worker -> nat, w: Worker)
    ensures Sum(ws + [w], weight) == Sum(ws, weight) + weight(w)
  {
    if ws == [] {
      assert ws + [w] == [w] && [w][1..] == [];
    } else {
      assert (ws + [w])[1..] == ws[1..] + [w];
      SumAppend(ws[1..], weight, w);
    }
  }

  function Returning(w: Worker): nat {
    if w.pc.Failed? then 1 else 0
  }

  function Unfetched(w: Worker): nat {
    if w.pc.Decoding? then 2 else if w.pc.Fetching? then 1 else 0
  }

  /** Steps left in the fan-out loop and the final settlement. */
  function StepsLeft(w: Worker): nat {
    var n := |w.followers|;
    match w.pc
    case Pushing(i) => if i <= n then 2 * (n - i) + 1 else 0
    case Trimming(i) => if i <= n then 2 * (n - i) else 0
    case Failed(_, _) => 1
    case Acking => 1
    case _ => 0
  }

  /** Failures and outside events left, messages still to be delivered, lists to fetch, loop steps. */
  datatype Measure = Measure(budget: nat, queued: nat, unfetched: nat, steps: nat)

  function MeasureOf(s: State, budget: nat): Measure {
    Measure(budget, |s.broker.ready| + Sum(s.workers, Returning), Sum(s.workers, Unfetched), Sum(s.workers, StepsLeft))
  }

  predicate Below(x: Measure, y: Measure) {
    || x.budget < y.budget
    || (x.budget == y.budget && x.queued < y.queued)
    || (x.budget == y.budget && x.queued == y.queued && x.unfetched < y.unfetched)
    || (x.budget == y.budget && x.queued == y.queued && x.unfetched == y.unfetched && x.steps < y.steps)
  }

  /** What a free step does to the handler's own weights. */
  lemma OpWeights(w: Worker, op: Op, db: UserDb)
    requires WorkerOk(w) && Ready(w, op, db) && !(op.Push? && !op.outcome.Pushed?)
    ensures var w' := Advance(w, op, db);
            if op.SendNack? then
              Returning(w') + 1 == Returning(w) && Unfetched(w') == Unfetched(w) && StepsLeft(w') < StepsLeft(w)
            else
              && Returning(w') == Returning(w)
              && (Unfetched(w') < Unfetched(w) || (Unfetched(w') == Unfetched(w) && StepsLeft(w') < StepsLeft(w)))
  {
  }

  lemma WorkDescends(s: State, d: Tag, op: Op, budget: nat)
    requires WorkersOk(s.workers) && AllParse(s) && Enabled(s, Work(d, op)) && !Costs(Work(d, op))
    ensures Below(MeasureOf(Do(s, Work(d, op)), budget), MeasureOf(s, budget))
  {
    var w := s.workers[d];
    var w' := Advance(w, op, s.db);
    SumUpdate(s.workers, Returning, d, w');
    SumUpdate(s.workers, Unfetched, d, w');
    SumUpdate(s.workers, StepsLeft, d, w');
    OpWeights(w, op, s.db);
    ReadyAfter(s.broker, d, w, op);
  }

  lemma ReadyAfter(b: Broker, d: Tag, w: Worker, op: Op)
    requires w.body.parses
    ensures |BrokerAfter(b, d, w, op).ready| <= |b.ready| + if op.SendNack? then 1 else 0
  {
  }

  lemma DeliverDescends(s: State, m: Id, budget: nat)
    requires Enabled(s, Deliver(m))
    ensures Below(MeasureOf(Do(s, Deliver(m)), budget), MeasureOf(s, budget))
  {
    SumAppend(s.workers, Returning, Do(s, Deliver(m)).workers[|s.workers|]);
    RemoveOne(s.broker.ready, m);
  }

  lemma AllParseStep(s: State, a: Action)
    requires AllParse(s) && Enabled(s, a) && (a.Publish? ==> a.body.parses)
    ensures AllParse(Do(s, a))
  {
  }

  /** Every allowed step takes the measure down, free steps within the same budget. */
  lemma StepDescends(s: State, a: Action, budget: nat)
    requires WorkersOk(s.workers) && AllParse(s) && Allowed(s, a, budget)
    ensures Below(MeasureOf(Do(s, a), Left(a, budget)), MeasureOf(s, budget))
  {
    if !Costs(a) {
      if a.Work? {
        WorkDescends(s, a.d, a.op, budget);
      } else {
        DeliverDescends(s, a.msg, budget);
      }
    }
  }

  lemma GoodStep(s: State, a: Action, budget: nat)
    requires Good(s) && Allowed(s, a, budget)
    ensures Good(Do(s, a))
    ensures Below(MeasureOf(Do(s, a), Left(a, budget)), MeasureOf(s, budget))
  {
    InvStep(s, a);
    AllParseStep(s, a);
    StepDescends(s, a, budget);
  }

  // ----- termination and progress -----

  function Tail(schedule: nat -> Action): nat -> Action {
    (k: nat) => schedule(k + 1)
  }

  /** The first n choices of the schedule are allowed one after the other. */
  ghost predicate Admits(s: State, schedule: nat -> Action, budget: nat, n: nat)
    decreases n
  {
    n == 0 ||
    (Allowed(s, schedule(0), budget)
     && Admits(Do(s, schedule(0)), Tail(schedule), Left(schedule(0), budget), n - 1))
  }

  /** No schedule runs forever on a finite budget of failures and outside events. */
  lemma {:induction false} NoEndlessRun(s: State, schedule: nat -> Action, budget: nat)
    requires Good(s)
    ensures exists n: nat :: !Admits(s, schedule, budget, n)
    decreases budget, MeasureOf(s, budget).queued, MeasureOf(s, budget).unfetched, MeasureOf(s, budget).steps
  {
    if Allowed(s, schedule(0), budget) {
      GoodStep(s, schedule(0), budget);
      var s', later, left := Do(s, schedule(0)), Tail(schedule), Left(schedule(0), budget);
      NoEndlessRun(s', later, left);
      var n: nat :| !Admits(s', later, left, n);
      assert !Admits(s, schedule, budget, n + 1);
    } else {
      assert !Admits(s, schedule, budget, 1);
    }
  }

  lemma AtRestOrBusy(s: State)
    requires Conserved(s.broker, s.workers)
    ensures AtRest(s) || (s.broker.listening && s.broker.ready != {}) || exists d: Tag :: Unfinished(s.workers, d)
  {
    if forall d: Tag :: !Unfinished(s.workers, d) {
      assert forall d: Tag :: d in s.broker.outstanding ==> Unfinished(s.workers, d);
      assert s.broker.outstanding == {};
      assert forall m :: !Unacked(s.broker, s.workers, m);
      assert s.broker.ready + s.broker.settled == s.broker.bodies.Keys;
    }
  }

  predicate Fetches(a: Action) {
    a.Work? ==> !a.op.FetchFails?
  }

  /** An unfinished handler has a next operation that meets no failure; its follower fetch can succeed. */
  lemma NextOp(s: State, d: Tag) returns (op: Op)
    requires WorkersOk(s.workers) && Unfinished(s.workers, d)
    ensures Allowed(s, Work(d, op), 0) && Fetches(Work(d, op))
  {
    var w := s.workers[d];
    assert WorkerOk(w);
    var followers := FollowerListExists(s.db, w.Author());
    op := match w.pc
      case Decoding => Decode
      case Fetching => Fetch(followers)
      case Pushing(_) => Push(Pushed)
      case Trimming(_) => Trim(true)
      case Failed(_, _) => SendNack
      case _ => SendAck;
  }

  /**
   * The workers are never stuck before they are at rest: some step that costs nothing is possible, and it
   * need not be a failing follower fetch. A queued message needs a subscribed process to go on.
   */
  lemma Progress(s: State)
    requires Conserved(s.broker, s.workers) && WorkersOk(s.workers) && !AtRest(s)
    ensures exists a :: Allowed(s, a, 0) && Fetches(a)
  {
    AtRestOrBusy(s);
    if s.broker.listening && s.broker.ready != {} {
      var m :| m in s.broker.ready;
      assert Allowed(s, Deliver(m), 0) && Fetches(Deliver(m));
    } else {
      var d: Tag :| Unfinished(s.workers, d);
      var op := NextOp(s, d);
      assert Allowed(s, Work(d, op), 0) && Fetches(Work(d, op));
    }
  }

  /** Every action is the picker's choice in its state and allowed there, the budget being spent as it goes. */
  ghost predicate Follows(s: State, pick: (State, nat) -> Action, budget: nat, actions: seq<Action>)
    decreases actions
  {
    actions == [] ||
    (&& !AtRest(s) && actions[0] == pick(s, budget) && Allowed(s, actions[0], budget)
     && Follows(Do(s, actions[0]), pick, Left(actions[0], budget), actions[1..]))
  }

  /** The picker always has an allowed choice while something is left to do. */
  ghost predicate Keeps(pick: (State, nat) -> Action) {
    forall t: State, b: nat :: Good(t) && !AtRest(t) ==> Allowed(t, pick(t, b), b)
  }

  predicate StaysSubscribed(s: State, actions: seq<Action>) {
    s.broker.listening && forall a :: a in actions ==> !a.Unsubscribe?
  }

  lemma {:induction false} StillListening(s: State, actions: seq<Action>)
    requires StaysSubscribed(s, actions) && Valid(s, actions)
    ensures Exec(s, actions).broker.listening
    decreases actions
  {
    if actions != [] {
      StillListening(Do(s, actions[0]), actions[1..]);
    }
  }

  /**
   * Redelivery terminates: whatever allowed step is picked at each moment, as long as something is left
   * to do, the run those picks make is finite and ends at rest: every message settled, or no process
   * subscribed any more and each message settled or queued. The former if the subscription is never lost.
   */
  lemma {:induction false} EveryScheduleDrains(s: State, pick: (State, nat) -> Action, budget: nat)
      returns (actions: seq<Action>)
    requires Good(s) && Keeps(pick)
    ensures Follows(s, pick, budget, actions)
    ensures Valid(s, actions) && AtRest(Exec(s, actions))
    ensures Drained(Exec(s, actions)) || !Exec(s, actions).broker.listening
    ensures StaysSubscribed(s, actions) ==> Drained(Exec(s, actions))
    decreases budget, MeasureOf(s, budget).queued, MeasureOf(s, budget).unfetched, MeasureOf(s, budget).steps
  {
    if AtRest(s) {
      actions := [];
    } else {
      var a := pick(s, budget);
      GoodStep(s, a, budget);
      var rest := EveryScheduleDrains(Do(s, a), pick, Left(a, budget));
      actions := [a] + rest;
      assert actions[1..] == rest;
    }
    if StaysSubscribed(s, actions) {
      StillListening(s, actions);
    }
  }

  /** A good message is queued behind an unparsable one, whose handler has requeued it and goes on. */
  lemma BadDeliveryDecoded() returns (actions: seq<Action>, s: State)
    ensures Leads(INITIAL, actions, s)
    ensures actions == [Publish("x", Body(false, Tweet("a", ""))), Publish("m", Body(true, Tweet("a", "t"))),
                        Deliver("x"), Work(0, Decode)]
    ensures s.workers == [Worker("x", Body(false, Tweet("a", "")), [], Fetching, {}, false, 0)] && s.db == EMPTY
    ensures s.broker == Broker(map["x" := Body(false, Tweet("a", "")), "m" := Body(true, Tweet("a", "t"))],
                               {"x", "m"}, {}, {}, true)
  {
    assert "x"[0] != "m"[0];
    actions, s := [], INITIAL;
    actions, s := Then(INITIAL, actions, s, Publish("x", Body(false, Tweet("a", ""))));
    actions, s := Then(INITIAL, actions, s, Publish("m", Body(true, Tweet("a", "t"))));
    actions, s := Then(INITIAL, actions, s, Deliver("x"));
    actions, s := Then(INITIAL, actions, s, Work(0, Decode));
  }

  /**
   * One unparsable message strands the rest: its late acknowledgement is a second settlement, for which the
   * broker closes the channel; the process does not subscribe again and a good message stays queued.
   */
  lemma LostChannelStrands() returns (actions: seq<Action>, s: State)
    ensures Leads(INITIAL, actions, s) && AtRest(s) && !Drained(s)
    ensures actions == [Publish("x", Body(false, Tweet("a", ""))), Publish("m", Body(true, Tweet("a", "t"))),
                        Deliver("x"), Work(0, Decode), Work(0, Fetch([])), Work(0, SendAck), Unsubscribe]
    ensures s.broker.ready == {"x", "m"} && s.broker.settled == {} && !s.broker.listening
  {
    assert "x"[0] != "m"[0];
    actions, s := BadDeliveryDecoded();
    actions, s := Then(INITIAL, actions, s, Work(0, Fetch([])));
    actions, s := Then(INITIAL, actions, s, Work(0, SendAck));
    actions, s := Then(INITIAL, actions, s, Unsubscribe);
  }

  /** At rest with messages queued is not the end: one process started, and each can be delivered again. */
  lemma SubscribeResumes(before: seq<Action>, m: Id)
    requires Valid(INITIAL, before) && AtRest(Exec(INITIAL, before)) && m in Exec(INITIAL, before).broker.ready
    ensures var s := Exec(INITIAL, before);
            && !s.broker.listening && !Enabled(s, Deliver(m))
            && Enabled(s, Subscribe) && !AtRest(Do(s, Subscribe)) && Enabled(Do(s, Subscribe), Deliver(m))
  {
    InitialInv();
    InvRun(INITIAL, before);
  }

  // ----- what is delivered at rest -----

  /** The step is not a failed follower fetch of an attempt at m. */
  predicate FetchesFor(s: State, a: Action, m: Id) {
    a.Work? && a.op.FetchFails? && a.d < |s.workers| ==> s.workers[a.d].msg != m
  }

  ghost predicate AlwaysFetches(s: State, actions: seq<Action>, m: Id)
    requires Valid(s, actions)
    decreases actions
  {
    actions == [] || (FetchesFor(s, actions[0], m) && AlwaysFetches(Do(s, actions[0]), actions[1..], m))
  }

  ghost predicate NoneFailed(ws: seq<Worker>, m: Id) {
    forall d: Tag :: d < |ws| && ws[d].msg == m ==> !ws[d].fetchFailed
  }

  lemma NoneFailedStep(s: State, a: Action, m: Id)
    requires NoneFailed(s.workers, m) && Enabled(s, a) && FetchesFor(s, a, m)
    ensures NoneFailed(Do(s, a).workers, m)
  {
  }

  lemma {:induction false} NoFetchFailed(s: State, actions: seq<Action>, m: Id)
    requires Valid(s, actions) && AlwaysFetches(s, actions, m) && NoneFailed(s.workers, m)
    ensures NoneFailed(Exec(s, actions).workers, m)
    decreases actions
  {
    if actions != [] {
      NoneFailedStep(s, actions[0], m);
      NoFetchFailed(Do(s, actions[0]), actions[1..], m);
    }
  }

  /**
   * At least once: when no attempt at a message failed its follower fetch and the message is settled, it
   * was pushed, by one single attempt, to everyone who followed its author when that attempt looked.
   */
  lemma AtLeastOnce(actions: seq<Action>, m: Id)
    requires Valid(INITIAL, actions) && AlwaysFetches(INITIAL, actions, m)
    requires m in Exec(INITIAL, actions).broker.settled
    ensures var s := Exec(INITIAL, actions);
            exists d: Tag :: AckedFor(s.workers, d, m) && ReachedAudience(s, d)
  {
    NoFetchFailed(INITIAL, actions, m);
    SettledMeansDelivered(actions, m);
  }

  lemma {:induction false} FetchingRuns(s: State, actions: seq<Action>, m: Id)
    requires Valid(s, actions) && forall a :: a in actions ==> Fetches(a)
    ensures AlwaysFetches(s, actions, m)
    decreases actions
  {
    if actions != [] {
      assert Fetches(actions[0]);
      FetchingRuns(Do(s, actions[0]), actions[1..], m);
    }
  }

  /** The picker's choices never fail a follower fetch. */
  ghost predicate NeverFailsFetch(pick: (State, nat) -> Action) {
    forall t: State, b: nat :: Good(t) && !AtRest(t) ==> Fetches(pick(t, b))
  }

  lemma FirstFetches(s: State, pick: (State, nat) -> Action, budget: nat, actions: seq<Action>)
    requires Good(s) && NeverFailsFetch(pick) && Follows(s, pick, budget, actions) && actions != []
    ensures Fetches(actions[0])
  {
  }

  lemma {:induction false} FollowedFetches(s: State, pick: (State, nat) -> Action, budget: nat, actions: seq<Action>)
    requires Good(s) && NeverFailsFetch(pick) && Follows(s, pick, budget, actions)
    ensures forall a :: a in actions ==> Fetches(a)
    decreases actions
  {
    if actions != [] {
      GoodStep(s, actions[0], budget);
      FollowedFetches(Do(s, actions[0]), pick, Left(actions[0], budget), actions[1..]);
      FirstFetches(s, pick, budget, actions);
      forall a | a in actions
        ensures Fetches(a)
      {
        assert a == actions[0] || a in actions[1..];
      }
    }
  }

  /** A step of a run from outside: its body, if any, parses, and it is not a failed fetch. */
  predicate Sane(a: Action) {
    Fetches(a) && (a.Publish? ==> a.body.parses)
  }

  lemma {:induction false} SaneRunsParse(s: State, actions: seq<Action>)
    requires AllParse(s) && Valid(s, actions) && forall a :: a in actions ==> Sane(a)
    ensures AllParse(Exec(s, actions))
    decreases actions
  {
    if actions != [] {
      assert Sane(actions[0]);
      AllParseStep(s, actions[0]);
      SaneRunsParse(Do(s, actions[0]), actions[1..]);
    }
  }

  /**
   * Everything is delivered: from any state reached by parsable messages and successful fetches, with any
   * finite budget of push failures, lost channels and outside events, every picker that fails no fetch ends
   * at rest with each settled message pushed by one attempt to the whole audience it found. That is every
   * message, unless the last subscription was lost; then the others are all still queued.
   */
  lemma EveryScheduleDelivers(before: seq<Action>, pick: (State, nat) -> Action, budget: nat)
      returns (actions: seq<Action>)
    requires Valid(INITIAL, before) && forall a :: a in before ==> Sane(a)
    requires Keeps(pick) && NeverFailsFetch(pick)
    ensures Valid(INITIAL, before) && Follows(Exec(INITIAL, before), pick, budget, actions)
    ensures Valid(INITIAL, before + actions) && AtRest(Exec(INITIAL, before + actions))
    ensures var s := Exec(INITIAL, before + actions);
            && (Drained(s) || !s.broker.listening)
            && (StaysSubscribed(Exec(INITIAL, before), actions) ==> Drained(s))
            && forall m :: m in s.broker.bodies ==>
                 || (m in s.broker.ready && !s.broker.listening)
                 || exists d: Tag :: AckedFor(s.workers, d, m) && ReachedAudience(s, d)
  {
    InitialInv();
    InvRun(INITIAL, before);
    SaneRunsParse(INITIAL, before);
    var mid := Exec(INITIAL, before);
    actions := EveryScheduleDrains(mid, pick, budget);
    FollowedFetches(mid, pick, budget, actions);
    ExecAppend(INITIAL, before, actions);
    var s := Exec(INITIAL, before + actions);
    forall m | m in s.broker.settled
      ensures exists d: Tag :: AckedFor(s.workers, d, m) && ReachedAudience(s, d)
    {
      FetchingRuns(INITIAL, before + actions, m);
      AtLeastOnce(before + actions, m);
    }
  }

  /** Some free step that fails no fetch, while there is one. */
  ghost function Proceed(s: State): Action {
    if exists a :: Allowed(s, a, 0) && Fetches(a) then
      var a :| Allowed(s, a, 0) && Fetches(a); a
    else Deliver("")
  }

  /** Such pickers exist: one that takes free steps only needs no budget at all. */
  lemma ProceedKeepsGoing()
    ensures var pick := (s: State, b: nat) => Proceed(s);
            Keeps(pick) && NeverFailsFetch(pick)
  {
    forall s: State | Good(s) && !AtRest(s)
      ensures Allowed(s, Proceed(s), 0) && Fetches(Proceed(s))
    {
      Progress(s);
    }
    FreeIsAllowed();
  }

  lemma FreeIsAllowed()
    ensures forall s: State, a: Action, b: nat :: Allowed(s, a, 0) ==> Allowed(s, a, b)
  {
  }
}
