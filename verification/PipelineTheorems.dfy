/** What holds in every state some run of the pipeline reaches, whatever failed on the way. */
module PipelineTheorems {
  import opened Common
  import opened Redis
  import opened Users
  import opened FeedWorker
  import opened Pipeline
  import opened PipelineSteps

  /** The feed of user u, and every tweet id ever pushed to it, newest first. */
  function Feed(s: State, u: Id): seq<Id> {
    At(s.feeds.lists, FeedKey(u))
  }

  function PushLog(s: State, u: Id): seq<Id> {
    TweetIds(s.feeds.LogAt(FeedKey(u)))
  }

  // ----- the trimmed feed against the untrimmed log -----

  lemma ReachableCache(actions: seq<Action>, u: Id)
    requires Valid(INITIAL, actions)
    ensures Caches(Feed(Exec(INITIAL, actions), u), PushLog(Exec(INITIAL, actions), u))
  {
    InitialInv();
    InvRun(INITIAL, actions);
    assert Cached(Exec(INITIAL, actions).feeds, FeedKey(u));
  }

  /**
   * The trimmed cache refines the untrimmed log: for every interleaving, with any pushes and trims
   * failing, a page inside the first thousand reads what an untrimmed list would have given.
   */
  lemma CacheRefinesLog(actions: seq<Action>, u: Id, offset: nat, limit: nat)
    requires Valid(INITIAL, actions)
    ensures var s := Exec(INITIAL, actions);
            && Feed(s, u) <= PushLog(s, u)
            && |Feed(s, u)| >= Min(FEED_CAP, |PushLog(s, u)|)
            && (offset + limit <= FEED_CAP ==>
                  Window(Feed(s, u), offset, limit) == Window(PushLog(s, u), offset, limit))
  {
    ReachableCache(actions, u);
    var s := Exec(INITIAL, actions);
    if offset + limit <= FEED_CAP {
      CachedWindow(Feed(s, u), PushLog(s, u), offset, limit);
    }
  }

  /**
   * A feed overshoots its cap by at most the handlers between their push and their trim and the pushes
   * left untrimmed since the last applied trim; with neither, it is exactly the newest thousand.
   */
  lemma LengthBound(actions: seq<Action>, u: Id)
    requires Valid(INITIAL, actions)
    ensures var s := Exec(INITIAL, actions);
            && |Feed(s, u)| <= FEED_CAP + |Pending(s.workers, FeedKey(u))| + s.feeds.MissedAt(FeedKey(u))
            && (Pending(s.workers, FeedKey(u)) == {} && s.feeds.MissedAt(FeedKey(u)) == 0 ==>
                  Feed(s, u) == Newest(PushLog(s, u), FEED_CAP))
  {
    InitialInv();
    InvRun(INITIAL, actions);
    var s := Exec(INITIAL, actions);
    assert Bounded(s.feeds, s.workers, FeedKey(u)) && Cached(s.feeds, FeedKey(u));
  }

  lemma {:induction false} LogsOnlyGrow(s: State, actions: seq<Action>, key: string)
    requires Valid(s, actions)
    ensures var before, after := s.feeds.LogAt(key), Exec(s, actions).feeds.LogAt(key);
            |after| >= |before| && after[|after| - |before|..] == before
    decreases actions
  {
    if actions != [] {
      var s' := Do(s, actions[0]);
      if actions[0].Work? {
        LogAfter(s.feeds, actions[0].d, s.workers[actions[0].d], actions[0].op, key);
      }
      LogsOnlyGrow(s', actions[1..], key);
      var log, log', after := s.feeds.LogAt(key), s'.feeds.LogAt(key), Exec(s, actions).feeds.LogAt(key);
      assert after[|after| - |log|..] == after[|after| - |log'|..][|log'| - |log|..];
    }
  }

  lemma PushLogsOnlyGrow(s: State, actions: seq<Action>, u: Id)
    requires Valid(s, actions)
    ensures var log, log' := PushLog(s, u), PushLog(Exec(s, actions), u);
            |log'| >= |log| && log'[|log'| - |log|..] == log
  {
    LogsOnlyGrow(s, actions, FeedKey(u));
  }

  /**
   * Window stability: whatever steps follow, k of them pushes to u's feed, the page that was at
   * `offset` is now at `offset + k`, as long as it still lies within the first thousand.
   */
  lemma WindowStable(before: seq<Action>, actions: seq<Action>, u: Id, offset: nat, limit: nat)
    requires Valid(INITIAL, before) && Valid(Exec(INITIAL, before), actions)
    ensures var s := Exec(INITIAL, before);
            var s' := Exec(s, actions);
            var k := |PushLog(s', u)| - |PushLog(s, u)|;
            && k >= 0
            && (offset + k + limit <= FEED_CAP ==>
                  Window(Feed(s', u), offset + k, limit) == Window(Feed(s, u), offset, limit))
  {
    var s := Exec(INITIAL, before);
    var s' := Exec(s, actions);
    ExecAppend(INITIAL, before, actions);
    ReachableCache(before, u);
    ReachableCache(before + actions, u);
    PushLogsOnlyGrow(s, actions, u);
    var k := |PushLog(s', u)| - |PushLog(s, u)|;
    if offset + k + limit <= FEED_CAP {
      CachedWindow(Feed(s, u), PushLog(s, u), offset, limit);
      CachedWindow(Feed(s', u), PushLog(s', u), offset + k, limit);
      ShiftedWindow(PushLog(s, u), PushLog(s', u), offset, limit);
    }
  }

  lemma ShiftedWindow(log: seq<Id>, log': seq<Id>, offset: nat, limit: nat)
    requires |log'| >= |log| && log'[|log'| - |log|..] == log
    ensures Window(log', offset + (|log'| - |log|), limit) == Window(log, offset, limit)
  {
    var k := |log'| - |log|;
    assert forall i :: 0 <= i < |log| ==> log'[k + i] == log[i];
  }

  // ----- the broker and what an acknowledgement means -----

  /** The ways a message can be with the broker. */
  datatype Place = InQueue | Delivered(d: Tag) | Settled

  ghost predicate IsAt(s: State, m: Id, p: Place) {
    match p
    case InQueue => m in s.broker.ready
    case Delivered(d) => Holds(s.broker, s.workers, d, m)
    case Settled => m in s.broker.settled
  }

  /** Broker conservation: every message published so far is in exactly one place. */
  lemma ExactlyOnePlace(actions: seq<Action>, m: Id)
    requires Valid(INITIAL, actions) && m in Exec(INITIAL, actions).broker.bodies
    ensures exists p :: IsAt(Exec(INITIAL, actions), m, p)
    ensures forall p, q :: IsAt(Exec(INITIAL, actions), m, p) && IsAt(Exec(INITIAL, actions), m, q) ==> p == q
  {
    InitialInv();
    InvRun(INITIAL, actions);
    var s := Exec(INITIAL, actions);
    if m in s.broker.ready {
      assert IsAt(s, m, InQueue);
    } else if m in s.broker.settled {
      assert IsAt(s, m, Settled);
    } else {
      var d: Tag :| Holds(s.broker, s.workers, d, m);
      assert IsAt(s, m, Delivered(d));
    }
  }

  /** Where a message goes in one step, from its place before. */
  function NextPlace(s: State, a: Action, m: Id, p: Place): Place {
    match a
    case Deliver(n) => if n == m then Delivered(|s.workers|) else p
    case Requeue(d) => if p == Delivered(d) then InQueue else p
    case Work(d, op) =>
      if p != Delivered(d) || d >= |s.workers| then p
      else if op.SendAck? then Settled
      else if op.SendNack? || (op.Decode? && !s.workers[d].body.parses) then InQueue
      else p
    case _ => p
  }

  /**
   * How messages move: published into the queue, delivered from it, back by a Nack, a failed decode or a
   * lost channel, and settled only by the Ack of the open delivery. No other step moves a message.
   */
  lemma PlaceAfter(before: seq<Action>, a: Action, m: Id, p: Place)
    requires Valid(INITIAL, before) && Enabled(Exec(INITIAL, before), a)
    ensures var s := Exec(INITIAL, before);
            && (m in s.broker.bodies && IsAt(s, m, p) ==> IsAt(Do(s, a), m, NextPlace(s, a, m, p)))
            && (m !in s.broker.bodies && m in Do(s, a).broker.bodies ==> a.Publish? && IsAt(Do(s, a), m, InQueue))
  {
    InitialInv();
    InvRun(INITIAL, before);
    var s := Exec(INITIAL, before);
    if m in s.broker.bodies && IsAt(s, m, p) {
      MovesTo(s, a, m, p);
    }
  }

  lemma MovesTo(s: State, a: Action, m: Id, p: Place)
    requires Conserved(s.broker, s.workers) && Enabled(s, a) && m in s.broker.bodies && IsAt(s, m, p)
    ensures IsAt(Do(s, a), m, NextPlace(s, a, m, p))
  {
    if p.Delivered? {
      assert Holds(s.broker, s.workers, p.d, m);
    }
  }

  /** Attempt d has pushed to u's feed. */
  ghost predicate Received(s: State, u: Id, d: Tag) {
    InLog(s.feeds.LogAt(FeedKey(u)), d)
  }

  lemma ReceivedPrefix(s: State, d: Tag, j: nat)
    requires Inv(s) && d < |s.workers| && j < |s.workers[d].followers|
    ensures Received(s, s.workers[d].followers[j], d) <==> j < s.workers[d].pushed
  {
    var w := s.workers[d];
    var u := w.followers[j];
    var key := FeedKey(u);
    assert Logged(s.feeds.LogAt(key), s.workers, key) && WorkerOk(w);
    forall i | 0 <= i < |w.followers|
      ensures FeedKey(w.followers[i]) == key <==> i == j
    {
      FeedKeyInjective(w.followers[i], u);
    }
    if j < w.pushed {
      assert PushedTo(w, key);
    }
  }

  /**
   * Within one attempt: a handler that settled negatively pushed to the followers before the failed push,
   * and to that one too exactly when the push was applied and only its reply lost; so to a strict prefix of
   * its list unless the lost push was the last. One that reached its Ack pushed to all.
   */
  lemma AttemptsPushPrefixes(actions: seq<Action>, d: Tag)
    requires Valid(INITIAL, actions) && d < |Exec(INITIAL, actions).workers|
    ensures var s := Exec(INITIAL, actions);
            var w := s.workers[d];
            && w.pushed <= |w.followers|
            && (forall j: nat :: j < |w.followers| ==> (Received(s, w.followers[j], d) <==> j < w.pushed))
            && (w.pc.Nacked? ==>
                  && w.pc.i < |w.followers|
                  && w.pushed == w.pc.i + (if w.pc.lost then 1 else 0)
                  && (w.pushed < |w.followers| <==> !(w.pc.lost && w.pc.i == |w.followers| - 1)))
            && (w.pc.Acked? ==> w.pushed == |w.followers|)
  {
    InitialInv();
    InvRun(INITIAL, actions);
    var s := Exec(INITIAL, actions);
    assert WorkerOk(s.workers[d]);
    forall j: nat | j < |s.workers[d].followers|
      ensures Received(s, s.workers[d].followers[j], d) <==> j < s.workers[d].pushed
    {
      ReceivedPrefix(s, d, j);
    }
  }

  /** Attempt d reached everyone who followed the author when it looked the followers up. */
  ghost predicate ReachedAudience(s: State, d: Tag)
    requires d < |s.workers|
  {
    forall u :: u in s.workers[d].audience ==> Received(s, u, d)
  }

  lemma AckedAttemptReach(s: State, d: Tag)
    requires Inv(s) && d < |s.workers| && s.workers[d].pc.Acked?
    ensures ReachedAudience(s, d) <==> !s.workers[d].fetchFailed || s.workers[d].audience == {}
  {
    var w := s.workers[d];
    assert WorkerOk(w);
    if !w.fetchFailed {
      forall u | u in w.audience
        ensures Received(s, u, d)
      {
        var j :| 0 <= j < |w.followers| && w.followers[j] == u;
        ReceivedPrefix(s, d, j);
      }
    } else if w.audience != {} {
      var u :| u in w.audience;
      var key := FeedKey(u);
      assert !PushedTo(w, key);
      assert Logged(s.feeds.LogAt(key), s.workers, key);
      assert !Received(s, u, d);
    }
  }

  /**
   * No silent loss, and its exact limit: a settled message was acknowledged by some attempt, and an
   * attempt that acknowledged reached its whole audience if and only if its follower fetch had not
   * failed (or nobody followed the author).
   */
  lemma SettledMeansDelivered(actions: seq<Action>, m: Id)
    requires Valid(INITIAL, actions) && m in Exec(INITIAL, actions).broker.settled
    ensures var s := Exec(INITIAL, actions);
            && (exists d: Tag :: AckedFor(s.workers, d, m))
            && (forall d: Tag :: AckedFor(s.workers, d, m) ==>
                  (ReachedAudience(s, d) <==> !s.workers[d].fetchFailed || s.workers[d].audience == {}))
  {
    InitialInv();
    InvRun(INITIAL, actions);
    var s := Exec(INITIAL, actions);
    forall d: Tag | AckedFor(s.workers, d, m)
      ensures ReachedAudience(s, d) <==> !s.workers[d].fetchFailed || s.workers[d].audience == {}
    {
      AckedAttemptReach(s, d);
    }
  }

  /** Only parsed messages are ever settled: any other is requeued before its late acknowledgement. */
  lemma SettledMeansParsed(actions: seq<Action>, m: Id)
    requires Valid(INITIAL, actions) && m in Exec(INITIAL, actions).broker.settled
    ensures var b := Exec(INITIAL, actions).broker; m in b.bodies && b.bodies[m].parses
  {
    InitialInv();
    InvRun(INITIAL, actions);
    var s := Exec(INITIAL, actions);
    var d: Tag :| AckedFor(s.workers, d, m);
  }

  /** Nothing goes wrong in this step: the body parses, the broker keeps its channel, calls succeed. */
  predicate Faultless(a: Action) {
    match a
    case Publish(_, body) => body.parses
    case Requeue(_) => false
    case Unsubscribe => false
    case Work(_, op) => !op.FetchFails? && !(op.Push? && !op.outcome.Pushed?) && !(op.Trim? && !op.applied)
    case _ => true
  }

  /**
   * One failed follower fetch, in a run with no other fault, settles a message without pushing it to the
   * user who followed its author at that very fetch.
   */
  lemma FetchFailureLosesTweet() returns (actions: seq<Action>, s: State)
    ensures Leads(INITIAL, actions, s)
    ensures 0 < |actions| - 2 && actions[|actions| - 2] == Work(0, FetchFails)
    ensures forall i :: 0 <= i < |actions| && i != |actions| - 2 ==> Faultless(actions[i])
    ensures "m" in s.broker.settled && AckedFor(s.workers, 0, "m") && |s.workers| == 1
    ensures s.workers[0].fetchFailed && "b" in s.workers[0].audience && !ReachedAudience(s, 0)
    ensures PushLog(s, "b") == []
  {
    actions, s := DeliveryOpen();
    assert Follow("b", "a") in s.db.follows && Follow("b", "a").follower == "b";
    actions, s := Then(INITIAL, actions, s, Work(0, FetchFails));
    actions, s := Then(INITIAL, actions, s, Work(0, SendAck));
    assert !Received(s, "b", 0);
  }

  /** User b follows a, and the one delivery of a's one tweet has been decoded. */
  lemma DeliveryOpen() returns (actions: seq<Action>, s: State)
    ensures Leads(INITIAL, actions, s) && |actions| == 5 && forall a :: a in actions ==> Faultless(a)
    ensures s.db.follows == {Follow("b", "a")} && s.feeds == INITIAL.feeds
    ensures s.broker == Broker(map["m" := Body(true, Tweet("a", "t"))], {}, {}, {0}, true)
    ensures s.workers == [Worker("m", Body(true, Tweet("a", "t")), [], Fetching, {}, false, 0)]
  {
    assert "a"[0] != "b"[0];
    actions, s := [], INITIAL;
    actions, s := Then(INITIAL, actions, s, UserStep(Registering("a", true)));
    actions, s := Then(INITIAL, actions, s, UserStep(Following("b", "a", true)));
    actions, s := Then(INITIAL, actions, s, Publish("m", Body(true, Tweet("a", "t"))));
    actions, s := Then(INITIAL, actions, s, Deliver("m"));
    actions, s := Then(INITIAL, actions, s, Work(0, Decode));
  }

  /**
   * Sound fan-out, and no self-delivery: every entry ever pushed to u's feed comes from an attempt whose
   * author u followed when the followers were fetched, and never from u's own tweet.
   */
  lemma OnlyFollowedAuthors(actions: seq<Action>, u: Id, i: nat)
    requires Valid(INITIAL, actions) && i < |PushLog(Exec(INITIAL, actions), u)|
    ensures var s := Exec(INITIAL, actions);
            var e := s.feeds.LogAt(FeedKey(u))[i];
            && e.tag < |s.workers| && u in s.workers[e.tag].audience && s.workers[e.tag].Author() != u
            && PushLog(s, u)[i] == s.workers[e.tag].body.tweet.tweetId
  {
    InitialInv();
    InvRun(INITIAL, actions);
    var s := Exec(INITIAL, actions);
    var key := FeedKey(u);
    var e := s.feeds.LogAt(key)[i];
    assert Logged(s.feeds.LogAt(key), s.workers, key);
    var w := s.workers[e.tag];
    var j :| 0 <= j < w.pushed && j < |w.followers| && FeedKey(w.followers[j]) == key;
    FeedKeyInjective(w.followers[j], u);
    assert WorkerOk(w) && w.followers[j] in w.followers;
  }
}
