/** Particular schedules of the pipeline: the handler running undisturbed, and the longest feeds. */
module Schedules {
  import opened Common
  import opened Redis
  import opened Users
  import opened FeedWorker
  import opened Pipeline
  import opened PipelineSteps
  import opened PipelineTheorems

  // ----- the handler by itself -----

  ghost predicate OnlyBy(actions: seq<Action>, d: Tag) {
    forall a :: a in actions ==> a.Work? && a.d == d
  }

  lemma Join(s: State, first: seq<Action>, mid: State, second: seq<Action>, end: State)
    requires Leads(s, first, mid) && Leads(mid, second, end)
    ensures Leads(s, first + second, end)
  {
    ExecAppend(s, first, second);
  }

  lemma One(s: State, d: Tag, op: Op) returns (s': State)
    requires Enabled(s, Work(d, op))
    ensures s' == Do(s, Work(d, op)) && Leads(s, [Work(d, op)], s')
  {
    s' := Do(s, Work(d, op));
    assert [Work(d, op)][1..] == [];
  }

  /** Where the handler ends, given where its loop stopped. */
  function EndOf(stoppedAt: Option<nat>, net: Net): Pc {
    if stoppedAt.None? then Acked else Nacked(stoppedAt.value, net.push(stoppedAt.value).Lost?)
  }

  /** The broker after the final settlement of delivery d. */
  function Answered(b: Broker, d: Tag, msg: Id, stoppedAt: Option<nat>): Broker {
    if stoppedAt.None? then Confirmed(b, d, msg) else TakenBack(b, d, msg)
  }

  /** One confirmed round of the loop. */
  lemma Round(s: State, d: Tag, applied: bool) returns (actions: seq<Action>, s': State)
    requires d < |s.workers| && s.workers[d].pc.Pushing? && s.workers[d].AtFollower()
    ensures Leads(s, actions, s') && OnlyBy(actions, d)
    ensures |s'.workers| == |s.workers| && s'.broker == s.broker && s'.workers[d].msg == s.workers[d].msg
    ensures var w := s.workers[d];
            var pushed := Prepended(s.feeds.lists, w.Key(), w.body.tweet.tweetId);
            && s'.workers[d].followers == w.followers && s'.workers[d].body == w.body
            && s'.workers[d].pc == LoopHead(w.pc.i + 1, |w.followers|)
            && s'.feeds.lists == if applied then Trimmed(pushed, w.Key(), 0, FEED_CAP - 1) else pushed
  {
    var s1 := One(s, d, Push(Pushed));
    s' := One(s1, d, Trim(applied));
    Join(s, [Work(d, Push(Pushed))], s1, [Work(d, Trim(applied))], s');
    actions := [Work(d, Push(Pushed))] + [Work(d, Trim(applied))];
  }

  /** The round in which the push fails. */
  lemma LastRound(s: State, d: Tag, outcome: PushOutcome) returns (actions: seq<Action>, s': State)
    requires d < |s.workers| && s.workers[d].pc.Pushing? && s.workers[d].AtFollower() && !outcome.Pushed?
    ensures Leads(s, actions, s') && OnlyBy(actions, d)
    ensures s'.broker == TakenBack(s.broker, d, s.workers[d].msg)
    ensures |s'.workers| == |s.workers| && s'.workers[d].pc == Nacked(s.workers[d].pc.i, outcome.Lost?)
    ensures var w := s.workers[d];
            s'.feeds.lists
              == if outcome.Lost? then Prepended(s.feeds.lists, w.Key(), w.body.tweet.tweetId) else s.feeds.lists
  {
    var s1 := One(s, d, Push(outcome));
    s' := One(s1, d, SendNack);
    Join(s, [Work(d, Push(outcome))], s1, [Work(d, SendNack)], s');
    actions := [Work(d, Push(outcome))] + [Work(d, SendNack)];
  }

  lemma {:induction false} LoopIsASchedule(s: State, d: Tag, net: Net, i: nat) returns (actions: seq<Action>, s': State)
    requires d < |s.workers| && i <= |s.workers[d].followers|
    requires s.workers[d].pc == LoopHead(i, |s.workers[d].followers|)
    ensures Leads(s, actions, s') && OnlyBy(actions, d) && d < |s'.workers|
    ensures var w := s.workers[d];
            var r := FanOut(s.feeds.lists, w.body.tweet.tweetId, w.followers, net, i);
            && s'.feeds.lists == r.lists && s'.workers[d].pc == EndOf(r.stoppedAt, net)
            && s'.broker == Answered(s.broker, d, w.msg, r.stoppedAt)
    decreases |s.workers[d].followers| - i
  {
    if i == |s.workers[d].followers| {
      s' := One(s, d, SendAck);
      actions := [Work(d, SendAck)];
    } else if net.push(i).Pushed? {
      var first, mid := Round(s, d, net.trim(i));
      var rest;
      rest, s' := LoopIsASchedule(mid, d, net, i + 1);
      Join(s, first, mid, rest, s');
      actions := first + rest;
    } else {
      actions, s' := LastRound(s, d, net.push(i));
    }
  }

  /**
   * The sequential handler is one schedule of its goroutine: from a fresh delivery, some sequence of that
   * goroutine's own steps leaves the lists HandleMessage leaves and settles the way it settles. With the
   * delivery still open, the broker then holds a parsed message as settled or queued again, according to
   * where the loop stopped, and an unparsed one as queued again.
   */
  lemma HandlerIsASchedule(s: State, d: Tag, net: Net) returns (actions: seq<Action>, s': State)
    requires d < |s.workers| && s.workers[d].pc.Decoding? && s.workers[d].followers == []
    requires net.followers.Some? ==> IsFollowerList(s.db, s.workers[d].Author(), net.followers.value)
    ensures Leads(s, actions, s') && OnlyBy(actions, d) && d < |s'.workers|
    ensures var r := FanOut(s.feeds.lists, s.workers[d].body.tweet.tweetId, Fetched(net), net, 0);
            && s'.feeds.lists == r.lists && s'.workers[d].pc == EndOf(r.stoppedAt, net)
            && (d in s.broker.outstanding ==>
                  && d !in s'.broker.outstanding
                  && (if s.workers[d].body.parses && r.stoppedAt.None?
                      then s.workers[d].msg in s'.broker.settled && s'.broker.ready == s.broker.ready
                      else s.workers[d].msg in s'.broker.ready && s'.broker.settled == s.broker.settled))
            && (d !in s.broker.outstanding ==> s'.broker == s.broker)
  {
    var s1 := One(s, d, Decode);
    var fetch := if net.followers.Some? then Fetch(net.followers.value) else FetchFails;
    var s2 := One(s1, d, fetch);
    var rest;
    rest, s' := LoopIsASchedule(s2, d, net, 0);
    Join(s1, [Work(d, fetch)], s2, rest, s');
    Join(s, [Work(d, Decode)], s1, [Work(d, fetch)] + rest, s');
    actions := [Work(d, Decode)] + ([Work(d, fetch)] + rest);
  }

  // ----- the length bound is attained -----

  const FAN := "b"
  const STAR := "a"

  /**
   * FAN is STAR's one follower, some process is subscribed, message names shorter than n may be taken, and
   * the feed has these numbers.
   */
  ghost predicate Shape(s: State, n: nat, length: nat, pending: nat, missed: nat) {
    && IsFollowerList(s.db, STAR, [FAN]) && s.broker.listening
    && (forall m :: m in s.broker.bodies ==> |m| < n)
    && |Feed(s, FAN)| == length
    && |Pending(s.workers, FeedKey(FAN))| == pending
    && s.feeds.MissedAt(FeedKey(FAN)) == missed
  }

  lemma PendingDeliver(ws: seq<Worker>, w: Worker, key: string)
    requires !w.pc.Trimming?
    ensures Pending(ws + [w], key) == Pending(ws, key)
  {
  }

  /** Publishes and delivers one more tweet of STAR. */
  lemma Arrive(s: State, n: nat, length: nat, pending: nat, missed: nat) returns (actions: seq<Action>, s': State)
    requires Shape(s, n, length, pending, missed)
    ensures Leads(s, actions, s') && Shape(s', n + 1, length, pending, missed)
    ensures |s'.workers| == |s.workers| + 1
    ensures s'.workers[|s.workers|].pc.Decoding? && s'.workers[|s.workers|].Author() == STAR
    ensures s'.workers[|s.workers|].body.parses
  {
    var m := seq(n, _ => 'm');
    actions, s' := [], s;
    actions, s' := Then(s, actions, s', Publish(m, Body(true, Tweet(STAR, m))));
    actions, s' := Then(s, actions, s', Deliver(m));
    PendingDeliver(s.workers, s'.workers[|s.workers|], FeedKey(FAN));
  }

  /** Takes a fresh delivery of STAR's to the head of its loop. */
  lemma FetchNew(s: State, d: Tag, n: nat, length: nat, pending: nat, missed: nat)
      returns (actions: seq<Action>, s': State)
    requires Shape(s, n, length, pending, missed) && d < |s.workers|
    requires s.workers[d].pc.Decoding? && s.workers[d].Author() == STAR && s.workers[d].body.parses
    ensures Leads(s, actions, s') && Shape(s', n, length, pending, missed)
    ensures |s'.workers| == |s.workers| && s'.workers[d].pc == Pushing(0) && s'.workers[d].followers == [FAN]
  {
    var key := FeedKey(FAN);
    var s1 := One(s, d, Decode);
    PendingAdvance(s.workers, d, s1.workers[d], key);
    s' := One(s1, d, Fetch([FAN]));
    PendingAdvance(s1.workers, d, s'.workers[d], key);
    Join(s, [Work(d, Decode)], s1, [Work(d, Fetch([FAN]))], s');
    actions := [Work(d, Decode)] + [Work(d, Fetch([FAN]))];
  }

  /** Takes a fresh delivery of STAR's up to its push. */
  lemma PushNew(s: State, d: Tag, n: nat, length: nat, pending: nat, missed: nat)
      returns (actions: seq<Action>, s': State)
    requires Shape(s, n, length, pending, missed) && d < |s.workers|
    requires s.workers[d].pc.Decoding? && s.workers[d].Author() == STAR && s.workers[d].body.parses
    ensures Leads(s, actions, s') && Shape(s', n, length + 1, pending + 1, missed)
    ensures |s'.workers| == |s.workers| && IsPending(s'.workers[d], FeedKey(FAN))
  {
    var first, fetched := FetchNew(s, d, n, length, pending, missed);
    s' := One(fetched, d, Push(Pushed));
    PendingAdvance(fetched.workers, d, s'.workers[d], FeedKey(FAN));
    Join(s, first, fetched, [Work(d, Push(Pushed))], s');
    actions := first + [Work(d, Push(Pushed))];
  }

  /** Delivers one more tweet of STAR up to its push. */
  lemma PushOne(s: State, n: nat, length: nat, pending: nat, missed: nat) returns (actions: seq<Action>, s': State)
    requires Shape(s, n, length, pending, missed)
    ensures Leads(s, actions, s') && Shape(s', n + 1, length + 1, pending + 1, missed)
    ensures |s'.workers| == |s.workers| + 1
    ensures IsPending(s'.workers[|s.workers|], FeedKey(FAN))
  {
    var first, mid := Arrive(s, n, length, pending, missed);
    var rest;
    rest, s' := PushNew(mid, |s.workers|, n + 1, length, pending, missed);
    Join(s, first, mid, rest, s');
    actions := first + rest;
  }

  /** The same, followed by its trim, applied or not. */
  lemma PushAndTrim(s: State, n: nat, length: nat, pending: nat, missed: nat, applied: bool)
      returns (actions: seq<Action>, s': State)
    requires Shape(s, n, length, pending, missed)
    ensures Leads(s, actions, s')
    ensures if applied then Shape(s', n + 1, Min(FEED_CAP, length + 1), pending, 0)
            else Shape(s', n + 1, length + 1, pending, missed + 1)
  {
    var pushed;
    actions, pushed := PushOne(s, n, length, pending, missed);
    var d, key := |s.workers|, FeedKey(FAN);
    s' := One(pushed, d, Trim(applied));
    PendingAdvance(pushed.workers, d, s'.workers[d], key);
    TrimKeepsNewest(At(pushed.feeds.lists, key));
    Join(s, actions, pushed, [Work(d, Trim(applied))], s');
    actions := actions + [Work(d, Trim(applied))];
  }

  lemma {:induction false} Fill(k: nat) returns (actions: seq<Action>, s: State)
    requires k <= FEED_CAP
    ensures Leads(INITIAL, actions, s) && Shape(s, k, k, 0, 0)
  {
    if k == 0 {
      assert STAR[0] != FAN[0];
      actions, s := [], INITIAL;
      actions, s := Then(INITIAL, actions, s, UserStep(Registering(STAR, true)));
      actions, s := Then(INITIAL, actions, s, UserStep(Following(FAN, STAR, true)));
      assert Pending(s.workers, FeedKey(FAN)) == {};
    } else {
      var first, mid := Fill(k - 1);
      var rest;
      rest, s := PushAndTrim(mid, k - 1, k - 1, 0, 0, true);
      Join(INITIAL, first, mid, rest, s);
      actions := first + rest;
    }
  }

  /**
   * The length bound is tight: for any numbers of handlers between push and trim and of failed trims,
   * some run reaches a feed exactly that much over its cap.
   */
  lemma LengthBoundAttained(pending: nat, missed: nat) returns (actions: seq<Action>, s: State)
    ensures Leads(INITIAL, actions, s)
    ensures |Feed(s, FAN)| == FEED_CAP + |Pending(s.workers, FeedKey(FAN))| + s.feeds.MissedAt(FeedKey(FAN))
    ensures |Pending(s.workers, FeedKey(FAN))| == pending && s.feeds.MissedAt(FeedKey(FAN)) == missed
  {
    actions, s := Overfull(pending, missed);
  }

  lemma {:induction false} Overfull(pending: nat, missed: nat) returns (actions: seq<Action>, s: State)
    ensures Leads(INITIAL, actions, s)
    ensures Shape(s, FEED_CAP + pending + missed, FEED_CAP + pending + missed, pending, missed)
    decreases pending + missed
  {
    if pending == 0 && missed == 0 {
      actions, s := Fill(FEED_CAP);
    } else {
      var k := FEED_CAP + pending + missed - 1;
      var first, mid, rest;
      if missed > 0 {
        first, mid := Overfull(pending, missed - 1);
        rest, s := PushAndTrim(mid, k, k, pending, missed - 1, false);
      } else {
        first, mid := Overfull(pending - 1, missed);
        rest, s := PushOne(mid, k, k, pending - 1, missed);
      }
      Join(INITIAL, first, mid, rest, s);
      actions := first + rest;
    }
  }
}
