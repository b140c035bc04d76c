/** Every step of the pipeline keeps every part of its invariant, so every run does. */
module PipelineSteps {
  import opened Common
  import opened Redis
  import opened Users
  import opened FeedWorker
  import opened Pipeline

  // ----- runs -----

  lemma {:induction false} ExecAppend(s: State, first: seq<Action>, second: seq<Action>)
    requires Valid(s, first) && Valid(Exec(s, first), second)
    ensures Valid(s, first + second) && Exec(s, first + second) == Exec(Exec(s, first), second)
    decreases first
  {
    if first == [] {
      assert first + second == second;
    } else {
      ExecAppend(Do(s, first[0]), first[1..], second);
      assert (first + second)[1..] == first[1..] + second;
    }
  }

  ghost predicate Leads(start: State, actions: seq<Action>, end: State) {
    Valid(start, actions) && Exec(start, actions) == end
  }

  /** Extends a run by one step. */
  lemma Then(start: State, actions: seq<Action>, s: State, a: Action) returns (more: seq<Action>, s': State)
    requires Leads(start, actions, s) && Enabled(s, a)
    ensures more == actions + [a] && s' == Do(s, a) && Leads(start, more, s')
  {
    more, s' := actions + [a], Do(s, a);
    assert [a][1..] == [];
    ExecAppend(start, actions, [a]);
  }

  // ----- the broker -----

  lemma PublishConserves(b: Broker, ws: seq<Worker>, m: Id, body: Body)
    requires Conserved(b, ws) && m !in b.bodies
    ensures Conserved(b.(bodies := b.bodies[m := body], ready := b.ready + {m}), ws)
  {
    var b' := b.(bodies := b.bodies[m := body], ready := b.ready + {m});
    assert forall d: Tag, n :: Holds(b', ws, d, n) <==> Holds(b, ws, d, n);
  }

  lemma ListeningConserves(b: Broker, ws: seq<Worker>, listening: bool)
    requires Conserved(b, ws)
    ensures Conserved(b.(listening := listening), ws)
  {
    var b' := b.(listening := listening);
    assert forall d: Tag, n :: Holds(b', ws, d, n) <==> Holds(b, ws, d, n);
  }

  lemma DeliverConserves(b: Broker, ws: seq<Worker>, w: Worker)
    requires Conserved(b, ws) && w.msg in b.ready && w.body == b.bodies[w.msg] && w.pc.Decoding?
    ensures Conserved(b.(ready := b.ready - {w.msg}, outstanding := b.outstanding + {|ws|}), ws + [w])
  {
    var b' := b.(ready := b.ready - {w.msg}, outstanding := b.outstanding + {|ws|});
    assert forall d: Tag, n :: Holds(b', ws + [w], d, n) <==> Holds(b, ws, d, n) || (d == |ws| && n == w.msg);
    assert Holds(b', ws + [w], |ws|, w.msg);
    forall n | Unacked(b, ws, n)
      ensures Unacked(b', ws + [w], n)
    {
      var d: Tag :| Holds(b, ws, d, n);
      assert Holds(b', ws + [w], d, n);
    }
  }

  lemma TakenBackConserves(b: Broker, ws: seq<Worker>, d: Tag)
    requires Conserved(b, ws) && d < |ws|
    ensures Conserved(TakenBack(b, d, ws[d].msg), ws)
  {
    if d in b.outstanding {
      var b' := TakenBack(b, d, ws[d].msg);
      assert Holds(b, ws, d, ws[d].msg);
      assert forall e: Tag, n :: Holds(b', ws, e, n) <==> Holds(b, ws, e, n) && e != d;
    }
  }

  lemma ConfirmedConserves(b: Broker, ws: seq<Worker>, d: Tag)
    requires Conserved(b, ws) && d < |ws|
    ensures Conserved(Confirmed(b, d, ws[d].msg), ws)
  {
    if d in b.outstanding {
      var b' := Confirmed(b, d, ws[d].msg);
      assert Holds(b, ws, d, ws[d].msg);
      assert forall e: Tag, n :: Holds(b', ws, e, n) <==> Holds(b, ws, e, n) && e != d;
    }
  }

  lemma AdvanceConserves(b: Broker, ws: seq<Worker>, d: Tag, w: Worker)
    requires Conserved(b, ws) && d < |ws| && w.msg == ws[d].msg && w.body == ws[d].body
    requires (w.pc.Acked? || w.pc.Nacked?) ==> d !in b.outstanding
    ensures Conserved(b, ws[d := w])
  {
    var ws' := ws[d := w];
    assert forall e: Tag, n :: Holds(b, ws', e, n) <==> Holds(b, ws, e, n);
  }

  lemma ConservedStep(s: State, a: Action)
    requires Conserved(s.broker, s.workers) && Enabled(s, a)
    ensures Conserved(Do(s, a).broker, Do(s, a).workers)
  {
    match a
    case Publish(m, body) => PublishConserves(s.broker, s.workers, m, body);
    case UserStep(r) =>
    case Deliver(m) =>
      DeliverConserves(s.broker, s.workers, Worker(m, s.broker.bodies[m], [], Decoding, {}, false, 0));
    case Requeue(d) => TakenBackConserves(s.broker, s.workers, d);
    case Unsubscribe => ListeningConserves(s.broker, s.workers, false);
    case Subscribe => ListeningConserves(s.broker, s.workers, true);
    case Work(d, op) =>
      TakenBackConserves(s.broker, s.workers, d);
      ConfirmedConserves(s.broker, s.workers, d);
      AdvanceConserves(BrokerAfter(s.broker, d, s.workers[d], op), s.workers, d, Advance(s.workers[d], op, s.db));
  }

  lemma AccountedStep(s: State, a: Action)
    requires Conserved(s.broker, s.workers) && Accounted(s.broker, s.workers) && Enabled(s, a)
    ensures Accounted(Do(s, a).broker, Do(s, a).workers)
  {
    var s' := Do(s, a);
    forall m | m in s'.broker.settled
      ensures exists d: Tag :: AckedFor(s'.workers, d, m)
    {
      if m in s.broker.settled {
        var d: Tag :| AckedFor(s.workers, d, m);
        assert AckedFor(s'.workers, d, m);
      } else {
        assert AckedFor(s'.workers, a.d, m);
      }
    }
  }

  // ----- the handlers -----

  lemma WorkerOkAdvance(w: Worker, op: Op, db: UserDb)
    requires WorkerOk(w) && Ready(w, op, db)
    ensures WorkerOk(Advance(w, op, db))
  {
  }

  lemma WorkersOkStep(s: State, a: Action)
    requires WorkersOk(s.workers) && Enabled(s, a)
    ensures WorkersOk(Do(s, a).workers)
  {
    if a.Work? {
      WorkerOkAdvance(s.workers[a.d], a.op, s.db);
    }
  }

  lemma NoSelfAudienceStep(s: State, a: Action)
    requires NoSelfFollow(s.db) && NoSelfAudience(s.workers) && Enabled(s, a)
    ensures NoSelfFollow(Do(s, a).db) && NoSelfAudience(Do(s, a).workers)
  {
    if a.UserStep? {
      NeverSelfFollowing(s.db, [a.request]);
    }
  }

  // ----- the feeds -----

  lemma PushedToAdvance(w: Worker, op: Op, db: UserDb, key: string)
    requires WorkerOk(w) && Ready(w, op, db)
    ensures var w' := Advance(w, op, db);
            PushedTo(w', key) <==> PushedTo(w, key) || (op.Push? && !op.outcome.Refused? && w.Key() == key)
    ensures op.Push? && w.Key() == key ==> !PushedTo(w, key)
  {
    var w' := Advance(w, op, db);
    if op.Push? {
      forall j | 0 <= j < w.pc.i
        ensures FeedKey(w.followers[j]) != w.Key()
      {
        FeedKeyInjective(w.followers[j], w.followers[w.pc.i]);
      }
      assert w'.followers == w.followers;
      if PushedTo(w, key) {
        var j :| 0 <= j < w.pushed && FeedKey(w.followers[j]) == key;
        assert FeedKey(w'.followers[j]) == key;
      }
      if !op.outcome.Refused? && w.Key() == key {
        assert FeedKey(w'.followers[w.pc.i]) == key;
      }
    }
  }

  lemma LoggedDeliver(log: seq<Entry>, ws: seq<Worker>, key: string, w: Worker)
    requires Logged(log, ws, key) && w.pushed == 0
    ensures Logged(log, ws + [w], key)
  {
    assert !PushedTo(w, key);
  }

  /** Handlers other than d look the same from the feed under `key`, and keep their bodies. */
  ghost predicate SameElsewhere(ws: seq<Worker>, ws': seq<Worker>, d: Tag, key: string) {
    && |ws'| == |ws|
    && forall e: Tag :: e < |ws| ==>
         ws'[e].body == ws[e].body && (e != d ==> (PushedTo(ws'[e], key) <==> PushedTo(ws[e], key)))
  }

  lemma LoggedSame(log: seq<Entry>, ws: seq<Worker>, ws': seq<Worker>, d: Tag, key: string)
    requires Logged(log, ws, key) && SameElsewhere(ws, ws', d, key) && d < |ws|
    requires PushedTo(ws'[d], key) <==> PushedTo(ws[d], key)
    ensures Logged(log, ws', key)
  {
  }

  lemma LoggedGrows(log: seq<Entry>, ws: seq<Worker>, ws': seq<Worker>, d: Tag, key: string)
    requires Logged(log, ws, key) && SameElsewhere(ws, ws', d, key) && d < |ws|
    requires !PushedTo(ws[d], key) && PushedTo(ws'[d], key)
    ensures Logged([Entry(d, ws[d].body.tweet.tweetId)] + log, ws', key)
  {
    var log' := [Entry(d, ws[d].body.tweet.tweetId)] + log;
    assert log'[0].tag == d;
    forall e: Tag | e < |ws| && PushedTo(ws[e], key)
      ensures InLog(log', e)
    {
      var i :| 0 <= i < |log| && log[i].tag == e;
      assert log'[i + 1].tag == e;
    }
    forall i | 0 <= i < |log|
      ensures log[i].tag != d && PushedTo(ws'[log[i].tag], key)
    {
    }
  }

  lemma LoggedAdvance(log: seq<Entry>, ws: seq<Worker>, key: string, d: Tag, op: Op, db: UserDb)
    requires Logged(log, ws, key) && d < |ws| && WorkerOk(ws[d]) && Ready(ws[d], op, db)
    ensures var grows := op.Push? && !op.outcome.Refused? && ws[d].Key() == key;
            Logged(if grows then [Entry(d, ws[d].body.tweet.tweetId)] + log else log,
                   ws[d := Advance(ws[d], op, db)], key)
  {
    PushedToAdvance(ws[d], op, db, key);
    var ws' := ws[d := Advance(ws[d], op, db)];
    assert SameElsewhere(ws, ws', d, key);
    if op.Push? && !op.outcome.Refused? && ws[d].Key() == key {
      LoggedGrows(log, ws, ws', d, key);
    } else {
      LoggedSame(log, ws, ws', d, key);
    }
  }

  lemma LogAfter(f: Feeds, d: Tag, w: Worker, op: Op, key: string)
    ensures FeedsAfter(f, d, w, op).LogAt(key)
         == if op.Push? && w.AtFollower() && !op.outcome.Refused? && w.Key() == key
            then [Entry(d, w.body.tweet.tweetId)] + f.LogAt(key) else f.LogAt(key)
  {
  }

  lemma LoggedStep(s: State, a: Action, key: string)
    requires WorkersOk(s.workers) && Logged(s.feeds.LogAt(key), s.workers, key) && Enabled(s, a)
    ensures Logged(Do(s, a).feeds.LogAt(key), Do(s, a).workers, key)
  {
    match a
    case Deliver(m) =>
      LoggedDeliver(s.feeds.LogAt(key), s.workers, key, Worker(m, s.broker.bodies[m], [], Decoding, {}, false, 0));
    case Work(d, op) =>
      LogAfter(s.feeds, d, s.workers[d], op, key);
      LoggedAdvance(s.feeds.LogAt(key), s.workers, key, d, op, s.db);
    case _ =>
  }

  lemma CachedStep(f: Feeds, d: Tag, w: Worker, op: Op, key: string)
    requires Cached(f, key)
    ensures Cached(FeedsAfter(f, d, w, op), key)
  {
    var feed, log := At(f.lists, key), f.LogAt(key);
    var log' := FeedsAfter(f, d, w, op).LogAt(key);
    PushKeepsCache(feed, TweetIds(log), w.body.tweet.tweetId);
    TrimKeepsCache(feed, TweetIds(log));
    if log' != log {
      assert TweetIds(log') == [w.body.tweet.tweetId] + TweetIds(log);
    }
  }

  lemma PendingAdvance(ws: seq<Worker>, d: Tag, w: Worker, key: string)
    requires d < |ws|
    ensures |Pending(ws[d := w], key)|
         == |Pending(ws, key)| + (if IsPending(w, key) then 1 else 0) - (if IsPending(ws[d], key) then 1 else 0)
  {
    var before, after := Pending(ws, key), Pending(ws[d := w], key);
    assert after - {d} == before - {d};
    assert d in before <==> IsPending(ws[d], key);
    assert d in after <==> IsPending(w, key);
    if d in before { RemoveOne(before, d); } else { assert before - {d} == before; }
    if d in after { RemoveOne(after, d); } else { assert after - {d} == after; }
  }

  /** How an operation moves a feed against the bound, its own handler's share aside. */
  lemma FeedLength(f: Feeds, d: Tag, w: Worker, op: Op, db: UserDb, key: string)
    requires Ready(w, op, db)
    ensures var f' := FeedsAfter(f, d, w, op);
            var mine := (if IsPending(Advance(w, op, db), key) then 1 else 0) - (if IsPending(w, key) then 1 else 0);
            || |At(f'.lists, key)| - f'.MissedAt(key) <= |At(f.lists, key)| - f.MissedAt(key) + mine
            || |At(f'.lists, key)| <= FEED_CAP
  {
    TrimKeepsNewest(At(f.lists, key));
  }

  lemma BoundedStep(s: State, a: Action, key: string)
    requires Bounded(s.feeds, s.workers, key) && Enabled(s, a)
    ensures Bounded(Do(s, a).feeds, Do(s, a).workers, key)
  {
    if a.Deliver? {
      assert Pending(Do(s, a).workers, key) == Pending(s.workers, key);
    } else if a.Work? {
      PendingAdvance(s.workers, a.d, Advance(s.workers[a.d], a.op, s.db), key);
      FeedLength(s.feeds, a.d, s.workers[a.d], a.op, s.db, key);
    }
  }

  lemma InvStep(s: State, a: Action)
    requires Inv(s) && Enabled(s, a)
    ensures Inv(Do(s, a))
  {
    ConservedStep(s, a);
    AccountedStep(s, a);
    WorkersOkStep(s, a);
    NoSelfAudienceStep(s, a);
    forall key
      ensures Logged(Do(s, a).feeds.LogAt(key), Do(s, a).workers, key)
      ensures Bounded(Do(s, a).feeds, Do(s, a).workers, key) && Cached(Do(s, a).feeds, key)
    {
      LoggedStep(s, a, key);
      BoundedStep(s, a, key);
      if a.Work? {
        CachedStep(s.feeds, a.d, s.workers[a.d], a.op, key);
      }
    }
  }

  lemma {:induction false} InvRun(s: State, actions: seq<Action>)
    requires Inv(s) && Valid(s, actions)
    ensures Inv(Exec(s, actions))
    decreases actions
  {
    if actions != [] {
      InvStep(s, actions[0]);
      InvRun(Do(s, actions[0]), actions[1..]);
    }
  }

  lemma InitialInv()
    ensures Inv(INITIAL)
  {
    forall key
      ensures Bounded(INITIAL.feeds, INITIAL.workers, key)
    {
      assert Pending(INITIAL.workers, key) == {};
    }
  }
}
