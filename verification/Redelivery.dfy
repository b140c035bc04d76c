/** How many copies of a message redelivery leaves, and what every schedule of a failure-free run agrees on. */
module Redelivery {
  import opened Common
  import opened Redis
  import opened Users
  import opened FeedWorker
  import opened Pipeline
  import opened PipelineSteps
  import opened PipelineTheorems

  // ----- counting copies -----

  /** How many entries of the log come from deliveries of message m. */
  ghost function Copies(log: seq<Entry>, ws: seq<Worker>, m: Id): nat {
    if log == [] then 0
    else (if log[0].tag < |ws| && ws[log[0].tag].msg == m then 1 else 0) + Copies(log[1..], ws, m)
  }

  ghost function TagsFor(log: seq<Entry>, ws: seq<Worker>, m: Id): set<Tag> {
    set d: Tag | d < |ws| && ws[d].msg == m && InLog(log, d)
  }

  lemma InLogTail(log: seq<Entry>, d: Tag)
    requires log != []
    ensures InLog(log, d) <==> d == log[0].tag || InLog(log[1..], d)
  {
    var rest := log[1..];
    if InLog(rest, d) {
      var i :| 0 <= i < |rest| && rest[i].tag == d;
      assert log[i + 1].tag == d;
    }
    if InLog(log, d) && d != log[0].tag {
      var i :| 0 <= i < |log| && log[i].tag == d;
      assert rest[i - 1].tag == d;
    }
  }

  lemma TagsForTail(log: seq<Entry>, ws: seq<Worker>, m: Id)
    requires log != [] && forall i, j :: 0 <= i < j < |log| ==> log[i].tag != log[j].tag
    ensures var d := log[0].tag;
            |TagsFor(log, ws, m)| == |TagsFor(log[1..], ws, m)| + if d < |ws| && ws[d].msg == m then 1 else 0
  {
    var rest, d0 := log[1..], log[0].tag;
    forall d: Tag
      ensures InLog(log, d) <==> d == d0 || InLog(rest, d)
    {
      InLogTail(log, d);
    }
    assert !InLog(rest, d0);
    if d0 < |ws| && ws[d0].msg == m {
      assert TagsFor(log, ws, m) == TagsFor(rest, ws, m) + {d0};
    } else {
      assert TagsFor(log, ws, m) == TagsFor(rest, ws, m);
    }
  }

  lemma {:induction false} CopiesAreTags(log: seq<Entry>, ws: seq<Worker>, m: Id)
    requires forall i, j :: 0 <= i < j < |log| ==> log[i].tag != log[j].tag
    ensures Copies(log, ws, m) == |TagsFor(log, ws, m)|
  {
    if log == [] {
      assert TagsFor(log, ws, m) == {};
    } else {
      CopiesAreTags(log[1..], ws, m);
      TagsForTail(log, ws, m);
    }
  }

  /** The attempts at message m that pushed beyond follower position i. */
  ghost function AttemptsPast(ws: seq<Worker>, m: Id, i: nat): set<Tag> {
    set d: Tag | d < |ws| && ws[d].msg == m && ws[d].pushed > i
  }

  /** Every attempt at m worked through the same follower list. */
  ghost predicate FixedList(ws: seq<Worker>, m: Id, followers: seq<Id>) {
    forall d: Tag :: d < |ws| && ws[d].msg == m ==> ws[d].pushed == 0 || ws[d].followers == followers
  }

  lemma CopiesPerPosition(s: State, m: Id, followers: seq<Id>, i: nat)
    requires Inv(s) && FixedList(s.workers, m, followers) && i < |followers|
    ensures Copies(s.feeds.LogAt(FeedKey(followers[i])), s.workers, m) == |AttemptsPast(s.workers, m, i)|
  {
    var key := FeedKey(followers[i]);
    var log, ws := s.feeds.LogAt(key), s.workers;
    assert Logged(log, ws, key);
    CopiesAreTags(log, ws, m);
    forall d: Tag | d < |ws| && ws[d].msg == m
      ensures InLog(log, d) <==> ws[d].pushed > i
    {
      assert WorkerOk(ws[d]);
      if ws[d].pushed > 0 {
        ReceivedPrefix(s, d, i);
      }
    }
    assert TagsFor(log, ws, m) == AttemptsPast(ws, m, i);
  }

  /**
   * Copies in every reachable state: whatever failed, the follower at position i of a fixed list holds one
   * copy for every attempt whose push at i was applied, pushes with lost replies included.
   */
  lemma CopiesAreAppliedPushes(actions: seq<Action>, m: Id, followers: seq<Id>, i: nat)
    requires Valid(INITIAL, actions) && i < |followers|
    requires FixedList(Exec(INITIAL, actions).workers, m, followers)
    ensures var s := Exec(INITIAL, actions);
            Copies(s.feeds.LogAt(FeedKey(followers[i])), s.workers, m) == |AttemptsPast(s.workers, m, i)|
  {
    InitialInv();
    InvRun(INITIAL, actions);
    CopiesPerPosition(Exec(INITIAL, actions), m, followers, i);
  }

  /** In every reachable state a follower has at least as many copies as any later one in the list. */
  lemma EarlierFollowersGetMore(actions: seq<Action>, m: Id, followers: seq<Id>, i: nat, j: nat)
    requires Valid(INITIAL, actions) && i <= j < |followers|
    requires FixedList(Exec(INITIAL, actions).workers, m, followers)
    ensures var s := Exec(INITIAL, actions);
            Copies(s.feeds.LogAt(FeedKey(followers[i])), s.workers, m)
              >= Copies(s.feeds.LogAt(FeedKey(followers[j])), s.workers, m)
  {
    var s := Exec(INITIAL, actions);
    CopiesAreAppliedPushes(actions, m, followers, i);
    CopiesAreAppliedPushes(actions, m, followers, j);
    SubsetSize(AttemptsPast(s.workers, m, j), AttemptsPast(s.workers, m, i));
  }

  lemma SubsetSize<T>(a: set<T>, b: set<T>)
    requires a <= b
    ensures |a| <= |b|
  {
    assert b == a + (b - a);
  }

  // ----- runs calm for one message -----

  /** The broker takes no delivery of message m back by itself, and a failed push of m is one not applied. */
  predicate CalmFor(s: State, a: Action, m: Id) {
    match a
    case Requeue(d) => d < |s.workers| ==> s.workers[d].msg != m
    case Work(d, op) => d < |s.workers| && op.Push? && op.outcome.Lost? ==> s.workers[d].msg != m
    case _ => true
  }

  ghost predicate AlwaysCalmFor(s: State, actions: seq<Action>, m: Id)
    requires Valid(s, actions)
    decreases actions
  {
    actions == [] || (CalmFor(s, actions[0], m) && AlwaysCalmFor(Do(s, actions[0]), actions[1..], m))
  }

  /** No reply was lost; of a body that parses, the delivery is open until it settles and an Ack settled it. */
  ghost predicate SteadyAttempt(b: Broker, d: Tag, w: Worker) {
    && (w.pc.Failed? || w.pc.Nacked? ==> !w.pc.lost)
    && (w.body.parses ==>
          && (d in b.outstanding <==> !w.pc.Acked? && !w.pc.Nacked?)
          && (w.pc.Acked? ==> w.msg in b.settled))
  }

  ghost predicate SteadyFor(b: Broker, ws: seq<Worker>, m: Id) {
    && (forall d: Tag :: d < |ws| && ws[d].msg == m ==> SteadyAttempt(b, d, ws[d]))
    && (forall d: Tag, e: Tag | d < |ws| && e < |ws| && AckedFor(ws, d, m) && AckedFor(ws, e, m) :: d == e)
  }

  lemma SteadyForWork(b: Broker, ws: seq<Worker>, d: Tag, op: Op, db: UserDb, m: Id)
    requires Conserved(b, ws) && WorkersOk(ws) && SteadyFor(b, ws, m)
    requires d < |ws| && Ready(ws[d], op, db) && (op.Push? && op.outcome.Lost? ==> ws[d].msg != m)
    ensures SteadyFor(BrokerAfter(b, d, ws[d], op), ws[d := Advance(ws[d], op, db)], m)
  {
    var b', w' := BrokerAfter(b, d, ws[d], op), Advance(ws[d], op, db);
    var ws' := ws[d := w'];
    assert d in b.outstanding ==> Holds(b, ws, d, ws[d].msg);
    assert WorkerOk(ws[d]);
    forall e: Tag | e < |ws'| && ws'[e].msg == m
      ensures SteadyAttempt(b', e, ws'[e])
    {
      assert SteadyAttempt(b, e, ws[e]);
    }
    forall e: Tag, f: Tag | AckedFor(ws', e, m) && AckedFor(ws', f, m)
      ensures e == f
    {
      assert AckedFor(ws, e, m) || e == d;
      assert AckedFor(ws, f, m) || f == d;
    }
  }

  lemma SteadyForStep(s: State, a: Action, m: Id)
    requires Conserved(s.broker, s.workers) && WorkersOk(s.workers) && SteadyFor(s.broker, s.workers, m)
    requires Enabled(s, a) && CalmFor(s, a, m)
    ensures SteadyFor(Do(s, a).broker, Do(s, a).workers, m)
  {
    if a.Work? {
      SteadyForWork(s.broker, s.workers, a.d, a.op, s.db, m);
    } else {
      assert forall d: Tag :: AckedFor(Do(s, a).workers, d, m) ==> AckedFor(s.workers, d, m);
    }
  }

  lemma {:induction false} SteadyForRun(s: State, actions: seq<Action>, m: Id)
    requires Inv(s) && SteadyFor(s.broker, s.workers, m) && Valid(s, actions)
    requires AlwaysCalmFor(s, actions, m)
    ensures Inv(Exec(s, actions)) && SteadyFor(Exec(s, actions).broker, Exec(s, actions).workers, m)
    decreases actions
  {
    if actions != [] {
      InvStep(s, actions[0]);
      SteadyForStep(s, actions[0], m);
      SteadyForRun(Do(s, actions[0]), actions[1..], m);
    }
  }

  /**
   * When no reply to a push of its message was lost, an attempt that settled negatively pushed exactly to
   * the followers before its failed push: a strict prefix of its list.
   */
  lemma CalmFailuresAreStrictPrefixes(actions: seq<Action>, d: Tag)
    requires Valid(INITIAL, actions)
    requires d < |Exec(INITIAL, actions).workers| && Exec(INITIAL, actions).workers[d].pc.Nacked?
    requires AlwaysCalmFor(INITIAL, actions, Exec(INITIAL, actions).workers[d].msg)
    ensures var s := Exec(INITIAL, actions);
            var w := s.workers[d];
            && w.pushed == w.pc.i < |w.followers|
            && forall j: nat :: j < |w.followers| ==> (Received(s, w.followers[j], d) <==> j < w.pc.i)
  {
    InitialInv();
    SteadyForRun(INITIAL, actions, Exec(INITIAL, actions).workers[d].msg);
    AttemptsPushPrefixes(actions, d);
  }

  /** The attempts at m that gave up beyond follower position i. */
  ghost function FailuresPast(ws: seq<Worker>, m: Id, i: nat): set<Tag> {
    set d: Tag | d < |ws| && ws[d].msg == m && ws[d].pc.Nacked? && ws[d].pc.i > i
  }

  /** The attempts at a settled message whose run was calm are its one Ack and its failures. */
  lemma AttemptsOfSettled(b: Broker, ws: seq<Worker>, m: Id, last: Tag, d: Tag)
    requires Conserved(b, ws) && WorkersOk(ws) && SteadyFor(b, ws, m)
    requires m in b.settled && AckedFor(ws, last, m) && d < |ws| && ws[d].msg == m
    ensures d == last || ws[d].pc.Nacked?
    ensures ws[d].pc.Nacked? ==> ws[d].pushed == ws[d].pc.i
    ensures ws[last].pushed == |ws[last].followers|
  {
    assert WorkerOk(ws[last]) && WorkerOk(ws[d]) && ws[d].body == ws[last].body;
    assert d in b.outstanding ==> Holds(b, ws, d, m);
    assert ws[d].pc.Acked? ==> AckedFor(ws, d, m);
  }

  lemma PastAttempts(b: Broker, ws: seq<Worker>, m: Id, last: Tag, followers: seq<Id>, i: nat)
    requires Conserved(b, ws) && WorkersOk(ws) && SteadyFor(b, ws, m)
    requires m in b.settled && AckedFor(ws, last, m) && i < |followers|
    requires forall d: Tag :: d < |ws| && ws[d].msg == m ==> ws[d].followers == followers
    ensures last !in FailuresPast(ws, m, i) && AttemptsPast(ws, m, i) == FailuresPast(ws, m, i) + {last}
  {
    forall d: Tag | d < |ws| && ws[d].msg == m
      ensures ws[d].pushed > i <==> d == last || (ws[d].pc.Nacked? && ws[d].pc.i > i)
    {
      AttemptsOfSettled(b, ws, m, last, d);
    }
  }

  lemma PastAttemptsCount(b: Broker, ws: seq<Worker>, m: Id, followers: seq<Id>, i: nat)
    requires Conserved(b, ws) && Accounted(b, ws) && WorkersOk(ws) && SteadyFor(b, ws, m)
    requires m in b.settled && i < |followers|
    requires forall d: Tag :: d < |ws| && ws[d].msg == m ==> ws[d].followers == followers
    ensures |AttemptsPast(ws, m, i)| == 1 + |FailuresPast(ws, m, i)|
  {
    var last: Tag :| AckedFor(ws, last, m);
    PastAttempts(b, ws, m, last, followers, i);
  }

  /**
   * Redelivery copy count: once m is acknowledged in a run calm for it, whatever happens to other messages,
   * the follower at position i of its list holds one copy plus one for every attempt that failed at a later
   * position.
   */
  lemma RedeliveryCopies(actions: seq<Action>, m: Id, followers: seq<Id>, i: nat)
    requires Valid(INITIAL, actions) && AlwaysCalmFor(INITIAL, actions, m)
    requires m in Exec(INITIAL, actions).broker.settled && i < |followers|
    requires var ws := Exec(INITIAL, actions).workers;
             forall d: Tag :: d < |ws| && ws[d].msg == m ==> ws[d].followers == followers
    ensures var s := Exec(INITIAL, actions);
            Copies(s.feeds.LogAt(FeedKey(followers[i])), s.workers, m) == 1 + |FailuresPast(s.workers, m, i)|
  {
    InitialInv();
    SteadyForRun(INITIAL, actions, m);
    var s := Exec(INITIAL, actions);
    PastAttemptsCount(s.broker, s.workers, m, followers, i);
    CopiesAreAppliedPushes(actions, m, followers, i);
  }

  // ----- schedule independence -----

  /** An empty pipeline over a given follow table. */
  function Fresh(db: UserDb): State {
    INITIAL.(db := db)
  }

  /** The step changes no follow and meets no failure; trims may still fail, subscriptions come and go. */
  predicate FailureFree(a: Action) {
    match a
    case UserStep(_) => false
    case Requeue(_) => false
    case Work(_, op) => !op.FetchFails? && !(op.Push? && !op.outcome.Pushed?)
    case _ => true
  }

  lemma {:induction false} FailureFreeIsCalm(s: State, actions: seq<Action>, m: Id)
    requires Valid(s, actions) && forall a :: a in actions ==> FailureFree(a)
    ensures AlwaysCalmFor(s, actions, m)
    decreases actions
  {
    if actions != [] {
      assert FailureFree(actions[0]);
      FailureFreeIsCalm(Do(s, actions[0]), actions[1..], m);
    }
  }

  /** Past its fetch, a handler works through the followers the table lists. */
  ghost predicate ListsFollowers(w: Worker, db: UserDb) {
    w.pc.Decoding? || w.pc.Fetching? || (!w.fetchFailed && IsFollowerList(db, w.Author(), w.followers))
  }

  ghost predicate OnGraph(s: State, db: UserDb) {
    s.db == db && forall d: Tag :: d < |s.workers| ==> ListsFollowers(s.workers[d], db)
  }

  lemma ListsFollowersAdvance(w: Worker, op: Op, db: UserDb)
    requires WorkerOk(w) && ListsFollowers(w, db) && Ready(w, op, db) && !op.FetchFails?
    ensures ListsFollowers(Advance(w, op, db), db)
  {
  }

  lemma {:induction false} OnGraphRun(s: State, actions: seq<Action>, db: UserDb)
    requires WorkersOk(s.workers) && OnGraph(s, db) && Valid(s, actions)
    requires forall a :: a in actions ==> FailureFree(a)
    ensures OnGraph(Exec(s, actions), db)
    decreases actions
  {
    if actions != [] {
      var a := actions[0];
      assert FailureFree(a);
      if a.Work? {
        ListsFollowersAdvance(s.workers[a.d], a.op, db);
      }
      WorkersOkStep(s, a);
      OnGraphRun(Do(s, a), actions[1..], db);
    }
  }

  /** Nothing is queued and every handler has acknowledged. */
  ghost predicate Complete(s: State) {
    s.broker.ready == {} && forall d: Tag :: d < |s.workers| ==> s.workers[d].pc.Acked?
  }

  /** The messages behind the entries of a log. */
  ghost function Messages(log: seq<Entry>, ws: seq<Worker>): seq<Id>
    requires forall i :: 0 <= i < |log| ==> log[i].tag < |ws|
  {
    seq(|log|, i requires 0 <= i < |log| => ws[log[i].tag].msg)
  }

  /** A complete attempt at a message, which every complete state holds. */
  lemma AttemptOf(s: State, m: Id) returns (d: Tag)
    requires Inv(s) && Complete(s) && m in s.broker.bodies
    ensures AckedFor(s.workers, d, m)
  {
    assert s.broker.outstanding == {};
    assert !Unacked(s.broker, s.workers, m);
    d :| AckedFor(s.workers, d, m);
  }

  /** A complete run delivered no unparsable message. */
  lemma CompleteParses(s: State)
    requires Inv(s) && Complete(s)
    ensures forall d: Tag :: d < |s.workers| ==> s.workers[d].body.parses
  {
    forall d: Tag | d < |s.workers|
      ensures s.workers[d].body.parses
    {
      var e := AttemptOf(s, s.workers[d].msg);
    }
  }

  lemma PushedOnGraph(s: State, db: UserDb, d: Tag, u: Id)
    requires Inv(s) && OnGraph(s, db) && d < |s.workers| && s.workers[d].pc.Acked?
    ensures Received(s, u, d) <==> Follow(u, s.workers[d].Author()) in db.follows
  {
    var w := s.workers[d];
    assert WorkerOk(w);
    if u in w.followers {
      var j :| 0 <= j < |w.followers| && w.followers[j] == u;
      ReceivedPrefix(s, d, j);
    } else {
      var key := FeedKey(u);
      forall j | 0 <= j < |w.followers|
        ensures FeedKey(w.followers[j]) != key
      {
        FeedKeyInjective(w.followers[j], u);
      }
      assert !PushedTo(w, key);
      assert Logged(s.feeds.LogAt(key), s.workers, key);
    }
  }

  lemma LoggedMessages(s: State, db: UserDb, u: Id, m: Id)
    requires Inv(s) && OnGraph(s, db) && Complete(s)
    requires Logged(s.feeds.LogAt(FeedKey(u)), s.workers, FeedKey(u))
    ensures m in Messages(s.feeds.LogAt(FeedKey(u)), s.workers)
       <==> m in s.broker.bodies && Follow(u, s.broker.bodies[m].tweet.userId) in db.follows
  {
    var log := s.feeds.LogAt(FeedKey(u));
    var ms := Messages(log, s.workers);
    if m in ms {
      var i :| 0 <= i < |ms| && ms[i] == m;
      PushedOnGraph(s, db, log[i].tag, u);
    }
    if m in s.broker.bodies && Follow(u, s.broker.bodies[m].tweet.userId) in db.follows {
      var d := AttemptOf(s, m);
      PushedOnGraph(s, db, d, u);
      var i :| 0 <= i < |log| && log[i].tag == d;
      assert ms[i] == m;
    }
  }

  lemma MessagesDistinct(b: Broker, log: seq<Entry>, ws: seq<Worker>, key: string)
    requires (forall m :: SteadyFor(b, ws, m)) && Logged(log, ws, key)
    requires forall d: Tag :: d < |ws| ==> ws[d].pc.Acked? && ws[d].body.parses
    ensures NoDup(Messages(log, ws))
  {
    forall i, j | 0 <= i < j < |log|
      ensures ws[log[i].tag].msg != ws[log[j].tag].msg
    {
      var d, e := log[i].tag, log[j].tag;
      assert SteadyFor(b, ws, ws[d].msg);
      assert AckedFor(ws, d, ws[d].msg) && AckedFor(ws, e, ws[e].msg);
    }
  }

  /**
   * Exactly once: whatever the schedule of a complete failure-free run, each message was pushed exactly
   * once to the feed of each follower of its author, and to no other feed.
   */
  lemma EachFollowerOnce(db: UserDb, actions: seq<Action>, u: Id)
    requires NoSelfFollow(db) && Valid(Fresh(db), actions)
    requires forall a :: a in actions ==> FailureFree(a)
    requires Complete(Exec(Fresh(db), actions))
    ensures var s := Exec(Fresh(db), actions);
            var log := s.feeds.LogAt(FeedKey(u));
            && (forall i :: 0 <= i < |log| ==> log[i].tag < |s.workers|)
            && NoDup(Messages(log, s.workers))
            && (forall m :: m in Messages(log, s.workers)
                  <==> m in s.broker.bodies && Follow(u, s.broker.bodies[m].tweet.userId) in db.follows)
            && (forall i :: 0 <= i < |log| ==>
                  && Messages(log, s.workers)[i] in s.broker.bodies
                  && log[i].tweetId == s.broker.bodies[Messages(log, s.workers)[i]].tweet.tweetId)
  {
    FreshInv(db);
    InvRun(Fresh(db), actions);
    OnGraphRun(Fresh(db), actions, db);
    var s := Exec(Fresh(db), actions);
    var log := s.feeds.LogAt(FeedKey(u));
    assert Logged(log, s.workers, FeedKey(u));
    forall m
      ensures SteadyFor(s.broker, s.workers, m)
    {
      FailureFreeIsCalm(Fresh(db), actions, m);
      SteadyForRun(Fresh(db), actions, m);
    }
    CompleteParses(s);
    MessagesDistinct(s.broker, log, s.workers, FeedKey(u));
    forall m
      ensures m in Messages(log, s.workers)
         <==> m in s.broker.bodies && Follow(u, s.broker.bodies[m].tweet.userId) in db.follows
    {
      LoggedMessages(s, db, u, m);
    }
  }

  lemma FreshInv(db: UserDb)
    requires NoSelfFollow(db)
    ensures Inv(Fresh(db)) && OnGraph(Fresh(db), db)
  {
    InitialInv();
    var s := Fresh(db);
    forall key
      ensures Logged(s.feeds.LogAt(key), s.workers, key) && Bounded(s.feeds, s.workers, key) && Cached(s.feeds, key)
    {
      assert Bounded(INITIAL.feeds, INITIAL.workers, key) && Cached(INITIAL.feeds, key);
    }
  }

  // ----- against the serial worker -----

  /** The tweets of the given messages, in that order. */
  function Bodies(bodies: map<Id, Body>, order: seq<Id>): seq<Tweet>
    requires forall m :: m in order ==> m in bodies
  {
    seq(|order|, i requires 0 <= i < |order| => bodies[order[i]].tweet)
  }

  function Ids(bodies: map<Id, Body>, order: seq<Id>): seq<Id>
    requires forall m :: m in order ==> m in bodies
  {
    seq(|order|, i requires 0 <= i < |order| => bodies[order[i]].tweet.tweetId)
  }

  /** The messages of `order` whose author u follows. */
  ghost function Relevant(db: UserDb, bodies: map<Id, Body>, order: seq<Id>, u: Id): (r: seq<Id>)
    requires forall m :: m in order ==> m in bodies
    ensures forall m :: m in r <==> m in order && Follow(u, bodies[m].tweet.userId) in db.follows
    ensures NoDup(order) ==> NoDup(r)
  {
    if order == [] then []
    else
      var rest := Relevant(db, bodies, order[1..], u);
      if Follow(u, bodies[order[0]].tweet.userId) in db.follows then [order[0]] + rest else rest
  }

  lemma {:induction false} FollowedIsRelevant(db: UserDb, bodies: map<Id, Body>, order: seq<Id>, u: Id)
    requires forall m :: m in order ==> m in bodies
    ensures Followed(db, Bodies(bodies, order), u) == Ids(bodies, Relevant(db, bodies, order, u))
  {
    if order != [] {
      FollowedIsRelevant(db, bodies, order[1..], u);
      assert Bodies(bodies, order)[1..] == Bodies(bodies, order[1..]);
      var rest := Relevant(db, bodies, order[1..], u);
      if Follow(u, bodies[order[0]].tweet.userId) in db.follows {
        assert Ids(bodies, [order[0]] + rest) == [bodies[order[0]].tweet.tweetId] + Ids(bodies, rest);
      }
    }
  }

  function Without<T>(s: seq<T>, k: nat): seq<T>
    requires k < |s|
  {
    s[..k] + s[k + 1..]
  }

  lemma WithoutMultiset<T>(s: seq<T>, k: nat)
    requires k < |s|
    ensures multiset(s) == multiset(Without(s, k)) + multiset{s[k]}
  {
    assert s == s[..k] + [s[k]] + s[k + 1..];
  }

  lemma IdsWithout(bodies: map<Id, Body>, order: seq<Id>, k: nat)
    requires k < |order| && forall m :: m in order ==> m in bodies
    ensures multiset(Ids(bodies, order))
         == multiset(Ids(bodies, Without(order, k))) + multiset{bodies[order[k]].tweet.tweetId}
  {
    WithoutMultiset(Ids(bodies, order), k);
    assert Without(Ids(bodies, order), k) == Ids(bodies, Without(order, k));
  }

  lemma CancelOne<T>(a: multiset<T>, b: multiset<T>, x: T)
    requires a + multiset{x} == b + multiset{x}
    ensures a == b
  {
    assert a == (a + multiset{x}) - multiset{x};
    assert b == (b + multiset{x}) - multiset{x};
  }

  lemma {:induction false} IdsOfPermutation(bodies: map<Id, Body>, a: seq<Id>, b: seq<Id>)
    requires multiset(a) == multiset(b)
    requires forall m :: m in a ==> m in bodies
    requires forall m :: m in b ==> m in bodies
    ensures multiset(Ids(bodies, a)) == multiset(Ids(bodies, b))
    decreases |a|
  {
    if a == [] {
      assert |b| == |multiset(b)| == 0;
    } else {
      assert a[0] in multiset(b);
      var k :| 0 <= k < |b| && b[k] == a[0];
      WithoutMultiset(a, 0);
      WithoutMultiset(b, k);
      CancelOne(multiset(Without(a, 0)), multiset(Without(b, k)), a[0]);
      IdsOfPermutation(bodies, Without(a, 0), Without(b, k));
      IdsWithout(bodies, a, 0);
      IdsWithout(bodies, b, k);
    }
  }

  /**
   * Schedule independence: in a complete failure-free run over a fixed follow graph, the push log of every
   * feed is a permutation of the plain query over the same messages in any order.
   */
  lemma ScheduleIndependence(db: UserDb, actions: seq<Action>, order: seq<Id>, u: Id)
    requires NoSelfFollow(db) && Valid(Fresh(db), actions)
    requires forall a :: a in actions ==> FailureFree(a)
    requires Complete(Exec(Fresh(db), actions))
    requires NoDup(order) && forall m :: m in order <==> m in Exec(Fresh(db), actions).broker.bodies
    ensures var s := Exec(Fresh(db), actions);
            multiset(PushLog(s, u)) == multiset(Followed(db, Bodies(s.broker.bodies, order), u))
  {
    EachFollowerOnce(db, actions, u);
    var s := Exec(Fresh(db), actions);
    var log := s.feeds.LogAt(FeedKey(u));
    var ms := Messages(log, s.workers);
    var relevant := Relevant(db, s.broker.bodies, order, u);
    SameMembersSameMultiset(ms, relevant);
    IdsOfPermutation(s.broker.bodies, ms, relevant);
    FollowedIsRelevant(db, s.broker.bodies, order, u);
    assert PushLog(s, u) == Ids(s.broker.bodies, ms);
  }

  lemma {:induction false} ReversedMultiset<T>(q: seq<T>)
    ensures multiset(Reversed(q)) == multiset(q)
  {
    if q != [] {
      ReversedMultiset(q[1..]);
      assert q == [q[0]] + q[1..];
    }
  }

  /**
   * Against the serial worker: let it handle the same messages one at a time in any order. Its feed is the
   * newest thousand of a log that every concurrent schedule's push log is a permutation of.
   */
  lemma SerialLogPermuted(db: UserDb, actions: seq<Action>, order: seq<Id>, events: seq<Event>, u: Id)
    requires NoSelfFollow(db) && Valid(Fresh(db), actions)
    requires forall a :: a in actions ==> FailureFree(a)
    requires Complete(Exec(Fresh(db), actions))
    requires NoDup(order) && forall m :: m in order <==> m in Exec(Fresh(db), actions).broker.bodies
    requires Genuine(World(db, map[]), events) && forall e :: e in events ==> e.Handled?
    requires TweetsOf(events) == Bodies(Exec(Fresh(db), actions).broker.bodies, order)
    ensures multiset(PushLog(Exec(Fresh(db), actions), u)) == multiset(Timeline(db, events, u))
    ensures At(Play(World(db, map[]), events).lists, FeedKey(u)) == Newest(Timeline(db, events, u), FEED_CAP)
  {
    ScheduleIndependence(db, actions, order, u);
    FixedGraphTimeline(db, events, u);
    ReversedMultiset(Followed(db, TweetsOf(events), u));
    FeedFollowsTimeline(World(db, map[]), events, u);
    assert Timeline(db, events, u) + [] == Timeline(db, events, u);
  }

  // ----- how many pushes there are in all -----

  function CountFollowing(db: UserDb, users: seq<Id>, author: Id): nat {
    if users == [] then 0
    else (if Follow(users[0], author) in db.follows then 1 else 0) + CountFollowing(db, users[1..], author)
  }

  lemma {:induction false} CountFollowingIsCardinality(db: UserDb, users: seq<Id>, author: Id)
    requires NoDup(users)
    ensures CountFollowing(db, users, author) == |set u | u in users && Follow(u, author) in db.follows|
  {
    if users != [] {
      var rest := users[1..];
      CountFollowingIsCardinality(db, rest, author);
      var those := set u | u in rest && Follow(u, author) in db.follows;
      if Follow(users[0], author) in db.follows {
        assert (set u | u in users && Follow(u, author) in db.follows) == those + {users[0]};
      } else {
        assert (set u | u in users && Follow(u, author) in db.follows) == those;
      }
    }
  }

  function FollowedTotal(db: UserDb, tweets: seq<Tweet>, users: seq<Id>): nat {
    if users == [] then 0 else |Followed(db, tweets, users[0])| + FollowedTotal(db, tweets, users[1..])
  }

  lemma {:induction false} FollowedTotalStep(db: UserDb, tweets: seq<Tweet>, users: seq<Id>)
    requires tweets != []
    ensures FollowedTotal(db, tweets, users)
         == CountFollowing(db, users, tweets[0].userId) + FollowedTotal(db, tweets[1..], users)
  {
    if users != [] {
      FollowedTotalStep(db, tweets, users[1..]);
    }
  }

  /** The sum over the tweets of the number of their author's followers. */
  ghost function AudienceTotal(db: UserDb, tweets: seq<Tweet>): nat {
    if tweets == [] then 0 else |FollowersOf(db, tweets[0].userId)| + AudienceTotal(db, tweets[1..])
  }

  lemma {:induction false} FollowedTotalIsAudience(db: UserDb, tweets: seq<Tweet>, users: seq<Id>)
    requires NoDup(users) && forall row :: row in db.follows ==> row.follower in users
    ensures FollowedTotal(db, tweets, users) == AudienceTotal(db, tweets)
  {
    if tweets == [] {
      NothingFollowed(db, users);
    } else {
      FollowedTotalStep(db, tweets, users);
      FollowedTotalIsAudience(db, tweets[1..], users);
      var author := tweets[0].userId;
      CountFollowingIsCardinality(db, users, author);
      var those := set u | u in users && Follow(u, author) in db.follows;
      forall u
        ensures u in those <==> u in FollowersOf(db, author)
      {
        if u in those {
          assert Follow(u, author).follower == u;
        }
      }
      assert those == FollowersOf(db, author);
    }
  }

  lemma {:induction false} NothingFollowed(db: UserDb, users: seq<Id>)
    ensures FollowedTotal(db, [], users) == 0
  {
    if users != [] {
      NothingFollowed(db, users[1..]);
    }
  }

  function PushTotal(s: State, users: seq<Id>): nat {
    if users == [] then 0 else |PushLog(s, users[0])| + PushTotal(s, users[1..])
  }

  lemma {:induction false} PushTotalIsFollowed(db: UserDb, s: State, tweets: seq<Tweet>, users: seq<Id>)
    requires forall u :: u in users ==> multiset(PushLog(s, u)) == multiset(Followed(db, tweets, u))
    ensures PushTotal(s, users) == FollowedTotal(db, tweets, users)
  {
    if users != [] {
      assert |multiset(PushLog(s, users[0]))| == |multiset(Followed(db, tweets, users[0]))|;
      PushTotalIsFollowed(db, s, tweets, users[1..]);
    }
  }

  /**
   * Conservation of pushes: in a complete failure-free run over a fixed follow graph, the entries of all
   * push logs together number the sum over the messages of their authors' follower counts.
   */
  lemma TotalPushes(db: UserDb, actions: seq<Action>, order: seq<Id>, users: seq<Id>)
    requires NoSelfFollow(db) && Valid(Fresh(db), actions)
    requires forall a :: a in actions ==> FailureFree(a)
    requires Complete(Exec(Fresh(db), actions))
    requires NoDup(order) && forall m :: m in order <==> m in Exec(Fresh(db), actions).broker.bodies
    requires NoDup(users) && forall row :: row in db.follows ==> row.follower in users
    ensures var s := Exec(Fresh(db), actions);
            PushTotal(s, users) == AudienceTotal(db, Bodies(s.broker.bodies, order))
  {
    var s := Exec(Fresh(db), actions);
    var tweets := Bodies(s.broker.bodies, order);
    forall u | u in users
      ensures multiset(PushLog(s, u)) == multiset(Followed(db, tweets, u))
    {
      ScheduleIndependence(db, actions, order, u);
    }
    PushTotalIsFollowed(db, s, tweets, users);
    FollowedTotalIsAudience(db, tweets, users);
  }
}
