/** One run of the feed worker's message handler, and the feeds a serial history of them builds. */
module FeedWorker {
  import opened Common
  import opened Redis
  import opened Users

  datatype Tweet = Tweet(userId: Id, tweetId: Id)

  /**
   * A delivered body as the decoder leaves it: whether decoding succeeded, and the fields it filled.
   * A failed decode may still have filled some of them.
   */
  datatype Body = Body(parses: bool, tweet: Tweet)

  datatype Settlement = Ack | NackRequeue

  /** The environment's answers during one attempt; the push and trim answers are per follower position. */
  datatype Net = Net(followers: Option<seq<Id>>, push: nat -> PushOutcome, trim: nat -> bool)

  /** The feeds after the fan-out loop, and the follower position at which it gave up. */
  datatype FanOutResult = FanOutResult(lists: Lists, stoppedAt: Option<nat>)

  function FanOut(lists: Lists, id: Id, followers: seq<Id>, net: Net, i: nat): FanOutResult
    requires i <= |followers|
    decreases |followers| - i
  {
    if i == |followers| then FanOutResult(lists, None)
    else
      var key := FeedKey(followers[i]);
      var pushed := Prepended(lists, key, id);
      match net.push(i)
      case Refused => FanOutResult(lists, Some(i))
      case Lost => FanOutResult(pushed, Some(i))
      case Pushed =>
        FanOut(if net.trim(i) then Trimmed(pushed, key, 0, FEED_CAP - 1) else pushed, id, followers, net, i + 1)
  }

  /** A failed follower fetch leaves the handler with no followers and no error return. */
  function Fetched(net: Net): seq<Id> {
    net.followers.GetOr([])
  }

  /**
   * The handler. It settles the delivery a first time when decoding fails and, in every case, once more
   * at the end: so exactly once if and only if the body parses, and with a final Ack exactly when no
   * push failed - a failed follower fetch included.
   */
  method HandleMessage(rdb: Client, body: Body, net: Net) returns (calls: seq<Settlement>)
    modifies rdb
    ensures rdb.lists == FanOut(old(rdb.lists), body.tweet.tweetId, Fetched(net), net, 0).lists
    ensures net.followers.Some? ==>
              rdb.lists == FanOut(old(rdb.lists), body.tweet.tweetId, net.followers.value, net, 0).lists
    ensures |calls| == 1 <==> body.parses
    ensures !body.parses ==> |calls| == 2 && calls[0] == NackRequeue
    ensures calls[|calls| - 1].Ack?
       <==> FanOut(old(rdb.lists), body.tweet.tweetId, Fetched(net), net, 0).stoppedAt.None?
    ensures net.followers.None? ==> rdb.lists == old(rdb.lists) && calls[|calls| - 1].Ack?
  {
    calls := [];
    if !body.parses {
      calls := calls + [NackRequeue];
    }
    var followers := Fetched(net);
    ghost var whole := FanOut(rdb.lists, body.tweet.tweetId, followers, net, 0);
    for i := 0 to |followers|
      invariant FanOut(rdb.lists, body.tweet.tweetId, followers, net, i) == whole
      invariant calls == if body.parses then [] else [NackRequeue]
    {
      var feedKey := FeedKey(followers[i]);
      var ok := rdb.LPush(feedKey, body.tweet.tweetId, net.push(i));
      if !ok {
        calls := calls + [NackRequeue];
        return;
      }
      rdb.LTrim(feedKey, 0, 999, net.trim(i));
    }
    calls := calls + [Ack];
  }

  /** What one attempt does to the feed of the follower at position j, given where it stopped. */
  function AfterAttempt(feed: seq<Id>, id: Id, net: Net, stoppedAt: Option<nat>, j: nat): seq<Id> {
    if stoppedAt.None? || j < stoppedAt.value then
      if net.trim(j) then Newest([id] + feed, FEED_CAP) else [id] + feed
    else if j == stoppedAt.value && net.push(j).Lost? then [id] + feed
    else feed
  }

  /** The loop stops at the first push that is not confirmed, if there is one. */
  lemma {:induction false} FanOutStops(lists: Lists, id: Id, followers: seq<Id>, net: Net, i: nat)
    requires i <= |followers|
    ensures var r := FanOut(lists, id, followers, net, i);
            if r.stoppedAt.None? then forall j :: i <= j < |followers| ==> net.push(j).Pushed?
            else
              && i <= r.stoppedAt.value < |followers| && !net.push(r.stoppedAt.value).Pushed?
              && forall j :: i <= j < r.stoppedAt.value ==> net.push(j).Pushed?
    decreases |followers| - i
  {
    if i < |followers| && net.push(i).Pushed? {
      var key := FeedKey(followers[i]);
      var pushed := Prepended(lists, key, id);
      FanOutStops(if net.trim(i) then Trimmed(pushed, key, 0, FEED_CAP - 1) else pushed, id, followers, net, i + 1);
    }
  }

  /** A key that belongs to no follower from position i on keeps its feed. */
  lemma {:induction false} FanOutElsewhere(lists: Lists, id: Id, followers: seq<Id>, net: Net, i: nat, key: string)
    requires i <= |followers| && forall j :: i <= j < |followers| ==> FeedKey(followers[j]) != key
    ensures At(FanOut(lists, id, followers, net, i).lists, key) == At(lists, key)
    decreases |followers| - i
  {
    if i < |followers| && net.push(i).Pushed? {
      var own := FeedKey(followers[i]);
      var pushed := Prepended(lists, own, id);
      var next := if net.trim(i) then Trimmed(pushed, own, 0, FEED_CAP - 1) else pushed;
      FanOutElsewhere(next, id, followers, net, i + 1, key);
    }
  }

  /** The follower at position j finds its feed as the one attempt leaves it. */
  lemma {:induction false} FanOutAt(lists: Lists, id: Id, followers: seq<Id>, net: Net, i: nat, j: nat)
    requires NoDup(followers) && i <= j < |followers|
    ensures var r := FanOut(lists, id, followers, net, i);
            At(r.lists, FeedKey(followers[j]))
              == AfterAttempt(At(lists, FeedKey(followers[j])), id, net, r.stoppedAt, j)
    decreases |followers| - i
  {
    var own := FeedKey(followers[i]);
    forall k | i < k < |followers|
      ensures FeedKey(followers[k]) != own
    {
      FeedKeyInjective(followers[i], followers[k]);
    }
    FanOutStops(lists, id, followers, net, i);
    if net.push(i).Pushed? {
      var pushed := Prepended(lists, own, id);
      var next := if net.trim(i) then Trimmed(pushed, own, 0, FEED_CAP - 1) else pushed;
      TrimKeepsNewest([id] + At(lists, own));
      if j == i {
        FanOutElsewhere(next, id, followers, net, i + 1, own);
      } else {
        FanOutAt(next, id, followers, net, i + 1, j);
      }
    }
  }

  /**
   * Fan-out feed by feed: with followers listed once each, the loop stops at the first push that is
   * not confirmed, every follower before it gets the tweet on top of its own feed, nobody after it
   * gets anything, and no other key changes.
   */
  lemma FanOutFeedByFeed(lists: Lists, id: Id, followers: seq<Id>, net: Net, key: string)
    requires NoDup(followers)
    ensures var r := FanOut(lists, id, followers, net, 0);
            && (r.stoppedAt.None? ==> forall j :: 0 <= j < |followers| ==> net.push(j).Pushed?)
            && (r.stoppedAt.Some? ==>
                  && r.stoppedAt.value < |followers| && !net.push(r.stoppedAt.value).Pushed?
                  && forall j :: 0 <= j < r.stoppedAt.value ==> net.push(j).Pushed?)
            && (forall j :: 0 <= j < |followers| && FeedKey(followers[j]) == key ==>
                  At(r.lists, key) == AfterAttempt(At(lists, key), id, net, r.stoppedAt, j))
            && ((forall j :: 0 <= j < |followers| ==> FeedKey(followers[j]) != key) ==>
                  At(r.lists, key) == At(lists, key))
  {
    FanOutStops(lists, id, followers, net, 0);
    if j :| 0 <= j < |followers| && FeedKey(followers[j]) == key {
      forall k | 0 <= k < |followers| && FeedKey(followers[k]) == key
        ensures k == j
      {
        FeedKeyInjective(followers[j], followers[k]);
      }
      FanOutAt(lists, id, followers, net, 0, j);
    } else {
      FanOutElsewhere(lists, id, followers, net, 0, key);
    }
  }

  // ----- serial histories -----

  /** Requests to the user service interleaved with whole, failure-free handler runs. */
  datatype Event =
    | UserRequest(request: Request)
    | Handled(tweet: Tweet, followers: seq<Id>)

  datatype World = World(db: UserDb, lists: Lists)

  function Smooth(followers: seq<Id>): Net {
    Net(Some(followers), i => Pushed, i => true)
  }

  function Happen(w: World, e: Event): World {
    match e
    case UserRequest(r) => w.(db := Serve(w.db, r))
    case Handled(tweet, followers) =>
      w.(lists := FanOut(w.lists, tweet.tweetId, followers, Smooth(followers), 0).lists)
  }

  function Play(w: World, events: seq<Event>): World
    decreases events
  {
    if events == [] then w else Play(Happen(w, events[0]), events[1..])
  }

  /** Each handled tweet used a follower list that was current at that moment. */
  ghost predicate Genuine(w: World, events: seq<Event>)
    decreases events
  {
    events == [] ||
    (&& (events[0].Handled? ==> IsFollowerList(w.db, events[0].tweet.userId, events[0].followers))
     && Genuine(Happen(w, events[0]), events[1..]))
  }

  predicate Reaches(db: UserDb, e: Event, u: Id) {
    e.Handled? && Follow(u, e.tweet.userId) in db.follows
  }

  function UsersAfter(db: UserDb, e: Event): UserDb {
    if e.UserRequest? then Serve(db, e.request) else db
  }

  /** Fan-out on read: the tweets whose author u followed when they were handled, newest first. */
  function Timeline(db: UserDb, events: seq<Event>, u: Id): seq<Id>
    decreases events
  {
    if events == [] then []
    else Timeline(UsersAfter(db, events[0]), events[1..], u)
         + if Reaches(db, events[0], u) then [events[0].tweet.tweetId] else []
  }

  lemma NewestAbsorbs<T>(a: seq<T>, b: seq<T>, n: nat)
    ensures Newest(a + Newest(b, n), n) == Newest(a + b, n)
  {
  }

  lemma HandledFeed(w: World, e: Event, u: Id)
    requires e.Handled? && IsFollowerList(w.db, e.tweet.userId, e.followers)
    ensures At(Happen(w, e).lists, FeedKey(u))
         == if Reaches(w.db, e, u) then Newest([e.tweet.tweetId] + At(w.lists, FeedKey(u)), FEED_CAP)
            else At(w.lists, FeedKey(u))
  {
    var key := FeedKey(u);
    FanOutFeedByFeed(w.lists, e.tweet.tweetId, e.followers, Smooth(e.followers), key);
    forall j | 0 <= j < |e.followers|
      ensures FeedKey(e.followers[j]) == key <==> e.followers[j] == u
    {
      FeedKeyInjective(e.followers[j], u);
    }
    if Reaches(w.db, e, u) {
      assert u in e.followers;
      var j :| 0 <= j < |e.followers| && e.followers[j] == u;
      assert FeedKey(e.followers[j]) == key;
    } else {
      assert u !in e.followers;
    }
  }

  lemma {:induction false} FeedFollowsTimeline(w: World, events: seq<Event>, u: Id)
    requires Genuine(w, events)
    requires |At(w.lists, FeedKey(u))| <= FEED_CAP
    ensures At(Play(w, events).lists, FeedKey(u))
         == Newest(Timeline(w.db, events, u) + At(w.lists, FeedKey(u)), FEED_CAP)
    decreases events
  {
    var start := At(w.lists, FeedKey(u));
    if events != [] {
      var e, w' := events[0], Happen(w, events[0]);
      if e.Handled? {
        HandledFeed(w, e, u);
      }
      FeedFollowsTimeline(w', events[1..], u);
      var later := Timeline(w'.db, events[1..], u);
      if Reaches(w.db, e, u) {
        NewestAbsorbs(later, [e.tweet.tweetId] + start, FEED_CAP);
        assert later + ([e.tweet.tweetId] + start) == Timeline(w.db, events, u) + start;
      } else {
        assert Timeline(w.db, events, u) == later;
      }
    }
  }

  /**
   * Fan-out on write equals fan-out on read: after any serial history, whatever follows and unfollows
   * happened in between, u's feed is the newest thousand entries of u's timeline.
   */
  lemma FanOutOnWriteIsFanOutOnRead(events: seq<Event>, u: Id)
    requires Genuine(World(EMPTY, map[]), events)
    ensures At(Play(World(EMPTY, map[]), events).lists, FeedKey(u)) == Newest(Timeline(EMPTY, events, u), FEED_CAP)
  {
    FeedFollowsTimeline(World(EMPTY, map[]), events, u);
    assert Timeline(EMPTY, events, u) + [] == Timeline(EMPTY, events, u);
  }

  /** The plain query: of the tweets in handling order, those whose author u follows. */
  function Followed(db: UserDb, tweets: seq<Tweet>, u: Id): seq<Id> {
    if tweets == [] then []
    else (if Follow(u, tweets[0].userId) in db.follows then [tweets[0].tweetId] else [])
         + Followed(db, tweets[1..], u)
  }

  function Reversed<T>(s: seq<T>): seq<T> {
    if s == [] then [] else Reversed(s[1..]) + [s[0]]
  }

  function TweetsOf(events: seq<Event>): seq<Tweet>
    requires forall e :: e in events ==> e.Handled?
  {
    if events == [] then [] else [events[0].tweet] + TweetsOf(events[1..])
  }

  /** While nobody follows or unfollows, the timeline is filter-and-reverse over the tweets handled. */
  lemma {:induction false} FixedGraphTimeline(db: UserDb, events: seq<Event>, u: Id)
    requires forall e :: e in events ==> e.Handled?
    ensures Timeline(db, events, u) == Reversed(Followed(db, TweetsOf(events), u))
  {
    if events != [] {
      FixedGraphTimeline(db, events[1..], u);
      assert TweetsOf(events)[1..] == TweetsOf(events[1..]);
      var rest := Followed(db, TweetsOf(events[1..]), u);
      if Reaches(db, events[0], u) {
        assert ([events[0].tweet.tweetId] + rest)[1..] == rest;
      } else {
        assert [] + rest == rest;
        assert Timeline(db, events[1..], u) + [] == Timeline(db, events[1..], u);
      }
    }
  }
}
