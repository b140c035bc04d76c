/**
 * The tweet service, one request at a time: each handler changes rows and counters in one transaction
 * that commits or rolls back, and posting calls the user service afterwards.
 */
module Tweets {
  import opened Common
  import opened Marks
  import opened Users

  datatype Tweet = Tweet(userId: Id, counters: Counters)
  datatype Reply = Reply(userId: Id, parent: Id)

  /** `rows` holds both mark tables; `issued` are the ids ever given out, history only. */
  datatype TweetDb = TweetDb(tweets: map<Id, Tweet>, replies: map<Id, Reply>, rows: map<Id, Mark>, issued: set<Id>)

  const NO_TWEETS := TweetDb(map[], map[], map[], {})

  /**
   * A new tweet is committed, read back, counted and announced on the message queue. Each stage but the
   * counting may fail the request, and only a failed commit leaves no tweet.
   */
  datatype Storing = NotCommitted | NotRefreshed | NotAnnounced | Stored

  function TweetCreated(db: TweetDb, user: Id, id: Id, storing: Storing): (TweetDb, Status) {
    if storing.NotCommitted? then (db, DatabaseError)
    else (db.(tweets := db.tweets[id := Tweet(user, Counters(0, 0))], issued := db.issued + {id}),
          match storing
          case NotAnnounced => ServerError
          case Stored => Ok
          case _ => DatabaseError)
  }

  /** The tweet's like and repost rows stay behind. */
  function TweetDeleted(db: TweetDb, caller: Id, id: Id, commit: bool): (TweetDb, Status) {
    if id !in db.tweets then (db, NotFound)
    else if db.tweets[id].userId != caller then (db, Forbidden)
    else if !commit then (db, DatabaseError)
    else (db.(tweets := db.tweets - {id}), Ok)
  }

  /** Neither looks the parent up nor counts the reply on it. */
  function ReplyCreated(db: TweetDb, user: Id, parent: Id, id: Id, commit: bool): (TweetDb, Status) {
    if !commit then (db, DatabaseError)
    else (db.(replies := db.replies[id := Reply(user, parent)], issued := db.issued + {id}), Ok)
  }

  function ReplyDeleted(db: TweetDb, caller: Id, id: Id, commit: bool): (TweetDb, Status) {
    if id !in db.replies then (db, NotFound)
    else if db.replies[id].userId != caller then (db, Forbidden)
    else if !commit then (db, DatabaseError)
    else (db.(replies := db.replies - {id}), Ok)
  }

  function Adjusted(tweets: map<Id, Tweet>, id: Id, kind: Kind, delta: int): map<Id, Tweet>
    requires id in tweets
  {
    var t := tweets[id];
    tweets[id := t.(counters := t.counters.With(kind, t.counters.Of(kind) + delta))]
  }

  function MarkCreated(db: TweetDb, kind: Kind, user: Id, tweet: Id, rowId: Id, commit: bool): (TweetDb, Status) {
    var mark := Mark(kind, user, tweet);
    if tweet !in db.tweets then (db, NotFound)
    else if Duplicate(db.rows, mark) || !commit then (db, DatabaseError)
    else (db.(tweets := Adjusted(db.tweets, tweet, kind, 1),
              rows := db.rows[rowId := mark], issued := db.issued + {rowId}), Ok)
  }

  function MarkDeleted(db: TweetDb, kind: Kind, caller: Id, rowId: Id, commit: bool): (TweetDb, Status) {
    if rowId !in db.rows || db.rows[rowId].kind != kind then (db, NotFound)
    else if db.rows[rowId].user != caller then (db, Forbidden)
    else if !commit then (db, DatabaseError)
    else
      var tweet := db.rows[rowId].tweet;
      (db.(tweets := if tweet in db.tweets then Adjusted(db.tweets, tweet, kind, -1) else db.tweets,
           rows := db.rows - {rowId}), Ok)
  }

  // ----- the call to the user service -----

  /** The RPC may not arrive, or arrive with its reply delivered or lost; the user service's commit may fail. */
  datatype Rpc = Unreachable | Replied(commit: bool) | ReplyLost(commit: bool)

  function Incremented(users: UserDb, user: Id, rpc: Rpc): UserDb {
    if rpc.Unreachable? then users else TweetCounted(users, user, rpc.commit).0
  }

  predicate TakesEffect(users: UserDb, user: Id, rpc: Rpc) {
    !rpc.Unreachable? && user in users.users && rpc.commit
  }

  // ----- whole runs over both services -----

  datatype System = System(tweets: TweetDb, users: UserDb)

  datatype Event =
    | PostTweet(user: Id, id: Id, storing: Storing, rpc: Rpc)
    | RemoveTweet(caller: Id, id: Id, commit: bool)
    | PostReply(user: Id, parent: Id, id: Id, commit: bool, rpc: Rpc)
    | RemoveReply(caller: Id, id: Id, commit: bool)
    | AddMark(kind: Kind, user: Id, tweet: Id, rowId: Id, commit: bool)
    | RemoveMark(kind: Kind, caller: Id, rowId: Id, commit: bool)
    | UserRequest(request: Request)

  /** Generated ids are new, and only posting calls IncrementsTweets. */
  predicate Possible(s: System, e: Event) {
    match e
    case PostTweet(_, id, _, _) => id !in s.tweets.issued
    case PostReply(_, _, id, _, _) => id !in s.tweets.issued
    case AddMark(_, _, _, rowId, _) => rowId !in s.tweets.issued
    case UserRequest(r) => !r.Counting?
    case _ => true
  }

  function TweetsAfter(db: TweetDb, e: Event): (TweetDb, Status) {
    match e
    case PostTweet(user, id, storing, _) => TweetCreated(db, user, id, storing)
    case RemoveTweet(caller, id, commit) => TweetDeleted(db, caller, id, commit)
    case PostReply(user, parent, id, commit, _) => ReplyCreated(db, user, parent, id, commit)
    case RemoveReply(caller, id, commit) => ReplyDeleted(db, caller, id, commit)
    case AddMark(kind, user, tweet, rowId, commit) => MarkCreated(db, kind, user, tweet, rowId, commit)
    case RemoveMark(kind, caller, rowId, commit) => MarkDeleted(db, kind, caller, rowId, commit)
    case UserRequest(_) => (db, Ok)
  }

  /** The post is committed. */
  predicate Commits(e: Event) {
    (e.PostTweet? && !e.storing.NotCommitted?) || (e.PostReply? && e.commit)
  }

  /** The handler goes on to call the user service. */
  predicate Calls(e: Event) {
    (e.PostTweet? && (e.storing.NotAnnounced? || e.storing.Stored?)) || (e.PostReply? && e.commit)
  }

  function Happen(s: System, e: Event): System {
    System(TweetsAfter(s.tweets, e).0,
           if Calls(e) then Incremented(s.users, e.user, e.rpc)
           else if e.UserRequest? then Serve(s.users, e.request) else s.users)
  }

  predicate Valid(s: System, events: seq<Event>)
    decreases events
  {
    events == [] || (Possible(s, events[0]) && Valid(Happen(s, events[0]), events[1..]))
  }

  function Run(s: System, events: seq<Event>): System
    decreases events
  {
    if events == [] then s else Run(Happen(s, events[0]), events[1..])
  }

  const START := System(NO_TWEETS, EMPTY)

  // ----- counters against rows -----

  ghost predicate Agrees(db: TweetDb, kind: Kind, tweet: Id) {
    tweet in db.tweets ==> db.tweets[tweet].counters.Of(kind) == |RowsOf(db.rows, kind, tweet)|
  }

  /** Rows are unique per user, and everything refers to issued ids. */
  ghost predicate Sound(db: TweetDb) {
    && db.tweets.Keys <= db.issued && db.rows.Keys <= db.issued && db.replies.Keys <= db.issued
    && (forall r :: r in db.rows ==> db.rows[r].tweet in db.issued)
    && (forall r, q :: r in db.rows && q in db.rows && db.rows[r] == db.rows[q] ==> r == q)
  }

  ghost predicate Consistent(db: TweetDb) {
    Sound(db) && forall kind, tweet :: Agrees(db, kind, tweet)
  }

  lemma SoundStep(s: System, e: Event)
    requires Sound(s.tweets) && Possible(s, e)
    ensures Sound(Happen(s, e).tweets)
  {
  }

  lemma MarkCreatedAgrees(db: TweetDb, kind: Kind, user: Id, tweet: Id, rowId: Id, commit: bool, k: Kind, t: Id)
    requires Sound(db) && rowId !in db.issued && Agrees(db, k, t)
    ensures Agrees(MarkCreated(db, kind, user, tweet, rowId, commit).0, k, t)
  {
    RowsAfterInsert(db.rows, rowId, Mark(kind, user, tweet), k, t);
  }

  lemma MarkDeletedAgrees(db: TweetDb, kind: Kind, caller: Id, rowId: Id, commit: bool, k: Kind, t: Id)
    requires Agrees(db, k, t)
    ensures Agrees(MarkDeleted(db, kind, caller, rowId, commit).0, k, t)
  {
    RowsAfterDelete(db.rows, rowId, k, t);
  }

  lemma AgreesStep(s: System, e: Event, kind: Kind, tweet: Id)
    requires Sound(s.tweets) && Possible(s, e) && Agrees(s.tweets, kind, tweet)
    ensures Agrees(Happen(s, e).tweets, kind, tweet)
  {
    match e
    case PostTweet(_, id, _, _) => assert id == tweet ==> RowsOf(s.tweets.rows, kind, tweet) == {};
    case AddMark(k, user, t, rowId, commit) => MarkCreatedAgrees(s.tweets, k, user, t, rowId, commit, kind, tweet);
    case RemoveMark(k, caller, rowId, commit) => MarkDeletedAgrees(s.tweets, k, caller, rowId, commit, kind, tweet);
    case _ =>
  }

  lemma ConsistentStep(s: System, e: Event)
    requires Consistent(s.tweets) && Possible(s, e)
    ensures Consistent(Happen(s, e).tweets)
  {
    SoundStep(s, e);
    forall kind, tweet
      ensures Agrees(Happen(s, e).tweets, kind, tweet)
    {
      AgreesStep(s, e, kind, tweet);
    }
  }

  /** The same of the tweet tables alone. */
  lemma ConsistentAfter(db: TweetDb, e: Event)
    requires Consistent(db) && Possible(System(db, EMPTY), e)
    ensures Consistent(TweetsAfter(db, e).0)
  {
    ConsistentStep(System(db, EMPTY), e);
  }

  lemma {:induction false} ConsistentRun(s: System, events: seq<Event>)
    requires Consistent(s.tweets) && Valid(s, events)
    ensures Consistent(Run(s, events).tweets)
    decreases events
  {
    if events != [] {
      ConsistentStep(s, events[0]);
      ConsistentRun(Happen(s, events[0]), events[1..]);
    }
  }

  /** Who marked the tweet. */
  ghost function Markers(db: TweetDb, kind: Kind, tweet: Id): set<Id> {
    set r | r in db.rows && IsRow(db.rows, r, kind, tweet) :: db.rows[r].user
  }

  lemma {:induction false} RowsAreUsers(rows: map<Id, Mark>, some: set<Id>, kind: Kind, tweet: Id)
    requires some <= rows.Keys && forall r :: r in some ==> Concerns(rows[r], kind, tweet)
    requires forall r, q :: r in rows && q in rows && rows[r] == rows[q] ==> r == q
    ensures |some| == |set r | r in some :: rows[r].user|
  {
    if some != {} {
      var r :| r in some;
      var rest := some - {r};
      RowsAreUsers(rows, rest, kind, tweet);
      var users := set q | q in rest :: rows[q].user;
      assert (set q | q in some :: rows[q].user) == users + {rows[r].user};
      assert rows[r].user !in users;
    }
  }

  /**
   * Serial counter agreement: after any sequence of requests, with any commits failing, a live tweet's
   * counters are the sizes of its row sets, and those are the numbers of distinct users who marked it.
   */
  lemma CountersCountUsers(events: seq<Event>, kind: Kind, tweet: Id)
    requires Valid(START, events) && tweet in Run(START, events).tweets.tweets
    ensures var db := Run(START, events).tweets;
            && db.tweets[tweet].counters.Of(kind) == |RowsOf(db.rows, kind, tweet)|
            && db.tweets[tweet].counters.Of(kind) == |Markers(db, kind, tweet)|
  {
    ConsistentRun(START, events);
    var db := Run(START, events).tweets;
    assert Agrees(db, kind, tweet);
    RowsAreUsers(db.rows, RowsOf(db.rows, kind, tweet), kind, tweet);
    assert Markers(db, kind, tweet) == set r | r in RowsOf(db.rows, kind, tweet) :: db.rows[r].user;
  }

  lemma InMarkers(db: TweetDb, kind: Kind, user: Id, tweet: Id)
    ensures user in Markers(db, kind, tweet) <==> Duplicate(db.rows, Mark(kind, user, tweet))
  {
    if Duplicate(db.rows, Mark(kind, user, tweet)) {
      var r :| r in db.rows && db.rows[r] == Mark(kind, user, tweet);
      assert IsRow(db.rows, r, kind, tweet) && db.rows[r].user == user;
    }
    if r :| r in db.rows && IsRow(db.rows, r, kind, tweet) && db.rows[r].user == user {
      assert db.rows[r] == Mark(kind, user, tweet);
    }
  }

  /**
   * A like or repost is accepted exactly when its tweet is live, its user had not marked it yet and it
   * commits; then its user joins those who marked that tweet, and no other set of markers changes.
   */
  lemma MarkOutcome(db: TweetDb, kind: Kind, user: Id, tweet: Id, rowId: Id, commit: bool, k: Kind, t: Id)
    requires rowId !in db.rows
    ensures var (after, status) := MarkCreated(db, kind, user, tweet, rowId, commit);
            && (status.Ok? <==> tweet in db.tweets && user !in Markers(db, kind, tweet) && commit)
            && (status.NotFound? <==> tweet !in db.tweets)
            && (!status.Ok? ==> after == db)
            && Markers(after, k, t)
                 == Markers(db, k, t) + (if status.Ok? && k == kind && t == tweet then {user} else {})
  {
    var (after, status) := MarkCreated(db, kind, user, tweet, rowId, commit);
    InMarkers(db, kind, user, tweet);
    if status.Ok? {
      forall u: Id
        ensures Duplicate(after.rows, Mark(k, u, t))
           <==> Duplicate(db.rows, Mark(k, u, t)) || Mark(k, u, t) == Mark(kind, user, tweet)
      {
        if Duplicate(db.rows, Mark(k, u, t)) {
          var r :| r in db.rows && db.rows[r] == Mark(k, u, t);
          assert after.rows[r] == Mark(k, u, t);
        }
        assert after.rows[rowId] == Mark(kind, user, tweet);
      }
      forall u: Id
        ensures u in Markers(after, k, t) <==> u in Markers(db, k, t) || (k == kind && t == tweet && u == user)
      {
        InMarkers(db, k, u, t);
        InMarkers(after, k, u, t);
      }
    }
  }

  /** Of all counters, only that one differs, by `delta`; no tweet comes, goes or changes hands. */
  ghost predicate OneCounterMoved(before: map<Id, Tweet>, after: map<Id, Tweet>, kind: Kind, tweet: Id, delta: int) {
    && before.Keys == after.Keys
    && (forall t :: t in before && t in after ==> after[t].userId == before[t].userId)
    && forall t, k: Kind | t in before && t in after ::
         after[t].counters.Of(k) == before[t].counters.Of(k) + if k == kind && t == tweet then delta else 0
  }

  /**
   * The deletion of a like or repost is accepted exactly when the row is the caller's, of that kind, and the
   * deletion commits; then the caller alone leaves those who marked its tweet. Otherwise nothing changes.
   */
  lemma UnmarkOutcome(db: TweetDb, kind: Kind, caller: Id, rowId: Id, commit: bool, k: Kind, t: Id)
    requires Sound(db)
    ensures var (after, status) := MarkDeleted(db, kind, caller, rowId, commit);
            && (status.Ok? <==>
                  rowId in db.rows && db.rows[rowId].kind == kind && db.rows[rowId].user == caller && commit)
            && (!status.Ok? ==> after == db)
            && Markers(after, k, t)
                 == Markers(db, k, t) - (if status.Ok? && IsRow(db.rows, rowId, k, t) then {caller} else {})
  {
    var (after, status) := MarkDeleted(db, kind, caller, rowId, commit);
    forall u: Id
      ensures u in Markers(after, k, t)
         <==> u in Markers(db, k, t) && !(status.Ok? && IsRow(db.rows, rowId, k, t) && u == caller)
    {
      InMarkers(db, k, u, t);
      InMarkers(after, k, u, t);
      if r :| r in db.rows && db.rows[r] == Mark(k, u, t) && r in after.rows {
        assert after.rows[r] == Mark(k, u, t);
      }
    }
  }

  /** Marking a tweet and deleting that very row restores tweets, counters and rows. */
  lemma MarkUnmark(db: TweetDb, kind: Kind, user: Id, tweet: Id, rowId: Id)
    requires rowId !in db.rows && MarkCreated(db, kind, user, tweet, rowId, true).1.Ok?
    ensures var marked := MarkCreated(db, kind, user, tweet, rowId, true).0;
            var (after, status) := MarkDeleted(marked, kind, user, rowId, true);
            status.Ok? && after.tweets == db.tweets && after.rows == db.rows && after.replies == db.replies
  {
    var marked := MarkCreated(db, kind, user, tweet, rowId, true).0;
    assert marked.rows - {rowId} == db.rows;
  }

  // ----- who may remove what -----

  /** The event is a request by `owner` to delete the tweet, the reply or the row `id`. */
  predicate Deletes(e: Event, owner: Id, id: Id) {
    || (e.RemoveTweet? && e.caller == owner && e.id == id)
    || (e.RemoveReply? && e.caller == owner && e.id == id)
    || (e.RemoveMark? && e.caller == owner && e.rowId == id)
  }

  ghost predicate OwnsTweet(db: TweetDb, owner: Id, id: Id) {
    id in db.tweets && db.tweets[id].userId == owner
  }

  ghost predicate OwnsReply(db: TweetDb, owner: Id, id: Id, parent: Id) {
    id in db.replies && db.replies[id] == Reply(owner, parent)
  }

  ghost predicate OwnsRow(db: TweetDb, owner: Id, id: Id, mark: Mark) {
    id in db.rows && db.rows[id] == mark && mark.user == owner
  }

  lemma KeptByStep(s: System, e: Event, owner: Id, id: Id, parent: Id, mark: Mark)
    requires Sound(s.tweets) && Possible(s, e) && !Deletes(e, owner, id)
    ensures OwnsTweet(s.tweets, owner, id) ==> OwnsTweet(Happen(s, e).tweets, owner, id)
    ensures OwnsReply(s.tweets, owner, id, parent) ==> OwnsReply(Happen(s, e).tweets, owner, id, parent)
    ensures OwnsRow(s.tweets, owner, id, mark) ==> OwnsRow(Happen(s, e).tweets, owner, id, mark)
  {
  }

  /** Nothing but its owner's own request removes a tweet, a reply or a row, or changes whose it is. */
  lemma {:induction false} OnlyOwnersDelete(s: System, events: seq<Event>, owner: Id, id: Id, parent: Id, mark: Mark)
    requires Sound(s.tweets) && Valid(s, events)
    requires forall e :: e in events ==> !Deletes(e, owner, id)
    ensures OwnsTweet(s.tweets, owner, id) ==> OwnsTweet(Run(s, events).tweets, owner, id)
    ensures OwnsReply(s.tweets, owner, id, parent) ==> OwnsReply(Run(s, events).tweets, owner, id, parent)
    ensures OwnsRow(s.tweets, owner, id, mark) ==> OwnsRow(Run(s, events).tweets, owner, id, mark)
    decreases events
  {
    if events != [] {
      SoundStep(s, events[0]);
      KeptByStep(s, events[0], owner, id, parent, mark);
      OnlyOwnersDelete(Happen(s, events[0]), events[1..], owner, id, parent, mark);
    }
  }

  // ----- tweet counts across the services -----

  /** The posts by u the run committed. */
  function Authored(s: System, events: seq<Event>, u: Id): nat
    decreases events
  {
    if events == [] then 0
    else (if Commits(events[0]) && events[0].user == u then 1 else 0)
         + Authored(Happen(s, events[0]), events[1..], u)
  }

  /** The committed posts by u whose increment call was not made or had no effect. */
  function Uncounted(s: System, events: seq<Event>, u: Id): nat
    decreases events
  {
    if events == [] then 0
    else (if Commits(events[0]) && events[0].user == u
             && !(Calls(events[0]) && TakesEffect(s.users, u, events[0].rpc)) then 1 else 0)
         + Uncounted(Happen(s, events[0]), events[1..], u)
  }

  lemma {:induction false} TweetCountRun(s: System, events: seq<Event>, u: Id)
    requires Valid(s, events)
    ensures Authored(s, events, u) - Uncounted(s, events, u)
         == NumTweets(Run(s, events).users, u) - NumTweets(s.users, u)
    decreases events
  {
    if events != [] {
      TweetCountRun(Happen(s, events[0]), events[1..], u);
    }
  }

  ghost function TweetsBy(tweets: map<Id, Tweet>, u: Id): set<Id> {
    set t | t in tweets && tweets[t].userId == u
  }

  ghost function RepliesBy(replies: map<Id, Reply>, u: Id): set<Id> {
    set r | r in replies && replies[r].userId == u
  }

  /** The event deletes a tweet or a reply of u. */
  predicate RemovesNow(db: TweetDb, e: Event, u: Id) {
    (e.RemoveTweet? || e.RemoveReply?) && e.caller == u && TweetsAfter(db, e).1.Ok?
  }

  /** How many requests of the run deleted a tweet or a reply of u. */
  function Removed(s: System, events: seq<Event>, u: Id): nat
    decreases events
  {
    if events == [] then 0
    else (if RemovesNow(s.tweets, events[0], u) then 1 else 0) + Removed(Happen(s, events[0]), events[1..], u)
  }

  lemma TweetsByAfterInsert(tweets: map<Id, Tweet>, id: Id, x: Tweet, u: Id)
    requires id !in tweets
    ensures |TweetsBy(tweets[id := x], u)| == |TweetsBy(tweets, u)| + if x.userId == u then 1 else 0
  {
    if x.userId == u {
      assert TweetsBy(tweets[id := x], u) == TweetsBy(tweets, u) + {id};
    } else {
      assert TweetsBy(tweets[id := x], u) == TweetsBy(tweets, u);
    }
  }

  lemma TweetsByAfterDelete(tweets: map<Id, Tweet>, id: Id, u: Id)
    ensures |TweetsBy(tweets - {id}, u)|
         == |TweetsBy(tweets, u)| - if id in tweets && tweets[id].userId == u then 1 else 0
  {
    if id in tweets && tweets[id].userId == u {
      assert TweetsBy(tweets - {id}, u) == TweetsBy(tweets, u) - {id};
    } else {
      assert TweetsBy(tweets - {id}, u) == TweetsBy(tweets, u);
    }
  }

  lemma RepliesByAfterInsert(replies: map<Id, Reply>, id: Id, x: Reply, u: Id)
    requires id !in replies
    ensures |RepliesBy(replies[id := x], u)| == |RepliesBy(replies, u)| + if x.userId == u then 1 else 0
  {
    if x.userId == u {
      assert RepliesBy(replies[id := x], u) == RepliesBy(replies, u) + {id};
    } else {
      assert RepliesBy(replies[id := x], u) == RepliesBy(replies, u);
    }
  }

  lemma RepliesByAfterDelete(replies: map<Id, Reply>, id: Id, u: Id)
    ensures |RepliesBy(replies - {id}, u)|
         == |RepliesBy(replies, u)| - if id in replies && replies[id].userId == u then 1 else 0
  {
    if id in replies && replies[id].userId == u {
      assert RepliesBy(replies - {id}, u) == RepliesBy(replies, u) - {id};
    } else {
      assert RepliesBy(replies - {id}, u) == RepliesBy(replies, u);
    }
  }

  lemma PostsStep(db: TweetDb, e: Event, u: Id)
    requires e.PostTweet? || e.PostReply? ==> e.id !in db.tweets && e.id !in db.replies
    ensures var after := TweetsAfter(db, e).0;
            |TweetsBy(after.tweets, u)| + |RepliesBy(after.replies, u)|
              == |TweetsBy(db.tweets, u)| + |RepliesBy(db.replies, u)|
                 + (if Commits(e) && e.user == u then 1 else 0) - if RemovesNow(db, e, u) then 1 else 0
  {
    match e
    case PostTweet(user, id, _, _) => TweetsByAfterInsert(db.tweets, id, Tweet(user, Counters(0, 0)), u);
    case RemoveTweet(_, id, _) => TweetsByAfterDelete(db.tweets, id, u);
    case PostReply(user, parent, id, _, _) => RepliesByAfterInsert(db.replies, id, Reply(user, parent), u);
    case RemoveReply(_, id, _) => RepliesByAfterDelete(db.replies, id, u);
    case _ => assert TweetsBy(TweetsAfter(db, e).0.tweets, u) == TweetsBy(db.tweets, u);
  }

  lemma {:induction false} PostsRun(s: System, events: seq<Event>, u: Id)
    requires Sound(s.tweets) && Valid(s, events)
    ensures var db, db' := s.tweets, Run(s, events).tweets;
            |TweetsBy(db'.tweets, u)| + |RepliesBy(db'.replies, u)| + Removed(s, events, u)
              == |TweetsBy(db.tweets, u)| + |RepliesBy(db.replies, u)| + Authored(s, events, u)
    decreases events
  {
    if events != [] {
      SoundStep(s, events[0]);
      PostsStep(s.tweets, events[0], u);
      PostsRun(Happen(s, events[0]), events[1..], u);
    }
  }

  /**
   * Cross-service tweet count: the tweets and replies of u that are stored now plus those u deleted are u's
   * counter plus those whose increment call was not made or took no effect. Both sides are the posts u ever
   * committed.
   */
  lemma TweetCount(events: seq<Event>, u: Id)
    requires Valid(START, events)
    ensures var s := Run(START, events);
            && Authored(START, events, u) == NumTweets(s.users, u) + Uncounted(START, events, u)
            && Authored(START, events, u)
                 == |TweetsBy(s.tweets.tweets, u)| + |RepliesBy(s.tweets.replies, u)| + Removed(START, events, u)
  {
    TweetCountRun(START, events, u);
    PostsRun(START, events, u);
    assert TweetsBy(NO_TWEETS.tweets, u) == {} && RepliesBy(NO_TWEETS.replies, u) == {};
  }

  // ----- the service object -----

  class TweetService {
    var tweets: map<Id, Tweet>
    var replies: map<Id, Reply>
    var rows: map<Id, Mark>
    ghost var issued: set<Id>
    const users: UserService

    constructor (users: UserService)
      ensures Db() == NO_TWEETS && this.users == users
    {
      this.users := users;
      tweets, replies, rows, issued := map[], map[], map[], {};
    }

    ghost function Db(): TweetDb
      reads this
    {
      TweetDb(tweets, replies, rows, issued)
    }

    /** The gRPC client call; its failures are logged and not raised. */
    method IncrementTweets(user: Id, rpc: Rpc) returns (success: Option<bool>)
      modifies users
      ensures users.Db() == Incremented(old(users.Db()), user, rpc)
      ensures success == if rpc.Replied? then Some(TakesEffect(old(users.Db()), user, rpc)) else None
    {
      if rpc.Unreachable? {
        return None;
      }
      var reply := users.IncrementsTweets(user, rpc.commit);
      success := if rpc.Replied? then Some(reply) else None;
    }

    method CreateTweet(user: Id, id: Id, storing: Storing, rpc: Rpc) returns (status: Status)
      requires id !in issued
      modifies this, users
      ensures (Db(), status) == TweetsAfter(old(Db()), PostTweet(user, id, storing, rpc))
      ensures System(Db(), users.Db()) == Happen(old(System(Db(), users.Db())), PostTweet(user, id, storing, rpc))
      ensures status.Ok? <==> storing.Stored?
      ensures status.ServerError? <==> storing.NotAnnounced?
      ensures status.Ok? || status.ServerError? || status.DatabaseError?
      ensures storing.NotCommitted? ==> Db() == old(Db())
      ensures !storing.NotCommitted? ==> OwnsTweet(Db(), user, id) && tweets[id].counters == Counters(0, 0)
      ensures tweets - {id} == old(tweets) - {id} && replies == old(replies) && rows == old(rows)
      ensures users.Db() == if status.Ok? || status.ServerError? then Incremented(old(users.Db()), user, rpc)
                            else old(users.Db())
      ensures old(Consistent(Db())) ==> Consistent(Db())
    {
      if old(Consistent(Db())) {
        ConsistentAfter(Db(), PostTweet(user, id, storing, rpc));
      }
      var tweet := Tweet(user, Counters(0, 0));
      if storing.NotCommitted? {
        return DatabaseError;
      }
      tweets := tweets[id := tweet];
      issued := issued + {id};
      if storing.NotRefreshed? {
        return DatabaseError;
      }
      var _ := IncrementTweets(user, rpc);
      status := if storing.NotAnnounced? then ServerError else Ok;
    }

    method DeleteTweet(caller: Id, id: Id, commit: bool) returns (status: Status)
      modifies this
      ensures (Db(), status) == TweetsAfter(old(Db()), RemoveTweet(caller, id, commit))
      ensures status.Ok? <==> old(OwnsTweet(Db(), caller, id)) && commit
      ensures status.Ok? <==> id in old(tweets) && id !in tweets
      ensures status.NotFound? <==> id !in old(tweets)
      ensures status.Forbidden? <==> id in old(tweets) && !old(OwnsTweet(Db(), caller, id))
      ensures status.Ok? || status.NotFound? || status.Forbidden? || status.DatabaseError?
      ensures !status.Ok? ==> Db() == old(Db())
      ensures tweets - {id} == old(tweets) - {id} && replies == old(replies) && rows == old(rows)
      ensures old(Consistent(Db())) ==> Consistent(Db())
    {
      if old(Consistent(Db())) {
        ConsistentAfter(Db(), RemoveTweet(caller, id, commit));
      }
      if id !in tweets {
        return NotFound;
      }
      if tweets[id].userId != caller {
        return Forbidden;
      }
      if !commit {
        return DatabaseError;
      }
      tweets := tweets - {id};
      status := Ok;
    }

    method CreateTweetReply(user: Id, parent: Id, id: Id, commit: bool, rpc: Rpc) returns (status: Status)
      requires id !in issued
      modifies this, users
      ensures (Db(), status) == TweetsAfter(old(Db()), PostReply(user, parent, id, commit, rpc))
      ensures System(Db(), users.Db())
           == Happen(old(System(Db(), users.Db())), PostReply(user, parent, id, commit, rpc))
      ensures status == if commit then Ok else DatabaseError
      ensures commit ==> OwnsReply(Db(), user, id, parent)
      ensures !commit ==> Db() == old(Db())
      ensures replies - {id} == old(replies) - {id} && tweets == old(tweets) && rows == old(rows)
      ensures old(Consistent(Db())) ==> Consistent(Db())
      ensures users.Db() == if status.Ok? then Incremented(old(users.Db()), user, rpc) else old(users.Db())
    {
      if old(Consistent(Db())) {
        ConsistentAfter(Db(), PostReply(user, parent, id, commit, rpc));
      }
      var reply := Reply(user, parent);
      if !commit {
        return DatabaseError;
      }
      replies := replies[id := reply];
      issued := issued + {id};
      var _ := IncrementTweets(user, rpc);
      status := Ok;
    }

    method DeleteTweetReply(caller: Id, id: Id, commit: bool) returns (status: Status)
      modifies this
      ensures (Db(), status) == TweetsAfter(old(Db()), RemoveReply(caller, id, commit))
      ensures status.Ok? <==> old(exists parent :: OwnsReply(Db(), caller, id, parent)) && commit
      ensures status.Ok? <==> id in old(replies) && id !in replies
      ensures status.NotFound? <==> id !in old(replies)
      ensures status.Forbidden? <==> id in old(replies) && !old(exists parent :: OwnsReply(Db(), caller, id, parent))
      ensures status.Ok? || status.NotFound? || status.Forbidden? || status.DatabaseError?
      ensures !status.Ok? ==> Db() == old(Db())
      ensures replies - {id} == old(replies) - {id} && tweets == old(tweets) && rows == old(rows)
      ensures old(Consistent(Db())) ==> Consistent(Db())
    {
      if old(Consistent(Db())) {
        ConsistentAfter(Db(), RemoveReply(caller, id, commit));
      }
      assert id in replies ==>
          (replies[id].userId == caller <==> OwnsReply(Db(), caller, id, replies[id].parent));
      if id !in replies {
        return NotFound;
      }
      if replies[id].userId != caller {
        return Forbidden;
      }
      if !commit {
        return DatabaseError;
      }
      replies := replies - {id};
      status := Ok;
    }

    method CreateLike(user: Id, tweet: Id, rowId: Id, commit: bool) returns (status: Status)
      requires rowId !in issued
      modifies this
      ensures (Db(), status) == TweetsAfter(old(Db()), AddMark(Like, user, tweet, rowId, commit))
      ensures status.Ok? <==> tweet in old(tweets) && user !in old(Markers(Db(), Like, tweet)) && commit
      ensures status.NotFound? <==> tweet !in old(tweets)
      ensures status.Ok? || status.NotFound? || status.DatabaseError?
      ensures !status.Ok? ==> Db() == old(Db())
      ensures status.Ok? ==>
                && rows == old(rows)[rowId := Mark(Like, user, tweet)] && replies == old(replies)
                && OneCounterMoved(old(tweets), tweets, Like, tweet, 1)
      ensures old(Consistent(Db())) ==> Consistent(Db())
    {
      if old(Consistent(Db())) {
        ConsistentAfter(Db(), AddMark(Like, user, tweet, rowId, commit));
      }
      if tweet !in tweets {
        return NotFound;
      }
      var like := Mark(Like, user, tweet);
      InMarkers(Db(), Like, user, tweet);
      var updated := tweets[tweet];
      updated := updated.(counters := updated.counters.(likes := updated.counters.likes + 1));
      if like in rows.Values || !commit {
        return DatabaseError;
      }
      rows := rows[rowId := like];
      tweets := tweets[tweet := updated];
      issued := issued + {rowId};
      status := Ok;
    }

    method DeleteLike(caller: Id, rowId: Id, commit: bool) returns (status: Status)
      modifies this
      ensures (Db(), status) == TweetsAfter(old(Db()), RemoveMark(Like, caller, rowId, commit))
      ensures status.Ok? <==> old(rowId in rows && rows[rowId].kind == Like && rows[rowId].user == caller) && commit
      ensures status.Ok? <==> rowId in old(rows) && rowId !in rows
      ensures status.NotFound? <==> !old(rowId in rows && rows[rowId].kind == Like)
      ensures status.Forbidden? <==> old(rowId in rows && rows[rowId].kind == Like && rows[rowId].user != caller)
      ensures status.Ok? || status.NotFound? || status.Forbidden? || status.DatabaseError?
      ensures !status.Ok? ==> Db() == old(Db())
      ensures status.Ok? ==>
                && rows == old(rows) - {rowId} && replies == old(replies)
                && OneCounterMoved(old(tweets), tweets, Like, old(rows)[rowId].tweet, -1)
      ensures old(Consistent(Db())) ==> Consistent(Db())
    {
      if old(Consistent(Db())) {
        ConsistentAfter(Db(), RemoveMark(Like, caller, rowId, commit));
      }
      if rowId !in rows || !rows[rowId].kind.Like? {
        return NotFound;
      }
      var like := rows[rowId];
      if like.user != caller {
        return Forbidden;
      }
      var changed := tweets;
      if like.tweet in tweets {
        var tweet := tweets[like.tweet];
        changed := tweets[like.tweet := tweet.(counters := tweet.counters.(likes := tweet.counters.likes - 1))];
      }
      if !commit {
        return DatabaseError;
      }
      rows := rows - {rowId};
      tweets := changed;
      status := Ok;
    }

    method CreateRepost(user: Id, tweet: Id, rowId: Id, commit: bool) returns (status: Status)
      requires rowId !in issued
      modifies this
      ensures (Db(), status) == TweetsAfter(old(Db()), AddMark(Repost, user, tweet, rowId, commit))
      ensures status.Ok? <==> tweet in old(tweets) && user !in old(Markers(Db(), Repost, tweet)) && commit
      ensures status.NotFound? <==> tweet !in old(tweets)
      ensures status.Ok? || status.NotFound? || status.DatabaseError?
      ensures !status.Ok? ==> Db() == old(Db())
      ensures status.Ok? ==>
                && rows == old(rows)[rowId := Mark(Repost, user, tweet)] && replies == old(replies)
                && OneCounterMoved(old(tweets), tweets, Repost, tweet, 1)
      ensures old(Consistent(Db())) ==> Consistent(Db())
    {
      if old(Consistent(Db())) {
        ConsistentAfter(Db(), AddMark(Repost, user, tweet, rowId, commit));
      }
      if tweet !in tweets {
        return NotFound;
      }
      var repost := Mark(Repost, user, tweet);
      InMarkers(Db(), Repost, user, tweet);
      var updated := tweets[tweet];
      updated := updated.(counters := updated.counters.(reposts := updated.counters.reposts + 1));
      if repost in rows.Values || !commit {
        return DatabaseError;
      }
      rows := rows[rowId := repost];
      tweets := tweets[tweet := updated];
      issued := issued + {rowId};
      status := Ok;
    }

    method DeleteRepost(caller: Id, rowId: Id, commit: bool) returns (status: Status)
      modifies this
      ensures (Db(), status) == TweetsAfter(old(Db()), RemoveMark(Repost, caller, rowId, commit))
      ensures status.Ok? <==> old(rowId in rows && rows[rowId].kind == Repost && rows[rowId].user == caller) && commit
      ensures status.Ok? <==> rowId in old(rows) && rowId !in rows
      ensures status.NotFound? <==> !old(rowId in rows && rows[rowId].kind == Repost)
      ensures status.Forbidden? <==> old(rowId in rows && rows[rowId].kind == Repost && rows[rowId].user != caller)
      ensures status.Ok? || status.NotFound? || status.Forbidden? || status.DatabaseError?
      ensures !status.Ok? ==> Db() == old(Db())
      ensures status.Ok? ==>
                && rows == old(rows) - {rowId} && replies == old(replies)
                && OneCounterMoved(old(tweets), tweets, Repost, old(rows)[rowId].tweet, -1)
      ensures old(Consistent(Db())) ==> Consistent(Db())
    {
      if old(Consistent(Db())) {
        ConsistentAfter(Db(), RemoveMark(Repost, caller, rowId, commit));
      }
      if rowId !in rows || !rows[rowId].kind.Repost? {
        return NotFound;
      }
      var repost := rows[rowId];
      if repost.user != caller {
        return Forbidden;
      }
      var changed := tweets;
      if repost.tweet in tweets {
        var tweet := tweets[repost.tweet];
        changed := tweets[repost.tweet := tweet.(counters := tweet.counters.(reposts := tweet.counters.reposts - 1))];
      }
      if !commit {
        return DatabaseError;
      }
      rows := rows - {rowId};
      tweets := changed;
      status := Ok;
    }
  }
}
