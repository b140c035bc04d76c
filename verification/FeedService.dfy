/** Reading a feed: the window of ids from Redis, and their hydration by the tweet service. */
module FeedService {
  import opened Common
  import opened Redis
  import Pipeline
  import PipelineTheorems

  /** A row of the `tweets` table, the message that carries it, and the entry of the JSON response. */
  datatype Row = Row(id: Id, userId: Id, content: string,
                     numLikes: int, numReplys: int, numReposts: int, createdAt: int)
  datatype TweetStruct = TweetStruct(id: Id, userId: Id, content: string,
                                     numLikes: int, numReplys: int, numReposts: int, createdAt: int)
  datatype View = View(id: Id, userId: Id, content: string,
                       numLikes: int, numReplys: int, numReposts: int, createdAt: int)

  /** Parameters outside their declared ranges are rejected before the handler runs. */
  datatype Response =
    | Rejected
    | Empty
    | Page(tweets: seq<View>, count: nat, limit: int, offset: int)
  {
    function Tweets(): seq<View> {
      if Page? then tweets else []
    }
  }

  // ----- the id window -----

  function GetFeedTweetIds(lists: Lists, user: Id, limit: int, offset: int): seq<Id> {
    Range(At(lists, FeedKey(user)), offset, offset + limit - 1)
  }

  /**
   * The id window is the requested page for every limit the endpoint admits. Below that it need not be:
   * when offset + limit is not positive, the end position counts from the back of the list, and the
   * read is a page only while the list is short enough for that to select nothing.
   */
  lemma WindowRead(lists: Lists, user: Id, limit: int, offset: nat)
    ensures GetFeedTweetIds(lists, user, limit, offset)
         == Window(At(lists, FeedKey(user)), offset, if limit < 0 then 0 else limit)
       <==> offset + limit >= 1 || |At(lists, FeedKey(user))| <= -limit
  {
  }

  /** The handler's read over its connection. */
  method ReadFeedTweetIds(rdb: Client, user: Id, limit: int, offset: int) returns (ids: seq<Id>)
    ensures ids == GetFeedTweetIds(rdb.lists, user, limit, offset)
    ensures limit >= 1 && offset >= 0 ==> ids == Window(At(rdb.lists, FeedKey(user)), offset, limit)
  {
    var feedKey := FeedKey(user);
    var end := offset + limit - 1;
    ids := rdb.LRange(feedKey, offset, end);
  }

  /** The offset of the page after k pages. */
  function PageStart(limit: nat, k: nat): nat {
    if k == 0 then 0 else PageStart(limit, k - 1) + limit
  }

  /** The first k pages of a feed, one after the other. */
  function Pages(lists: Lists, user: Id, limit: nat, k: nat): seq<Id> {
    if k == 0 then []
    else Pages(lists, user, limit, k - 1) + GetFeedTweetIds(lists, user, limit, PageStart(limit, k - 1))
  }

  lemma {:induction false} PageStartIsProduct(limit: nat, k: nat)
    ensures PageStart(limit, k) == k * limit
  {
    if k > 0 {
      PageStartIsProduct(limit, k - 1);
    }
  }

  lemma NextPage<T>(feed: seq<T>, start: nat, limit: nat)
    ensures Newest(feed, start) + Window(feed, start, limit) == Newest(feed, start + limit)
  {
  }

  lemma {:induction false} PagesAreNewest(lists: Lists, user: Id, limit: nat, k: nat)
    requires limit >= 1
    ensures Pages(lists, user, limit, k) == Newest(At(lists, FeedKey(user)), PageStart(limit, k))
  {
    if k > 0 {
      PagesAreNewest(lists, user, limit, k - 1);
      WindowRead(lists, user, limit, PageStart(limit, k - 1));
      NextPage(At(lists, FeedKey(user)), PageStart(limit, k - 1), limit);
    }
  }

  /** On a feed nobody is pushing to, consecutive pages give every position exactly once, in order. */
  lemma PagesCoverFeed(lists: Lists, user: Id, limit: nat, k: nat)
    requires limit >= 1
    ensures k * limit >= 0 && Pages(lists, user, limit, k) == Newest(At(lists, FeedKey(user)), k * limit)
    ensures k * limit >= |At(lists, FeedKey(user))| ==> Pages(lists, user, limit, k) == At(lists, FeedKey(user))
  {
    PageStartIsProduct(limit, k);
    PagesAreNewest(lists, user, limit, k);
  }

  // ----- hydration -----

  function ToStruct(t: Row): TweetStruct {
    TweetStruct(t.id, t.userId, t.content, t.numLikes, t.numReplys, t.numReposts, t.createdAt)
  }

  function ToView(t: TweetStruct): View {
    View(t.id, t.userId, t.content, t.numLikes, t.numReplys, t.numReposts, t.createdAt)
  }

  /** The rows whose id is among those asked for, in the order the database happens to produce them. */
  function Select(table: seq<Row>, ids: seq<Id>): seq<Row> {
    if table == [] then []
    else (if table[0].id in ids then [table[0]] else []) + Select(table[1..], ids)
  }

  /** The tweet service. */
  function ServeTweets(table: seq<Row>, ids: seq<Id>): seq<TweetStruct> {
    if ids == [] then []
    else
      var rows := Select(table, ids);
      seq(|rows|, i requires 0 <= i < |rows| => ToStruct(rows[i]))
  }

  /** The feed service's client: no call for no ids, and nothing at all when the call fails. */
  function GetTweets(table: seq<Row>, ids: seq<Id>, rpcOk: bool): seq<View> {
    if ids == [] || !rpcOk then []
    else
      var reply := ServeTweets(table, ids);
      seq(|reply|, i requires 0 <= i < |reply| => ToView(reply[i]))
  }

  function GetFeed(lists: Lists, table: seq<Row>, user: Id, limit: int, offset: int, rpcOk: bool): Response {
    if !(1 <= limit <= 100) || offset < 0 then Rejected
    else
      var ids := GetFeedTweetIds(lists, user, limit, offset);
      if ids == [] then Empty
      else
        var tweets := GetTweets(table, ids, rpcOk);
        Page(tweets, |tweets|, limit, offset)
  }

  /**
   * The answer to a request, whatever its parameters and whether or not the RPC succeeds: rejected exactly
   * outside the declared ranges, empty exactly when the requested page is, and otherwise a page that
   * reports the limit and offset asked for and counts its tweets.
   */
  lemma AnswerExactly(lists: Lists, table: seq<Row>, user: Id, limit: int, offset: int, rpcOk: bool)
    ensures var r := GetFeed(lists, table, user, limit, offset, rpcOk);
            && (r.Rejected? <==> !(1 <= limit <= 100) || offset < 0)
            && (!r.Rejected? ==> (r.Empty? <==> Window(At(lists, FeedKey(user)), offset, limit) == []))
            && (r.Page? ==> r.limit == limit && r.offset == offset && r.count == |r.tweets|)
            && (r.Page? && !rpcOk ==> r.tweets == [])
  {
    if 1 <= limit <= 100 && offset >= 0 {
      WindowRead(lists, user, limit, offset);
    }
  }

  /** The primary key. */
  ghost predicate UniqueIds(table: seq<Row>) {
    forall i, j :: 0 <= i < j < |table| ==> table[i].id != table[j].id
  }

  lemma {:induction false} SelectExact(table: seq<Row>, ids: seq<Id>)
    requires UniqueIds(table)
    ensures var rows := Select(table, ids);
            && UniqueIds(rows)
            && forall t :: t in rows <==> t in table && t.id in ids
  {
    if table != [] {
      SelectExact(table[1..], ids);
      assert forall t :: t in table <==> t == table[0] || t in table[1..];
    }
  }

  /** Distinct members of a sequence are at most as many as its positions. */
  lemma DistinctMembersFit(keys: seq<Id>, ids: seq<Id>)
    requires NoDup(keys) && forall k :: k in keys ==> k in ids
    ensures |keys| <= |ids|
  {
    NoDupCardinality(keys);
    MembersAtMostLength(ids);
    var some, all := set k | k in keys, set k | k in ids;
    assert all == some + (all - some);
  }

  /** Rows with distinct ids, all asked for, are at most as many as the positions asked for. */
  lemma SelectCount(table: seq<Row>, ids: seq<Id>)
    requires UniqueIds(table)
    ensures |Select(table, ids)| <= |ids|
  {
    SelectExact(table, ids);
    var rows := Select(table, ids);
    var keys := seq(|rows|, i requires 0 <= i < |rows| => rows[i].id);
    forall k | k in keys
      ensures k in ids
    {
      var i :| 0 <= i < |keys| && keys[i] == k;
      assert rows[i] in rows;
    }
    DistinctMembersFit(keys, ids);
  }

  /** The row a view shows. */
  function RowOf(v: View): Row {
    Row(v.id, v.userId, v.content, v.numLikes, v.numReplys, v.numReposts, v.createdAt)
  }

  /** The client's views are the selected rows, position by position. */
  lemma ViewsAreRows(table: seq<Row>, ids: seq<Id>)
    requires UniqueIds(table)
    ensures var views := GetTweets(table, ids, true);
            && (forall i, j :: 0 <= i < j < |views| ==> views[i].id != views[j].id)
            && (forall v :: v in views <==> RowOf(v) in table && v.id in ids)
            && |views| <= |ids|
  {
    SelectExact(table, ids);
    SelectCount(table, ids);
    var rows, views := Select(table, ids), GetTweets(table, ids, true);
    if ids != [] {
      assert |views| == |rows| && forall i :: 0 <= i < |rows| ==> RowOf(views[i]) == rows[i];
      forall v
        ensures v in views <==> RowOf(v) in rows
      {
        if RowOf(v) in rows {
          var i :| 0 <= i < |rows| && rows[i] == RowOf(v);
          assert views[i] == v;
        }
      }
    }
  }

  /**
   * Hydration is exact as a set: an accepted request whose RPC succeeds returns every live tweet of the
   * requested window with the fields of its row, each once however often its id occurs in the window,
   * nothing else, and never more than `limit`. One whose RPC fails returns no tweets.
   */
  lemma HydrationExact(lists: Lists, table: seq<Row>, user: Id, limit: int, offset: int)
    requires UniqueIds(table) && 1 <= limit <= 100 && offset >= 0
    ensures var window := Window(At(lists, FeedKey(user)), offset, limit);
            var response := GetFeed(lists, table, user, limit, offset, true);
            var views := response.Tweets();
            && !response.Rejected?
            && (response.Page? ==> response.count == |views|)
            && (forall i, j :: 0 <= i < j < |views| ==> views[i].id != views[j].id)
            && (forall v :: v in views <==> RowOf(v) in table && v.id in window)
            && |views| <= limit
    ensures GetFeed(lists, table, user, limit, offset, false).Tweets() == []
  {
    WindowRead(lists, user, limit, offset);
    ViewsAreRows(table, GetFeedTweetIds(lists, user, limit, offset));
  }

  /**
   * From pushes to pages: after any run of the pipeline, a page within the first thousand shows exactly
   * the live tweets among the corresponding positions of everything ever pushed to the user.
   */
  lemma PageShowsPushes(actions: seq<Pipeline.Action>, table: seq<Row>, user: Id, limit: int, offset: int, id: Id)
    requires Pipeline.Valid(Pipeline.INITIAL, actions) && UniqueIds(table)
    requires 1 <= limit <= 100 && offset >= 0 && offset + limit <= FEED_CAP
    ensures var s := Pipeline.Exec(Pipeline.INITIAL, actions);
            (exists v :: v in GetFeed(s.feeds.lists, table, user, limit, offset, true).Tweets() && v.id == id)
            <==> && (exists t :: t in table && t.id == id)
                 && id in Window(PipelineTheorems.PushLog(s, user), offset, limit)
  {
    var s := Pipeline.Exec(Pipeline.INITIAL, actions);
    PipelineTheorems.CacheRefinesLog(actions, user, offset, limit);
    HydrationExact(s.feeds.lists, table, user, limit, offset);
    var views := GetFeed(s.feeds.lists, table, user, limit, offset, true).Tweets();
    if t :| t in table && t.id == id && id in Window(PipelineTheorems.PushLog(s, user), offset, limit) {
      assert RowOf(ToView(ToStruct(t))) == t;
    }
  }
}
