/** The Redis list commands the feed pipeline uses, and the feed cache they keep. */
module Redis {
  import opened Common

  type Lists = map<string, seq<Id>>

  /** feed-worker trims every feed to positions 0..999. */
  const FEED_CAP := 1000

  /** What became of one LPUSH: applied and confirmed, not applied, or applied with the reply lost. */
  datatype PushOutcome = Pushed | Refused | Lost

  function FeedKey(user: Id): string {
    "feed:" + user
  }

  lemma FeedKeyInjective(u: Id, v: Id)
    ensures FeedKey(u) == FeedKey(v) <==> u == v
  {
    assert FeedKey(u)[5..] == u && FeedKey(v)[5..] == v;
  }

  /** A missing key reads as the empty list. */
  function At(lists: Lists, key: string): seq<Id> {
    if key in lists then lists[key] else []
  }

  /**
   * The elements LRANGE returns and LTRIM keeps for a pair of inclusive positions,
   * negative ones counting from the end of the list.
   */
  function Range<T>(list: seq<T>, start: int, stop: int): seq<T> {
    var n := |list|;
    var first := if start < 0 then (if start + n < 0 then 0 else start + n) else start;
    var last := if stop < 0 then stop + n else stop;
    if first > last || first >= n then []
    else list[first..if last >= n then n else last + 1]
  }

  /** Position p of an n-element list lies between the given positions, negative ones counting from the end. */
  predicate Between(n: nat, start: int, stop: int, p: int) {
    && 0 <= p < n
    && (if start < 0 then start + n else start) <= p <= (if stop < 0 then stop + n else stop)
  }

  /** r is the stretch of the list from `first` on, and its positions are those between the bounds. */
  ghost predicate IsSelection<T>(list: seq<T>, start: int, stop: int, first: nat, r: seq<T>) {
    && first + |r| <= |list| && r == list[first..first + |r|]
    && forall p :: Between(|list|, start, stop, p) <==> first <= p < first + |r|
  }

  /** A range read returns exactly the elements at the positions between its bounds, in list order. */
  lemma RangeSelects<T>(list: seq<T>, start: int, stop: int)
    ensures exists first: nat :: IsSelection(list, start, stop, first, Range(list, start, stop))
  {
    var n := |list|;
    var r := Range(list, start, stop);
    var lo := if start < 0 then (if start + n < 0 then 0 else start + n) else start;
    var first: nat := if r == [] then 0 else lo;
    assert IsSelection(list, start, stop, first, r);
  }

  /** LPUSH. */
  function Prepended(lists: Lists, key: string, value: Id): Lists {
    lists[key := [value] + At(lists, key)]
  }

  /** LTRIM. */
  function Trimmed(lists: Lists, key: string, start: int, stop: int): Lists {
    lists[key := Range(At(lists, key), start, stop)]
  }

  /** The first n elements, or all of them when there are fewer. */
  function Newest<T>(list: seq<T>, n: nat): seq<T> {
    list[..Min(n, |list|)]
  }

  /** Page semantics a reader expects: skip `offset`, keep `limit`. */
  function Window<T>(list: seq<T>, offset: nat, limit: nat): seq<T> {
    Newest(if offset <= |list| then list[offset..] else [], limit)
  }

  /** Trimming to 0..999 keeps exactly the newest thousand. */
  lemma TrimKeepsNewest<T>(list: seq<T>)
    ensures Range(list, 0, FEED_CAP - 1) == Newest(list, FEED_CAP)
  {
  }

  /** A feed is a faithful cache of its newest-first log: a prefix that is short only when the log is. */
  ghost predicate Caches<T>(feed: seq<T>, log: seq<T>) {
    feed <= log && |feed| >= Min(FEED_CAP, |log|)
  }

  lemma PushKeepsCache<T>(feed: seq<T>, log: seq<T>, x: T)
    requires Caches(feed, log)
    ensures Caches([x] + feed, [x] + log)
  {
    assert log == feed + log[|feed|..];
    assert [x] + log == ([x] + feed) + log[|feed|..];
  }

  lemma TrimKeepsCache<T>(feed: seq<T>, log: seq<T>)
    requires Caches(feed, log)
    ensures Caches(Range(feed, 0, FEED_CAP - 1), log)
  {
    TrimKeepsNewest(feed);
  }

  /** Every page that lies within the first thousand reads the same from the cache as from the log. */
  lemma CachedWindow<T>(feed: seq<T>, log: seq<T>, offset: nat, limit: nat)
    requires Caches(feed, log) && offset + limit <= FEED_CAP
    ensures Window(feed, offset, limit) == Window(log, offset, limit)
  {
  }

  /** A page reads the same from the cache exactly when the cache reaches to its end, or as far as the log. */
  lemma CachedWindowExactly<T>(feed: seq<T>, log: seq<T>, offset: nat, limit: nat)
    requires feed <= log
    ensures Window(feed, offset, limit) == Window(log, offset, limit)
       <==> limit == 0 || offset + limit <= |feed| || offset >= |log| || |feed| == |log|
  {
    if |feed| == |log| {
      assert feed == log;
    }
    assert |Window(feed, offset, limit)| == Min(limit, if offset <= |feed| then |feed| - offset else 0);
    assert |Window(log, offset, limit)| == Min(limit, if offset <= |log| then |log| - offset else 0);
  }

  /** The connection both services hold. */
  class Client {
    var lists: Lists

    constructor ()
      ensures lists == map[]
    {
      lists := map[];
    }

    method LPush(key: string, value: Id, outcome: PushOutcome) returns (ok: bool)
      modifies this
      ensures ok <==> outcome.Pushed?
      ensures lists == if outcome.Refused? then old(lists) else Prepended(old(lists), key, value)
    {
      if !outcome.Refused? {
        lists := lists[key := [value] + At(lists, key)];
      }
      ok := outcome.Pushed?;
    }

    method LTrim(key: string, start: int, stop: int, applied: bool)
      modifies this
      ensures lists == if applied then Trimmed(old(lists), key, start, stop) else old(lists)
    {
      if applied {
        lists := lists[key := Range(At(lists, key), start, stop)];
      }
    }

    method LRange(key: string, start: int, stop: int) returns (values: seq<Id>)
      ensures values == Range(At(lists, key), start, stop)
      ensures exists first: nat :: IsSelection(At(lists, key), start, stop, first, values)
      ensures 0 <= start <= stop + 1 && stop >= 0 ==> values == Window(At(lists, key), start, stop - start + 1)
    {
      RangeSelects(At(lists, key), start, stop);
      values := Range(At(lists, key), start, stop);
    }
  }
}
