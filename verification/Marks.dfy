/** Like and repost rows, and the counters a tweet keeps of them. */
module Marks {
  import opened Common

  datatype Kind = Like | Repost

  /** A row of `tweet_like` or `tweet_repost`. */
  datatype Mark = Mark(kind: Kind, user: Id, tweet: Id)

  datatype Counters = Counters(likes: int, reposts: int) {
    function Of(kind: Kind): int {
      if kind.Like? then likes else reposts
    }

    function With(kind: Kind, value: int): Counters {
      if kind.Like? then this.(likes := value) else this.(reposts := value)
    }
  }

  predicate Concerns(mark: Mark, kind: Kind, tweet: Id) {
    mark.kind == kind && mark.tweet == tweet
  }

  predicate IsRow(rows: map<Id, Mark>, r: Id, kind: Kind, tweet: Id) {
    r in rows && Concerns(rows[r], kind, tweet)
  }

  ghost function RowsOf(rows: map<Id, Mark>, kind: Kind, tweet: Id): set<Id> {
    set r | r in rows && IsRow(rows, r, kind, tweet)
  }

  /** The row is in its table already: the unique constraint on (user, tweet). */
  predicate Duplicate(rows: map<Id, Mark>, mark: Mark) {
    exists r :: r in rows && rows[r] == mark
  }

  lemma RowsAfterInsert(rows: map<Id, Mark>, r: Id, mark: Mark, kind: Kind, tweet: Id)
    requires r !in rows
    ensures |RowsOf(rows[r := mark], kind, tweet)|
         == |RowsOf(rows, kind, tweet)| + if Concerns(mark, kind, tweet) then 1 else 0
  {
    if Concerns(mark, kind, tweet) {
      assert RowsOf(rows[r := mark], kind, tweet) == RowsOf(rows, kind, tweet) + {r};
    } else {
      assert RowsOf(rows[r := mark], kind, tweet) == RowsOf(rows, kind, tweet);
    }
  }

  lemma RowsAfterDelete(rows: map<Id, Mark>, r: Id, kind: Kind, tweet: Id)
    ensures |RowsOf(rows - {r}, kind, tweet)|
         == |RowsOf(rows, kind, tweet)| - if IsRow(rows, r, kind, tweet) then 1 else 0
  {
    if IsRow(rows, r, kind, tweet) {
      assert RowsOf(rows - {r}, kind, tweet) == RowsOf(rows, kind, tweet) - {r};
    } else {
      assert RowsOf(rows - {r}, kind, tweet) == RowsOf(rows, kind, tweet);
    }
  }
}
