/** The serial handlers of the tweet service are the undisturbed runs of its sessions. */
module SerialSessions {
  import opened Common
  import opened Marks
  import opened Tweets
  import S = MarkSessions

  /** The tables as a session sees them, with no session open. */
  ghost function AsSessions(db: TweetDb): S.Db {
    S.Db(map t | t in db.tweets :: db.tweets[t].counters, db.rows, map[], db.issued, [])
  }

  ghost predicate SameTables(x: S.Db, db: TweetDb) {
    x.tweets == AsSessions(db).tweets && x.rows == db.rows && x.sessions == map[]
  }

  lemma TwoSteps(db: S.Db, a: S.Step, b: S.Step)
    requires S.Enabled(db, a) && S.Enabled(S.Do(db, a), b)
    ensures S.Valid(db, [a, b]) && S.Exec(db, [a, b]) == S.Do(S.Do(db, a), b)
  {
    assert [a, b][1..] == [b] && [b][1..] == [];
    assert S.Exec(S.Do(db, a), [b]) == S.Do(S.Do(db, a), b);
  }

  /** Posting and deleting a tweet are single steps. */
  lemma TweetStepsAreSerial(db: TweetDb, user: Id, id: Id, storing: Storing, commit: bool)
    ensures id !in db.issued && !storing.NotCommitted? ==>
              && S.Enabled(AsSessions(db), S.CreateTweet(id))
              && SameTables(S.Do(AsSessions(db), S.CreateTweet(id)), TweetCreated(db, user, id, storing).0)
    ensures TweetDeleted(db, user, id, commit).1.Ok? ==>
              && S.Enabled(AsSessions(db), S.DeleteTweet(id))
              && SameTables(S.Do(AsSessions(db), S.DeleteTweet(id)), TweetDeleted(db, user, id, commit).0)
  {
  }

  /** Liking or reposting a live tweet: read the counter, then commit. */
  lemma MarkIsOneSession(db: TweetDb, kind: Kind, user: Id, tweet: Id, rowId: Id, commit: bool, sid: Id)
    requires tweet in db.tweets && rowId !in db.issued
    ensures var steps := [S.OpenAdd(sid, Mark(kind, user, tweet)), S.CommitAdd(sid, rowId, commit)];
            && S.Valid(AsSessions(db), steps)
            && SameTables(S.Exec(AsSessions(db), steps), MarkCreated(db, kind, user, tweet, rowId, commit).0)
  {
    TwoSteps(AsSessions(db), S.OpenAdd(sid, Mark(kind, user, tweet)), S.CommitAdd(sid, rowId, commit));
  }

  /** Deleting one's own like or repost: find the row, read the tweet, then commit. */
  lemma UnmarkIsOneSession(db: TweetDb, rowId: Id, commit: bool, sid: Id)
    requires rowId in db.rows
    ensures var steps := [S.OpenRemove(sid, rowId), S.ReadTweet(sid), S.CommitRemove(sid, commit)];
            && S.Valid(AsSessions(db), steps)
            && SameTables(S.Exec(AsSessions(db), steps),
                          MarkDeleted(db, db.rows[rowId].kind, db.rows[rowId].user, rowId, commit).0)
  {
    var a, b, c := S.OpenRemove(sid, rowId), S.ReadTweet(sid), S.CommitRemove(sid, commit);
    assert [a, b, c][1..] == [b, c];
    TwoSteps(S.Do(AsSessions(db), a), b, c);
  }
}
