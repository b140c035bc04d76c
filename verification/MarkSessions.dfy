/**
 * Likes and reposts under concurrent requests. A session reads a tweet's counter, computes the new value
 * and writes that value at its commit, together with the row it adds or deletes.
 */
module MarkSessions {
  import opened Common
  import opened Marks

  /** An open request: what it has read so far. */
  datatype Session =
    | Adding(mark: Mark, read: int)
    | Found(id: Id, mark: Mark)                              // the row to delete, its tweet not yet read
    | Removing(id: Id, mark: Mark, tweetRead: Option<int>)   // no value when the tweet was already gone

  /** History of one commit that wrote a counter: its value just before, the value the session had read. */
  datatype Commit = Commit(mark: Mark, atCommit: int, read: int, phantom: bool)

  /** `issued` are the ids ever given to tweets and rows; `commits` is history, latest first. */
  datatype Db = Db(tweets: map<Id, Counters>, rows: map<Id, Mark>, sessions: map<Id, Session>,
                   issued: set<Id>, commits: seq<Commit>)

  const EMPTY := Db(map[], map[], map[], {}, [])

  datatype Step =
    | CreateTweet(id: Id)
    | DeleteTweet(id: Id)
    | OpenAdd(sid: Id, mark: Mark)
    | CommitAdd(sid: Id, rowId: Id, ok: bool)
    | OpenRemove(sid: Id, rowId: Id)
    | ReadTweet(sid: Id)
    | CommitRemove(sid: Id, ok: bool)

  predicate Enabled(db: Db, step: Step) {
    match step
    case CreateTweet(id) => id !in db.issued
    case DeleteTweet(id) => id in db.tweets
    case OpenAdd(sid, mark) => sid !in db.sessions && mark.tweet in db.tweets
    case CommitAdd(sid, rowId, _) => sid in db.sessions && db.sessions[sid].Adding? && rowId !in db.issued
    case OpenRemove(sid, rowId) => sid !in db.sessions && rowId in db.rows
    case ReadTweet(sid) => sid in db.sessions && db.sessions[sid].Found?
    case CommitRemove(sid, _) => sid in db.sessions && db.sessions[sid].Removing?
  }

  function Close(db: Db, sid: Id): Db {
    db.(sessions := db.sessions - {sid})
  }

  /** The write of one counter at a commit. */
  function WriteCounter(db: Db, mark: Mark, read: int, written: int, phantom: bool): Db
    requires mark.tweet in db.tweets
  {
    var c := db.tweets[mark.tweet];
    db.(tweets := db.tweets[mark.tweet := c.With(mark.kind, written)],
        commits := [Commit(mark, c.Of(mark.kind), read, phantom)] + db.commits)
  }

  /** A commit that fails, breaks the unique constraint or updates a vanished tweet rolls back whole. */
  function Do(db: Db, step: Step): Db
    requires Enabled(db, step)
  {
    match step
    case CreateTweet(id) => db.(tweets := db.tweets[id := Counters(0, 0)], issued := db.issued + {id})
    case DeleteTweet(id) => db.(tweets := db.tweets - {id})
    case OpenAdd(sid, mark) =>
      db.(sessions := db.sessions[sid := Adding(mark, db.tweets[mark.tweet].Of(mark.kind))])
    case CommitAdd(sid, rowId, ok) =>
      var x := db.sessions[sid];
      if !ok || x.mark.tweet !in db.tweets || Duplicate(db.rows, x.mark) then Close(db, sid)
      else
        WriteCounter(Close(db, sid).(rows := db.rows[rowId := x.mark], issued := db.issued + {rowId}),
                     x.mark, x.read, x.read + 1, false)
    case OpenRemove(sid, rowId) => db.(sessions := db.sessions[sid := Found(rowId, db.rows[rowId])])
    case ReadTweet(sid) =>
      var x := db.sessions[sid];
      var read := if x.mark.tweet in db.tweets then Some(db.tweets[x.mark.tweet].Of(x.mark.kind)) else None;
      db.(sessions := db.sessions[sid := Removing(x.id, x.mark, read)])
    case CommitRemove(sid, ok) =>
      var x := db.sessions[sid];
      var closed := Close(db, sid);
      if !ok || (x.tweetRead.Some? && x.mark.tweet !in db.tweets) then closed
      else
        var removed := closed.(rows := db.rows - {x.id});
        if x.tweetRead.None? then removed
        else WriteCounter(removed, x.mark, x.tweetRead.value, x.tweetRead.value - 1, x.id !in db.rows)
  }

  predicate Valid(db: Db, steps: seq<Step>)
    decreases steps
  {
    steps == [] || (Enabled(db, steps[0]) && Valid(Do(db, steps[0]), steps[1..]))
  }

  function Exec(db: Db, steps: seq<Step>): Db
    requires Valid(db, steps)
    decreases steps
  {
    if steps == [] then db else Exec(Do(db, steps[0]), steps[1..])
  }

  // ----- rows, counters and their difference -----

  /** Over the commits on one counter: value at the commit minus value read. */
  function Drift(commits: seq<Commit>, kind: Kind, tweet: Id): int {
    if commits == [] then 0
    else (if Concerns(commits[0].mark, kind, tweet) then commits[0].atCommit - commits[0].read else 0)
         + Drift(commits[1..], kind, tweet)
  }

  /** The commits on one counter whose row had already been deleted by another session. */
  function Phantoms(commits: seq<Commit>, kind: Kind, tweet: Id): nat {
    if commits == [] then 0
    else (if Concerns(commits[0].mark, kind, tweet) && commits[0].phantom then 1 else 0)
         + Phantoms(commits[1..], kind, tweet)
  }

  /** Ids in use were issued, and a session's row is the one its id names. */
  ghost predicate Sound(db: Db) {
    && db.tweets.Keys <= db.issued && db.rows.Keys <= db.issued
    && (forall r :: r in db.rows ==> db.rows[r].tweet in db.issued)
    && (forall sid :: sid in db.sessions ==> db.sessions[sid].mark.tweet in db.issued)
    && (forall sid :: sid in db.sessions && !db.sessions[sid].Adding? ==>
          db.sessions[sid].id in db.issued
          && (db.sessions[sid].id in db.rows ==> db.rows[db.sessions[sid].id] == db.sessions[sid].mark))
    && (forall i :: 0 <= i < |db.commits| ==> db.commits[i].mark.tweet in db.issued)
  }

  /** The accounting law for one counter. */
  ghost predicate Balanced(db: Db, kind: Kind, tweet: Id) {
    tweet in db.tweets ==>
      |RowsOf(db.rows, kind, tweet)| - db.tweets[tweet].Of(kind)
        == Drift(db.commits, kind, tweet) + Phantoms(db.commits, kind, tweet)
  }

  lemma SoundStep(db: Db, step: Step)
    requires Sound(db) && Enabled(db, step)
    ensures Sound(Do(db, step))
  {
  }

  /** The tweets with one counter set. */
  function Written(db: Db, mark: Mark, value: int): map<Id, Counters>
    requires mark.tweet in db.tweets
  {
    db.tweets[mark.tweet := db.tweets[mark.tweet].With(mark.kind, value)]
  }

  /**
   * Commits are atomic: one that fails, would break the unique constraint or updates a vanished tweet closes
   * its session and changes no table; any other changes its row and its counter together. The counter is
   * written from what the session had read, and no other row or counter moves.
   */
  lemma CommitsAreAtomic(db: Db, sid: Id, rowId: Id, ok: bool)
    requires Sound(db)
    ensures Enabled(db, CommitAdd(sid, rowId, ok)) ==>
              var x, db' := db.sessions[sid], Do(db, CommitAdd(sid, rowId, ok));
              var tweet := x.mark.tweet;
              && db'.sessions == db.sessions - {sid} && db'.rows - {rowId} == db.rows - {rowId}
              && (rowId in db'.rows <==> ok && tweet in db.tweets && !Duplicate(db.rows, x.mark))
              && (if rowId in db'.rows then
                    db'.rows[rowId] == x.mark && db'.tweets == Written(db, x.mark, x.read + 1)
                  else db' == Close(db, sid))
    ensures Enabled(db, CommitRemove(sid, ok)) ==>
              var x, db' := db.sessions[sid], Do(db, CommitRemove(sid, ok));
              var vanished := x.tweetRead.Some? && x.mark.tweet !in db.tweets;
              && db'.sessions == db.sessions - {sid} && db'.rows - {x.id} == db.rows - {x.id}
              && (x.id in db'.rows <==> x.id in db.rows && (!ok || vanished))
              && (if ok && !vanished && x.tweetRead.Some? then
                    db'.tweets == Written(db, x.mark, x.tweetRead.value - 1)
                  else db'.tweets == db.tweets && db'.commits == db.commits)
  {
  }

  lemma {:induction false} UnissuedHasNoCommits(commits: seq<Commit>, kind: Kind, tweet: Id)
    requires forall i :: 0 <= i < |commits| ==> commits[i].mark.tweet != tweet
    ensures Drift(commits, kind, tweet) == 0 && Phantoms(commits, kind, tweet) == 0
  {
    if commits != [] {
      UnissuedHasNoCommits(commits[1..], kind, tweet);
    }
  }

  lemma BalancedAdd(db: Db, sid: Id, rowId: Id, ok: bool, kind: Kind, tweet: Id)
    requires Sound(db) && Balanced(db, kind, tweet) && Enabled(db, CommitAdd(sid, rowId, ok))
    ensures Balanced(Do(db, CommitAdd(sid, rowId, ok)), kind, tweet)
  {
    RowsAfterInsert(db.rows, rowId, db.sessions[sid].mark, kind, tweet);
  }

  lemma BalancedRemove(db: Db, sid: Id, ok: bool, kind: Kind, tweet: Id)
    requires Sound(db) && Balanced(db, kind, tweet) && Enabled(db, CommitRemove(sid, ok))
    requires db.sessions[sid].tweetRead.None? ==> db.sessions[sid].mark.tweet !in db.tweets
    ensures Balanced(Do(db, CommitRemove(sid, ok)), kind, tweet)
  {
    RowsAfterDelete(db.rows, db.sessions[sid].id, kind, tweet);
  }

  /** A session that found no tweet has one that is gone for good. */
  ghost predicate GoneStaysGone(db: Db) {
    forall sid :: sid in db.sessions && db.sessions[sid].Removing? && db.sessions[sid].tweetRead.None? ==>
      db.sessions[sid].mark.tweet !in db.tweets
  }

  lemma GoneStep(db: Db, step: Step)
    requires Sound(db) && GoneStaysGone(db) && Enabled(db, step)
    ensures GoneStaysGone(Do(db, step))
  {
  }

  lemma BalancedStep(db: Db, step: Step, kind: Kind, tweet: Id)
    requires Sound(db) && GoneStaysGone(db) && Balanced(db, kind, tweet) && Enabled(db, step)
    ensures Balanced(Do(db, step), kind, tweet)
  {
    match step
    case CommitAdd(sid, rowId, ok) => BalancedAdd(db, sid, rowId, ok, kind, tweet);
    case CommitRemove(sid, ok) => BalancedRemove(db, sid, ok, kind, tweet);
    case CreateTweet(id) =>
      if id == tweet {
        assert RowsOf(db.rows, kind, tweet) == {};
        UnissuedHasNoCommits(db.commits, kind, tweet);
      }
    case _ =>
  }

  lemma {:induction false} BalancedRun(db: Db, steps: seq<Step>, kind: Kind, tweet: Id)
    requires Sound(db) && GoneStaysGone(db) && Balanced(db, kind, tweet) && Valid(db, steps)
    ensures Sound(Exec(db, steps)) && Balanced(Exec(db, steps), kind, tweet)
    decreases steps
  {
    if steps != [] {
      SoundStep(db, steps[0]);
      GoneStep(db, steps[0]);
      BalancedStep(db, steps[0], kind, tweet);
      BalancedRun(Do(db, steps[0]), steps[1..], kind, tweet);
    }
  }

  /**
   * Exact drift accounting: after any interleaving of sessions, with any commits failing, rows minus counter
   * is the sum over the commits of (value at the commit - value read) plus the deletions that found their
   * row already deleted.
   */
  lemma DriftAccounting(steps: seq<Step>, kind: Kind, tweet: Id)
    requires Valid(EMPTY, steps) && tweet in Exec(EMPTY, steps).tweets
    ensures var db := Exec(EMPTY, steps);
            |RowsOf(db.rows, kind, tweet)| - db.tweets[tweet].Of(kind)
              == Drift(db.commits, kind, tweet) + Phantoms(db.commits, kind, tweet)
  {
    BalancedRun(EMPTY, steps, kind, tweet);
  }

  // ----- exactly when counters stay right -----

  /** The step is a commit that takes effect on the live counter: no failure, no rollback. */
  predicate Writes(db: Db, step: Step, kind: Kind, tweet: Id) {
    match step
    case CommitAdd(sid, _, ok) =>
      && sid in db.sessions && db.sessions[sid].Adding? && Concerns(db.sessions[sid].mark, kind, tweet)
      && ok && tweet in db.tweets && !Duplicate(db.rows, db.sessions[sid].mark)
    case CommitRemove(sid, ok) =>
      && sid in db.sessions && db.sessions[sid].Removing? && Concerns(db.sessions[sid].mark, kind, tweet)
      && ok && tweet in db.tweets && db.sessions[sid].tweetRead.Some?
    case _ => false
  }

  /** An addition that read the current value, or a deletion that read it, or one more when its row is gone. */
  predicate Fresh(db: Db, step: Step, kind: Kind, tweet: Id) {
    Writes(db, step, kind, tweet) ==>
      var value := db.tweets[tweet].Of(kind);
      if step.CommitAdd? then db.sessions[step.sid].read == value
      else db.sessions[step.sid].tweetRead.value == value + if db.sessions[step.sid].id in db.rows then 0 else 1
  }

  /** A deletion that read a positive count. */
  predicate Guarded(db: Db, step: Step, kind: Kind, tweet: Id) {
    Writes(db, step, kind, tweet) && step.CommitRemove? ==> db.sessions[step.sid].tweetRead.value >= 1
  }

  ghost predicate Agrees(db: Db, kind: Kind, tweet: Id) {
    tweet in db.tweets ==> db.tweets[tweet].Of(kind) == |RowsOf(db.rows, kind, tweet)|
  }

  predicate NonNegative(db: Db, kind: Kind, tweet: Id) {
    tweet in db.tweets ==> db.tweets[tweet].Of(kind) >= 0
  }

  /** The values open sessions have read of the counter are not negative. */
  ghost predicate NonNegativeReads(db: Db, kind: Kind, tweet: Id) {
    forall sid :: sid in db.sessions && Concerns(db.sessions[sid].mark, kind, tweet) ==>
      && (db.sessions[sid].Adding? ==> db.sessions[sid].read >= 0)
      && (db.sessions[sid].Removing? && db.sessions[sid].tweetRead.Some? ==> db.sessions[sid].tweetRead.value >= 0)
  }

  /** From an agreeing state, a step keeps agreement exactly when it is no stale commit. */
  lemma AgreesStep(db: Db, step: Step, kind: Kind, tweet: Id)
    requires Sound(db) && GoneStaysGone(db) && Agrees(db, kind, tweet) && Enabled(db, step)
    ensures Agrees(Do(db, step), kind, tweet) <==> Fresh(db, step, kind, tweet)
  {
    match step
    case CommitAdd(sid, rowId, ok) => RowsAfterInsert(db.rows, rowId, db.sessions[sid].mark, kind, tweet);
    case CommitRemove(sid, ok) => RowsAfterDelete(db.rows, db.sessions[sid].id, kind, tweet);
    case CreateTweet(id) => assert id == tweet ==> RowsOf(db.rows, kind, tweet) == {};
    case _ =>
  }

  lemma NonNegativeStep(db: Db, step: Step, kind: Kind, tweet: Id)
    requires NonNegative(db, kind, tweet) && NonNegativeReads(db, kind, tweet) && Enabled(db, step)
    ensures NonNegative(Do(db, step), kind, tweet) <==> Guarded(db, step, kind, tweet)
    ensures NonNegativeReads(Do(db, step), kind, tweet)
  {
  }

  ghost predicate AlwaysAgrees(db: Db, steps: seq<Step>, kind: Kind, tweet: Id)
    requires Valid(db, steps)
    decreases steps
  {
    Agrees(db, kind, tweet) && (steps == [] || AlwaysAgrees(Do(db, steps[0]), steps[1..], kind, tweet))
  }

  predicate AllFresh(db: Db, steps: seq<Step>, kind: Kind, tweet: Id)
    requires Valid(db, steps)
    decreases steps
  {
    steps == [] || (Fresh(db, steps[0], kind, tweet) && AllFresh(Do(db, steps[0]), steps[1..], kind, tweet))
  }

  predicate AlwaysNonNegative(db: Db, steps: seq<Step>, kind: Kind, tweet: Id)
    requires Valid(db, steps)
    decreases steps
  {
    NonNegative(db, kind, tweet) && (steps == [] || AlwaysNonNegative(Do(db, steps[0]), steps[1..], kind, tweet))
  }

  predicate AllGuarded(db: Db, steps: seq<Step>, kind: Kind, tweet: Id)
    requires Valid(db, steps)
    decreases steps
  {
    steps == [] || (Guarded(db, steps[0], kind, tweet) && AllGuarded(Do(db, steps[0]), steps[1..], kind, tweet))
  }

  lemma {:induction false} AgreementRun(db: Db, steps: seq<Step>, kind: Kind, tweet: Id)
    requires Sound(db) && GoneStaysGone(db) && Agrees(db, kind, tweet) && Valid(db, steps)
    ensures AlwaysAgrees(db, steps, kind, tweet) <==> AllFresh(db, steps, kind, tweet)
    decreases steps
  {
    if steps != [] {
      SoundStep(db, steps[0]);
      GoneStep(db, steps[0]);
      AgreesStep(db, steps[0], kind, tweet);
      if Agrees(Do(db, steps[0]), kind, tweet) {
        AgreementRun(Do(db, steps[0]), steps[1..], kind, tweet);
      }
    }
  }

  /**
   * When the counter equals the count: a counter agrees with its rows in every state of a run if and only if
   * every commit that took effect on it was fresh - a comparison, at the commit, of the value read with the
   * stored one.
   */
  lemma AgreementExactly(steps: seq<Step>, kind: Kind, tweet: Id)
    requires Valid(EMPTY, steps)
    ensures AlwaysAgrees(EMPTY, steps, kind, tweet) <==> AllFresh(EMPTY, steps, kind, tweet)
  {
    AgreementRun(EMPTY, steps, kind, tweet);
  }

  lemma {:induction false} NonNegativeRun(db: Db, steps: seq<Step>, kind: Kind, tweet: Id)
    requires NonNegative(db, kind, tweet) && NonNegativeReads(db, kind, tweet) && Valid(db, steps)
    ensures AlwaysNonNegative(db, steps, kind, tweet) <==> AllGuarded(db, steps, kind, tweet)
    decreases steps
  {
    if steps != [] {
      NonNegativeStep(db, steps[0], kind, tweet);
      if NonNegative(Do(db, steps[0]), kind, tweet) {
        NonNegativeRun(Do(db, steps[0]), steps[1..], kind, tweet);
      }
    }
  }

  /**
   * When the counter is never negative: in every state of a run it is at least zero if and only if every
   * deletion that took effect on it had read at least one.
   */
  lemma NonNegativeExactly(steps: seq<Step>, kind: Kind, tweet: Id)
    requires Valid(EMPTY, steps)
    ensures AlwaysNonNegative(EMPTY, steps, kind, tweet) <==> AllGuarded(EMPTY, steps, kind, tweet)
  {
    NonNegativeRun(EMPTY, steps, kind, tweet);
  }

  // ----- sessions that do not overlap -----

  /** No open session works on the counter. */
  predicate IdleOn(db: Db, kind: Kind, tweet: Id) {
    forall sid :: sid in db.sessions ==> !Concerns(db.sessions[sid].mark, kind, tweet)
  }

  /** The step opens no session on the counter while another works on it; other counters are free to overlap. */
  predicate ExclusiveOn(db: Db, step: Step, kind: Kind, tweet: Id) {
    match step
    case OpenAdd(_, mark) => Concerns(mark, kind, tweet) ==> IdleOn(db, kind, tweet)
    case OpenRemove(_, r) => r in db.rows && Concerns(db.rows[r], kind, tweet) ==> IdleOn(db, kind, tweet)
    case _ => true
  }

  predicate NeverOverlapsOn(db: Db, steps: seq<Step>, kind: Kind, tweet: Id)
    requires Valid(db, steps)
    decreases steps
  {
    steps == [] ||
    (ExclusiveOn(db, steps[0], kind, tweet) && NeverOverlapsOn(Do(db, steps[0]), steps[1..], kind, tweet))
  }

  /** What the session has read is still so, and the row it deletes still there. */
  ghost predicate SessionCurrent(db: Db, x: Session)
    requires x.mark.tweet in db.tweets
  {
    var value := db.tweets[x.mark.tweet].Of(x.mark.kind);
    match x
    case Adding(_, read) => read == value
    case Found(id, _) => id in db.rows
    case Removing(id, _, read) => id in db.rows && read == Some(value)
  }

  /** At most one session works on the counter, and while the tweet lives it is current. */
  ghost predicate CurrentOn(db: Db, kind: Kind, tweet: Id) {
    && (forall a, b | a in db.sessions && b in db.sessions ::
          Concerns(db.sessions[a].mark, kind, tweet) && Concerns(db.sessions[b].mark, kind, tweet) ==> a == b)
    && (tweet in db.tweets ==>
          forall sid | sid in db.sessions && Concerns(db.sessions[sid].mark, kind, tweet) ::
            SessionCurrent(db, db.sessions[sid]))
  }

  lemma CurrentOnOpen(db: Db, step: Step, kind: Kind, tweet: Id)
    requires Sound(db) && CurrentOn(db, kind, tweet) && Enabled(db, step) && ExclusiveOn(db, step, kind, tweet)
    requires step.OpenAdd? || step.OpenRemove? || step.ReadTweet?
    ensures CurrentOn(Do(db, step), kind, tweet)
  {
  }

  lemma CurrentOnCommit(db: Db, step: Step, kind: Kind, tweet: Id)
    requires Sound(db) && CurrentOn(db, kind, tweet) && Enabled(db, step)
    requires step.CommitAdd? || step.CommitRemove?
    ensures CurrentOn(Do(db, step), kind, tweet)
  {
  }

  lemma CurrentOnStep(db: Db, step: Step, kind: Kind, tweet: Id)
    requires Sound(db) && CurrentOn(db, kind, tweet) && Enabled(db, step) && ExclusiveOn(db, step, kind, tweet)
    ensures CurrentOn(Do(db, step), kind, tweet)
  {
    if step.OpenAdd? || step.OpenRemove? || step.ReadTweet? {
      CurrentOnOpen(db, step, kind, tweet);
    } else if step.CommitAdd? || step.CommitRemove? {
      CurrentOnCommit(db, step, kind, tweet);
    }
  }

  lemma {:induction false} CurrentRunsAreFresh(db: Db, steps: seq<Step>, kind: Kind, tweet: Id)
    requires Sound(db) && CurrentOn(db, kind, tweet)
    requires Valid(db, steps) && NeverOverlapsOn(db, steps, kind, tweet)
    ensures AllFresh(db, steps, kind, tweet)
    decreases steps
  {
    if steps != [] {
      SoundStep(db, steps[0]);
      CurrentOnStep(db, steps[0], kind, tweet);
      CurrentRunsAreFresh(Do(db, steps[0]), steps[1..], kind, tweet);
    }
  }

  lemma {:induction false} AgreesAtEnd(db: Db, steps: seq<Step>, kind: Kind, tweet: Id)
    requires Valid(db, steps) && AlwaysAgrees(db, steps, kind, tweet)
    ensures Agrees(Exec(db, steps), kind, tweet)
    decreases steps
  {
    if steps != [] {
      AgreesAtEnd(Do(db, steps[0]), steps[1..], kind, tweet);
    }
  }

  /**
   * When no two sessions on one counter overlap, that counter equals its row count in every state,
   * however sessions on other counters overlap.
   */
  lemma NoOverlapNoDrift(steps: seq<Step>, kind: Kind, tweet: Id)
    requires Valid(EMPTY, steps) && NeverOverlapsOn(EMPTY, steps, kind, tweet)
    ensures AlwaysAgrees(EMPTY, steps, kind, tweet)
    ensures var db := Exec(EMPTY, steps);
            tweet in db.tweets ==> db.tweets[tweet].Of(kind) == |RowsOf(db.rows, kind, tweet)|
  {
    CurrentRunsAreFresh(EMPTY, steps, kind, tweet);
    AgreementExactly(steps, kind, tweet);
    AgreesAtEnd(EMPTY, steps, kind, tweet);
  }

  // ----- additions only -----

  /** The step commits no deletion that takes effect on the counter. */
  predicate NoRemovalOn(db: Db, step: Step, kind: Kind, tweet: Id) {
    step.CommitRemove? ==> !Writes(db, step, kind, tweet)
  }

  predicate NeverRemovesOn(db: Db, steps: seq<Step>, kind: Kind, tweet: Id)
    requires Valid(db, steps)
    decreases steps
  {
    steps == [] ||
    (NoRemovalOn(db, steps[0], kind, tweet) && NeverRemovesOn(Do(db, steps[0]), steps[1..], kind, tweet))
  }

  /** Neither the live counter nor a value an addition has read of it exceeds the row count. */
  ghost predicate NeverAhead(db: Db, kind: Kind, tweet: Id) {
    tweet in db.tweets ==>
      && db.tweets[tweet].Of(kind) <= |RowsOf(db.rows, kind, tweet)|
      && forall sid :: sid in db.sessions && db.sessions[sid].Adding?
                       && Concerns(db.sessions[sid].mark, kind, tweet) ==>
           db.sessions[sid].read <= |RowsOf(db.rows, kind, tweet)|
  }

  lemma NeverAheadStep(db: Db, step: Step, kind: Kind, tweet: Id)
    requires Sound(db) && GoneStaysGone(db) && NeverAhead(db, kind, tweet)
    requires Enabled(db, step) && NoRemovalOn(db, step, kind, tweet)
    ensures NeverAhead(Do(db, step), kind, tweet)
  {
    match step
    case CommitAdd(sid, rowId, ok) => RowsAfterInsert(db.rows, rowId, db.sessions[sid].mark, kind, tweet);
    case CommitRemove(sid, ok) => RowsAfterDelete(db.rows, db.sessions[sid].id, kind, tweet);
    case _ =>
  }

  lemma {:induction false} NeverAheadRun(db: Db, steps: seq<Step>, kind: Kind, tweet: Id)
    requires Sound(db) && GoneStaysGone(db) && NeverAhead(db, kind, tweet)
    requires Valid(db, steps) && NeverRemovesOn(db, steps, kind, tweet)
    ensures NeverAhead(Exec(db, steps), kind, tweet)
    decreases steps
  {
    if steps != [] {
      SoundStep(db, steps[0]);
      GoneStep(db, steps[0]);
      NeverAheadStep(db, steps[0], kind, tweet);
      NeverAheadRun(Do(db, steps[0]), steps[1..], kind, tweet);
    }
  }

  /**
   * As long as no deletion takes effect on a counter, overlap can only lose counts: it never exceeds its
   * rows, whatever is deleted from other counters.
   */
  lemma AdditionsNeverOvercount(steps: seq<Step>, kind: Kind, tweet: Id)
    requires Valid(EMPTY, steps) && NeverRemovesOn(EMPTY, steps, kind, tweet)
    requires tweet in Exec(EMPTY, steps).tweets
    ensures Exec(EMPTY, steps).tweets[tweet].Of(kind) <= |RowsOf(Exec(EMPTY, steps).rows, kind, tweet)|
  {
    NeverAheadRun(EMPTY, steps, kind, tweet);
  }

  // ----- what overlap does -----

  lemma {:induction false} ExecAppend(db: Db, first: seq<Step>, second: seq<Step>)
    requires Valid(db, first) && Valid(Exec(db, first), second)
    ensures Valid(db, first + second) && Exec(db, first + second) == Exec(Exec(db, first), second)
    decreases first
  {
    if first == [] {
      assert first + second == second;
    } else {
      ExecAppend(Do(db, first[0]), first[1..], second);
      assert (first + second)[1..] == first[1..] + second;
    }
  }

  ghost predicate Leads(steps: seq<Step>, end: Db) {
    Valid(EMPTY, steps) && Exec(EMPTY, steps) == end
  }

  lemma Then(steps: seq<Step>, db: Db, step: Step) returns (more: seq<Step>, db': Db)
    requires Leads(steps, db) && Enabled(db, step)
    ensures more == steps + [step] && db' == Do(db, step) && Leads(more, db')
  {
    more, db' := steps + [step], Do(db, step);
    assert [step][1..] == [];
    ExecAppend(EMPTY, steps, [step]);
  }

  /** Two overlapping likes by different users leave two rows and a count of one. */
  lemma LostUpdate() returns (steps: seq<Step>, db: Db)
    ensures steps == [CreateTweet("t"), OpenAdd("u", Mark(Like, "u", "t")), OpenAdd("v", Mark(Like, "v", "t")),
                      CommitAdd("u", "r", true), CommitAdd("v", "q", true)]
    ensures Leads(steps, db) && db.tweets == map["t" := Counters(1, 0)] && db.sessions == map[]
    ensures db.rows == map["r" := Mark(Like, "u", "t"), "q" := Mark(Like, "v", "t")]
    ensures |RowsOf(db.rows, Like, "t")| == 2
    ensures forall i :: 0 <= i < |db.commits| ==> !db.commits[i].phantom
  {
    assert "u"[0] != "v"[0] && "t"[0] != "r"[0] && "r"[0] != "q"[0] && "t"[0] != "q"[0];
    steps, db := TwoAdditionsOpen();
    steps, db := Then(steps, db, CommitAdd("u", "r", true));
    steps, db := Then(steps, db, CommitAdd("v", "q", true));
    TwoRows(db.rows);
  }

  lemma TwoRows(rows: map<Id, Mark>)
    requires rows == map["r" := Mark(Like, "u", "t"), "q" := Mark(Like, "v", "t")]
    ensures |RowsOf(rows, Like, "t")| == 2
  {
    assert "r"[0] != "q"[0];
    assert RowsOf(rows, Like, "t") == {"r", "q"};
  }

  /** Two sessions that have both read a count of zero. */
  lemma TwoAdditionsOpen() returns (steps: seq<Step>, db: Db)
    ensures steps == [CreateTweet("t"), OpenAdd("u", Mark(Like, "u", "t")), OpenAdd("v", Mark(Like, "v", "t"))]
    ensures Leads(steps, db) && db.rows == map[] && db.tweets == map["t" := Counters(0, 0)] && db.commits == []
    ensures db.sessions == map["u" := Adding(Mark(Like, "u", "t"), 0), "v" := Adding(Mark(Like, "v", "t"), 0)]
    ensures db.issued == {"t"}
  {
    assert "u"[0] != "v"[0];
    steps, db := [], EMPTY;
    steps, db := Then(steps, db, CreateTweet("t"));
    steps, db := Then(steps, db, OpenAdd("u", Mark(Like, "u", "t")));
    steps, db := Then(steps, db, OpenAdd("v", Mark(Like, "v", "t")));
  }

  /**
   * Two deletions after that, one after the other and each of a row that is there, take the count below
   * zero: no deletions need overlap for it.
   */
  lemma LostUpdateThenBelowZero() returns (steps: seq<Step>, db: Db)
    ensures Leads(steps, db) && "t" in db.tweets
    ensures |steps| == 11
    ensures steps[..5] == [CreateTweet("t"), OpenAdd("u", Mark(Like, "u", "t")), OpenAdd("v", Mark(Like, "v", "t")),
                           CommitAdd("u", "r", true), CommitAdd("v", "q", true)]
    ensures steps[5..] == [OpenRemove("u", "r"), ReadTweet("u"), CommitRemove("u", true),
                           OpenRemove("v", "q"), ReadTweet("v"), CommitRemove("v", true)]
    ensures RowsOf(db.rows, Like, "t") == {} && db.tweets["t"].likes == -1
    ensures Phantoms(db.commits, Like, "t") == 0
  {
    assert "r"[0] != "q"[0];
    steps, db := LostUpdate();
    steps, db := RemoveAlone(steps, db, "u", "r");
    steps, db := RemoveAlone(steps, db, "v", "q");
    NoPhantoms(db.commits, Like, "t");
  }

  lemma {:induction false} NoPhantoms(commits: seq<Commit>, kind: Kind, tweet: Id)
    requires forall i :: 0 <= i < |commits| ==> !commits[i].phantom
    ensures Phantoms(commits, kind, tweet) == 0
  {
    if commits != [] {
      NoPhantoms(commits[1..], kind, tweet);
    }
  }

  /** One deletion from start to commit, with no other step in between. */
  lemma RemoveAlone(steps: seq<Step>, db: Db, sid: Id, rowId: Id) returns (more: seq<Step>, db': Db)
    requires Leads(steps, db) && sid !in db.sessions && rowId in db.rows && db.rows[rowId].tweet in db.tweets
    ensures more == steps + [OpenRemove(sid, rowId), ReadTweet(sid), CommitRemove(sid, true)] && Leads(more, db')
    ensures var mark := db.rows[rowId];
            var value := db.tweets[mark.tweet].Of(mark.kind);
            && db'.rows == db.rows - {rowId} && db'.sessions == db.sessions
            && db'.tweets == db.tweets[mark.tweet := db.tweets[mark.tweet].With(mark.kind, value - 1)]
            && db'.commits == [Commit(mark, value, value, false)] + db.commits
  {
    more, db' := steps, db;
    more, db' := Then(more, db', OpenRemove(sid, rowId));
    more, db' := Then(more, db', ReadTweet(sid));
    more, db' := Then(more, db', CommitRemove(sid, true));
    assert db'.sessions == db.sessions;
  }

  /** Two overlapping deletions of one like, the second reading after the first commits, leave minus one. */
  lemma CountBelowZero() returns (steps: seq<Step>, db: Db)
    ensures steps == [CreateTweet("t"), OpenAdd("a", Mark(Like, "u", "t")), CommitAdd("a", "r", true),
                      OpenRemove("a", "r"), OpenRemove("b", "r"),
                      ReadTweet("a"), CommitRemove("a", true), ReadTweet("b"), CommitRemove("b", true)]
    ensures Leads(steps, db) && "t" in db.tweets
    ensures RowsOf(db.rows, Like, "t") == {} && db.tweets["t"].likes == -1
    ensures Phantoms(db.commits, Like, "t") == 1
  {
    assert "a"[0] != "b"[0] && "t"[0] != "r"[0];
    steps, db := TwoDeletionsOpen();
    steps, db := Then(steps, db, ReadTweet("a"));
    steps, db := Then(steps, db, CommitRemove("a", true));
    steps, db := Then(steps, db, ReadTweet("b"));
    var before := db;
    NoPhantoms(before.commits, Like, "t");
    steps, db := Then(steps, db, CommitRemove("b", true));
    assert db.commits[1..] == before.commits;
  }

  /** The same deletions, both reading before either commits: they overlap, yet the count agrees. */
  lemma OverlapMayAgree() returns (steps: seq<Step>, db: Db)
    ensures steps == [CreateTweet("t"), OpenAdd("a", Mark(Like, "u", "t")), CommitAdd("a", "r", true),
                      OpenRemove("a", "r"), OpenRemove("b", "r"),
                      ReadTweet("a"), ReadTweet("b"), CommitRemove("a", true), CommitRemove("b", true)]
    ensures Leads(steps, db) && "t" in db.tweets
    ensures RowsOf(db.rows, Like, "t") == {} && db.tweets["t"].likes == 0
  {
    assert "a"[0] != "b"[0] && "t"[0] != "r"[0];
    steps, db := TwoDeletionsOpen();
    steps, db := Then(steps, db, ReadTweet("a"));
    steps, db := Then(steps, db, ReadTweet("b"));
    steps, db := Then(steps, db, CommitRemove("a", true));
    steps, db := Then(steps, db, CommitRemove("b", true));
  }

  /** One like, and two sessions that have found its row. */
  lemma TwoDeletionsOpen() returns (steps: seq<Step>, db: Db)
    ensures steps == [CreateTweet("t"), OpenAdd("a", Mark(Like, "u", "t")), CommitAdd("a", "r", true),
                      OpenRemove("a", "r"), OpenRemove("b", "r")]
    ensures Leads(steps, db)
    ensures db.tweets == map["t" := Counters(1, 0)] && db.rows == map["r" := Mark(Like, "u", "t")]
    ensures db.sessions == map["a" := Found("r", Mark(Like, "u", "t")), "b" := Found("r", Mark(Like, "u", "t"))]
    ensures db.commits == [Commit(Mark(Like, "u", "t"), 0, 0, false)]
  {
    assert "a"[0] != "b"[0] && "t"[0] != "r"[0];
    steps, db := [], EMPTY;
    steps, db := Then(steps, db, CreateTweet("t"));
    steps, db := Then(steps, db, OpenAdd("a", Mark(Like, "u", "t")));
    steps, db := Then(steps, db, CommitAdd("a", "r", true));
    steps, db := Then(steps, db, OpenRemove("a", "r"));
    steps, db := Then(steps, db, OpenRemove("b", "r"));
  }
}
