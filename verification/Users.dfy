/** The user service: follow rows, the counters kept beside them, and the follower query. */
module Users {
  import opened Common

  datatype Follow = Follow(follower: Id, following: Id)
  datatype User = User(numFollowers: int, numTweets: int)

  /** The `actors` and `follows` tables; the unique constraint on `follows` makes it a set of pairs. */
  datatype UserDb = UserDb(users: map<Id, User>, follows: set<Follow>)

  const EMPTY := UserDb(map[], {})

  function Registered(db: UserDb, id: Id, commit: bool): UserDb {
    if id in db.users || !commit then db else db.(users := db.users[id := User(0, 0)])
  }

  function FollowCreated(db: UserDb, caller: Id, target: Id, commit: bool): (UserDb, Status) {
    if target == caller then (db, BadRequest)
    else if target !in db.users then (db, NotFound)
    else if Follow(caller, target) in db.follows || !commit then (db, DatabaseError)
    else
      var user := db.users[target];
      (UserDb(db.users[target := user.(numFollowers := user.numFollowers + 1)],
              db.follows + {Follow(caller, target)}), Ok)
  }

  /** Removes the row only: the target's counter is not touched. */
  function FollowDeleted(db: UserDb, caller: Id, target: Id, commit: bool): (UserDb, Status) {
    if Follow(caller, target) !in db.follows then (db, NotFound)
    else if !commit then (db, DatabaseError)
    else (db.(follows := db.follows - {Follow(caller, target)}), Ok)
  }

  /** The second component is the `success` field of the reply. */
  function TweetCounted(db: UserDb, id: Id, commit: bool): (UserDb, bool) {
    if id !in db.users || !commit then (db, false)
    else
      var user := db.users[id];
      (db.(users := db.users[id := user.(numTweets := user.numTweets + 1)]), true)
  }

  ghost function FollowersOf(db: UserDb, author: Id): set<Id> {
    set row | row in db.follows && row.following == author :: row.follower
  }

  /** A reply of GetFollowers: every follower once, in whatever order the database produced. */
  ghost predicate IsFollowerList(db: UserDb, author: Id, followers: seq<Id>) {
    && NoDup(followers)
    && forall f :: f in followers <==> Follow(f, author) in db.follows
  }

  /** The follower query always has an answer. */
  lemma FollowerListExists(db: UserDb, author: Id) returns (followers: seq<Id>)
    ensures IsFollowerList(db, author, followers)
  {
    followers := Listing(FollowersOf(db, author));
    forall f
      ensures f in FollowersOf(db, author) <==> Follow(f, author) in db.follows
    {
      InFollowers(db, f, author);
    }
  }

  lemma InFollowers(db: UserDb, u: Id, author: Id)
    ensures u in FollowersOf(db, author) <==> Follow(u, author) in db.follows
  {
    if Follow(u, author) in db.follows {
      assert Follow(u, author).follower == u;
    }
  }

  ghost function RowsTo(db: UserDb, target: Id): set<Follow> {
    set row | row in db.follows && row.following == target
  }

  function NumFollowers(db: UserDb, id: Id): int {
    if id in db.users then db.users[id].numFollowers else 0
  }

  function NumTweets(db: UserDb, id: Id): int {
    if id in db.users then db.users[id].numTweets else 0
  }

  /**
   * A follow is accepted exactly when it is of another, registered user, is new and commits; then the
   * caller joins that user's followers and the counter goes up by one. Otherwise nothing changes, and the
   * answer tells a self-follow and an unknown user from a failed commit.
   */
  lemma FollowOutcome(db: UserDb, caller: Id, target: Id, commit: bool, author: Id)
    ensures var (after, status) := FollowCreated(db, caller, target, commit);
            && (status.Ok? <==> caller != target && target in db.users && caller !in FollowersOf(db, target) && commit)
            && (status.BadRequest? <==> caller == target)
            && (status.NotFound? <==> caller != target && target !in db.users)
            && (status.Ok? || status.BadRequest? || status.NotFound? || status.DatabaseError?)
            && (!status.Ok? ==> after == db)
            && after.users.Keys == db.users.Keys
            && FollowersOf(after, author)
                 == FollowersOf(db, author) + (if status.Ok? && author == target then {caller} else {})
            && NumFollowers(after, author)
                 == NumFollowers(db, author) + (if status.Ok? && author == target then 1 else 0)
            && NumTweets(after, author) == NumTweets(db, author)
  {
    var (after, status) := FollowCreated(db, caller, target, commit);
    InFollowers(db, caller, target);
    if status.Ok? {
      assert after.follows == db.follows + {Follow(caller, target)};
      if author == target {
        assert Follow(caller, target) in after.follows && Follow(caller, target).follower == caller;
      }
    }
  }

  /**
   * An unfollow is accepted exactly when the caller follows that user and it commits; then the caller alone
   * leaves that user's followers. No user row, and so no counter, ever changes.
   */
  lemma UnfollowOutcome(db: UserDb, caller: Id, target: Id, commit: bool, author: Id)
    ensures var (after, status) := FollowDeleted(db, caller, target, commit);
            && (status.Ok? <==> caller in FollowersOf(db, target) && commit)
            && (status.NotFound? <==> caller !in FollowersOf(db, target))
            && (status.Ok? || status.NotFound? || status.DatabaseError?)
            && after.users == db.users && (!status.Ok? ==> after == db)
            && FollowersOf(after, author)
                 == FollowersOf(db, author) - (if status.Ok? && author == target then {caller} else {})
  {
    var (after, status) := FollowDeleted(db, caller, target, commit);
    InFollowers(db, caller, target);
    forall u
      ensures u in FollowersOf(after, author)
         <==> u in FollowersOf(db, author) && !(status.Ok? && author == target && u == caller)
    {
      InFollowers(db, u, author);
      InFollowers(after, u, author);
    }
  }

  /** Following and then unfollowing restores the follow table, and leaves the counter one higher. */
  lemma FollowUnfollow(db: UserDb, caller: Id, target: Id)
    requires FollowCreated(db, caller, target, true).1.Ok?
    ensures var (after, status) := FollowDeleted(FollowCreated(db, caller, target, true).0, caller, target, true);
            && status.Ok? && after.follows == db.follows
            && NumFollowers(after, target) == NumFollowers(db, target) + 1
            && (forall u :: u != target ==> NumFollowers(after, u) == NumFollowers(db, u))
  {
  }

  // ----- whole runs -----

  /** One request to the service, with the database's verdict on its commit. */
  datatype Request =
    | Registering(id: Id, commit: bool)
    | Following(caller: Id, target: Id, commit: bool)
    | Unfollowing(caller: Id, target: Id, commit: bool)
    | Counting(id: Id, commit: bool)

  function Serve(db: UserDb, r: Request): UserDb {
    match r
    case Registering(id, commit) => Registered(db, id, commit)
    case Following(caller, target, commit) => FollowCreated(db, caller, target, commit).0
    case Unfollowing(caller, target, commit) => FollowDeleted(db, caller, target, commit).0
    case Counting(id, commit) => TweetCounted(db, id, commit).0
  }

  function Run(db: UserDb, rs: seq<Request>): UserDb
    decreases rs
  {
    if rs == [] then db else Run(Serve(db, rs[0]), rs[1..])
  }

  predicate UnfollowsNow(db: UserDb, r: Request, target: Id) {
    r.Unfollowing? && r.target == target && FollowDeleted(db, r.caller, r.target, r.commit).1.Ok?
  }

  /** How many requests of the run deleted a follow of `target` and were answered with success. */
  function CommittedUnfollows(db: UserDb, rs: seq<Request>, target: Id): nat
    decreases rs
  {
    if rs == [] then 0
    else (if UnfollowsNow(db, rs[0], target) then 1 else 0)
         + CommittedUnfollows(Serve(db, rs[0]), rs[1..], target)
  }

  lemma RowsAfterFollow(db: UserDb, caller: Id, target: Id, commit: bool, u: Id)
    ensures var after := FollowCreated(db, caller, target, commit);
            |RowsTo(after.0, u)| == |RowsTo(db, u)| + if after.1.Ok? && target == u then 1 else 0
  {
    var after := FollowCreated(db, caller, target, commit);
    if after.1.Ok? && target == u {
      assert RowsTo(after.0, u) == RowsTo(db, u) + {Follow(caller, target)};
    } else {
      assert RowsTo(after.0, u) == RowsTo(db, u);
    }
  }

  lemma RowsAfterUnfollow(db: UserDb, caller: Id, target: Id, commit: bool, u: Id)
    ensures var after := FollowDeleted(db, caller, target, commit);
            |RowsTo(after.0, u)| == |RowsTo(db, u)| - if after.1.Ok? && target == u then 1 else 0
  {
    var after := FollowDeleted(db, caller, target, commit);
    if after.1.Ok? && target == u {
      assert RowsTo(after.0, u) == RowsTo(db, u) - {Follow(caller, target)};
    } else {
      assert RowsTo(after.0, u) == RowsTo(db, u);
    }
  }

  lemma StepAccounting(db: UserDb, r: Request, u: Id)
    ensures NumFollowers(Serve(db, r), u) - |RowsTo(Serve(db, r), u)|
         == NumFollowers(db, u) - |RowsTo(db, u)| + if UnfollowsNow(db, r, u) then 1 else 0
    ensures NumFollowers(Serve(db, r), u) >= NumFollowers(db, u)
  {
    match r
    case Following(caller, target, commit) => RowsAfterFollow(db, caller, target, commit, u);
    case Unfollowing(caller, target, commit) => RowsAfterUnfollow(db, caller, target, commit, u);
    case _ => assert RowsTo(Serve(db, r), u) == RowsTo(db, u);
  }

  lemma {:induction false} RunAccounting(db: UserDb, rs: seq<Request>, u: Id)
    ensures NumFollowers(Run(db, rs), u) - |RowsTo(Run(db, rs), u)|
         == NumFollowers(db, u) - |RowsTo(db, u)| + CommittedUnfollows(db, rs, u)
    ensures NumFollowers(Run(db, rs), u) >= NumFollowers(db, u)
    decreases rs
  {
    if rs != [] {
      StepAccounting(db, rs[0], u);
      RunAccounting(Serve(db, rs[0]), rs[1..], u);
    }
  }

  /**
   * Follow accounting: after any run, with any commits failing, a user's counter is the number of
   * current follow rows plus the number of unfollows ever committed. So it is never below the true
   * count, and it is the true count exactly when nobody has unfollowed that user.
   */
  lemma FollowAccounting(rs: seq<Request>, u: Id)
    ensures NumFollowers(Run(EMPTY, rs), u) == |RowsTo(Run(EMPTY, rs), u)| + CommittedUnfollows(EMPTY, rs, u)
    ensures NumFollowers(Run(EMPTY, rs), u) >= |RowsTo(Run(EMPTY, rs), u)|
    ensures NumFollowers(Run(EMPTY, rs), u) == |RowsTo(Run(EMPTY, rs), u)| <==> CommittedUnfollows(EMPTY, rs, u) == 0
  {
    RunAccounting(EMPTY, rs, u);
    assert RowsTo(EMPTY, u) == {};
  }

  /** One follow and one unfollow leave a counter of 1 beside an empty table. */
  lemma UnfollowLeavesCounterBehind()
    ensures var rs := [Registering("b", true), Following("a", "b", true), Unfollowing("a", "b", true)];
            NumFollowers(Run(EMPTY, rs), "b") == 1 && RowsTo(Run(EMPTY, rs), "b") == {}
  {
    var d1 := Serve(EMPTY, Registering("b", true));
    var d2 := Serve(d1, Following("a", "b", true));
    var d3 := Serve(d2, Unfollowing("a", "b", true));
    var rs := [Registering("b", true), Following("a", "b", true), Unfollowing("a", "b", true)];
    assert "a" != "b" by { assert "a"[0] == 'a' && "b"[0] == 'b'; }
    assert d3.follows == {};
    assert rs[1..][1..][1..] == [];
    assert Run(EMPTY, rs) == d3;
  }

  ghost predicate NoSelfFollow(db: UserDb) {
    forall row :: row in db.follows ==> row.follower != row.following
  }

  /** No run creates a row in which a user follows itself. */
  lemma {:induction false} NeverSelfFollowing(db: UserDb, rs: seq<Request>)
    requires NoSelfFollow(db)
    ensures NoSelfFollow(Run(db, rs))
    decreases rs
  {
    if rs != [] {
      NeverSelfFollowing(Serve(db, rs[0]), rs[1..]);
    }
  }

  // ----- the service object -----

  class UserService {
    var users: map<Id, User>
    var follows: set<Follow>

    constructor ()
      ensures Db() == EMPTY
    {
      users, follows := map[], {};
    }

    ghost function Db(): UserDb
      reads this
    {
      UserDb(users, follows)
    }

    /**
     * After its commit the new row is read back and a token is signed; `answered` says that both worked, and
     * when they do not the user exists all the same.
     */
    method Register(id: Id, commit: bool, answered: bool) returns (status: Status)
      modifies this
      ensures Db() == Serve(old(Db()), Registering(id, commit))
      ensures status.Ok? <==> old(id !in users) && commit && answered
      ensures !status.Ok? ==> status.DatabaseError?
      ensures !commit ==> Db() == old(Db())
      ensures users.Keys == old(users.Keys) + if commit then {id} else {}
      ensures old(id !in users) && commit ==> users[id] == User(0, 0)
      ensures forall u :: u in old(users) ==> users[u] == old(users)[u]
      ensures follows == old(follows)
    {
      if id in users || !commit {
        return DatabaseError;
      }
      users := users[id := User(0, 0)];
      status := if answered then Ok else DatabaseError;
    }

    method CreateFollow(caller: Id, target: Id, commit: bool) returns (status: Status)
      modifies this
      ensures (Db(), status) == FollowCreated(old(Db()), caller, target, commit)
      ensures Db() == Serve(old(Db()), Following(caller, target, commit))
      ensures status.BadRequest? <==> caller == target
      ensures status.NotFound? <==> caller != target && target !in old(users)
      ensures status.Ok? <==>
                caller != target && target in old(users) && Follow(caller, target) !in old(follows) && commit
      ensures status.Ok? || status.BadRequest? || status.NotFound? || status.DatabaseError?
      ensures !status.Ok? ==> Db() == old(Db())
      ensures status.Ok? ==>
                && follows == old(follows) + {Follow(caller, target)}
                && users.Keys == old(users.Keys) && users - {target} == old(users) - {target}
                && NumFollowers(Db(), target) == old(NumFollowers(Db(), target)) + 1
                && NumTweets(Db(), target) == old(NumTweets(Db(), target))
      ensures old(NoSelfFollow(Db())) ==> NoSelfFollow(Db())
    {
      if target == caller {
        return BadRequest;
      }
      var newFollow := Follow(caller, target);
      if target !in users {
        return NotFound;
      }
      var userFollowing := users[target];
      userFollowing := userFollowing.(numFollowers := userFollowing.numFollowers + 1);
      if newFollow in follows || !commit {
        return DatabaseError;
      }
      follows := follows + {newFollow};
      users := users[target := userFollowing];
      status := Ok;
    }

    method DeleteFollow(caller: Id, target: Id, commit: bool) returns (status: Status)
      modifies this
      ensures (Db(), status) == FollowDeleted(old(Db()), caller, target, commit)
      ensures Db() == Serve(old(Db()), Unfollowing(caller, target, commit))
      ensures status.Ok? <==> Follow(caller, target) in old(follows) && commit
      ensures status.Ok? <==> Follow(caller, target) in old(follows) && Follow(caller, target) !in follows
      ensures status.NotFound? <==> Follow(caller, target) !in old(follows)
      ensures status.Ok? || status.NotFound? || status.DatabaseError?
      ensures users == old(users) && follows - {Follow(caller, target)} == old(follows) - {Follow(caller, target)}
      ensures status.Ok? ==>
                |RowsTo(Db(), target)| == old(|RowsTo(Db(), target)|) - 1
                && NumFollowers(Db(), target) == old(NumFollowers(Db(), target))
    {
      var follow := Follow(caller, target);
      if follow !in follows {
        return NotFound;
      }
      if !commit {
        return DatabaseError;
      }
      StepAccounting(Db(), Unfollowing(caller, target, commit), target);
      follows := follows - {follow};
      status := Ok;
    }

    method IncrementsTweets(id: Id, commit: bool) returns (success: bool)
      modifies this
      ensures (Db(), success) == TweetCounted(old(Db()), id, commit)
      ensures Db() == Serve(old(Db()), Counting(id, commit))
      ensures success <==> NumTweets(Db(), id) == old(NumTweets(Db(), id)) + 1
      ensures success <==> old(id in users) && commit
      ensures !success ==> Db() == old(Db())
      ensures follows == old(follows) && users.Keys == old(users.Keys)
      ensures forall u :: NumFollowers(Db(), u) == old(NumFollowers(Db(), u))
      ensures forall u :: u != id ==> NumTweets(Db(), u) == old(NumTweets(Db(), u))
    {
      if id !in users {
        return false;
      }
      var user := users[id];
      user := user.(numTweets := user.numTweets + 1);
      if !commit {
        return false;
      }
      users := users[id := user];
      success := true;
    }

    method GetFollowers(author: Id) returns (followers: seq<Id>)
      ensures IsFollowerList(Db(), author, followers)
    {
      var rows := set row | row in follows && row.following == author;
      followers := [];
      while rows != {}
        invariant NoDup(followers)
        invariant forall f :: f in followers ==> Follow(f, author) in follows && Follow(f, author) !in rows
        invariant forall row :: row in rows ==> row in follows && row.following == author
        invariant forall row :: row in follows && row.following == author ==> row in rows || row.follower in followers
        decreases rows
      {
        var row :| row in rows;
        followers := followers + [row.follower];
        rows := rows - {row};
      }
    }
  }
}
