/**
 * The feed pipeline as a state machine: a broker, one goroutine per delivery, the shared Redis lists
 * and the follow table, each advancing one atomic step at a time in any order.
 */
module Pipeline {
  import opened Common
  import opened Redis
  import opened Users
  import opened FeedWorker

  type Tag = nat

  // ----- one handler -----

  /**
   * Where a handler stands; the positions index its follower list. A failed push was not applied, or was
   * applied with its reply lost.
   */
  datatype Pc =
    | Decoding
    | Fetching
    | Pushing(i: nat)
    | Trimming(i: nat)
    | Failed(i: nat, lost: bool)    // the push at position i returned an error; the Nack is next
    | Acking
    | Acked
    | Nacked(i: nat, lost: bool)

  /**
   * One delivery and the goroutine handling it. `audience`, `fetchFailed` and `pushed` record history:
   * who followed the author when the followers were fetched, whether that fetch failed, and how many
   * pushes were applied.
   */
  datatype Worker = Worker(msg: Id, body: Body, followers: seq<Id>, pc: Pc,
                           audience: set<Id>, fetchFailed: bool, pushed: nat) {
    function Author(): Id {
      body.tweet.userId
    }

    /** The feed the handler is working on. */
    function Key(): string
      requires AtFollower()
    {
      FeedKey(followers[pc.i])
    }

    predicate AtFollower() {
      (pc.Pushing? || pc.Trimming?) && pc.i < |followers|
    }
  }

  datatype Op =
    | Decode
    | Fetch(followers: seq<Id>)
    | FetchFails
    | Push(outcome: PushOutcome)
    | Trim(applied: bool)
    | SendAck
    | SendNack

  ghost predicate Ready(w: Worker, op: Op, db: UserDb) {
    match op
    case Decode => w.pc.Decoding?
    case Fetch(followers) => w.pc.Fetching? && IsFollowerList(db, w.Author(), followers)
    case FetchFails => w.pc.Fetching?
    case Push(_) => w.pc.Pushing? && w.AtFollower()
    case Trim(_) => w.pc.Trimming? && w.AtFollower()
    case SendAck => w.pc.Acking?
    case SendNack => w.pc.Failed?
  }

  /** The program point at the head of the loop. */
  function LoopHead(i: nat, n: nat): Pc {
    if i < n then Pushing(i) else Acking
  }

  ghost function Advance(w: Worker, op: Op, db: UserDb): Worker
    requires Ready(w, op, db)
  {
    match op
    case Decode => w.(pc := Fetching)
    case Fetch(followers) =>
      w.(followers := followers, audience := FollowersOf(db, w.Author()), pc := LoopHead(0, |followers|))
    case FetchFails => w.(audience := FollowersOf(db, w.Author()), fetchFailed := true, pc := Acking)
    case Push(outcome) =>
      var i := w.pc.i;
      (match outcome
       case Pushed => w.(pc := Trimming(i), pushed := i + 1)
       case Refused => w.(pc := Failed(i, false))
       case Lost => w.(pc := Failed(i, true), pushed := i + 1))
    case Trim(_) => w.(pc := LoopHead(w.pc.i + 1, |w.followers|))
    case SendAck => w.(pc := Acked)
    case SendNack => w.(pc := Nacked(w.pc.i, w.pc.lost))
  }

  // ----- the broker -----

  /**
   * `bodies` holds everything ever published; `outstanding` are the delivery tags not yet settled;
   * `listening` says whether some worker process is subscribed to the queue.
   */
  datatype Broker = Broker(bodies: map<Id, Body>, ready: set<Id>, settled: set<Id>, outstanding: set<Tag>,
                           listening: bool)

  /** A Nack with requeue, or a lost channel; no effect on a delivery that is not outstanding. */
  function TakenBack(b: Broker, d: Tag, msg: Id): Broker {
    if d in b.outstanding then b.(outstanding := b.outstanding - {d}, ready := b.ready + {msg}) else b
  }

  /** An Ack; no effect on a delivery that is not outstanding. */
  function Confirmed(b: Broker, d: Tag, msg: Id): Broker {
    if d in b.outstanding then b.(outstanding := b.outstanding - {d}, settled := b.settled + {msg}) else b
  }

  function BrokerAfter(b: Broker, d: Tag, w: Worker, op: Op): Broker {
    if op.SendAck? then Confirmed(b, d, w.msg)
    else if op.SendNack? || (op.Decode? && !w.body.parses) then TakenBack(b, d, w.msg)
    else b
  }

  // ----- the feeds -----

  /** One applied push. */
  datatype Entry = Entry(tag: Tag, tweetId: Id)

  /**
   * The Redis lists with two records of their history: per feed key every applied push, newest first,
   * and how many pushes since the last applied trim were left without one.
   */
  datatype Feeds = Feeds(lists: Lists, log: map<string, seq<Entry>>, missed: map<string, nat>) {
    function LogAt(key: string): seq<Entry> {
      if key in log then log[key] else []
    }

    function MissedAt(key: string): nat {
      if key in missed then missed[key] else 0
    }
  }

  function PushApplied(f: Feeds, key: string, e: Entry): Feeds {
    f.(lists := Prepended(f.lists, key, e.tweetId), log := f.log[key := [e] + f.LogAt(key)])
  }

  function TrimApplied(f: Feeds, key: string): Feeds {
    f.(lists := Trimmed(f.lists, key, 0, FEED_CAP - 1), missed := f.missed[key := 0])
  }

  function TrimMissed(f: Feeds, key: string): Feeds {
    f.(missed := f.missed[key := f.MissedAt(key) + 1])
  }

  function FeedsAfter(f: Feeds, d: Tag, w: Worker, op: Op): Feeds {
    if op.Push? && w.AtFollower() then
      var e := Entry(d, w.body.tweet.tweetId);
      match op.outcome
      case Pushed => PushApplied(f, w.Key(), e)
      case Refused => f
      case Lost => TrimMissed(PushApplied(f, w.Key(), e), w.Key())
    else if op.Trim? && w.AtFollower() then
      if op.applied then TrimApplied(f, w.Key()) else TrimMissed(f, w.Key())
    else f
  }

  /** The feed an untrimmed list would hold. */
  function TweetIds(log: seq<Entry>): seq<Id> {
    seq(|log|, i requires 0 <= i < |log| => log[i].tweetId)
  }

  // ----- the whole pipeline -----

  /** `workers` is indexed by delivery tag. */
  datatype State = State(broker: Broker, workers: seq<Worker>, feeds: Feeds, db: UserDb)

  const INITIAL := State(Broker(map[], {}, {}, {}, true), [], Feeds(map[], map[], map[]), EMPTY)

  datatype Action =
    | Publish(msg: Id, body: Body)
    | UserStep(request: Request)
    | Deliver(msg: Id)
    | Requeue(d: Tag)   // the broker takes a delivery back: its channel or connection is gone
    | Unsubscribe       // the last subscribed channel closes; its worker goes on waiting and never resubscribes
    | Subscribe         // a worker process is started
    | Work(d: Tag, op: Op)

  ghost predicate Enabled(s: State, a: Action) {
    match a
    case Publish(m, _) => m !in s.broker.bodies
    case UserStep(_) => true
    case Deliver(m) => s.broker.listening && m in s.broker.ready && m in s.broker.bodies
    case Requeue(d) => d in s.broker.outstanding && d < |s.workers|
    case Unsubscribe => s.broker.listening
    case Subscribe => true
    case Work(d, op) => d < |s.workers| && Ready(s.workers[d], op, s.db)
  }

  ghost function Do(s: State, a: Action): State
    requires Enabled(s, a)
  {
    match a
    case Publish(m, body) =>
      s.(broker := s.broker.(bodies := s.broker.bodies[m := body], ready := s.broker.ready + {m}))
    case UserStep(r) => s.(db := Serve(s.db, r))
    case Deliver(m) =>
      s.(broker := s.broker.(ready := s.broker.ready - {m}, outstanding := s.broker.outstanding + {|s.workers|}),
         workers := s.workers + [Worker(m, s.broker.bodies[m], [], Decoding, {}, false, 0)])
    case Requeue(d) => s.(broker := TakenBack(s.broker, d, s.workers[d].msg))
    case Unsubscribe => s.(broker := s.broker.(listening := false))
    case Subscribe => s.(broker := s.broker.(listening := true))
    case Work(d, op) =>
      var w := s.workers[d];
      State(BrokerAfter(s.broker, d, w, op), s.workers[d := Advance(w, op, s.db)],
            FeedsAfter(s.feeds, d, w, op), s.db)
  }

  ghost predicate Valid(s: State, actions: seq<Action>)
    decreases actions
  {
    actions == [] || (Enabled(s, actions[0]) && Valid(Do(s, actions[0]), actions[1..]))
  }

  ghost function Exec(s: State, actions: seq<Action>): State
    requires Valid(s, actions)
    decreases actions
  {
    if actions == [] then s else Exec(Do(s, actions[0]), actions[1..])
  }

  // ----- what every step keeps -----

  /** Delivery d is the broker's one open delivery of message m. */
  ghost predicate Holds(b: Broker, ws: seq<Worker>, d: Tag, m: Id) {
    d in b.outstanding && d < |ws| && ws[d].msg == m
  }

  ghost predicate Unacked(b: Broker, ws: seq<Worker>, m: Id) {
    exists d: Tag :: Holds(b, ws, d, m)
  }

  /** Every published message is in exactly one place. */
  ghost predicate Conserved(b: Broker, ws: seq<Worker>) {
    && (forall m :: m in b.ready ==> m in b.bodies && m !in b.settled && !Unacked(b, ws, m))
    && (forall m :: m in b.settled ==> m in b.bodies && !Unacked(b, ws, m))
    && (forall m :: m in b.bodies ==> m in b.ready || m in b.settled || Unacked(b, ws, m))
    && (forall d: Tag, e: Tag, m :: Holds(b, ws, d, m) && Holds(b, ws, e, m) ==> d == e)
    && (forall d: Tag :: d in b.outstanding ==> d < |ws| && !ws[d].pc.Acked? && !ws[d].pc.Nacked?)
    && (forall d: Tag :: d < |ws| ==> ws[d].msg in b.bodies && b.bodies[ws[d].msg] == ws[d].body)
  }

  /** A settled message was acknowledged by a handler that had decoded it. */
  ghost predicate Accounted(b: Broker, ws: seq<Worker>) {
    && (forall m :: m in b.settled ==> exists d: Tag :: AckedFor(ws, d, m))
    && (forall d: Tag :: d in b.outstanding && d < |ws| && !ws[d].body.parses ==> ws[d].pc.Decoding?)
  }

  ghost predicate AckedFor(ws: seq<Worker>, d: Tag, m: Id) {
    d < |ws| && ws[d].msg == m && ws[d].pc.Acked? && ws[d].body.parses
  }

  /** A handler's history agrees with its program point. */
  ghost predicate WorkerOk(w: Worker) {
    && NoDup(w.followers) && w.pushed <= |w.followers|
    && (w.fetchFailed ==> w.followers == [])
    && (match w.pc
        case Decoding => w.followers == [] && !w.fetchFailed
        case Fetching => w.followers == [] && !w.fetchFailed
        case Pushing(i) => w.pushed == i < |w.followers|
        case Trimming(i) => w.pushed == i + 1 && i < |w.followers|
        case Failed(i, lost) => w.pushed == i + (if lost then 1 else 0) && i < |w.followers|
        case Nacked(i, lost) => w.pushed == i + (if lost then 1 else 0) && i < |w.followers|
        case Acking => w.pushed == |w.followers|
        case Acked => w.pushed == |w.followers|)
    && (!w.pc.Decoding? && !w.pc.Fetching? && !w.fetchFailed ==>
          forall f :: f in w.followers <==> f in w.audience)
  }

  ghost predicate WorkersOk(ws: seq<Worker>) {
    forall d: Tag :: d < |ws| ==> WorkerOk(ws[d])
  }

  /** The handler has applied its push to the feed under `key`. */
  ghost predicate PushedTo(w: Worker, key: string) {
    exists j :: 0 <= j < w.pushed && j < |w.followers| && FeedKey(w.followers[j]) == key
  }

  ghost predicate InLog(log: seq<Entry>, d: Tag) {
    exists i :: 0 <= i < |log| && log[i].tag == d
  }

  /** The push log under `key` lists exactly the attempts that pushed there, each exactly once. */
  ghost predicate Logged(log: seq<Entry>, ws: seq<Worker>, key: string) {
    && (forall i, j :: 0 <= i < j < |log| ==> log[i].tag != log[j].tag)
    && (forall i :: 0 <= i < |log| ==>
          && log[i].tag < |ws|
          && log[i].tweetId == ws[log[i].tag].body.tweet.tweetId
          && PushedTo(ws[log[i].tag], key))
    && (forall d: Tag :: d < |ws| && PushedTo(ws[d], key) ==> InLog(log, d))
  }

  predicate IsPending(w: Worker, key: string) {
    w.pc.Trimming? && w.AtFollower() && w.Key() == key
  }

  /** The handlers that have pushed under `key` and not yet attempted the trim. */
  ghost function Pending(ws: seq<Worker>, key: string): set<Tag> {
    set d: Tag | d < |ws| && IsPending(ws[d], key)
  }

  ghost predicate Bounded(f: Feeds, ws: seq<Worker>, key: string) {
    |At(f.lists, key)| <= FEED_CAP + |Pending(ws, key)| + f.MissedAt(key)
  }

  ghost predicate Cached(f: Feeds, key: string) {
    Caches(At(f.lists, key), TweetIds(f.LogAt(key)))
  }

  /** Nobody is in the audience of their own tweet. */
  ghost predicate NoSelfAudience(ws: seq<Worker>) {
    forall d: Tag :: d < |ws| ==> ws[d].Author() !in ws[d].followers
  }

  ghost predicate Inv(s: State) {
    && Conserved(s.broker, s.workers) && Accounted(s.broker, s.workers) && WorkersOk(s.workers)
    && NoSelfFollow(s.db) && NoSelfAudience(s.workers)
    && forall key ::
         Logged(s.feeds.LogAt(key), s.workers, key) && Bounded(s.feeds, s.workers, key) && Cached(s.feeds, key)
  }
}
