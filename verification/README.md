# Feed pipeline and counters of the Twitter-like microservices: a verified model

The repository's services hide two protocols whose correctness is not visible from any one function.

**Fan-out on write.** A broker delivers tweet messages to `feed-worker`. Each delivery runs in its own
goroutine: decode, fetch the author's followers from the user service, and for each follower LPUSH the
tweet id onto `feed:<follower>` and LTRIM that list to 1000 entries; a failed push requeues the message,
the end of the list acknowledges it. The feed service reads windows of those lists and has the tweet
service turn ids into tweets. The question is whether a bounded, concurrently trimmed, partially
fanned-out, redelivered list still is the feed.

**Counters beside rows.** `num_likes`, `num_reposts`, `num_followers` and `num_tweets` are integers kept
beside the rows they count. Handlers change both in one transaction, but write the counter as the value
they read plus or minus one. The question is when the integer equals the count, and by how much it is
off otherwise.

| file | what it holds |
|---|---|
| Common.dfy | identifiers, HTTP outcomes, sequence and set facts |
| Redis.dfy | list commands, feed keys, the cache relation between a trimmed feed and its log |
| Users.dfy | follow rows, follower query, counters; follow accounting over whole runs |
| FeedWorker.dfy | the message handler as a method, and serial histories of it |
| Pipeline.dfy | the concurrent pipeline: handlers, broker, feeds, steps, runs, invariant |
| PipelineSteps.dfy | every step keeps the invariant |
| PipelineTheorems.dfy | what holds in every reachable state |
| Redelivery.dfy | copy counts, schedule independence, total pushes |
| Drain.dfy | redelivery ends under every schedule, with the queue empty or no process subscribed; never deadlocks; delivers at least once |
| Schedules.dfy | the sequential handler as a schedule; the length bound attained |
| Marks.dfy | like and repost rows, counter pairs |
| MarkSessions.dfy | sessions that read and commit separately: exact drift accounting, exact conditions for agreement and for counts never below zero |
| Tweets.dfy | the tweet service one request at a time; counters, ownership, tweet counts |
| SerialSessions.dfy | serial handlers as undisturbed sessions |
| FeedService.dfy | window reads, pages, hydration |

`dafny verify dfyconfig.toml` checks the whole project.

## How the source is read

- `feed-worker/main.go` is followed where `feed-worker/README.md` describes another design (per-user
  queues, automatic acknowledgement, crashing on errors).
- `handle_message` goes on after a parse error and after a failed follower fetch. A parse error therefore
  settles the delivery twice, and a failed fetch acknowledges a message nobody received;
  `feed-worker/main_test.go:103-146` expects a single Nack in both cases. The code is modelled as it is:
  `FeedWorker.HandleMessage` says exactly when one settlement is made, `PipelineTheorems.FetchFailureLosesTweet`
  is a run in which a tweet is lost, and `PipelineTheorems.SettledMeansDelivered` gives the exact condition
  under which an acknowledgement means delivery.
- A failed decode may have filled some fields; a body is a flag and the fields as decoded, with no relation
  assumed between them.
- A second settlement of a delivery changes nothing in the queues. The broker may take any open delivery
  back at any time (`Requeue`), which covers the closed channel such a settlement causes, lost connections
  and restarts.
- `main.go` consumes one channel and does not subscribe again when it closes: its range loop ends and the
  process waits forever (`feed-worker/main.go:134-143`). The broker's `listening` flag says whether any
  process is subscribed; `Unsubscribe` closes the last such channel at any time, `Subscribe` is a process
  started, and nothing is delivered in between. So a run comes to rest either drained or with messages queued
  and no subscriber; `Drain.LostChannelStrands` is a run in which one unparsable message leads to the latter.
- A push may be applied, refused, or applied with its reply lost. A trim is applied or not; its error is
  only logged.
- The follow table changes between any two steps. A follower fetch returns the current rows once each, in
  any order.
- The unique constraints make a second row for the same pair fail its commit. Any commit may fail for other
  reasons, an integer overflow included. Generated ids are new.
- In a session, an UPDATE of a tweet that is gone fails the commit, and a DELETE of a row that is gone
  removes nothing and lets the commit proceed, which is how the ORM treats them by default.
- `createTweet` and `register` read the new row back inside the same `try`, and `register` then signs a
  token. When only that fails, the row stays and the answer is an error; for a tweet the user service is then
  never called. `createTweet` announces the tweet on the message queue last, outside that `try`: when this
  raises, a tweet that was stored and counted is answered with a server error.
- A commit whose confirmation is lost is a commit.
- `DeleteFollow` does not touch `num_followers`; the accounting law says what the counter then means.

## Model

| member | source | states |
|---|---|---|
| Redis.FeedKeyInjective | feed-worker/main.go:74 | two users share a feed key only if they are the same user |
| Redis.TrimKeepsNewest | feed-worker/main.go:82-83 | trimming to positions 0..999 keeps exactly the newest thousand entries |
| Redis.CachedWindow | feed/src/dependencies/redis.py:45-48 | a page inside the first thousand reads the same from a trimmed feed as from the untrimmed log |
| Redis.CachedWindowExactly | feed/src/dependencies/redis.py:45-48 | a page of a feed that is a prefix of its log is the log's page if and only if the feed reaches to the page's end, is the whole log, or the log has nothing there |
| Redis.RangeSelects | feed/src/dependencies/redis.py:48 | a range read returns the elements at the positions between its bounds, negative ones counted from the end, all of them and in order |
| Redis.Client.LPush | feed-worker/main.go:75 | the value is on top of its list unless refused, and success is reported only for a confirmed push |
| Redis.Client.LTrim | feed-worker/main.go:83 | an applied trim leaves the addressed range of that list; a failed one leaves everything |
| Redis.Client.LRange | feed/src/dependencies/redis.py:48 | the elements at the positions between the bounds, all of them and in order; for ordinary bounds the page from start to stop |
| Users.FollowOutcome | users/src/routes/follower_routes.py:23-42 | exactly when a follow is accepted and which error is answered otherwise; the caller joins the followers of that user only, its counter goes up by one, and nothing changes on an error |
| Users.UnfollowOutcome | users/src/routes/follower_routes.py:88-103 | an unfollow is accepted exactly when the caller follows that user and it commits; then the caller alone leaves the followers, and no user row changes |
| Users.FollowUnfollow | users/src/routes/follower_routes.py:88-101 | unfollowing undoes a follow in the table but leaves the counter one higher |
| Users.FollowAccounting | users/src/routes/follower_routes.py:26-40 | after every run with failing commits, num_followers is the follow rows plus the unfollows ever committed; never below the true count, equal to it exactly when nobody unfollowed |
| Users.RunAccounting | users/src/models.py:49-51 | along any run a follower counter never decreases, and its excess over the rows grows by the committed unfollows |
| Users.UnfollowLeavesCounterBehind | users/src/routes/follower_routes.py:95-97 | a run that ends with a counter of 1 and no follower |
| Users.NeverSelfFollowing | users/src/routes/follower_routes.py:23-24 | no run creates a row in which a user follows itself |
| Users.UserService.Register | users/src/routes/user_routes.py:32-41 | a failed commit changes nothing, a committed new user has zero counters whatever the answer, no other user or follow changes; success is answered exactly when the row was new, committed, read back and a token signed |
| Users.UserService.CreateFollow | users/src/routes/follower_routes.py:17-42 | which of its answers is given, for every caller, target and commit; only success changes anything, adding that follow and one to the target's counter; self-follows stay out |
| Users.UserService.DeleteFollow | users/src/routes/follower_routes.py:82-103 | which of its answers is given; success takes exactly that follow away and no counter; the target then has one row less and the same count |
| Users.UserService.IncrementsTweets | users/src/grpc/server.py:48-66 | success is answered exactly when that user's tweet count went up by one, exactly for a known user and a commit; no other count, user or follow changes |
| Users.UserService.GetFollowers | users/src/grpc/server.py:68-87 | every current follower of the author exactly once |
| Users.FollowerListExists | users/src/grpc/server.py:72-87 | the follower query has an answer for every author in every database |
| FeedWorker.HandleMessage | feed-worker/main.go:57-92 | the feeds after one attempt for any failures, over the followers fetched or none; one settlement if and only if the body parses; a final Ack if and only if no push failed, failed follower fetches included |
| FeedWorker.FanOutFeedByFeed | feed-worker/main.go:72-88 | feed by feed: followers before the first failed push have the tweet on top, later ones and all other keys are untouched |
| FeedWorker.FanOutOnWriteIsFanOutOnRead | feed-worker/main.go:57-92 | in every serial history with follows and unfollows in between, a feed is the newest thousand of the tweets whose author was followed when they were handled |
| FeedWorker.FixedGraphTimeline | users/src/grpc/server.py:68-87 | while the follow graph is fixed that timeline is filter-and-reverse over the tweets handled |
| PipelineSteps.InvStep | feed-worker/main.go:57-92 | every step of every goroutine, of the broker and of the user service keeps the pipeline's invariant |
| PipelineSteps.ConservedStep | feed-worker/main.go:119-139 | no step loses a message or puts it in two places |
| PipelineSteps.LoggedStep | feed-worker/main.go:72-75 | after every step a feed's push log holds exactly the attempts that pushed there, once each |
| PipelineSteps.InvRun | feed-worker/main.go:135-139 | so does every run, with any number of goroutines interleaved in any order |
| PipelineTheorems.CacheRefinesLog | feed-worker/main.go:72-88 | for every interleaving and all failures a feed is a prefix of its push log with at least min(1000, log length) entries, and pages within the first thousand agree with the untrimmed list |
| PipelineTheorems.LengthBound | feed-worker/main.go:75-85 | a feed exceeds 1000 by at most the handlers between push and trim plus the pushes left untrimmed since the last trim; with neither it is exactly the newest thousand |
| PipelineTheorems.WindowStable | feed/src/dependencies/redis.py:34-51 | after k more pushes and any trims, the page at offset + k is the page that was at offset, inside the first thousand |
| PipelineTheorems.ExactlyOnePlace | feed-worker/main.go:119-127 | every published message is queued, with one open delivery, or settled, and only one of these |
| PipelineTheorems.PlaceAfter | feed-worker/main.go:57-92 | how each step moves a message: into the queue when published, from it when delivered, back by a Nack, a failed decode or a lost channel, settled only by the Ack of its open delivery; no other step moves it |
| PipelineTheorems.AttemptsPushPrefixes | feed-worker/main.go:72-91 | an acknowledged attempt pushed to its whole list; a failed one to the followers before the failed push and to that one exactly when its push was applied and the reply lost, so to a strict prefix unless that was the last follower |
| PipelineTheorems.SettledMeansDelivered | feed-worker/main.go:67-91 | every settled message was acknowledged by an attempt, and an acknowledging attempt reached every follower its author then had if and only if its follower fetch succeeded or there was no follower |
| PipelineTheorems.SettledMeansParsed | feed-worker/main.go:60-63 | an unparsable message is never settled |
| PipelineTheorems.FetchFailureLosesTweet | feed-worker/main.go:67-70 | a run whose one fault is a failed follower fetch settles a tweet without pushing it to the user who followed its author at that fetch |
| PipelineTheorems.OnlyFollowedAuthors | feed-worker/main.go:67-75 | every entry ever pushed to a feed is by an author its owner followed at the fetch, never by the owner |
| Redelivery.EarlierFollowersGetMore | feed-worker/main.go:72-80 | in every reachable state a follower has at least as many copies of a message as any later follower of a fixed list |
| Redelivery.CopiesAreAppliedPushes | feed-worker/main.go:72-80 | in every reachable state the follower at position i of a fixed list holds as many copies of a message as attempts at it whose push at i was applied, lost replies and lost channels included |
| Redelivery.CalmFailuresAreStrictPrefixes | feed-worker/main.go:75-79 | when no reply to a push of its message was lost, a failed attempt pushed exactly to the followers before its failed push, a strict prefix, whatever happens to other messages |
| Redelivery.RedeliveryCopies | feed-worker/main.go:72-91 | once a message is acknowledged, the follower at position i of its fixed list holds one copy plus one for every attempt at it that failed at a later position; assumed only that no push of this message lost its reply and no channel with an open delivery of it closed |
| Redelivery.EachFollowerOnce | feed-worker/main.go:135-139 | every schedule of a complete failure-free run over a fixed graph pushes each message exactly once to each follower and to nobody else |
| Redelivery.ScheduleIndependence | feed-worker/main.go:135-139 | in such a run each push log is a permutation of the followed authors' tweets among the messages, in any order given |
| Redelivery.SerialLogPermuted | feed-worker/main.go:57-92 | it is a permutation of the log whose newest thousand are the feed the serial worker builds from the same messages in any order |
| Redelivery.TotalPushes | users/src/models.py:76-77 | in such a run the entries of all push logs number the sum of the authors' follower counts |
| Drain.StepDescends | feed-worker/main.go:72-91 | every step lowers a lexicographic measure of failures and outside events left, messages queued, follower lists to fetch and loop steps |
| Drain.NoEndlessRun | feed-worker/main.go:72-91 | with finitely many failures and outside events no schedule of parsable messages runs forever |
| Drain.Progress | feed-worker/main.go:57-92 | until everything is at rest some step is possible that meets no failure, a follower fetch succeeding where one is due; at rest means nothing in flight, and nothing queued unless no process is subscribed |
| Drain.EveryScheduleDrains | feed-worker/main.go:72-143 | whatever allowed step is picked at each moment, the run of those picks is finite and ends with every message settled, or with no process subscribed and each message settled or queued; with every message settled when the subscription is never lost |
| Drain.LostChannelStrands | feed-worker/main.go:134-143 | a run in which the second settlement of one unparsable message ends the only subscription: everything is at rest and a good message is still queued |
| Drain.SubscribeResumes | feed-worker/main.go:119-131 | whenever a run has come to rest with messages queued, nothing can be delivered until a process is started, and then each of them can |
| Drain.AtLeastOnce | feed-worker/main.go:57-92 | a settled message none of whose attempts failed its follower fetch was pushed by one attempt to everyone following its author at that attempt |
| Drain.EveryScheduleDelivers | feed-worker/main.go:57-143 | from any state reached by parsable messages and successful fetches, every picker that fails no fetch ends with each message delivered by one attempt to the audience found, or still queued with no process subscribed, whatever pushes and channels fail within its budget; with all of them delivered when the subscription is never lost |
| Drain.ProceedKeepsGoing | feed-worker/main.go:57-92 | pickers that always go on and fail no fetch exist, needing no budget |
| Schedules.HandlerIsASchedule | feed-worker/main.go:57-92 | the sequential handler is one schedule of its goroutine: same feeds, and an open delivery ends settled if it parsed and no push failed, queued again otherwise |
| Schedules.LengthBoundAttained | feed-worker/main.go:75-85 | for any numbers of pending handlers and failed trims some run attains the length bound exactly |
| MarkSessions.DriftAccounting | tweets/src/routes/__init__.py:174-190 | over every interleaving with failing commits, rows minus counter is the sum over commits of (value at commit - value read) plus the deletions that found their row gone |
| MarkSessions.CommitsAreAtomic | tweets/src/routes/__init__.py:182-190 | a commit that fails, repeats a row or updates a vanished tweet changes no table; any other changes its own row and its counter together, and no other row or counter |
| MarkSessions.AgreementExactly | tweets/src/routes/__init__.py:174-190 | a counter equals its rows in every state of a run if and only if every effective commit compared equal: an addition read the stored value, a deletion read it, or one more when its row was gone |
| MarkSessions.NonNegativeExactly | tweets/src/routes/__init__.py:222-234 | a counter is never negative in any state of a run if and only if every effective deletion had read at least one |
| MarkSessions.NoOverlapNoDrift | tweets/src/routes/__init__.py:222-234 | when no two sessions on one counter overlap, that counter equals its rows in every state, however sessions on other counters overlap |
| MarkSessions.AdditionsNeverOvercount | tweets/src/models.py:50-52 | as long as no deletion takes effect on a counter it never exceeds its rows, however sessions overlap and whatever is deleted elsewhere |
| MarkSessions.LostUpdate | tweets/src/routes/__init__.py:180-184 | a run of two overlapping likes that leaves two rows and a count of one |
| MarkSessions.LostUpdateThenBelowZero | tweets/src/models.py:62-64 | the same two likes followed by two deletions, one after the other, leave minus one |
| MarkSessions.CountBelowZero | tweets/src/models.py:62-64 | a run of two overlapping deletions of one like, the second reading after the first committed, that leaves minus one |
| MarkSessions.OverlapMayAgree | tweets/src/routes/__init__.py:222-228 | the same deletions, both reading before either commits, leave count and rows equal |
| Tweets.CountersCountUsers | tweets/src/models.py:131-132 | after every serial run with failing commits, a live tweet's counters are its row counts and the numbers of distinct users who marked it, although deleted tweets leave rows behind |
| Tweets.MarkOutcome | tweets/src/routes/__init__.py:174-190 | exactly when a like or repost is accepted, and that it adds its user to that tweet's markers and to no others |
| Tweets.UnmarkOutcome | tweets/src/routes/__init__.py:214-234 | exactly when the deletion of a like or repost is accepted, and that its user alone leaves that tweet's markers |
| Tweets.MarkUnmark | tweets/src/routes/__init__.py:277-303 | deleting the row just created restores tweets, counters and rows |
| Tweets.OnlyOwnersDelete | tweets/src/routes/__init__.py:89-165 | over any run, a tweet, reply, like or repost goes away only by a request of its owner |
| Tweets.TweetCount | tweets/src/routes/__init__.py:30-124 | the stored tweets and replies of a user plus those it deleted are num_tweets plus those whose increment call was not made or had no effect; both are the posts ever committed |
| Tweets.TweetService.IncrementTweets | tweets/src/grpc/client/__init__.py:34-46 | the caller sees the service's verdict, or nothing when the call failed, whether or not it took effect |
| Tweets.TweetService.CreateTweet | tweets/src/routes/__init__.py:25-48 | a committed tweet is stored as the user's with zero counters whatever fails later, a failed commit stores nothing, all else stays; the user's count is touched only after the tweet was read back; which answer is given; counters still match rows |
| Tweets.TweetService.DeleteTweet | tweets/src/routes/__init__.py:84-105 | success exactly for the owner of a live tweet whose deletion commits, and exactly then the tweet is gone; which error is answered otherwise, nothing changing; like and repost rows and all other tweets stay; counters still match rows |
| Tweets.TweetService.CreateTweetReply | tweets/src/routes/__init__.py:109-125 | success exactly on a commit; then the reply is the user's and reaches the user's count, and otherwise nothing changes; no tweet, its parent included, no mark and no other reply changes |
| Tweets.TweetService.DeleteTweetReply | tweets/src/routes/__init__.py:144-165 | the reply goes exactly when its owner asks and the deletion commits; which error is answered otherwise; every other reply, every tweet and every mark stay |
| Tweets.TweetService.CreateLike | tweets/src/routes/__init__.py:169-190 | success exactly when the tweet is live, not yet liked by the user and the commit succeeds; then that row and that one counter change together, on any error nothing; every counter stays equal to its rows |
| Tweets.TweetService.DeleteLike | tweets/src/routes/__init__.py:209-234 | success exactly for the like's own user and a commit, and exactly then the row is gone and its live tweet's count one lower; which error is answered otherwise, nothing changing; also for a like whose tweet is gone |
| Tweets.TweetService.CreateRepost | tweets/src/routes/__init__.py:238-259 | the same as for likes, on reposts |
| Tweets.TweetService.DeleteRepost | tweets/src/routes/__init__.py:278-303 | the same as for likes, on reposts; a like's id is answered as not found |
| SerialSessions.MarkIsOneSession | tweets/src/routes/__init__.py:174-190 | the serial like and repost handlers are sessions committed without interruption |
| SerialSessions.UnmarkIsOneSession | tweets/src/routes/__init__.py:214-234 | so are the serial deletions |
| SerialSessions.TweetStepsAreSerial | tweets/src/routes/__init__.py:33-99 | a committed post and an accepted deletion of a tweet are single steps of the session model |
| FeedService.ReadFeedTweetIds | feed/src/dependencies/redis.py:34-51 | for every limit and offset the endpoint admits, the ids read over the connection are the requested page |
| FeedService.AnswerExactly | feed/src/routes/__init__.py:19-42 | for all parameters and RPC outcomes: rejected exactly outside the declared ranges, empty exactly when the requested page is, otherwise a page reporting the limit and offset asked for and the number of its tweets |
| FeedService.WindowRead | feed/src/dependencies/redis.py:45-48 | the id window is the requested page if and only if offset + limit is positive or the feed is short enough; in particular for every limit the endpoint admits |
| FeedService.PagesCoverFeed | feed/src/routes/__init__.py:19-28 | on a quiet feed consecutive pages give the whole feed, each position once, in order |
| FeedService.HydrationExact | feed/src/grpc/client/__init__.py:42-64 | a successful response holds each live tweet of the window once with its row's fields, nothing else, at most limit of them; a failed RPC yields none |
| FeedService.SelectExact | tweets/src/grpc/server/__init__.py:36 | the id query returns each row asked for exactly once, for any order of the table |
| FeedService.PageShowsPushes | feed/src/routes/__init__.py:28-42 | after any pipeline run a page within the first thousand shows exactly the live tweets at those positions of everything ever pushed to the user |

## Left out

- Redis.Client.LPush: a client library that retries a command on its own could apply one push several times; here one call applies at most once.
- FeedService.HydrationExact: says nothing about the order of the tweets, because the id query has none.
- FeedService.WindowRead: ids are never malformed here; a window holding one that the database rejects is a failed RPC.
- Process crashes: a goroutine that is lost is one that takes no further step while the broker takes its delivery back, and the last process lost is `Unsubscribe`; losing the Redis lists is not modelled.
- Follower fetches that return a stale or partial list without an error.
- Payloads of `createTweet`: the tweet service publishes `id` instead of `tweet_id`, to another exchange, so no end-to-end claim from posting to feeds is made; messages have the form `feed-worker/producer/producer.py` sends.
- Overlapping sessions on `num_followers` and `num_tweets`: users are modelled one request at a time; likes and reposts show the drift.
- Identifier texts: ids are canonical; the self-follow guard compares texts, so a non-canonical spelling of one's own id is outside the model.
- `num_replys` and reply counters: no handler updates them.
- `GetFollowing`, the list and single-item GET handlers and `to_dict`: queries and field copies without further properties.
- Users' e-mail and username uniqueness, passwords, tokens: a registration that breaks them is a failing commit, the caller's id is an input.
- search and search-worker: documents are indexed without an id and deleted by tweet id, and the search API is a mock, so there is no agreement to prove.
- Transport, tracing, configuration and generated code.
