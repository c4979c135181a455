# Poll voting pipeline — a Dafny model

This project models the vote pipeline of a poll service and the small request
handlers around it:

- **Vote intake** (`Voting`): `POST /votes` builds a vote event from the request, the optional
  `X-User-Id` header and freshly drawn ids. It publishes the event on `votes-topic`, keyed by the poll id.
  It answers 202 `{"status":"queued"}` without waiting for the publication.
- **Event bus** (`Events.EventBus`): the append-only log of `(topic, key, event)` records.
- **Tally aggregator** (`Tally.ResultsListener`, consumer group `results-service`): for each event it increments
  `poll:<pollId>:total` and then `poll:<pollId>:option:<optionId>` in a string-keyed counter store. It then
  hands one `{pollId, optionId, optionCount}` message to the broker under `/topic/poll-results/<pollId>`.
  It catches every exception.
- **Vote ledger** (`Ledger.VoteConsumer`, consumer group `voting-service`): it appends one row per event it handles without error,
  under a key the store generates. It does not deduplicate by `voteId`.
- **Gateway relay** (`Gateway.Filter`): it turns a valid `Bearer` token into `X-User-Id`/`X-User-Role` headers,
  and forwards every other request unchanged.
- **Polls** (`Polls`): poll creation with ordered options and a `PollCreatedEvent`, plus lookup by id and listing.
- **Auth** (`Auth`): registration into a users table with a uniqueness check, and login.

External systems are in-memory state. The counter store is a `map<string, int>`. The broker is a log of messages.
The tables are a `seq` or a `map`, and the bus is a log. Random UUIDs, the clock, UUID parsing, JWT parsing and
signing, and password hashing and checking are parameters of the operations. A UUID is its canonical
36-character text, so it never contains `:`.

Facts about the code that the model keeps:

- The ledger does not deduplicate by `voteId`. A redelivered event gives a second row
  (`Ledger.RedeliveryAddsSecondRow`).
- Vote intake does not wait for the broker. Its reply is 202 whether the record is later delivered or lost.
  Of the broker's outcomes, only a send call that throws on the spot (for instance a serialization error)
  makes the handler throw instead, and then nothing is published. A malformed `X-User-Id` header also
  makes it throw, before anything is built.
- Poll creation saves the poll before it sends the announcement. A send call that throws leaves the poll
  stored, unannounced, and the caller gets the exception instead of the saved poll.
- A vote without `X-User-Id` gets a fresh random user id. There is no shared anonymous identity.

## Model

| member | source | states |
|---|---|---|
| `Tally.OptionKeyInjective` | results-service/src/main/java/com/runrt/results/service/ResultsListener.java:27-28 | when the poll ids are free of `:`, two option keys are equal exactly when poll and option are equal |
| `Tally.TotalKeyInjective` | results-service/src/main/java/com/runrt/results/service/ResultsListener.java:27-29 | two total keys are equal exactly when the poll ids are equal |
| `Tally.OptionKeyIsNotTotalKey` | results-service/src/main/java/com/runrt/results/service/ResultsListener.java:27-29 | for colon-free poll ids no option key equals any total key |
| `Tally.ColonInPollIdCollides` | results-service/src/main/java/com/runrt/results/service/ResultsListener.java:27-29 | without that condition an option key can equal another poll's total key |
| `Tally.ResultsDestination` | results-service/src/main/java/com/runrt/results/service/ResultsListener.java:37 | every results destination lies under the broker's `/topic` prefix |
| `Tally.AfterVoteEffect` | results-service/src/main/java/com/runrt/results/service/ResultsListener.java:24-42 | one event adds exactly 1 to the total counter and 1 to the option counter, unless an earlier step throws; an absent counter counts as 0; no other counter changes; exactly one message is sent when nothing throws, to the poll's destination, carrying the event's ids and the new option count, or 0 on a null reply |
| `Tally.RedeliveryCountsTwice` | results-service/src/main/java/com/runrt/results/service/ResultsListener.java:23-38 | handling the same event twice adds 2 to both counters and sends two messages, the second reporting one more |
| `Tally.ReplayCounts` | results-service/src/main/java/com/runrt/results/service/ResultsListener.java:29-38 | after any history of deliveries, each counter equals the number of deliveries that reached its increment; there is one message per delivery that reached the send, each addressed to its own poll |
| `Tally.TotalIsOptionSumPlusStranded` | results-service/src/main/java/com/runrt/results/service/ResultsListener.java:24-42 | a poll's total equals the sum of its option counters plus the number of deliveries whose effects stopped after the total increment; with no such failure the total equals the sum |
| `Tally.ThreeVotesScenario` | results-service/src/main/java/com/runrt/results/service/ResultsListener.java:27-38 | votes O1, O1, O2 give O1 = 2, O2 = 1, total = 3, and three messages to the poll's destination reporting 1, 2, 1 |
| `Tally.ResultsListener.HandleVote` | results-service/src/main/java/com/runrt/results/service/ResultsListener.java:22-43 | returns normally whatever fault it meets; the store and the message log are the replay of every delivery handled so far |
| `Voting.BuildEvent` | voting-service/src/main/java/com/runrt/voting/web/VoteController.java:23-30 | the event copies pollId and optionId from the request; its userId is the parsed header, or the random id when the header is absent; a malformed header throws; voteId is the fresh id and the timestamp is the current instant |
| `Voting.VoteController.RecordVote` | voting-service/src/main/java/com/runrt/voting/web/VoteController.java:22-33 | a malformed header throws before the send and publishes nothing; otherwise the record goes to `votes-topic`, keyed by the poll id, and is on the log exactly when the broker acknowledges it; the reply is 202 `queued` unless the send call throws, in which case the exception leaves the handler and nothing is published; the votes on the log grow by exactly the built event when it is acknowledged, and not at all otherwise |
| `Voting.AcceptedVoteAddsOneEvent` | voting-service/src/main/java/com/runrt/voting/web/VoteController.java:31 | a published record adds exactly its event to the votes on the log |
| `Ledger.ToVote` | voting-service/src/main/java/com/runrt/voting/service/VoteConsumer.java:17-22 | a row copies pollId, optionId, userId and timestamp from the event, under the store's key |
| `Ledger.VoteIdIgnored` | voting-service/src/main/java/com/runrt/voting/service/VoteConsumer.java:17-22 | events that differ only in voteId give identical rows |
| `Ledger.RowsMatchDeliveries` | voting-service/src/main/java/com/runrt/voting/service/VoteConsumer.java:16-24 | the ledger has exactly one row per delivery, in order, each a copy of its event; with fresh keys the row keys stay distinct |
| `Ledger.RedeliveryAddsSecondRow` | voting-service/src/main/java/com/runrt/voting/service/VoteConsumer.java:17-23 | delivering one event twice leaves two rows that differ only in their generated keys |
| `Ledger.VoteConsumer.Handle` | voting-service/src/main/java/com/runrt/voting/service/VoteConsumer.java:15-24 | appends exactly one row and leaves every earlier row unchanged; row keys stay distinct |
| `Gateway.TokenOf` | api-gateway/src/main/java/com/runrt/gateway/filter/JwtRelayFilter.java:35-36 | a token is found exactly when the value starts with `Bearer `, and the value is `Bearer ` followed by the token |
| `Gateway.TokenOfBearer` | api-gateway/src/main/java/com/runrt/gateway/filter/JwtRelayFilter.java:36 | the header `Bearer ` + t yields the token t |
| `Gateway.Filter` | api-gateway/src/main/java/com/runrt/gateway/filter/JwtRelayFilter.java:33-51 | with no identity the request is forwarded unchanged; otherwise only X-User-Id and X-User-Role change, each to the one derived value |
| `Gateway.NoBearerPassesThrough` | api-gateway/src/main/java/com/runrt/gateway/filter/JwtRelayFilter.java:34-50 | a missing Authorization header, or one not starting with exactly `Bearer `, forwards the request unchanged |
| `Gateway.ValidTokenRelaysClaims` | api-gateway/src/main/java/com/runrt/gateway/filter/JwtRelayFilter.java:36-45 | a parsed token sets X-User-Id to the uid claim or "" and X-User-Role to the role claim or "" |
| `Gateway.InvalidTokenPassesThrough` | api-gateway/src/main/java/com/runrt/gateway/filter/JwtRelayFilter.java:37-50 | a token that fails to parse, or a claim that is not a string, forwards the request unchanged, so a client-supplied X-User-Id passes through |
| `Polls.NewPoll` | polls-service/src/main/java/com/runrt/polls/web/PollController.java:28-37 | createdBy is the header or `anonymous`; one option per requested text, in order, each with that text and a back-reference to the new poll |
| `Polls.CreatedEvent` | polls-service/src/main/java/com/runrt/polls/web/PollController.java:40-44 | the event carries the saved poll's id and title, and its options' (id, text) pairs in order |
| `Polls.AnnouncedOptionsMatchRequest` | polls-service/src/main/java/com/runrt/polls/web/PollController.java:31-44 | the announced option texts are exactly the requested texts, in request order, under the stored option ids |
| `Polls.Get` | polls-service/src/main/java/com/runrt/polls/web/PollController.java:49-54 | finds a poll exactly when its id is in the table, and returns the stored poll; otherwise 404 |
| `Polls.List` | polls-service/src/main/java/com/runrt/polls/web/PollController.java:56-59 | lists exactly the stored polls |
| `Polls.GetAfterCreate` | polls-service/src/main/java/com/runrt/polls/web/PollController.java:38-53 | after a save, the new poll is found by its id, and lookups of other ids are unaffected |
| `Polls.PollController.Create` | polls-service/src/main/java/com/runrt/polls/web/PollController.java:26-47 | stores the new poll under its fresh id, keeps every poll filed under its id with options pointing back to it, appends one `polls-created-topic` record keyed by the poll id exactly when the broker acknowledges it, and returns the saved poll; when the send call throws, the poll stays stored, nothing is announced and the exception leaves the handler |
| `Auth.FindByUsername` | auth-service/src/main/java/com/runrt/auth/web/AuthController.java:41-45 | finds a user exactly when some row has that username, and returns such a row |
| `Auth.Register` | auth-service/src/main/java/com/runrt/auth/web/AuthController.java:26-37 | a taken username gives 400 `username_taken` and leaves the table unchanged; otherwise it adds exactly one row with that username, the encoded password and role `USER`, and gives 200 `registered` |
| `Auth.RegisterKeepsUsersUnique` | auth-service/src/main/java/com/runrt/auth/web/AuthController.java:27-35 | registration keeps usernames (and ids) pairwise distinct |
| `Auth.Login` | auth-service/src/main/java/com/runrt/auth/web/AuthController.java:40-51 | an unknown username gives 401 `invalid_credentials`; a success is always a row with that username and a matching password, with a token for that username whose claims are the row's uid and role; with unique usernames, success happens exactly when the password matches |
| `Auth.LoginAfterRegister` | auth-service/src/main/java/com/runrt/auth/web/AuthController.java:30-50 | right after registration, login succeeds exactly when the password matches the stored hash, with uid = the new id and role = `USER` |
| `Auth.FailedLoginsIndistinguishable` | auth-service/src/main/java/com/runrt/auth/web/AuthController.java:42-48 | an unknown username and a wrong password get identical responses |
| `Auth.AuthController.RegisterUser` | auth-service/src/main/java/com/runrt/auth/web/AuthController.java:25-37 | updates the table as `Register` says and keeps usernames unique |
| `Pipeline.PublishThreeVotes` | voting-service/src/main/java/com/runrt/voting/web/VoteController.java:22-33 | three accepted votes put three records on `votes-topic`, in order, keyed by the poll id, carrying the requested options |
| `Pipeline.TallyWithRedelivery` | results-service/src/main/java/com/runrt/results/service/ResultsListener.java:22-43 | O1, O1, O2 and then O1 redelivered give O1 = 3, O2 = 1, total = 4 and four messages |
| `Pipeline.LedgerWithRedelivery` | voting-service/src/main/java/com/runrt/voting/service/VoteConsumer.java:15-24 | the same four deliveries give four rows; the redelivered event's two rows differ only in key |
| `Pipeline.ThreeVotesWithRedelivery` | voting-service/src/main/java/com/runrt/voting/service/VoteConsumer.java:15-23 | end to end from intake through both consumer groups, with the first record redelivered: the tally reaches O1 = 3, O2 = 1, total = 4 with four messages; the ledger holds four rows for the poll, and the redelivered event's two rows differ only in key |

## Left out

- Logging, process start-up, and the configuration holders for the JWT secret and token lifetime.
- The Kafka transport: partitions, per-key ordering, offsets and commits, rebalancing and redelivery timing.
  A redelivery is modelled as the same event handled again.
- Consumer-group wiring and the listener container. A delivery is a call of the handler that returns normally. The two groups are
  separate objects, so their independence follows from each handler's `modifies` clause.
- Concurrency: each counter increment is one atomic map update, and thread interleavings are not modelled.
- The broker's subscriber side (STOMP/SockJS endpoints, subscriptions, who receives what). The model keeps
  the log of messages handed to the broker.
- `Ledger.VoteConsumer.Handle`, `Polls.PollController.Create` and `Auth.AuthController.RegisterUser` do not
  model a `repository.save` that throws (a lost database connection, a violated constraint). The table is
  then unchanged and the exception leaves the handler; for a poll nothing is announced either. The model's
  state is then that of the call not having been made. A vote whose ledger save keeps failing can thus be
  counted by the tally and have no ledger row, which `Ledger.RowsMatchDeliveries` does not show, since
  it counts only calls that returned normally.
- The listener's counter store starts empty. A store holding counters from before is not modelled.
- Redis errors (connection loss, a non-integer value, 64-bit overflow past 2^63-1) are not derived. They enter
  through the `Fault` input, which says how far the handler's effects got. An increment the store
  applies but whose reply is lost counts as the next call failing. Counters are unbounded integers.
- The broker client's behaviour is the `SendOutcome` input: acknowledged, lost after the call returned
  (the caller never learns of it), or rejected by the call itself (it throws). Only an acknowledged send
  appends a record. Why a send is rejected or lost is not modelled.
- UUID parsing, random UUIDs, the clock, JWT parsing and signing, and password hashing and checking are
  function or value parameters. The generated keys of the tables are inputs, and each is required to be fresh.
- JSON bodies with missing fields (null pollId, optionId, title, option list or text) are not modelled.
  Every request field is present.
- A claim whose JSON value is null is treated like an absent claim.
- HTTP header names are compared exactly. Header case-insensitivity is not modelled.
- The error response the framework builds from a thrown exception is not modelled. The reply is `Threw`.
- The order of `GET /api/polls` is the store's, so `Polls.List` returns a set.
- JPA mechanics: cascades, lazy loading, JSON back-references, the fetch-join query, and the database's
  unique constraint as a second guard under concurrent registration.
- `UserRepository` is not part of this model. `findByUsername` is modelled as a search of the table for the
  first row with that username.
- `login` is a function of the table value, so it cannot change the table.
