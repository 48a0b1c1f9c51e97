# guessgame: a Dafny model of the guess lifecycle

guessgame is a Bitcoin price-guessing game. A signed-in player guesses
whether the BTC/USD price will be higher or lower a minute later. The
backend runs as a set of Lambda handlers over one DynamoDB table:

- `postConfirmation` creates the player's profile at sign-up;
- `createGuess` checks the player and records the guess at the current price;
- a delay queue delivers the guess to `resolveGuess`, which looks for a
  moved price, requeues while the price stays flat, and then scores the
  guess and marks it resolved;
- `getUser` and `getGuessHistory` read the profile, the pending guess and
  the resolved guesses;
- `streamProcessor` turns table changes into real-time notifications;
- the shared `instrumentPrice` module keeps a ledger of fetched prices,
  which doubles as a five-second cache;
- the browser's game store (`game.svelte.ts`) shows the pending guess, a
  countdown, the score and the age of the latest price.

The model has one module per source file:

- `Table`: the DynamoDB table as a map from (partition key, sort key) to
  item, plus the semantics of Query. A Query takes the first `Limit` keys in
  sort order and only then applies its filter.
- `Db` and `InstrumentPrice`: each store function as a function of the
  table. Each write is also a method on a `Store` object whose new contents
  are given by that function.
- One module per handler.
- `Game`: the client store, as a class whose methods update its fields.
- `Lifecycle`: lemmas that chain the handlers.

External effects are inputs rather than actions. An `Env` value carries:

- the handler's clock reading;
- the price the upstream price service would return;
- the set of external calls that fail.

## Model

| member | source | states |
|---|---|---|
| Domain.Seconds | backend/lambdas/shared/db.ts:53 | the second of a millisecond clock reading, floored: `s*1000 <= ms < s*1000+1000` |
| Domain.CallerId | backend/lambdas/createGuess/index.ts:33-37 | the caller is known iff the token's `sub` is present and non-empty, and is then that `sub` |
| Table.First | backend/lambdas/shared/db.ts:80 | the first sort key of a non-empty set in scan order is in the set and precedes every other key |
| Table.SortedKeys | backend/lambdas/shared/db.ts:80 | the sort keys in scan order: the same keys, strictly ordered, headed by `First` |
| Table.Page | backend/lambdas/shared/db.ts:146-147 | the page a Query reads: `min(limit, size)` keys of the partition, in scan order, each before every key left off the page |
| Table.FilterKeys | backend/lambdas/shared/db.ts:140 | the filter keeps exactly the page keys whose items pass, in page order; a kept head stays the head |
| Table.QueryKeys | backend/lambdas/shared/db.ts:136-150 | a Query returns at most `limit` keys, each in the partition and kept by the filter, in scan order; a key is returned iff it is on the page and kept |
| Table.SingleItemQuery | backend/lambdas/shared/db.ts:81 | a Query with Limit 1 returns the first key if the filter keeps it, and nothing otherwise |
| Table.Latest | backend/lambdas/shared/db.ts:80 | the newest sort key of a non-empty partition is in it and no key is larger |
| Table.Earliest | backend/lambdas/shared/instrumentPrice.ts:97 | the oldest sort key of a non-empty partition is in it and no key is smaller |
| Table.After | backend/lambdas/shared/instrumentPrice.ts:92 | the key condition `SK > :sk`: exactly the entries stamped strictly after the bound, unchanged |
| Table.GuessPartition | backend/lambdas/shared/db.ts:73 | `begins_with(SK, 'GUESS#')` within the user's partition: a start time is present iff a guess item is stored under it |
| Table.PricePartition | backend/lambdas/shared/instrumentPrice.ts:32-33 | the instrument's partition: a timestamp is present iff a price item is stored under it |
| Table.ItemsAtContents | backend/lambdas/shared/db.ts:150 | the items returned are exactly the values stored under the returned keys |
| Table.PutPriceKeepsGuesses | backend/lambdas/shared/instrumentPrice.ts:71-82 | writing a ledger entry leaves every user's guesses unchanged |
| Db.GetUser | backend/lambdas/shared/db.ts:35-50 | no user iff no profile item; otherwise the profile's fields, with a missing score read as 0 |
| Db.NewProfile | backend/lambdas/shared/db.ts:53-54 | a new profile has score 0 and equal creation and update seconds |
| Db.CreateUser | backend/lambdas/shared/db.ts:52-67 | a failed Put changes nothing and fails; otherwise it writes the new profile, replacing any existing one, and returns the user |
| Db.CreatedUserReadsBack | backend/lambdas/shared/db.ts:52-67 | reading the profile back yields the user that createUser returned |
| Db.GetActiveGuess | backend/lambdas/shared/db.ts:69-86 | an active guess exists iff the user has guesses and the newest one is unresolved; it is that newest guess |
| Db.CreateGuess | backend/lambdas/shared/db.ts:88-99 | a failed Put changes nothing; otherwise the guess is stored under `GUESS#<startTime>` |
| Db.PutGuessPartition | backend/lambdas/shared/db.ts:88-99 | storing a guess changes the user's guesses at its start time only |
| Db.PutGuessKeepsUser | backend/lambdas/shared/db.ts:88-99 | storing a guess leaves the user's profile unchanged |
| Db.SameStartTimeCollides | backend/lambdas/shared/db.ts:94 | two guesses with the same start time share a key: the second replaces the first |
| Db.PlacedGuessIsActive | backend/lambdas/shared/db.ts:69-99 | an unresolved guess newer than all of the user's guesses is, once stored, the active guess |
| Db.AddScore | backend/lambdas/shared/db.ts:101-111 | the update fails iff the profile or its score is missing; otherwise the score grows by the change, `updatedAt` becomes now, and nothing else changes |
| Db.UpdateUserScore | backend/lambdas/shared/db.ts:101-111 | a failed call or missing score changes nothing and fails; otherwise the table becomes `AddScore` of the old one |
| Db.ScoreUpdatesAccumulate | backend/lambdas/shared/db.ts:105 | two identical score updates add twice the change; the update is not idempotent |
| Db.MarkResolved | backend/lambdas/shared/db.ts:113-134 | sets all five resolution attributes of the guess under `GUESS#<startTime>`; every other item and the key set are unchanged |
| Db.ResolveGuess | backend/lambdas/shared/db.ts:113-134 | a failed update changes nothing and fails; otherwise the table becomes `MarkResolved` of the old one |
| Db.ResolveCall | backend/lambdas/shared/db.ts:10-11 | a call binds its arguments in order; it is rejected iff one of the four bound values is undefined, and it writes `MarkResolved` iff they have the declared types |
| Db.MarkResolvedPartition | backend/lambdas/shared/db.ts:124-125 | resolution keeps the user's guess keys, changes only the addressed guess and marks it resolved |
| Db.ResolvedGuessIsNotActive | backend/lambdas/shared/db.ts:69-86 | resolving the newest guess leaves the user with no active guess |
| Db.GetGuessHistory | backend/lambdas/shared/db.ts:136-151 | fails iff the limit is below 1; otherwise the resolved guesses among the `limit` newest |
| Db.PutGuessKeepsKeyedByStartTime | backend/lambdas/shared/db.ts:88-99 | storing a guess under `GUESS#<startTime>` keeps every guess of the user under its own start time, so the history stays newest first |
| Db.MarkResolvedKeepsKeyedByStartTime | backend/lambdas/shared/db.ts:113-134 | resolution keeps every guess of the user under its own start time |
| Db.ResolvedPage | backend/lambdas/shared/db.ts:136-150 | at most `limit` guesses, all resolved, exactly those on the page of the `limit` newest that are resolved, newest first when keyed by start time |
| Db.ResolvedGuessHeadsHistory | backend/lambdas/shared/db.ts:136-151 | after the newest guess is resolved, it heads the history |
| Db.PendingGuessFillsSingleSlot | backend/lambdas/shared/db.ts:146-147 | with a pending newest guess, a history of limit 1 is empty, because the limit applies before the filter |
| InstrumentPrice.ExpiresAt | backend/lambdas/shared/instrumentPrice.ts:80 | `ttl` is the entry's floored second plus seven days |
| InstrumentPrice.NewObservation | backend/lambdas/shared/instrumentPrice.ts:73-81 | a ledger entry carries the price, the millisecond timestamp, the source "coingecko" and the ttl |
| InstrumentPrice.WithObservation | backend/lambdas/shared/instrumentPrice.ts:71-82 | the Put adds the entry under `TIMESTAMP#<now>`: the instrument's ledger gains it and every other item is unchanged |
| InstrumentPrice.PutPricePartition | backend/lambdas/shared/instrumentPrice.ts:74-75 | a Put on a ledger key changes that instrument's ledger at that timestamp only |
| InstrumentPrice.StorePrice | backend/lambdas/shared/instrumentPrice.ts:67-86 | a failed write is swallowed and changes nothing; otherwise the entry is added |
| InstrumentPrice.GetCachedPrice | backend/lambdas/shared/instrumentPrice.ts:28-52 | a hit iff the read succeeds, the ledger is non-empty and its newest entry is under 5000 ms old; the hit is that entry's price and timestamp |
| InstrumentPrice.CurrentPrice | backend/lambdas/shared/instrumentPrice.ts:9-26 | fails iff the cache misses and the upstream fetch fails; on a miss the result is the upstream price |
| InstrumentPrice.AfterCurrentPrice | backend/lambdas/shared/instrumentPrice.ts:20-23 | a price request adds at most the key of the entry stamped now; a cache hit, a failed fetch or a failed write leaves the table unchanged |
| InstrumentPrice.GetCurrentInstrumentPrice | backend/lambdas/shared/instrumentPrice.ts:9-26 | returns `CurrentPrice` and leaves the table as `AfterCurrentPrice` |
| InstrumentPrice.CurrentPriceKeepsGuesses | backend/lambdas/shared/instrumentPrice.ts:9-26 | a price request never changes any user's guesses |
| InstrumentPrice.CacheHitWritesNothing | backend/lambdas/shared/instrumentPrice.ts:11-15 | a hit answers with the cached price and writes nothing |
| InstrumentPrice.MissAppendsOneEntry | backend/lambdas/shared/instrumentPrice.ts:17-25 | a miss whose fetch and write succeed appends exactly one ledger entry, stamped now, and leaves other partitions alone |
| InstrumentPrice.StoredFetchIsNewest | backend/lambdas/shared/instrumentPrice.ts:67-82 | a stored fetch stamped no earlier than every entry becomes the newest entry |
| InstrumentPrice.FilledCacheServesWithinTtl | backend/lambdas/shared/instrumentPrice.ts:7-52 | after a stored fetch, a request less than 5000 ms later is served from the ledger with the same price and writes nothing |
| InstrumentPrice.GetPriceAfter | backend/lambdas/shared/instrumentPrice.ts:88-107 | the price of the oldest entry stamped strictly after the bound; none iff there is no such entry or the query fails |
| InstrumentPrice.FindDifferentPriceAfter | backend/lambdas/shared/instrumentPrice.ts:109-134 | a found price differs from the reference and was recorded after the bound |
| InstrumentPrice.DifferentPriceInspectsOldestOnly | backend/lambdas/shared/instrumentPrice.ts:118-125 | the lookup equals `getPriceAfter`, with a price equal to the reference read as none |
| InstrumentPrice.LaterDifferentPriceIsMissed | backend/lambdas/shared/instrumentPrice.ts:118-125 | when the oldest later entry repeats the reference, a different price recorded afterwards is not found |
| Queue.Outbox.Send | backend/lambdas/createGuess/index.ts:95-99 | a failed send queues nothing; otherwise the message joins the queue |
| ResolveGuessHandler.IsCorrect | backend/lambdas/resolveGuess/index.ts:73-82 | an unchanged price is never correct; a correct guess predicted the direction the price moved |
| ResolveGuessHandler.MovedPriceHasOneWinner | backend/lambdas/resolveGuess/index.ts:74-77 | when the price moved, exactly one of up and down is correct |
| ResolveGuessHandler.ScoreChange | backend/lambdas/resolveGuess/index.ts:84 | ±1, positive iff correct |
| ResolveGuessHandler.SettleAt | backend/lambdas/resolveGuess/index.ts:67-84 | settles at the given end price with its correctness and score change |
| ResolveGuessHandler.Decide | backend/lambdas/resolveGuess/index.ts:34-84 | requeue iff there is no usable recorded price, the current price equals the start price and retries remain; otherwise settle at the recorded price if usable, else at the current price |
| ResolveGuessHandler.RetryTask | backend/lambdas/resolveGuess/index.ts:48-55 | the retry task keeps the guess's identity, prediction and start, carries no instrument, and has retry count plus one |
| ResolveGuessHandler.Deliveries | backend/lambdas/resolveGuess/index.ts:44-65 | every delivery before the last one requeues |
| ResolveGuessHandler.RetriesBounded | backend/lambdas/resolveGuess/index.ts:8-65 | a guess is requeued at most `6 - retryCount` times; given enough deliveries the last one settles |
| ResolveGuessHandler.FlatMarketLoses | backend/lambdas/resolveGuess/index.ts:78-84 | in a market that never moves, the guess is requeued exactly `6 - retryCount` times, then settled as incorrect with −1 |
| ResolveGuessHandler.Lookup | backend/lambdas/resolveGuess/index.ts:10-34 | the lookup is the oldest ledger price stamped after start time + 60000 ms, kept only when it differs from the start price |
| ResolveGuessHandler.LookupFoundAfterAMinute | backend/lambdas/resolveGuess/index.ts:10-34 | a found price was recorded strictly more than 60000 ms after the guess started |
| ResolveGuessHandler.StageVerdict | backend/lambdas/resolveGuess/index.ts:34-67 | fails iff the lookup is unusable and the current-price request fails; a usable lookup settles at it; a requeue never exceeds 6 retries |
| ResolveGuessHandler.PriceStage | backend/lambdas/resolveGuess/index.ts:34-67 | only an upstream price failure, after an unusable lookup, fails the price stage |
| ResolveGuessHandler.PriceStageKeepsGuesses | backend/lambdas/resolveGuess/index.ts:34-41 | the price stage never changes any user's guesses |
| ResolveGuessHandler.RunPriceStage | backend/lambdas/resolveGuess/index.ts:34-67 | returns `PriceStage` and leaves the table as `AfterPriceStage` |
| ResolveGuessHandler.RunSettlement | backend/lambdas/resolveGuess/index.ts:90-91 | corrected: updates the score, then resolves the guess under its start time (the five-argument call of the Findings row); a failure of either stops there and is rethrown |
| ResolveGuessHandler.Handle | backend/lambdas/resolveGuess/index.ts:21-99 | corrected: the full delivery with the five-argument resolution call: the price stage, then either a requeue with a 10-second delay or the settling writes; every failure is rethrown |
| ResolveGuessHandler.SettlementClearsActiveGuess | backend/lambdas/resolveGuess/index.ts:90-91 | corrected: settling the newest guess leaves no active guess and moves the score by exactly the score change |
| ResolveGuessHandler.AsWrittenCallIsRejected | backend/lambdas/resolveGuess/index.ts:91 | as written, the end price binds to the start time, the outcome to the end price, the score change to the outcome, and the score change is undefined; the write is rejected on every table |
| ResolveGuessHandler.IntendedCallResolves | backend/lambdas/shared/db.ts:113-134 | with the start time passed first, the call performs the resolution write of the guess under `GUESS#<startTime>` |
| ResolveGuessHandler.AsWrittenSettlement | backend/lambdas/resolveGuess/index.ts:89-98 | as written, a settling delivery applies the score change and then fails on the resolution write, leaving the scored table |
| ResolveGuessHandler.AsWrittenDeliveryStep | backend/lambdas/resolveGuess/index.ts:89-98 | as written, one failed delivery moves the score once, keeps the user's guesses and leaves the score writable |
| ResolveGuessHandler.AsWrittenRedeliveryRepeatsScore | backend/lambdas/resolveGuess/index.ts:89-98 | as written, `n` failed deliveries move the score by `n` times the score change and leave the user's guesses as they were |
| Lifecycle.AsWrittenGuessBlocksOwner | backend/lib/stacks/queue-stack.ts:20-25 | as written, after the three deliveries the queue makes the score has moved three times, the guess is still pending, and its owner is refused a new guess |
| CreateGuessHandler.ParseDirection | backend/lambdas/createGuess/index.ts:39-44 | only "up" and "down" are accepted |
| CreateGuessHandler.Admission | backend/lambdas/createGuess/index.ts:33-60 | the checks in order (caller, direction, profile read, profile present, pending-guess read, no pending guess); each error kind holds iff exactly the checks before it pass and its own fails, and admission holds iff all pass |
| CreateGuessHandler.AdmittedWhenFree | backend/lambdas/createGuess/index.ts:46-60 | a known caller with a profile and no pending guess is admitted |
| CreateGuessHandler.BlockedWhilePending | backend/lambdas/createGuess/index.ts:56-60 | a known caller with a pending guess is refused with `ActiveGuessExists` |
| CreateGuessHandler.NewGuess | backend/lambdas/createGuess/index.ts:71-79 | the guess is unresolved, on BTCUSD, priced and stamped at placement |
| CreateGuessHandler.InitialTask | backend/lambdas/createGuess/index.ts:86-93 | the task carries the guess's user, id, instrument, direction, start price and start time, with no retry count |
| CreateGuessHandler.TaskAddressesGuess | backend/lambdas/createGuess/index.ts:82-93 | the task's user and start time are the key the guess is stored under |
| CreateGuessHandler.Handle | backend/lambdas/createGuess/index.ts:29-108 | each failure (check, price, Put, send) with what it leaves written; on success the guess is stored and its task queued with a 60-second delay |
| CreateGuessHandler.PriceRequestKeepsGuesses | backend/lambdas/createGuess/index.ts:67 | the price request changes neither the caller's guesses nor their profile |
| CreateGuessHandler.PlacedGuessBlocksNext | backend/lambdas/createGuess/index.ts:56-82 | once a guess is placed, the next placement by the same caller is refused with `ActiveGuessExists` |
| GetUserHandler.Handle | backend/lambdas/getUser/index.ts:8-39 | unauthorized without a caller; each read failure is reported iff that read fails and the reads before it succeed; null iff there is no profile; otherwise the stored profile with exactly the caller's active guess, an unresolved guess of theirs |
| GetUserHandler.ReportsPlacedGuess | backend/lambdas/getUser/index.ts:20-34 | a freshly placed guess is the one the profile query reports |
| GetGuessHistoryHandler.EffectiveLimit | backend/lambdas/getGuessHistory/index.ts:18 | a missing or zero limit becomes 10; any other value passes through |
| GetGuessHistoryHandler.Handle | backend/lambdas/getGuessHistory/index.ts:8-28 | unauthorized without a caller; fails iff the query fails or the limit is below 1; otherwise exactly the store's history query with the effective limit, at most that many resolved guesses |
| GetGuessHistoryHandler.PendingGuessTakesASlot | backend/lambdas/getGuessHistory/index.ts:18-23 | with a pending guess, a history of limit 1 is empty |
| PostConfirmationHandler.Handle | backend/lambdas/postConfirmation/index.ts:13-43 | always returns the event; the profile is written only when an email is present and the write succeeds |
| PostConfirmationHandler.ReconfirmationResetsScore | backend/lambdas/postConfirmation/index.ts:31-33 | running the trigger again for a player resets their score to 0; the handler does not check the trigger source, so a forgotten-password confirmation does it too |
| StreamProcessor.RemoveFirst | backend/lambdas/streamProcessor/index.ts:80 | `replace` with a string pattern shortens the text by the pattern or not at all; a leading pattern is stripped |
| StreamProcessor.RemoveFirstCutsFirstOccurrence | backend/lambdas/streamProcessor/index.ts:80 | the first occurrence of the pattern, and only it, is cut out |
| StreamProcessor.RemoveFirstWithoutOccurrence | backend/lambdas/streamProcessor/index.ts:122 | text without the pattern is returned unchanged |
| StreamProcessor.StripRecoversId | backend/lambdas/streamProcessor/index.ts:80-122 | stripping the key prefix recovers the id the key was built from |
| StreamProcessor.GuessPublication | backend/lambdas/streamProcessor/index.ts:78-115 | the notification goes to the user named by the partition key, whose id also replaces the guess's own `userId`; every other field is the stored guess's |
| StreamProcessor.PricePublication | backend/lambdas/streamProcessor/index.ts:120-134 | a price mutation carrying the item's price and timestamp; for a key `INSTRUMENT#<name>` the instrument is `<name>` |
| StreamProcessor.Intended | backend/lambdas/streamProcessor/index.ts:53-70 | a record without a new image publishes nothing; at most one mutation per record; a mutation needs a partition key |
| StreamProcessor.IntendedRoutes | backend/lambdas/streamProcessor/index.ts:53-70 | a record publishes iff it has a new image with a partition key and is a guess resolution or a price insert; a guess resolution publishes exactly its guess mutation, and any other publishing record is a price insert that publishes exactly its price mutation |
| StreamProcessor.Accepted | backend/lambdas/streamProcessor/index.ts:152-161 | the accepted mutations are a prefix, none rejected, ending at the first rejected one |
| StreamProcessor.Handle | backend/lambdas/streamProcessor/index.ts:49-76 | the loop publishes, record by record, exactly what `Published` describes |
| StreamProcessor.PublishedSplits | backend/lambdas/streamProcessor/index.ts:52-75 | a batch publishes the concatenation of what its parts publish |
| StreamProcessor.RejectionIsContained | backend/lambdas/streamProcessor/index.ts:71-74 | a record whose mutation is rejected costs only itself: the records before and after it publish as if it were absent |
| StreamProcessor.OneRecord | backend/lambdas/streamProcessor/index.ts:53-74 | a batch of one record publishes that record's accepted mutations |
| StreamProcessor.ResolvedGuessReachesOwner | backend/lambdas/streamProcessor/index.ts:63-65 | a guess modified into the resolved state under `USER#<id>` is published to that user |
| StreamProcessor.NewPriceIsBroadcast | backend/lambdas/streamProcessor/index.ts:68-70 | an inserted price entry is published under its instrument's name |
| StreamProcessor.NothingWithoutNewImageOrOnRemove | backend/lambdas/streamProcessor/index.ts:54-58 | records without a new image, and removals, publish nothing |
| Game.StartSeconds | frontend/src/lib/stores/game.svelte.ts:39-41 | start times above 10^10 are floored from milliseconds; others are kept |
| Game.CountdownFor | frontend/src/lib/stores/game.svelte.ts:32-51 | no countdown iff no guess is pending; "Resolving..." iff the minute is up; otherwise the positive number of seconds left |
| Game.CountdownWithinAMinute | frontend/src/lib/stores/game.svelte.ts:39-50 | for a millisecond start time, the countdown shows at most 60 seconds and says "Resolving..." once the minute has passed |
| Game.AgeLabel | frontend/src/lib/stores/game.svelte.ts:60-67 | "Just now" under 5 s; seconds under 60 s; otherwise the floored minutes, plural iff more than one |
| Game.FreshnessFor | frontend/src/lib/stores/game.svelte.ts:53-68 | as written: no label iff the stamp is 0; otherwise the label of client seconds minus the stamp |
| Game.MillisecondStampReadsJustNow | frontend/src/lib/stores/game.svelte.ts:58 | as written, a millisecond price stamp always reads "Just now" |
| Game.NormalisedFreshnessFor | frontend/src/lib/stores/game.svelte.ts:53-68 | corrected: the stamp is normalised to seconds the way start times are |
| Game.NormalisedFreshnessTracksAge | frontend/src/lib/stores/game.svelte.ts:58-67 | corrected: under 4 s reads "Just now", 5 s or more does not, and a minute or more reads in minutes |
| Game.GameStore.constructor | frontend/src/lib/stores/game.svelte.ts:6-12 | the initial state: no user, zero price and stamp, empty history, not loading, no error, the clock in seconds |
| Game.GameStore.HasActiveGuess | frontend/src/lib/stores/game.svelte.ts:24-26 | true iff the user holds a guess that is not resolved |
| Game.GameStore.Score | frontend/src/lib/stores/game.svelte.ts:28-30 | the user's score, or 0 when signed out |
| Game.GameStore.TimeUntilResolution | frontend/src/lib/stores/game.svelte.ts:32-51 | a countdown exists iff a guess is pending |
| Game.GameStore.PriceLastUpdated | frontend/src/lib/stores/game.svelte.ts:53-68 | no label iff the price stamp is 0 |
| Game.GameStore.Tick | frontend/src/lib/stores/game.svelte.ts:109-111 | the clock becomes the current second; nothing else changes |
| Game.GameStore.MakeGuess | frontend/src/lib/stores/game.svelte.ts:153-185 | with a pending guess only the error is set; otherwise a new guess becomes the user's active guess, or its error message is shown and rethrown |
| Game.GameStore.OnGuessUpdated | frontend/src/lib/stores/game.svelte.ts:207-221 | only an update to the active guess has an effect; when it is resolved, its score change is added, it is prepended to the history and it stops being active |
| Game.GameStore.OnPriceUpdated | frontend/src/lib/stores/game.svelte.ts:250-251 | the price and its stamp are replaced; nothing else changes |
| Game.GameStore.Reset | frontend/src/lib/stores/game.svelte.ts:279-286 | clears the user, the price, the history, loading and the error; the price stamp and the clock stay |
| Lifecycle.PlacedGuessIsNewest | backend/lambdas/createGuess/index.ts:67-82 | after placement, the new guess is the caller's newest |
| Lifecycle.SettledUserIsAdmitted | backend/lambdas/resolveGuess/index.ts:34-91 | after the price stage and the settling writes for the newest guess, the caller passes every placement check |
| Lifecycle.PlaceSettlePlaceAgain | backend/lambdas/createGuess/index.ts:46-99 | place a guess, settle its task, and the same caller is admitted again |

## Left out

- Sort-key order: DynamoDB orders `GUESS#<ms>` and `TIMESTAMP#<ms>` as strings. The model orders them by number, which agrees while all timestamps have the same number of digits, as millisecond clocks have had since 2001.
- Prices are integers. The upstream service returns decimal numbers with two places, and no arithmetic beyond comparison and equality is done on them.
- Each handler reads the clock once. The source reads `Date.now()` separately in several places; the model uses one `nowMs` per invocation, so stamps written in one invocation share a second.
- HTTP calls, the DynamoDB and SQS SDKs, the AppSync endpoint and `randomUUID` are not modelled. Each call's outcome is an input: `Env.failing` says which calls fail, `Env.upstreamPrice` gives the fetched price, and the guess id is a parameter.
- Concurrency is not modelled. Redelivery after a failed resolver run is modelled only for the as-written resolution call (`AsWrittenRedeliveries`), with every delivery reaching the same verdict. The dead-letter queue itself is not modelled. No write in the source is conditional, so the model has no idempotence property to state.
- Db.ResolveCall: a call whose four values are all defined but of other types than the guess record declares (`IllTyped`) is not given a table. DynamoDB would store such values as they are.
- Db.MarkResolved: on a key with no item, DynamoDB's UpdateItem would create a partial item holding only the five attributes. The model leaves the table unchanged in that case.
- Db.AddScore: an update on a missing profile or score attribute is modelled as a failure. This is DynamoDB's validation error for `score + :change` on a missing attribute.
- ResolveGuessHandler.RunSettlement, ResolveGuessHandler.Handle: model the five-argument resolution call that resolveGuess/index.ts:91 evidently intends, not the four-argument call as written; the as-written call is modelled separately (see Findings).
- ResolveGuessHandler.Lookup: `findDifferentPriceAfter` swallows its own query errors and returns null. A lookup failure therefore never propagates to the resolver; it leads to the current-price request instead.
- InstrumentPrice.FindDifferentPriceAfter: the Limit applies before the filter, so only the oldest later entry is inspected, not the first different one. The model follows the code; `LaterDifferentPriceIsMissed` shows the consequence.
- Game.GameStore.PriceLastUpdated: uses the corrected `NormalisedFreshnessFor`, not the as-written `FreshnessFor` (see Findings).
- The client store's `init`, `loadUser`, `loadGuessHistory`, subscription setup and `cleanup` are not modelled: they only issue requests and log errors. Their effects on state arrive through `MakeGuess`, `OnGuessUpdated` and `OnPriceUpdated`.
- Logging and the infrastructure stacks under `backend/lib` are not part of this model, apart from the resolution queue's limit of three deliveries (`MaxReceiveCount`).

## Findings

| source | as written | input that shows it | evidently intended | confidence | as-written member | corrected member |
|---|---|---|---|---|---|---|
| backend/lambdas/resolveGuess/index.ts:91 | `resolveGuess(userId, endPrice, correct, scoreChange)` passes four arguments to a five-parameter function. Every argument binds one parameter early and `scoreChange` is `undefined`. The document client (backend/lambdas/shared/db.ts:10-11, no `removeUndefinedValues`) rejects the update, after `updateUserScore` has already applied | any settling delivery, e.g. start 45000, end 46000, guess up: the score rises by 1, the delivery fails, the queue redelivers it (three deliveries, backend/lib/stacks/queue-stack.ts:24), and the score rises by 3 in all; the guess stays pending, so its owner can place no further guess | `resolveGuess(userId, startTime, endPrice, correct, scoreChange)`, the five-argument call the resolver's unit test expects at backend/test/lambdas/resolveGuess.test.ts:75 | high, not executed | ResolveGuessHandler.AsWrittenRedeliveryRepeatsScore | ResolveGuessHandler.SettlementClearsActiveGuess |
| frontend/src/lib/stores/game.svelte.ts:58 | the price stamp (ms, from the ledger) is subtracted from the client time in seconds | stamp 1700000000000 at client time 1700000300 (five minutes later) gives a negative age and reads "Just now" | normalise the stamp to seconds, as `timeUntilResolution` does for start times | high, not executed | Game.MillisecondStampReadsJustNow | Game.NormalisedFreshnessTracksAge |
