# dp-mongodb: a verified model

dp-mongodb wraps the MongoDB driver for Go. This project models the parts of it that hold state, interleaving or
arithmetic of their own, and proves what they promise. `dafny verify dfyconfig.toml` checks all of it.

**The distributed lock** (`LockId`, `LockProtocol`, `LockStaleIds`, `LockTiming`, `LockClient`). Any number of
processes and clients share one lock collection. `LockProtocol` is a transition system whose actions are the atomic
ones: printing a lock ID, one `XLock`, `Unlock` or `Purge`, the end of a wait, a tick of the clock, `Close`. A run is
any sequence of enabled actions; `Unlock` may be called with any lock ID. Mutual exclusion is proved for all runs
under one open hypothesis, freshness: a granted lock ID is not one with which another client may still call `Unlock`,
and nobody calls `Unlock` with the ID of somebody else who holds the lock in time. Time IDs are nanoseconds within a
second, so they can repeat. `LockStaleIds` shows that the hypothesis is exact, action by action: after any action that
is not fresh, if the unlock period is below 30 s, a fresh run leads to two holders in time, and such an action is
reachable. `LockClient` holds `Acquire` and `Unlock` as loops over an object that carries the shared state; what they
do is a run of the same transition system, with any actions of others in between. Time is in milliseconds, and the 30
s of a lock are counted from the moment its row was inserted, not from the return of `Acquire`.

The driver and mongo-lock enter by contract only. `XLock` inserts a row unless one exists, and otherwise says so; it
may also fail, with the row inserted or not; the row is then nobody's, and stays until it is purged or unlocked with
the ID that `Acquire` returns beside the error. `Unlock` deletes the rows with the given ID; if it fails, it may or
may not have done so. `Purge` deletes only expired rows, and if it succeeds, all those that expired before now.

**Timers** (`Timer`). The four selects stop and drain a timer in the same way. Since Go 1.23 a timer's channel is
synchronous; before that it buffered its value. The drain is safe under both rules, and every run of the select is at
most six steps long. The selects of the other modules take the timer's branch and the other branches as single actions
on that ground.

**The purger** (`PurgerLifecycle`). The goroutine, the WaitGroup and `Close`, from `Init` to one `Close`.

**Paged find** (`FindOptions`, `Ordering`, `Find`, `Pages`). Options are folded into a mutable record; `Find` counts,
takes its shortcuts and reads one page from a driver that may break ties in a sort in any way, anew for every call.
Pages partition the result exactly when the sort leaves no ties, as the default sort by `_id` does. An _id is an
integer here, standing for its place in the server's order; a driver error is a parameter of each call.

**Closing and transactions** (`CloseProtocol`, `Transaction`). Both are transition systems, with the methods as runs
of them. Two facts stand out. When `Close` ends by timeout or by its context, the shutdown goroutine later sends on a
closed channel and panics, always: the send can only meet a closed channel or a receiver. No deadline and no context
rules that out, or rules out nil: `OutcomeIsOpen` has a run to each end from every call, and says exactly when each is
out of reach. And a transaction whose commit took effect but whose acknowledgement was lost counts as applied while
its caller sees an error, so the number of nil returns is the number of increments exactly if no acknowledgement was
lost; `CommitErrorIsAmbiguous` has the two runs between which the caller cannot tell. Every operation of a body may
fail: a write by a conflict with another transaction, open or committed, which dooms the transaction, and any
operation for another reason, a failed write then being stored or not.

**Builders** (`Timestamps`, `ConnectionUri`, with `Text`). The first updates a document and the map nested in it in
place. The second prints a URI; a parser, which the repository does not have, serves as its inverse. The fields are
printed as they are, without escaping, so a URI reads back exactly if no field holds a delimiter that ends it
(`Clean`); six lemmas show, one for each delimiter, that none of the conditions can be dropped.

Where code and documentation differ, the code is modelled: `Find` is documented as counting the documents restricted
by the given options, but it counts all matches (mongodb/collection.go:86-87, 96); `GenerateTimeID` is documented as
the current timestamp in nanoseconds, but it is the nanosecond within the second (dplock/dplock.go:67-70); `Acquire`
is documented as blocking until the lock is released, but it gives up after its retries (dplock/dplock.go:131-141).
The deadline of a context beats the timer of `Close` even if it has already passed when the time left is computed,
which is more than the comment at mongodb/connection.go:45-47 asks for.

## Model

| member | source | states |
|---|---|---|
| LockId.LockIdRoundTrip | dplock/dplock.go:122-127 | a printed lock ID gives back the row name and the time ID, however many dashes and digits they hold |
| LockId.PrintedParts | dplock/dplock.go:122-124 | where resource, resource ID and time ID stand in a printed lock ID, with single dashes between them and no leading zero |
| LockId.LockIdsInjective | dplock/dplock.go:121-128 | two lock IDs are equal exactly when row name and time ID are, across resources too |
| LockId.PrintedIdsCollide | dplock/dplock.go:67-70 | exactly when two IDs of one Lock are equal if GenerateTimeID is replaced by one that can be negative |
| LockProtocol.InvStep | dplock/dplock.go:119-191 | every fresh action keeps: an unexpired holder's row is its own, and no other client may call Unlock with its ID |
| LockProtocol.FreshIsPerName | dplock/dplock.go:121-128 | a grant is fresh exactly when no live client has the same time ID for the same name |
| LockProtocol.UnlockSparesOthers | dplock/dplock.go:161-171 | an Unlock, even one that fails half way, leaves the row of every unexpired holder other than its caller |
| LockProtocol.MutualExclusion | dplock/dplock.go:96-191 | in every fresh run, of two clients that hold one name one was granted it 30 s ago or more, also with rows left by failed XLocks |
| LockProtocol.PurgeableFrom | dplock/dplock.go:15-16 | a row can be purged exactly from 30 s after its creation on, and a purge that succeeds after that removes it |
| LockProtocol.CloserNeedsClose | dplock/dplock.go:147-155 | in every run, a select can take its closer branch exactly if Close was called in its own process |
| LockProtocol.UnlockDeletesOwnRowOnly | dplock/dplock.go:160-164 | in every run an Unlock deletes the row of its own name or none, though time IDs repeat |
| LockStaleIds.StaleGrantBreaksExclusion | dplock/dplock.go:121-171 | from any state where a stale ID is granted, an explicit run ends with two holders in time |
| LockStaleIds.StrayUnlockBreaksExclusion | dplock/dplock.go:161-171 | the same once a client that holds no lock calls Unlock with the ID of one that does |
| LockStaleIds.FreshnessIsExact | dplock/dplock.go:119-191 | in every state that fresh runs reach, with an unlock period below TTL, an action keeps all further fresh runs exclusive if and only if it is fresh; the further runs take their time IDs from any generator with at least as many as there are clients, such as the default one with 10^9 |
| LockStaleIds.StaleGrantIsReachable | dplock/dplock.go:66-70 | a run from the start in which a time ID repeats reaches a stale grant |
| LockTiming.RowLifetime | dplock/dplock.go:15-19 | with a live, punctual, succeeding purger no row is older than 330 s, whatever its holder does |
| LockTiming.RowLifetimeIsMet | dplock/dplock.go:100-114 | a run with such a purger in which a row is exactly that old: it expires at the instant of a purge |
| LockTiming.PurgesAreSpaced | dplock/dplock.go:100-114 | in every run, n purges of one process take at least n - 1 times 5 minutes |
| LockTiming.WaitRun | dplock/dplock.go:142-156 | waiting done plus waiting left never exceeds what the calls begun allow and what overdue timers add |
| LockTiming.AcquireWaits | dplock/dplock.go:21-28 | one Acquire, in any run, waits at most AcquireMaxRetries x AcquirePeriod in all (2.5 s by default), plus the time by which its timers were overdue when it woke |
| LockTiming.UnlockWaits | dplock/dplock.go:24-31 | one Unlock, in any run, waits at most UnlockMaxRetries x UnlockPeriod in all (0.5 s by default), plus the time by which its timers were overdue when it woke |
| LockTiming.AcquireWaitsAtLeast | dplock/dplock.go:142-146 | one Acquire, in any run, waits at least AcquirePeriod for each time that its timer fires |
| LockTiming.UnlockWaitsAtLeast | dplock/dplock.go:176-179 | the same for Unlock and UnlockPeriod |
| LockClient.Lock.TryLock | dplock/dplock.go:119-128 | one attempt: if granted, or failed after the insertion, it adds exactly the row with the ID printed for it; refused or failed before, it changes nothing |
| LockClient.Lock.Select | dplock/dplock.go:144-156 | the wait ends on the timer, or on the closer if it is closed, and goes back to the loop or out of it |
| LockClient.Lock.Acquire | dplock/dplock.go:133-158 | a run of the protocol; its events are answered as they must be; it adds one row, with the returned ID, exactly if it returns nil or a store error whose XLock had inserted the row, and changes nothing else; the ID is one printed for the resource; ErrAcquireMaxRetries does not come before all the periods have passed, ErrMongoDbClosing only once closed |
| LockClient.AnswersMeaning | dplock/dplock.go:136-155 | each result holds exactly when the call saw a grant, a failure, the closer, or refusals and full waits only |
| LockClient.AnswersLength | dplock/dplock.go:140-143 | at most AcquireMaxRetries + 1 attempts, and exactly as many for ErrAcquireMaxRetries |
| LockClient.AcquireTakesTime | dplock/dplock.go:21-28 | a period passes for each retry, so by default ErrAcquireMaxRetries comes after 11 attempts and 2.5 s or more |
| LockClient.Lock.TryUnlock | dplock/dplock.go:164-176 | one Unlock call removes no row but those with its ID, and all of them if it succeeds |
| LockClient.Lock.Unlock | dplock/dplock.go:161-191 | with any lock ID: a run of the protocol that removes only rows with that ID, and has removed them if the store ever said so; it gives up only once closed or after all the periods have passed |
| LockClient.UnlocksMeaning | dplock/dplock.go:162-189 | Unlock ends with a deletion, on the closer, or after exactly UnlockMaxRetries + 1 attempts |
| LockClient.UnlockTakesTime | dplock/dplock.go:24-31 | a period passes for each retry, so by default Unlock gives up after 101 attempts and 0.5 s or more |
| Timer.DrainNeverBlocks | dplock/dplock.go:102-109 | at a drain the value has not been received, so it is or will be pending; under synchronous timers there is no drain |
| Timer.SelectCompletes | mongodb/connection.go:56-74 | every run of the select has at most six steps, and one that cannot go on has taken a branch: the timer's after a delivery, or another ready one, and the timer is then stopped or its value received |
| Timer.DrainMayWait | dplock/dplock.go:105-108 | with a buffered channel, a run in which the drain comes before the value, which then ends it |
| Timer.StopTakesBack | dplock/dplock.go:105 | with a synchronous channel, a run in which Stop takes a delivered value back |
| Timer.DrainAfterReceiveBlocks | dplock/dplock.go:177-187 | counterfactual, a state that DrainNeverBlocks rules out: had the value been received before the drain, the drain would block in every run |
| PurgerLifecycle.Lifecycle | dplock/dplock.go:94-117 | the WaitGroup counts the live purger, Close returns after its exit, purges begun after closing are at most one more than late first looks |
| PurgerLifecycle.OnePurgePerFiring | dplock/dplock.go:99-114 | in every run, one purge at the start and one for each time the timer's branch is taken, no more often than timers fire |
| PurgerLifecycle.LateLooksCostPurges | dplock/dplock.go:100-114 | that bound is met for every number of late first looks |
| PurgerLifecycle.CloseReturns | dplock/dplock.go:193-197 | after closing a step is always possible until Close has returned, and each one without a late look brings that closer |
| PurgerLifecycle.Lock.Init | dplock/dplock.go:85-92 | Init leaves one counted, live purger and an open channel |
| PurgerLifecycle.Lock.Close | dplock/dplock.go:193-197 | Close returns with the channel closed, the purger gone and the count at zero, however the purger was scheduled |
| FindOptions.FindOptions.Apply | mongodb/options.go:7-22 | each option closure's effect on the shared record |
| FindOptions.NewFindOptions | mongodb/options.go:33-40 | the loop leaves the fold of the options in a fresh record |
| FindOptions.FieldDependsOnItsOptions | mongodb/options.go:7-40 | each field is decided by the options about it alone |
| FindOptions.ReorderingIsHarmless | mongodb/options.go:7-40 | reordering that keeps the order of options about one field changes nothing |
| FindOptions.LastSetterWins | mongodb/options.go:7-19 | a field holds what its last setter gave it |
| FindOptions.NoSetterNoChange | mongodb/options.go:24-34 | a field without a setter keeps its zero value |
| FindOptions.ZeroLimitObeyed | mongodb/options.go:10-21 | the zero-limit shortcut applies exactly when the last Limit is Limit(0) and no IgnoreZeroLimit follows |
| Ordering.ListingUnique | mongodb/collection.go:107-110 | a sort without ties allows one listing of a set of documents only |
| Ordering.FirstDifferenceDecides | mongodb/collection.go:107-110 | the first sort key on which two documents differ decides which comes first, in its direction |
| Ordering.OneKey | mongodb/collection.go:107-110 | a single key orders documents by _id or by a field, up or down |
| Ordering.MissingFieldOrder | mongodb/collection.go:107-110 | a document without the sort field comes before those with it, after them in descending order |
| Ordering.TiedCanSwap | mongodb/collection.go:110 | two tied documents can change places in a listing |
| Find.Collection.Find | mongodb/collection.go:90-116 | all outcomes, errors included: the total is the number of matches and the results are sort, skip, limit of them, or are left alone exactly on the shortcuts |
| Find.Collection.Count | mongodb/collection.go:77-84 | the count after skip and a positive limit, or the wrapped driver error |
| Find.Collection.FindCursor | mongodb/collection.go:153-167 | the cursor gives sort, skip, limit of the matches, by _id unless a sort is set |
| Find.FindShows | mongodb/collection.go:90-116 | what Find writes: a page of all the accepted documents in the order of the options' last sort, or else by _id, with the projected fields |
| Find.FindCursorShows | mongodb/collection.go:153-167 | the same for what the cursor of FindCursor gives |
| Find.CountIs | mongodb/options.go:54-61 | the count is that of the documents after the skip, cut off at a positive limit |
| Find.WrappingKeepsCauses | mongodb/error.go:36-51 | a wrapped error is the sentinel exactly if the driver error is or wraps it, and otherwise wraps the driver error |
| Find.ShortcutsLoseNothing | mongodb/collection.go:97-105 | where no limit forbids it, a shortcut is taken exactly when the simple form would give no document |
| Find.FindAndCountAgree | mongodb/collection.go:75-116 | Find writes as many documents as Count says, but for negative and obeyed zero limits, where it writes none |
| Find.FindCursorAgrees | mongodb/collection.go:94-166 | what Find answers, FindCursor can answer, unless a limit stops Find alone |
| Pages.PageOptions | mongodb/options.go:9-17 | Offset and Limit after any other options make the page's settings |
| Pages.DefaultPagesPartition | mongodb/collection.go:86-116 | by default, successive pages are the matches in ascending _id, each once, and every page reports their number |
| Pages.PagesPartition | mongodb/collection.go:94-116 | under any sort without ties the pages add up to the one listing, projected |
| Pages.PagingNeedsNoTies | mongodb/collection.go:107-115 | paging is right for every choice of the server if and only if the sort leaves no ties |
| CloseProtocol.CloseProtocol | mongodb/connection.go:38-75 | nil exactly when the one send was received; the send meets a closed channel only after a timeout or context error, and finally always then |
| CloseProtocol.OutcomeIsOpen | mongodb/connection.go:38-75 | at every point of every run, a run on to the panic exists exactly if the value has not been received, and one to nil exactly if neither timer nor context was chosen; so both exist for every call |
| CloseProtocol.CloseTerminates | mongodb/graceful.go:17-25 | at most nine steps besides time passing, and one is possible until Close has returned and the sender has finished |
| CloseProtocol.DeadlineBeatsTimer | mongodb/connection.go:42-49 | the timer is due no earlier than 10 ms after the deadline, so the timeout error means a select resolved that late |
| CloseProtocol.TimerIsExact | mongodb/connection.go:42-56 | in every run the timer is due exactly 1 s after it is made, or with a deadline at the deadline plus 10 ms plus the delay in making it, but not in the past |
| CloseProtocol.PromptTimer | mongodb/connection.go:42-56 | without delays: 1 s after the call, or 10 ms after the deadline |
| CloseProtocol.BranchesReady | mongodb/connection.go:57-74 | when each branch of the select can be taken, and the result it leads to |
| CloseProtocol.MongoConnection.Close | mongodb/connection.go:38-75 | Close is a run of the protocol, computes the time left as stated, and returns the branch taken |
| CloseProtocol.MongoConnection.Select | mongodb/connection.go:57-74 | the blocked select takes one of the ready branches |
| Transaction.Atomicity | mongodb/transaction.go:41-54 | for all bodies, interleavings and failures of operations: nil means that one run of the body on one snapshot is one entry of the log, the last stored value of each key and no other key, without conflicts; the body's error means nothing was applied and is returned as it is; a commit error means the one or the other |
| Transaction.WritesOfIs | mongodb/transaction.go:45-54 | the writes of a body are its last store to each key, and no others |
| Transaction.ReadFinds | mongodb/transaction.go:26-30 | a read in a transaction finds the body's own last store, and without one the last value in the snapshot |
| Transaction.SnapshotIsRecent | mongodb/transaction.go:41-44 | the snapshot holds all that was in the log when the call began |
| Transaction.ErrorsMean | mongodb/transaction.go:31-54 | a call has ended exactly if a failed start, an abort or a commit of it was taken, with the error that belongs to that |
| Transaction.ReadsBeforeWritesAreCurrent | mongodb/transaction.go:26-30 | a key read and then written by a committed transaction had the value read when it committed |
| Transaction.NoLostUpdate | mongodb/transaction.go:41-54 | a counter grows by nil returns plus lost acknowledgements, so by nil returns alone exactly if none is lost |
| Transaction.CommitErrorIsAmbiguous | mongodb/transaction.go:54 | from every state, one increment can end with the same session and commit error and the counter as it was, or one higher: a lost acknowledgement that counts |
| Transaction.RaceIsRefused | mongodb/transaction.go:26-30 | an increment can commit from every state, and after a write to the counter in between can only be refused |
| Transaction.MongoConnection.CallBody | mongodb/transaction.go:45-46 | any body, whatever fails in it, runs to its return or error with others in between, or for exactly as many operations as are waited for; it returns if the body is sure to end in fewer |
| Transaction.MongoConnection.Finish | mongodb/transaction.go:47-54 | abort after the body's error, commit otherwise, and the error that comes of it |
| Transaction.MongoConnection.RunTransaction | mongodb/transaction.go:25-55 | for any body: a run of the protocol; the result and error returned, and what they say about the log, or nothing applied while the body still runs |
| Timestamps.WithCurrentDate | mongodb/timestamp_utils.go:24-39 | adds one key to $currentDate, in the map already there if there is one, and nothing else; other types fail and change nothing |
| Timestamps.WithNamespaced | mongodb/timestamp_utils.go:64-89 | the loop adds one kind of timestamp for the set of prefixes; with none it writes nothing |
| Timestamps.WithNamespacedUpdates | mongodb/timestamp_utils.go:50-57 | no error, the same document, $currentDate as before with both kinds for the set of prefixes |
| Timestamps.WithUpdates | mongodb/timestamp_utils.go:41-48 | the same for the empty prefix |
| Timestamps.KeysNeverClash | mongodb/timestamp_utils.go:11-15 | a last_updated key is never a unique_timestamp key, whatever the prefixes |
| Timestamps.FullyStampedAt | mongodb/timestamp_utils.go:50-57 | every key of the result: both timestamps of every prefix, all others as they were |
| Timestamps.FullyStampedAddsUp | mongodb/timestamp_utils.go:50-57 | calls add up by the union of their prefixes, so order and repeats do not matter |
| Timestamps.FullyStampedIdempotent | mongodb/timestamp_utils.go:50-57 | a repeated call changes nothing |
| Timestamps.WithNamespacedUniqueTimestampQuery | mongodb/timestamp_utils.go:97-104 | the loop writes each prefix's timestamp into the query document itself, and panics exactly where the timestamps run out, with all of them written |
| Timestamps.QueryStampedLast | mongodb/timestamp_utils.go:97-104 | a prefix gets the timestamp of its last occurrence |
| Timestamps.QueryStampedElsewhere | mongodb/timestamp_utils.go:97-104 | no other key of the query is changed |
| ConnectionUri.MatchesIffInLanguage | mongodb/driver.go:27 | the endpoint check accepts exactly the language of the regular expression |
| ConnectionUri.GetConnectionUri | mongodb/driver.go:99-129 | the URI of an accepted endpoint, an error naming any other |
| ConnectionUri.UriText | mongodb/driver.go:24-25 | the text of the URI, part by part, for an endpoint with or without its scheme |
| ConnectionUri.UriRoundTrip | mongodb/driver.go:111-128 | the URI of an accepted configuration reads back, its options by name and value, as its credentials, endpoint, database, replica set and direct connection if and only if the configuration is clean |
| ConnectionUri.UriInjective | mongodb/driver.go:99-129 | an accepted configuration with the URI of a clean one is clean exactly when the two are equal up to normalisation; so clean ones share a URI exactly when they are equal |
| ConnectionUri.SchemeIsOptional | mongodb/driver.go:103-111 | an endpoint is accepted with its scheme if and only if without, with the same URI |
| ConnectionUri.ColonInUsername | mongodb/driver.go:24 | Clean's condition on ':' in the username is needed: with text before the ':' and a password, the URI is also that of a different configuration |
| ConnectionUri.AtInEndpoint | mongodb/driver.go:24 | the same for the endpoint: an '@' in it, beside credentials, can as well end the password |
| ConnectionUri.SlashInPassword | mongodb/driver.go:24 | the same for the password: a '/' in it, after an '@' and an endpoint, can as well begin the database |
| ConnectionUri.SlashInUsername | mongodb/driver.go:24-25 | the same for the username: a '/' in it, after an endpoint, can as well begin the database of a configuration without credentials |
| ConnectionUri.QuestionMarkInDatabase | mongodb/driver.go:119-126 | the same for the database: a '?' in it that begins a replica set can as well begin the query |
| ConnectionUri.AmpersandInReplicaSet | mongodb/driver.go:119-123 | the same for the replica set: an '&' in it that begins a direct connection can as well be the flag |

## Left out

- RunTransaction: panics in the body and the ending of the session are not modelled.
- WithCurrentDate: the document must not be its own $currentDate; nil maps, on which the source panics, have no counterpart.
- FullyStampedAt: the literal map that marks a timestamp is a value here; a helper that finds one at $currentDate goes on with a new map of the same entries, so the identity of that map is not captured.
- RowLifetime: assumes one purger that is never closed, wakes on time and whose purges succeed and take no time.
- PagingNeedsNoTies: stated without a projection, which could hide the fields that tell documents apart.
- MutualExclusion: all processes read one clock.
- The purger's goroutine is a set of transitions and not a loop, because its loop ends only when somebody closes the channel.
- The sources of mongo-lock and of the driver, and the retry loop of `WithTransaction` (mongodb/transaction.go:37-39), are not part of this model.
- The snapshot of a transaction is taken when it starts or at any time before its first operation; which of these the server does is left open.
- Projections keep the named top-level fields and the _id; other forms of projection are left out.
- Closing a lock or a connection twice.
- Insert, update, upsert, delete, aggregate, distinct, FindOne and the `Must` wrappers: one driver call each.
- `IsTimeout` and `IsServerErr`, the health checker, `Open`, TLS configuration, logging and tracing.
