# The Kubernetes plugin of Ono, modelled in Dafny

Ono's Kubernetes plugin reads, watches and changes clusters through a host that owns all I/O. The hard
parts of it are protocols and transformations whose promises are easy to state and easy to break: a change
stream that never stitches over a gap, a verification that misses no state of its target, sessions and
credentials shared by many threads, a search that may not have read everything, edits that hit one place.
This project models those parts and proves the promises, or the exact condition under which they hold.

Paths in this file are relative to the root of the repository.

## What is modelled

| modules | what they model |
|---|---|
| `Kube` | objects, watch events, and an adversarial API server: an append-only history, tokens that name positions in it, snapshots |
| `WatchStreams`, `ChangeStream`, `ChangeReader`, `ChangeProgress` | one watched collection as an object updated in place; the `k8s-change` loop as a step system against any cluster within its contract; what a reader may conclude from the records; when the loop goes on and how it ends |
| `Converge` | waiting for a write to converge: polls of the cache, then watch rounds with checkpoints |
| `Sessions`, `Credentials`, `LockOrder` | the session registry, the credential store, and their four locks together, as step systems over any number of threads and keys |
| `Calendar`, `Timestamps`, `Decimals` | day numbers, dates and RFC 3339 text |
| `Hex`, `Broker`, `FileReader` | the hexadecimal wire form, the brokered byte stream, and reading a file in chunks |
| `Listing` | streamed listing: pages, retries, one credential refresh, page budgets |
| `Surface`, `Search` | which served resource a query names, and what a search that could not read every group establishes |
| `Pointers`, `Json`, `Edits`, `Planning`, `Curated` | JSON pointers, typed content, field changes, and the curated actions |
| `Endpoints` | addresses, their printed form, and session keys |
| `Documents` | the discovery documents a session remembers |

Code that works by changing things in place is a class or a method with loops, proved against a
specification whose properties are lemmas; the protocols with many parties are step systems with an
inductive invariant; everything else is functions and lemmas. Histories that only the proofs need are ghost
state. The environment (the cluster, the host, other threads, the clock, cancellation) is a parameter or an
input of a step, bounded only by the contract stated beside it.

The assumptions about the environment are these. A listing or an initial event stream is a snapshot of one
position of the history; an initial event stream brings it as additions alone, one to an object, and no
modification or deletion comes before the event that ends it, since a stream that is still syncing discards
those; a watch opened at a token delivers the changes after it, in order; and all of them may stop or fail
anywhere (`Kube.Cluster`, `ChangeStream.Allowed`, `Converge.Serves`). One invocation at a time writes to a
watched collection's stream. Closures passed to the session registry terminate and do not enter a
second session. Paths of the API hold no `#`.

## Where the code and its documentation part ways

- `crates/ono-kubernetes-plugin/src/changes.rs:299-320`: a streaming list begun on a stream that an earlier
  invocation left live begins nothing, so the objects it holds are never listed to the new reader.
  `ChangeReader.FaithfulExactlyWhenTold` has the exact condition.
- `crates/ono-kubernetes-plugin/src/records.rs:894`: the conversion is said to be exact for every 64-bit
  day count. For the top 719468 of them adding the epoch shift overflows: a release build wraps, which is
  what is modelled, and a debug build panics. `Calendar.CivilIsExact` has the exact range.
- `crates/ono-kubernetes-plugin/src/broker.rs:297-311`: a batch that says complete and carries a value that
  is not hexadecimal leaves the stream open, and the next read asks a host that has let go of the
  connection. `Broker.BrokeredStream.Valid` admits only that case, `Broker.ReadOn` and
  `Broker.WriteOn` have the exact condition, and `Broker.AsksAgain` shows it.
- `crates/ono-kubernetes-plugin/src/credential_store.rs:110-112` says a poisoned entry is set back to
  nothing; the code keeps what it held, and so does the model.
- `crates/ono-kubernetes-plugin/src/query.rs:43-46` speaks of every record being marked when more remains;
  the code marks the records of the last page of a spent budget, and `Listing.ListingIsPrefix` says so.
- `crates/ono-kubernetes-plugin/src/query.rs:2928`: the bound of 4 MiB is checked after a full chunk, so
  files up to a chunk past it are read. `FileReader.HostReadAll` has the exact bound.
- `crates/ono-kubernetes-plugin/src/planning.rs:364-373` counts only entries that have a name, so an unnamed
  container shifts the index of those after it. `Planning.IndexIsRight` and `Curated.ImagesAim`
  have the exact condition.
- `crates/ono-kubernetes-plugin/src/dynamic.rs:412` and `:427` do not escape top-level names.
  `Json.TopLevelPointers` has the exact condition.
- `crates/ono-kubernetes-plugin/src/query.rs:1274-1280`: which form of a root document is given depends on
  who read first. `Documents.Session.RootDocument` has the exact condition.

## Model

| member | source | states |
|---|---|---|
| ChangeReader.FaithfulExactlyWhenTold | crates/ono-kubernetes-plugin/src/changes.rs:271-471 | In every running state of every run a reader that clears its table at each gap and folds the records holds the objects of the stream, which are the collection at the checkpoint, if and only if the invocation does not take up unlisted a live stream that already holds objects |
| ChangeReader.FaithfulWhenTold | crates/ono-kubernetes-plugin/src/changes.rs:271-513 | The positive half, for any mix of closes, interruptions, expiries, refusals and streaming-list fallbacks |
| ChangeReader.UnfaithfulWhenResumed | crates/ono-kubernetes-plugin/src/changes.rs:299-320 | From any such start one step leads to a reader whose table is not that of the stream: a streaming list begun on a stream left live announces nothing |
| ChangeReader.LiveStreamTakenUpUnlisted | crates/ono-kubernetes-plugin/src/changes.rs:225-320 | Such a start is reached: after an invocation over a cluster with one object, the next one takes up the live stream that holds it, is not told of it, and its reader is wrong |
| ChangeReader.HistoryIsNeverStitched | crates/ono-kubernetes-plugin/src/changes.rs:12-22 | What a reader was told is windows of the history divided by gap records: a snapshot, then every change after it once and in order; every window after a gap has a snapshot of its own, and the first does without only in a run that took up a live stream, from where that stream stood |
| ChangeReader.GapsAreMarked | crates/ono-kubernetes-plugin/src/changes.rs:560-649 | Two observations carry one segment number exactly when no gap record lies between them, and nothing after a gap is marked continuous |
| ChangeReader.NeverFromNow | crates/ono-kubernetes-plugin/src/changes.rs:322-345 | A watch is opened at the checkpoint or asks for the initial state as well, never at the present moment alone |
| ChangeReader.LogIsTheEndOfHistory | crates/ono-provider-kubernetes/src/watch.rs:847-912 | The change log of a live stream is the end of the history up to the checkpoint, within its bound, with what was dropped counted |
| ChangeReader.BudgetIsKept | crates/ono-kubernetes-plugin/src/changes.rs:560-649 | A bounded query gets at most what it asked for and is over when it has it |
| ChangeReader.NextInvocationMayStart | crates/ono-provider-kubernetes/src/session.rs:1168-1176 | What closing the view leaves in the session is a state the next invocation may start from, however much later |
| ChangeReader.AccountReads | crates/ono-kubernetes-plugin/src/changes.rs:1035-1118 | What reading the records gives in each period: the stream exactly after an acquisition, the changes since the start after a resumption, nothing past a break |
| ChangeStream.RunKeeps | crates/ono-kubernetes-plugin/src/changes.rs:271-471 | The invariant of the loop: the records are an account of the history that ends where the stream stands, over any run |
| ChangeStream.StepKeeps | crates/ono-kubernetes-plugin/src/changes.rs:885-1018 | Every step of the loop, whatever the cluster answers within its contract, keeps that invariant |
| ChangeStream.FeedKeeps | crates/ono-kubernetes-plugin/src/changes.rs:1035-1118 | So does a chunk of any number of events, stopped by whichever of them ends the response |
| ChangeStream.AcquireKeeps | crates/ono-kubernetes-plugin/src/changes.rs:477-513 | So does an acquisition, told to the end or cut short by the host |
| ChangeProgress.EndsForACause | crates/ono-kubernetes-plugin/src/changes.rs:271-471 | In every run a step that ends the invocation has its cause: complete exactly when the budget was reached there or nothing is left to go on from, cancelled or failed only by the operator, the host, a request or a listing; and a step that does not end it has told all it had to tell and leads where it should |
| ChangeProgress.StepComes | crates/ono-kubernetes-plugin/src/changes.rs:322-471 | The same for one step from any state the loop keeps: a response that is over leads back to a watch from where the stream stood, or from a new listing when that was asked for |
| ChangeProgress.FeedProgress | crates/ono-kubernetes-plugin/src/changes.rs:1035-1118 | What a body brings is read to its end or to the first frame that breaks off, and the stream stands exactly there |
| ChangeProgress.CloseReopens | crates/ono-kubernetes-plugin/src/changes.rs:397-409 | A live watch that the server closes is opened again at the same position |
| ChangeProgress.NextChangeIsHeard | crates/ono-kubernetes-plugin/src/changes.rs:1035-1118 | And the change that follows is handed to the reader as the next record |
| WatchStreams.AlwaysValid | crates/ono-provider-kubernetes/src/watch.rs:559-698 | Over any mix of listings, events, streaming lists, reconnects and writes a stream keeps its shape: at most one open gap and only past a break, every closed period dated, no checkpoint past a break |
| WatchStreams.QuarantineHolds | crates/ono-provider-kubernetes/src/watch.rs:735-754 | From a write until the stream is shown the object again, no lookup is served what the write replaced |
| WatchStreams.EventEndsQuarantine | crates/ono-provider-kubernetes/src/watch.rs:847-877 | The event for the write ends the quarantine with the object it carries, or with nothing for a deletion |
| WatchStreams.ListingKeepsValid | crates/ono-provider-kubernetes/src/watch.rs:559-593 | A listing keeps the shape and opens exactly one new period |
| WatchStreams.EventKeepsValid | crates/ono-provider-kubernetes/src/watch.rs:596-621 | Every event keeps the shape |
| WatchStreams.ReceptionSays | crates/ono-provider-kubernetes/src/watch.rs:596-621 | What each reception says of the event and of what it did to the stream; what a stream that is not live is told is counted and goes no further |
| WatchStreams.TrimIsRecorded | crates/ono-provider-kubernetes/src/watch.rs:880-912 | Over any mix of operations the log of the current period has forgotten its beginning exactly when a gap says so, from the start of the period to the oldest change kept |
| WatchStreams.ErrorsSay | crates/ono-provider-kubernetes/src/watch.rs:635-698 | Why a stream does not resume, and why a streaming list does not begin |
| WatchStreams.WatchStream.Listed | crates/ono-provider-kubernetes/src/watch.rs:559-593 | Seeding the cache closes the open gap, or records one for a re-listing, and starts a new period at the version of the listing |
| WatchStreams.WatchStream.Observe | crates/ono-provider-kubernetes/src/watch.rs:596-621 | The new state and the reception of every kind of event |
| WatchStreams.WatchStream.Record | crates/ono-provider-kubernetes/src/watch.rs:847-877 | A change moves cache, checkpoint, quarantine and log together, or is only counted when the stream is not live |
| WatchStreams.WatchStream.BreakContinuity | crates/ono-provider-kubernetes/src/watch.rs:931-947 | A break closes the period, records the gap and drops the checkpoint, once |
| WatchStreams.WatchStream.BeginStreamingList | crates/ono-provider-kubernetes/src/watch.rs:635-651 | What beginning a streaming list does in each of the five states: nothing at all on a live stream |
| WatchStreams.WatchStream.AbandonStreamingList | crates/ono-provider-kubernetes/src/watch.rs:653-661 | A streaming list that never ended is dropped with everything it staged, and the stream is otherwise as it was |
| WatchStreams.WatchStream.Written | crates/ono-provider-kubernetes/src/watch.rs:743-754 | A write quarantines its object on a live stream alone, and changes nothing else |
| WatchStreams.WatchStream.Reconnected | crates/ono-provider-kubernetes/src/watch.rs:685-698 | A stream resumes exactly when it is live or reconnecting |
| Kube.CollectEnumeration | crates/ono-kubernetes-plugin/src/changes.rs:478-513 | Collecting the listed records of a table gives the table, in whatever order they were told |
| Converge.Converge | crates/ono-kubernetes-plugin/src/mutations.rs:564-705 | The answer of the whole verification as a function of what happened; the objects evaluated on the watches are, over all rounds and reopenings, the history of the target after the observed version without a hole or a repetition; an unfinished answer cites the newest evaluation; and gone is said on a watch only where the history goes on with the deletion |
| Converge.FirstDecisive | crates/ono-kubernetes-plugin/src/mutations.rs:641-705 | A verdict reached on the watch is that of the first state in the history that decides the rule |
| Converge.DecidedWhenDelivered | crates/ono-kubernetes-plugin/src/mutations.rs:641-705 | The first state after the observed version that decides the rule is the answer whenever it is delivered, if no round up to there is cut short, refused or torn: watches that close, stall or break off before it only mean that the next one is opened where they stopped |
| Converge.ReasonsHaveCauses | crates/ono-kubernetes-plugin/src/mutations.rs:749-846 | Every unfinished answer names its own cause: 410 or an expiry for a gap, 401, 403 or a refusal for a denial, 404 for a type not served, another status or no connection for a failed request, an unreadable chunk for partial coverage, a deletion for a target that is gone, and an end of the window told by how far the newest evaluation got |
| Converge.RoundsChronicled | crates/ono-kubernetes-plugin/src/mutations.rs:641-705 | Rounds are opened one after the other, each at the last version the one before it heard of, until one of them ends the verification or the rounds run out |
| Converge.TurnsTurning | crates/ono-kubernetes-plugin/src/mutations.rs:770-846 | A watch ends as the first thing it brings that is to be acted on has it, whatever passed by before |
| Converge.PollsTurn | crates/ono-kubernetes-plugin/src/mutations.rs:585-638 | Polling ends as the first poll that is to be acted on has it |
| Converge.Run | crates/ono-kubernetes-plugin/src/mutations.rs:749-846 | One round: which states it evaluated, where its checkpoint stands in the history, and which way out it took |
| Converge.Chunk | crates/ono-kubernetes-plugin/src/mutations.rs:800-845 | The same for the events of one chunk |
| Converge.PollCache | crates/ono-kubernetes-plugin/src/mutations.rs:585-638 | Polling the cache of the session: the first decisive object decides, and what is left undecided is carried on |
| Converge.RoundOver | crates/ono-kubernetes-plugin/src/mutations.rs:664-705 | Rounds add up: what the evaluations of the rounds before and of this round say together |
| Sessions.EveryKeyIsSequential | crates/ono-kubernetes-plugin/src/sessions.rs:165-191 | Under any interleaving the runs over one key are a sequential execution from the seed, restarted after each panic, with at most one run inside a session at a time |
| Sessions.RunsFollow | crates/ono-kubernetes-plugin/src/sessions.rs:165-191 | Each run starts from what the one before it made of what it met; the first, and the one after a panic, from its own seed |
| Sessions.PanicStartsOver | crates/ono-kubernetes-plugin/src/sessions.rs:177-188 | The run after a panicked one starts from its own seed |
| Sessions.NonInterference | crates/ono-kubernetes-plugin/src/sessions.rs:150-157 | Leaving out every step over other keys leaves a run of the registry that ends with the same slot, threads and runs of this key |
| Sessions.RunKeeps | crates/ono-kubernetes-plugin/src/sessions.rs:165-191 | Slots, threads, registry lock and log agree in every reachable state |
| Sessions.ForeignStep | crates/ono-kubernetes-plugin/src/sessions.rs:150-157 | A step over another key changes nothing that threads over this key can see |
| Sessions.OwnStep | crates/ono-kubernetes-plugin/src/sessions.rs:165-191 | A step over this key is the same step of a registry of this key alone |
| Sessions.EveryoneGoesOn | crates/ono-kubernetes-plugin/src/sessions.rs:165-191 | In every reachable state a thread can take its next step, or waits for a lock whose holder can |
| Sessions.CallsGoThrough | crates/ono-kubernetes-plugin/src/sessions.rs:165-191 | A thread that asks while the registry and its session are free is through four steps later, having worked on what the runs before it left or on its seed |
| Credentials.IsExpiring | crates/ono-kubernetes-plugin/src/credential_store.rs:88-95 | The saturating 64-bit comparison means expiry minus now is at most 30000 over the integers |
| Credentials.OneHelperPerSource | crates/ono-kubernetes-plugin/src/credential_store.rs:135-151 | At most one helper runs for a source at any time, and only when nothing stored answered its caller |
| Credentials.AnswersAreFresh | crates/ono-kubernetes-plugin/src/credential_store.rs:122-151 | What resolve returns is not expiring at the now of the caller or comes from a run of its own; a hit is what the helper last returned; refresh never hits |
| Credentials.OneRunServesAll | crates/ono-kubernetes-plugin/src/credential_store.rs:17-20 | After a successful run every caller for whom its result is not expiring is given that result, up to the first for whom it is |
| Credentials.ExpiryIsPaidForOnce | crates/ono-kubernetes-plugin/src/credential_store.rs:17-20 | The same for every run of the store: callers that meet one expiry share one helper run |
| Credentials.EntryHoldsLastFetched | crates/ono-kubernetes-plugin/src/credential_store.rs:106-172 | An entry always holds what the helper last returned: failed and panicked runs change nothing, refresh replaces |
| Credentials.EveryoneGoesOn | crates/ono-kubernetes-plugin/src/credential_store.rs:122-172 | In every reachable state a thread can take its next step, or waits for a lock whose holder can |
| Credentials.CallsGoThrough | crates/ono-kubernetes-plugin/src/credential_store.rs:135-151 | A thread that asks while the registry and its entry are free is given what is stored if that answers it, and runs the helper otherwise |
| LockOrder.SomeoneCanGoOn | crates/ono-kubernetes-plugin/src/query.rs:260-297 | In every reachable state an unfinished invocation can go on, or waits for one that can, or waits for one that waits for one that can |
| LockOrder.EveryoneCanFinish | crates/ono-kubernetes-plugin/src/sessions.rs:109-113 | From every reachable state all invocations under way can still finish with every lock given back |
| LockOrder.CanEnd | crates/ono-kubernetes-plugin/src/query.rs:2611-2641 | Any one invocation can be seen to its end by letting those in its way end first |
| LockOrder.InvocationPasses | crates/ono-kubernetes-plugin/src/query.rs:2611-2641 | An invocation may arrive, enter any session, refresh any credential from inside it, and leave with every lock given back |
| LockOrder.LocksAreOrdered | crates/ono-kubernetes-plugin/src/credential_store.rs:135-182 | Session registry, session, credential registry and entry are taken in that order, and nothing is waited for while a registry is held |
| LockOrder.PathKeeps | crates/ono-kubernetes-plugin/src/sessions.rs:165-191 | A lock is recorded as held by exactly the thread whose place in the code holds it |
| Calendar.CivilIsExact | crates/ono-kubernetes-plugin/src/records.rs:897-915 | The conversion gives a date of the calendar and inverts a day count taken a year and a month at a time, exactly for counts whose shift does not overflow |
| Calendar.CivilOfNumber | crates/ono-kubernetes-plugin/src/records.rs:897-915 | Counting the days of a date and converting back is the identity, so the two are a bijection |
| Calendar.CivilSteps | crates/ono-kubernetes-plugin/src/records.rs:897-915 | The next day number is the next day of the calendar |
| Calendar.ShiftedIsExact | crates/ono-kubernetes-plugin/src/records.rs:897-915 | The arithmetic itself is exact for every integer |
| Calendar.YearOfEraIs | crates/ono-kubernetes-plugin/src/records.rs:897-915 | The year-of-era formula finds century, four-year cycle and year, leap days included |
| Calendar.Located | crates/ono-kubernetes-plugin/src/records.rs:897-915 | Every shifted day is placed at its day of the year that begins in March |
| Calendar.NumbersGrow | crates/ono-kubernetes-plugin/src/records.rs:897-915 | A later date has a larger number |
| Timestamps.ReadsBack | crates/ono-kubernetes-plugin/src/records.rs:879-890 | Before year 10000 the printed text reads back as the same millisecond |
| Timestamps.PrintsBack | crates/ono-kubernetes-plugin/src/records.rs:879-890 | Every text of that grammar is what is printed for the instant it names |
| Timestamps.TextOrderIsTimeOrder | crates/ono-kubernetes-plugin/src/records.rs:879-890 | Before year 10000 text order is time order, as section 5.1 of RFC 3339 wants |
| Timestamps.Prints | crates/ono-kubernetes-plugin/src/records.rs:879-890 | The text has 24 characters exactly before year 10000, with every field at its width |
| Timestamps.Seconds | crates/ono-kubernetes-plugin/src/records.rs:880-880 | The fallback for seconds past i64 is unreachable for every u64 |
| Timestamps.PaddedIs | crates/ono-kubernetes-plugin/src/records.rs:884-889 | Zero padding gives exactly the width when the number fits and more characters when it does not |
| Broker.BrokeredStream.Read | crates/ono-kubernetes-plugin/src/broker.rs:340-374 | Bytes returned and pending are together all bytes that arrived, in order; the host is asked exactly when nothing is pending and more may come, at most 360 or 1 times; silence, cancellation and faults are told by the last window alone; zero bytes into a non-empty buffer mean everything was returned |
| Broker.BrokeredStream.Pull | crates/ono-kubernetes-plugin/src/broker.rs:268-314 | One batch: its bytes up to the first value that is not hexadecimal are kept, and such a value hides the completion the host announced |
| Broker.BrokeredStream.TakeIn | crates/ono-kubernetes-plugin/src/broker.rs:287-303 | The bytes of a batch are appended in order up to the first value that is not hexadecimal |
| Broker.BrokeredStream.WriteAll | crates/ono-kubernetes-plugin/src/broker.rs:318-338 | Nothing is written to an ended stream; otherwise one call carries a text that decodes to the bytes |
| Broker.BrokeredStream.Await | crates/ono-kubernetes-plugin/src/broker.rs:340-366 | The waiting loop: every window before the last was silent, and which window ends it how |
| Broker.BrokeredStream.HandOut | crates/ono-kubernetes-plugin/src/broker.rs:367-372 | The next bytes move from the queue to the buffer, and the rest of the buffer is untouched |
| Broker.AsksAgain | crates/ono-kubernetes-plugin/src/broker.rs:297-311 | A host that completed with an undecodable value is asked again by the next read |
| Broker.ReadOn | crates/ono-kubernetes-plugin/src/broker.rs:297-311 | After an answer that completes, with nothing left to hand out, the next read asks the host again if and only if that answer carried an undecodable value; otherwise it is the end of the stream |
| Broker.WriteOn | crates/ono-kubernetes-plugin/src/broker.rs:297-311 | The next write asks the host under the same condition, and is refused otherwise |
| Hex.EncodeHex | crates/ono-kubernetes-plugin/src/broker.rs:379-387 | The text decodes to the bytes |
| Hex.DecodeHex | crates/ono-kubernetes-plugin/src/broker.rs:391-403 | Exactly the even-length texts of the characters 0 to 9, a to f and A to F are accepted |
| Hex.DecodeEncode | crates/ono-kubernetes-plugin/src/broker.rs:379-403 | Decoding undoes encoding on every byte sequence |
| Hex.EncodeDecode | crates/ono-kubernetes-plugin/src/broker.rs:379-403 | Encoding what a text decodes to gives the text in lower case |
| Hex.Accepts | crates/ono-kubernetes-plugin/src/broker.rs:391-403 | Which texts decode, in both directions |
| Listing.Read | crates/ono-kubernetes-plugin/src/query.rs:945-981 | A listing emits the pages of one walk; the helper is run again at most once, exactly for a refused credential with no page crossed; it is complete exactly when the last page was accepted, nothing stopped it or was unread, and the pages are one snapshot; over a server that answers for one collection with at most three failures of a kind to retry between its pages it is complete, also after a credential that was refused once; and a cancellation ends it as cancelled |
| Listing.WalkTwice | crates/ono-kubernetes-plugin/src/query.rs:945-961 | One walk, or two where the credential was refused before a page crossed and the helper replaced it; when the refusal stands |
| Listing.Walk | crates/ono-provider-kubernetes/src/transport.rs:2582-2705 | The requests of a walk follow one another by token or are retries; gap, broken continuity, error and more-remains are exactly characterised; and it gives up on a failure only when that is not retryable, three retries were spent on the page, or the invocation was cancelled |
| Listing.ListingIsPrefix | crates/ono-kubernetes-plugin/src/query.rs:629-658 | Against a server that pages one collection the records are a prefix of it in order; complete means all of it with no record marked, or the budget with exactly the records of the last page marked |
| Listing.WalkReadsChunks | crates/ono-provider-kubernetes/src/transport.rs:2582-2705 | The accepted pages of a walk are the chunks of the collection from the first on, retries and refresh included |
| Listing.Streamed.TakePage | crates/ono-kubernetes-plugin/src/query.rs:629-658 | Which objects of a page become records, how they are marked, and how the page stops |
| Listing.Streamed.OnFailure | crates/ono-kubernetes-plugin/src/query.rs:660-688 | A failed request is sent again exactly when it is retryable, within the allowance of three, and not cancelled before or while waiting |
| Listing.RecordsAre | crates/ono-kubernetes-plugin/src/query.rs:633-643 | Only the records of the page that uses up the budget say more remains |
| Listing.SteadyEnds | crates/ono-provider-kubernetes/src/transport.rs:2601-2687 | A walk over a server that answers for a collection, failing at most three times a page, ends with its last page accepted and all its pages of one version |
| FileReader.HostReadAll | crates/ono-kubernetes-plugin/src/query.rs:2903-2939 | The file to the byte in one call per full chunk and one more, never over 65; refused as too large exactly from 65 chunks on |
| Search.Search | crates/ono-kubernetes-plugin/src/query.rs:1570-1631 | Every group-version of the space is read or unread, never both, in order; entries hold what the server said and gaps are real |
| Search.ResolveInIsCertain | crates/ono-kubernetes-plugin/src/query.rs:1546-1566 | resolve_in gives a resource if and only if it is the answer under every possible content of the unread groups, whether those may hold anything or only resources of their own group-version |
| Search.NotServedIsCertain | crates/ono-kubernetes-plugin/src/query.rs:1973-2006 | Not served is said if and only if it holds under every possible content of the unread groups |
| Search.AmbiguityIsCertain | crates/ono-kubernetes-plugin/src/query.rs:1973-2006 | An ambiguous answer stays ambiguous under every possible content, and what is ambiguous under all of them is answered so |
| Search.RefusalsHold | crates/ono-kubernetes-plugin/src/query.rs:1661-1667 | Whatever is refused outright resolves under no possible content |
| Search.AbsenceIsCertain | crates/ono-kubernetes-plugin/src/query.rs:1011-1043 | A named object is reported absent exactly when one resource is certain and its collection lacks the object |
| Search.NamedObjectSays | crates/ono-kubernetes-plugin/src/query.rs:1011-1043 | A record is emitted exactly when one resource was found and holds the object, and the query is complete exactly when nothing was left unread on the way |
| Search.SearchIsSought | crates/ono-kubernetes-plugin/src/query.rs:1570-1631 | What a search comes back with is what the certainty results rest on, and the cluster behind it is one of the possible ones |
| Search.AnswersAreTrue | crates/ono-kubernetes-plugin/src/query.rs:1546-1566 | So after a search what is given, refused as not served or ambiguous, or refused outright is true of the cluster behind it |
| Search.AnswersHold | crates/ono-kubernetes-plugin/src/query.rs:1546-1566 | The same against everything the cluster serves in the group and version asked for: a resource given is the only match there and offers the verb, not served has no match, ambiguous more than one; and with nothing unread the resource is given exactly when the cluster has it so |
| Search.TruthIs | crates/ono-kubernetes-plugin/src/query.rs:1570-1631 | A search that read everything answers as the cluster has it |
| Search.SpaceIs | crates/ono-kubernetes-plugin/src/query.rs:1815-1879 | The space of a search is exactly what is asked for, each group-version once, and one for a group that is named; it is refused exactly for a version without a group, a version its group does not serve, and a group that serves none |
| Search.PartsRead | crates/ono-kubernetes-plugin/src/query.rs:1950-1956 | The text of a group-version reads back as its group and its version |
| Search.SpaceIsPreferred | crates/ono-kubernetes-plugin/src/query.rs:1815-1879 | The space of an unnarrowed search is the preferred version of every group that has one, sorted, each once |
| Search.FoundIsPart | crates/ono-kubernetes-plugin/src/query.rs:1570-1631 | What was found is part of what there is, and all of it when the unread groups hold nothing |
| Search.TwoWorlds | crates/ono-kubernetes-plugin/src/query.rs:1977-1996 | With an unread group there is always a cluster with one match more than was found, of a group-version of its own |
| Surface.OrderDecidesNothing | crates/ono-kubernetes-plugin/src/dynamic.rs:203-235 | Reordering the snapshot changes neither the resource nor the refusal nor the set of candidates |
| Surface.OrderDecidesNothingAtAll | crates/ono-kubernetes-plugin/src/dynamic.rs:203-235 | And not even the order of the candidates where no two matches share group and kind |
| Surface.NarrowingAddsNothing | crates/ono-kubernetes-plugin/src/dynamic.rs:116-147 | Adding a group or a version to a selector never finds anything new |
| Surface.CandidateSelects | crates/ono-kubernetes-plugin/src/dynamic.rs:238-246 | The kind and group of a listed candidate select it alone if and only if no other resource of the snapshot has both |
| Surface.AnswerSays | crates/ono-kubernetes-plugin/src/dynamic.rs:203-235 | The answer in terms of the snapshot: a resource exactly when it is the only match and offers the verb, the refusal of the verb exactly when the only match does not offer it, not served exactly for no match, ambiguous exactly for more than one |
| Surface.CandidatesAreHits | crates/ono-kubernetes-plugin/src/dynamic.rs:232-246 | An ambiguity lists a line for each match, and each match has its line |
| Surface.WordsSelect | crates/ono-kubernetes-plugin/src/dynamic.rs:116-147 | A plural or a short name is meant in any mix of ASCII case, a kind only to the letter, and group and version leave out what has another |
| Surface.CandidateSpells | crates/ono-kubernetes-plugin/src/dynamic.rs:238-246 | The options that a candidate line starts with are those that select by its kind and group |
| Surface.UnaskedSays | crates/ono-kubernetes-plugin/src/dynamic.rs:203-210 | A query is not asked exactly when it names neither a kind nor a resource |
| Surface.SortedSorts | crates/ono-kubernetes-plugin/src/dynamic.rs:215-215 | The candidates come sorted by group and kind |
| Surface.SortedKeeps | crates/ono-kubernetes-plugin/src/dynamic.rs:215-215 | Sorting loses and adds nothing |
| Json.ErasedTyped | crates/ono-kubernetes-plugin/src/dynamic.rs:453-507 | Erasing the types gives the document back if and only if every whole number fits i64 and every text read as an instant is how that instant prints |
| Json.TypedEverywhere | crates/ono-kubernetes-plugin/src/dynamic.rs:453-486 | Every node is typed under its own pointer: reading a place of the typed document is typing what the document holds there |
| Json.FieldsLand | crates/ono-kubernetes-plugin/src/dynamic.rs:389-443 | Whatever the values, each field but identity, metadata and a null spec or status lies in exactly one of spec, status and other, and nothing else does |
| Json.ContentPartitions | crates/ono-kubernetes-plugin/src/dynamic.rs:389-443 | Put together again the parts are exactly those fields, always, and a field comes back as the object has it if and only if its value is plain |
| Json.TopLevelPointers | crates/ono-kubernetes-plugin/src/dynamic.rs:412-427 | The unescaped top-level pointer is the own pointer of the field exactly for names without tilde and slash, and below such a name every node is typed under its own |
| Json.PlacesHavePointers | crates/ono-kubernetes-plugin/src/dynamic.rs:453-512 | Distinct places have distinct pointers, and reading by pointer reaches the place |
| Pointers.UnescapeEscape | crates/ono-kubernetes-plugin/src/planning.rs:335-337 | Unescaping by section 4 of RFC 6901 undoes escaping |
| Pointers.SplitJoin | crates/ono-provider-kubernetes/src/mutation.rs:532-534 | A pointer that was written reads back as its tokens |
| Pointers.PlainName | crates/ono-kubernetes-plugin/src/dynamic.rs:412-427 | A name is its own pointer token exactly when it holds no tilde and no slash |
| Pointers.StatusIsOutOfReach | crates/ono-kubernetes-plugin/src/planning.rs:652-681 | Refused as observed state is exactly what denotes status or something in it, however spelled |
| Planning.Action | crates/ono-kubernetes-plugin/src/planning.rs:213-315 | The list of changes of every action, and which container is refused first |
| Planning.IndexIsRight | crates/ono-kubernetes-plugin/src/planning.rs:362-393 | The index of a container is that of the first entry of its name if and only if every entry before it has a name |
| Planning.RefusedExactly | crates/ono-kubernetes-plugin/src/planning.rs:362-393 | A container is refused if and only if no entry has its name |
| Planning.UnnamedEntryShiftsTheIndex | crates/ono-kubernetes-plugin/src/planning.rs:364-373 | Two containers of which only the second has a name: its image is aimed at the first |
| Planning.PlacesAreSpelled | crates/ono-kubernetes-plugin/src/planning.rs:229-311 | The pointers that the curated actions write |
| Planning.MarkerIsSpelled | crates/ono-kubernetes-plugin/src/planning.rs:318-320 | The pointer of the restart marker, with the slash in its name escaped |
| Curated.CuratedHolds | crates/ono-kubernetes-plugin/src/planning.rs:213-315 | After the changes of a curated action the named replicas, images, labels, annotations or marker hold what was asked, and the changes state truly what was held |
| Curated.CuratedTouchesNothingElse | crates/ono-kubernetes-plugin/src/planning.rs:213-315 | Places apart from the changed ones read as before; taking the changes back leaves exactly the object with the parents of the changed places in it: every other place reads as it did, a parent that was an object or a list is still one, a parent that was missing or a scalar is an object of created parents, and the object is the same to the letter if and only if the parents were there |
| Curated.EveryChangeIsTrue | crates/ono-kubernetes-plugin/src/planning.rs:323-328 | Every change of every action, raw ones included, records what its place held, and a removal has something to remove |
| Curated.PairsHold | crates/ono-kubernetes-plugin/src/planning.rs:293-311 | Each label or annotation asked for holds its value or is gone |
| Curated.ImagesHold | crates/ono-kubernetes-plugin/src/planning.rs:234-255 | Each image asked for is the image of the first container of that name, which keeps its name, when every entry before that one has a name |
| Curated.ImagesAim | crates/ono-kubernetes-plugin/src/planning.rs:234-255 | The two changes of an image are made to the first container of its name if and only if every entry before it has a name; otherwise to an earlier entry of another name or none |
| Curated.RefusedFor | crates/ono-kubernetes-plugin/src/planning.rs:213-315 | An action is refused for nothing but a template or container list that is missing, or for the first container asked for that the list does not name, and is made wherever those are there |
| Curated.FieldsAreSet | crates/ono-kubernetes-plugin/src/planning.rs:213-229 | The raw field changes put every value in its turn, and then take away exactly those places to be taken away that are there |
| Edits.AppliedHits | crates/ono-provider-kubernetes/src/plan.rs:306-341 | Changes to places apart from one another make each place hold what its change says and leave all places apart from them alone |
| Edits.UndoIs | crates/ono-provider-kubernetes/src/plan.rs:306-341 | Taking changes back last first leaves exactly the document they were made to, with the parents of the changed places in it |
| Edits.UndoRestores | crates/ono-provider-kubernetes/src/plan.rs:306-341 | That is the document to the letter if and only if the parents of all changed places were there |
| Edits.UndoReads | crates/ono-provider-kubernetes/src/plan.rs:306-341 | In any case every place that is no parent of a changed one reads as it did; an object or list above one keeps its kind and length, and a missing or scalar parent is an object of created parents |
| Endpoints.UrlIsInjective | crates/ono-kubernetes-plugin/src/query.rs:2578-2581 | The printed address determines scheme, host, port and base path, IPv6 hosts included |
| Endpoints.DefaultPort | crates/ono-kubernetes-plugin/src/query.rs:2826-2877 | An address without a port is at 443 for https and 80 for http |
| Endpoints.BracketedLiteral | crates/ono-kubernetes-plugin/src/query.rs:2852-2859 | A bracketed literal, colons and all, is the host, with the port after it or the default one |
| Endpoints.PrintedReads | crates/ono-kubernetes-plugin/src/query.rs:2832-2880 | Parsing the printed address gives the same four parts if and only if the host holds no colon and starts with no bracket |
| Endpoints.ParsedIsNormal | crates/ono-kubernetes-plugin/src/query.rs:2832-2880 | Every parsed address has a host without slash, a 16-bit port and a base path that is empty or starts and does not end with a slash |
| Endpoints.SessionsKeepAddressesApart | crates/ono-kubernetes-plugin/src/query.rs:2546-2556 | Two endpoints share a session key if and only if instance, four-part address and certificate posture agree |
| Documents.Session.RootDocument | crates/ono-kubernetes-plugin/src/query.rs:1268-1312 | A root document is the text of the server in the form it is labelled with, with a request only when neither form is remembered, and the same form as an uncached read unless a legacy reader came first |
| Documents.Session.LegacyDocument | crates/ono-kubernetes-plugin/src/query.rs:2079-2115 | A legacy reader is only ever given the legacy text, whatever was read before |
| Documents.Session.GroupDocument | crates/ono-kubernetes-plugin/src/query.rs:1688-1712 | The same for a group, with every failure but a broken connection kept to the group |
| Documents.Session.Cache | crates/ono-provider-kubernetes/src/session.rs:728-752 | A key is filled only while nothing answers under it |
| Documents.Session.Lapse | crates/ono-provider-kubernetes/src/session.rs:694-700 | A document that lapses stops answering, and no other does |
| Documents.ServeAll | crates/ono-kubernetes-plugin/src/query.rs:1268-1312 | Over any sequence of calls on one session each is given the text of the server in its own form, and a key is filled at most once more than its document lapsed: once where nothing lapses |
| Documents.OrderShows | crates/ono-kubernetes-plugin/src/query.rs:1274-1280 | After a legacy reader, a root read of a server with the aggregated form is given the legacy text |

## Left out

- TLS, HTTP framing, JSON and YAML parsing, host call encoding, audit records and the prose of errors: I/O around the modelled logic.
- The frame decoder and its partial frames: a chunk is modelled as the events it decodes to, or as unreadable.
- The order of the `listed` records of an acquisition: any order that tells every object once is allowed.
- Freshness, staleness and backoff delays of the change stream: whether a notice is emitted is an input, since notices say nothing about objects.
- Other writers on one watched stream, through mutations of the same session: one invocation owns it here.
- The rule that decides a verification: it is a parameter of `Converge`, as are clock and deadline.
- Converge.Converge: where the first read gave no version, nothing is said of where in the history the evaluated states lie, because the server then starts the watch where it likes.
- `verify`, `acceptance`, `How::read`, `fields_wanted`, `pairs` and `propagation`: one-branch readings of arguments and of a plan.
- Applying field changes on the server: `Edits` says what a change means for the object, and the request document built by `crates/ono-provider-kubernetes/src/mutation.rs` and the merge the server performs are not modelled.
- Planning.Action: for raw field changes only the values recorded as held are proved, since nothing keeps a caller from naming overlapping places.
- `precision` and `untyped` of a content, and schema lookup: which pointers are described as instants is a parameter.
- Floating point: fractions are reals, so rounding of a whole number past i64 is not modelled beyond its change of kind.
- Budgets other than the page budget: the ledger answers each request with a yes or a no.
- Expiry of discovery documents by age and their comparison for drift: a lapse is an event that may happen at any time.
- `converse_on`, `nap` and the choice between plaintext and TLS: no state of their own.
- The credential source string: an opaque part of the key.
- `contributions.rs`, the field projections of `records.rs`, `cluster.rs`, `conditions.rs`, `events.rs`, `evidence.rs`, `logs.rs`, `why.rs`, `relations.rs`: many members with one-branch claims.
- Fairness of thread scheduling: what can happen is proved, not that a scheduler lets it happen.
