# The avatar lifecycle, verified

A Dafny model of the avatar service: uploads and deletions that commit together with an outbox event, a leased
processing state machine, an object store, a retrying consumer, and the schema migrations. Many server and worker
processes run it at once, and the properties below hold for every interleaving of their effects, with crashes,
redelivered messages, lost answers and stolen leases. `dafny verify dfyconfig.toml` checks the whole project.

## How the model is built

* `Text`, `Domain`, `Validate`, `Errors`, `Images`, `Headers`: the pure parts, namely object keys and event ids, checks of
  user input, error classification, image inspection and conversion, and Kafka headers (the header carrier is a class, as
  in the source).
* `Protocol`: the system as a state machine. The state holds the `avatars` and `outbox_events` tables, the bucket, the
  two topics, a clock, one storage gauge a process, and the runs in flight, each at its own program counter. One action
  is one external effect of one run, the start of a run, a delivery of any message of a topic, a crash, a restart or a
  clock tick. A `Turn` holds the environment's choices for one effect: success, failure before or after it took
  effect, cancellation, map iteration order, and the answer to the stuck query among those that its `ORDER BY` allows (a choice
  that is no possible answer leaves the run where it is).
* `Invariant`: the joint invariant over tables, bucket, topics and runs. `Effects`, `Commits` and `Steps` prove that
  every action keeps it, `Guarantees` that it holds in every reachable state and how states evolve.
* `Outbox`, `Cleanup`, `Leftovers`, `Lease`, `Processings`, `Gauges`, `Drawings`, `Fetch`: what follows for callers.
* `Undisturbed`: stretches of an execution in which one run acts, time passes, and nothing else happens or fails, but that
  the broker may never take some outbox rows. `FlushCalls` and `RecoverCalls` say what complete such calls of `FlushOutbox`
  and `RecoverStuck` do, over all executions (`Outcomes` holds the single steps). `Progress` holds what both share: rounds
  over the oldest few entries some of which can never be finished, and who starves.
* `Deployments`: a class that is the running system as one run of ours sees it; the others act between our effects, and
  every action is logged. `Flush`, `Process`, `Recovery`, `Maintenance` and `Service` write the service's methods on it in
  the source's own shape, loops included. Each effect of theirs is a step of the protocol, so everything proved of
  executions holds of them; what they answer is tied to the logged actions, and undisturbed they are the calls above.
  `Consumption` puts the worker's consume loops around the handlers, and `Walkthrough` runs a whole deployment from nothing.
* `Repository`, `Bucket`, `Worker`, `Migrate`: the SQL statements and transactions, the object store client, the consumer
  with its retry loop, and the migrations, as classes that update their fields in place.
* `Sample`, `Traces`, `Starvation`: one concrete choice of the libraries, and executions that break three promises one might
  expect.

Three promises do not hold as one might first put them. For each there is a concrete execution from the empty system, and
the exact condition:

| expected | fails by | holds if and only if |
|---|---|---|
| `completed` is final | `Traces.CompletedIsNotFinal` | no run can still write `failed` to the live row (`Lease.CompletedIsFinalIff`) |
| a handled deletion leaves nothing | `Traces.DeletionCanLeaveAThumbnail` | at the commit nobody can still put a thumbnail, and everything stored is announced (`Leftovers.CommittedDeletionIsCompleteIff`; `Leftovers.DeletionIsCompleteIff` for any later time) |
| what can be finished is finished, by calls that nothing disturbs | `Starvation.RecoveryCanStarve`, `Starvation.FlushCanStarve` | fewer entries that can never be finished than the query's limit come before (`RecoverCalls.RecoveryServesIff`, `FlushCalls.FlushServesIff`) |

An avatar cannot be finished if its image was accepted by its header and cannot be decoded; an outbox row, if the broker
refuses its message every time. (In reachable states every row's payload decodes, so no row fails for its own content.)

## Assumptions

* A transaction that reports an error did not commit. Any other request that reports an error may have taken effect.
* Statements are atomic and see the time of their effect as `NOW()`; a transaction takes effect at its commit.
* New UUIDs have not been used before, and are printed as 32 lower-case hexadecimal digits with four hyphens.
* Image decoding, resizing and encoding are deterministic functions that may fail. JSON of an event reads back, a printed
  UUID parses to itself, and lower-casing does the usual on ASCII letters (`Images.Lawful`; `Sample.LibraryIsLawful` shows
  that this can be met). Nothing is assumed of Unicode case folding beyond being done character by character.
* All messages of the two topics come from the outbox, and the installed propagators set only trace context and baggage.
* The in-memory repository of the tests claims and completes deleted rows and knows no lease. The model follows the SQL,
  which guards on `deleted_at IS NULL` and has a lease of two minutes.

## Model

| member | source | states |
|---|---|---|
| Domain.KeyReadsBack | internal/domain/avatar.go:97-103 | every key the service builds reads back to exactly its user, avatar, size and extension, whatever slashes, dots or spaces the user id holds |
| Domain.LocatedKeyIsBuilt | internal/domain/avatar.go:97-103 | conversely a readable key is the key of what was read, so naming is a bijection |
| Domain.KeysAreDisjoint | internal/domain/avatar.go:97-103 | two built keys are equal only for the same object of the same avatar |
| Domain.KeyIsTrimmed | internal/storage/s3.go:109-112 | a built key is not empty and a fixed point of the trimming that Delete applies |
| Text.TrimSpaceIs | internal/storage/s3.go:109-112 | trimming cuts nothing but white space off both ends, and all of it |
| Domain.EventIdsReadBack | internal/domain/events.go:28-34 | event ids give back their avatar, and an upload id is never a delete id |
| Errors.PermanentMarks | internal/domain/errors.go:24-41 | Permanent keeps nil nil, marks every other error as permanent, adds the mark once and hides no cause |
| Errors.PermanentIff | internal/domain/errors.go:34-41 | an error is permanent iff one of six sentinels is anywhere among its causes; an error of the network never is |
| Images.AcceptedIff | internal/imageutil/image.go:35-82 | an image is accepted iff its bytes begin with the signature of one of three types and its header gives positive sides of at most 20,000,000 pixels together; the three ways to be refused are told apart |
| Images.InspectedIsSupported | internal/imageutil/image.go:51-82 | what is reported is the type of the signature, that type's extension, and width and height as the header gives them |
| Images.PixelLimit | internal/imageutil/image.go:99-107 | accepted iff both sides are positive and the product is within the limit; the product is only formed where it fits 64 bits |
| Images.EncodeIs | internal/imageutil/image.go:113-138 | for every format text: trimmed and lower-cased, the empty one, `jpg` and `jpeg` give the JPEG encoder's output, `png` and `webp` theirs, each with its type, and any other is refused |
| Images.ConvertIs | internal/imageutil/image.go:140-146 | conversion succeeds iff the image can be decoded within the limit and the encoder takes it, and then gives that encoding |
| Images.EncodeKeepsMime | internal/imageutil/image.go:113-138 | an image encoded in the format of a supported type is labelled with that type |
| Steps.ThumbnailMime | internal/imageutil/image.go:148-167 | a thumbnail made in the format of a supported type is labelled with that type |
| Headers.KafkaHeaderCarrier.Get | internal/observability/kafka.go:13-20 | the search loop returns the value of the first header whose key is equal under case folding, or the empty string |
| Headers.KafkaHeaderCarrier.Set | internal/observability/kafka.go:22-30 | the loop updates the first such header in place or appends one |
| Headers.KafkaHeaderCarrier.Keys | internal/observability/kafka.go:32-38 | the keys, in order |
| Headers.InjectKafka | internal/observability/kafka.go:40-44 | injection is the sets of all fields, one after the other |
| Headers.LookupIsMapLookup | internal/observability/kafka.go:13-20 | the search is lookup in a map from folded keys |
| Headers.AssignIsMapUpdate | internal/observability/kafka.go:22-30 | Set refines update of that map |
| Headers.SetKeepsKeysUnique | internal/observability/kafka.go:22-30 | Set keeps keys unique under case folding |
| Headers.AssignAllKeepsHead | internal/broker/kafka.go:87-89 | trace fields injected afterwards never disturb the leading `event_id` header |
| Headers.TraceIsCarried | internal/broker/kafka.go:87-95 | and a published message carries the last value of every injected trace field |
| Headers.UploadRoundTrip | internal/broker/kafka.go:73-103 | the upload event a handler decodes from a published message is the event that was published |
| Headers.DeleteRoundTrip | internal/worker/worker.go:150-160 | the same for delete events |
| Headers.UploadHandled | internal/worker/worker.go:138-148 | for any message: a body that does not decode is a permanent error, otherwise the event is the body's, with the id of the first `event_id` header that has a value, else its own, else `upload:` and the avatar id |
| Headers.DeleteHandled | internal/worker/worker.go:150-160 | the same for delete messages |
| Steps.UploadPutKeeps | internal/services/avatar.go:108-110 | the put of an original keeps the joint invariant, also when its answer is lost |
| Steps.UploadCreateKeeps | internal/services/avatar.go:122-125 | so does the create transaction, committed or not |
| Steps.UploadUndoKeeps | internal/services/avatar.go:122-125 | so does the compensating delete, which may fail |
| Steps.DeleteReadKeeps | internal/services/avatar.go:168-178 | so does the read before a deletion, which fixes the announced keys |
| Steps.DeleteTxKeeps | internal/services/avatar.go:179-181 | so does the soft-delete transaction, on a row that may have changed since the read |
| Steps.FlushPublishKeeps | internal/services/avatar.go:220-237 | so does a publish attempt, also one that reports an error after the broker took the message |
| Steps.FlushMarkKeeps | internal/services/avatar.go:259-261 | so does marking an outbox row |
| Steps.RecoverListKeeps | internal/services/avatar.go:267-278 | so does every answer to the stuck query |
| Steps.ProcClaimKeeps | internal/repository/postgres.go:166-185 | so does a claim, also one whose answer is lost |
| Steps.ProcGetKeeps | internal/services/avatar.go:409-419 | so does the download, after which the bytes at hand are those the row describes |
| Steps.ProcThumbKeeps | internal/services/avatar.go:421-442 | so does a thumbnail put, even for an avatar that was deleted meanwhile |
| Steps.ProcCompleteKeeps | internal/repository/postgres.go:187-212 | so does a completion |
| Steps.ProcFailKeeps | internal/repository/postgres.go:214-224 | so does a failure, which may overwrite any status |
| Steps.CleanKeeps | internal/storage/s3.go:108-118 | so does the removal of one object of a deleted avatar |
| Outcomes.LostReplyLands | internal/storage/s3.go:55-118 | an effect on the bucket or on an outbox row whose reply is lost did exactly what a good reply reports, and a refused one nothing |
| Steps.NextKeeps | internal/services/avatar.go:73-461 | every action of every run, crashes, deliveries and clock ticks included, keeps the joint invariant |
| Steps.ExecutionKeeps | internal/services/avatar.go:73-461 | hence every execution does |
| Guarantees.StorageGuarantee | internal/services/avatar.go:108-126 | in every reachable state a live row's original is stored under its key, spelt out, with the row's type and size; its bytes begin as that type does and its header gives the row's width and height; every thumbnail the row lists is stored with the same type |
| Drawings.ThumbnailsAreOfTheOriginal | internal/services/avatar.go:421-442 | every thumbnail a live row lists is stored under its name, spelt out, and holds what the encoder of the row's type makes of the stored original, decoded and filled into 100 x 100 or 300 x 300 pixels by its size, whichever of any number of runs drew it |
| Drawings.HopelessIff | internal/imageutil/image.go:84-97 | an accepted image can never be given its thumbnails iff it cannot be decoded, or one of its two squares cannot be encoded |
| Drawings.ExecutionKeepsDrawn | internal/services/avatar.go:409-442 | every execution keeps stored thumbnails, and the images runs have in hand, those of the stored originals |
| Guarantees.Convergence | internal/repository/postgres.go:187-224 | for any interleaving a row's thumbnail map is empty or the one canonical map, completed implies the canonical map, a filled map stays, and user, type, size, dimensions and key never change |
| Guarantees.ExecutionEvolves | internal/repository/postgres.go:110-224 | over any execution rows only move forward, soft-deleted rows are frozen in every field, outbox payloads never change, and nothing leaves a topic |
| Guarantees.InsertsAppend | internal/repository/postgres.go:153-164 | in reachable states neither transaction meets its own event id: the conflict branch is never taken |
| Outbox.OutboxAtomicity | internal/repository/postgres.go:28-55 | a row exists iff exactly one upload event does, and is soft-deleted iff exactly one delete event exists |
| Outbox.CreateCommitsBoth | internal/repository/postgres.go:28-55 | a create that succeeds inserts a row under a new id and appends exactly its event, spelt out field by field |
| Outbox.CompensationLeavesNothing | internal/services/avatar.go:122-125 | after a failed create, a compensating delete that gets through leaves no object of the avatar |
| Outbox.DeleteCommitsBoth | internal/repository/postgres.go:110-136 | the soft delete takes effect exactly for a live row of the caller's own, and then stamps both its times and appends its event, spelt out |
| Outbox.DeleteSucceedsOnce | internal/services/avatar.go:164-184 | after one delete of an avatar committed, no other ever does |
| Outbox.PublishedAtLeastOnce | internal/services/avatar.go:250-261 | every outbox row marked published has its event in the topic of its kind |
| Outbox.PublishAppendsOne | internal/services/avatar.go:220-237 | an attempt that reaches the broker appends exactly one message, with the item's event, to the topic of its kind, and one that does not appends nothing |
| Outbox.UndecodableIsPassedOver | internal/services/avatar.go:220-237 | in any state: an item whose kind or payload does not decode is never sent, and after three attempts or a cancelled one the flush goes on |
| Outbox.NoPhantomUploads | internal/services/avatar.go:220-237 | every message of the upload topic is handled as the event of a committed outbox row, names an existing row's user and key, and has the avatar id as its key |
| Outbox.NoPhantomDeletes | internal/services/avatar.go:220-237 | every message of the delete topic is handled as the event of a committed outbox row of a soft-deleted avatar, names only that avatar's objects, and has the avatar id as its key |
| Cleanup.OriginalStaysAbsent | internal/services/avatar.go:447-461 | once a delete message was handled without error, the original is absent in all later states and only the two canonical thumbnails can be stored |
| Cleanup.ThumbnailsAreAnnounced | internal/services/avatar.go:197-210 | a delete that reads the row with its thumbnails announces every object the avatar has |
| Cleanup.QuietDeleteSeals | internal/services/avatar.go:179-181 | if then no run holds a claim when the deletion commits, the avatar is sealed |
| Cleanup.SealedLeavesNothing | internal/services/avatar.go:447-461 | of a sealed avatar whose delete message was handled nothing is stored, then and ever after |
| Cleanup.QuietDeletionLeavesNothing | internal/services/avatar.go:164-210 | from end to end: a deletion that read the row with its thumbnails and committed while no run held a claim leaves nothing, whatever happens in between and after, once its message has been handled |
| Leftovers.CommittedDeletionIsCompleteIff | internal/services/avatar.go:168-181 | for a caller of Delete, at the commit of its transaction: all futures that handle the message leave nothing iff no run could then still put a thumbnail and every object the avatar had was announced |
| Leftovers.DeletionIsCompleteIff | internal/services/avatar.go:168-181 | at any time from that commit on, all futures that handle the message leave nothing iff no run can still put a thumbnail and everything stored is announced to the message and to every cleaner under way |
| Leftovers.ExecutionTight | internal/storage/s3.go:108-118 | that condition is kept by every execution |
| Leftovers.SomethingLeft | internal/services/avatar.go:421-442 | without it there is an execution that handles the message and leaves an object |
| Lease.MutualExclusion | internal/repository/postgres.go:166-185 | where every holder ends within two minutes, at most one run at a time is between claim and complete or fail for an avatar, and its row, if live, is processing and carries its claim time |
| Lease.CompletedOnce | internal/repository/postgres.go:187-212 | where all claims were timely up to a completion, no step of any run ever completes the avatar again, whatever happens afterwards |
| Lease.TimelyCompletionIsFinal | internal/repository/postgres.go:166-224 | then a completed live row stays completed in all futures, and no run ever holds a claim for it again |
| Lease.CompletedIsFinalIff | internal/repository/postgres.go:214-218 | in any state, completed is final in all futures iff no run can still write failed to the live row |
| Processings.NilMeansSettled | internal/services/avatar.go:383-445 | a call that returns nil leaves the avatar absent, deleted, completed or under a running lease, and never by the branch that swallows an inspection failure |
| Processings.NeverSwallows | internal/services/avatar.go:415-419 | that branch is unreachable for stored uploads |
| Processings.BadImageIsSwallowed | internal/services/avatar.go:411-421 | in any state: an image that does not inspect is marked failed and the answer is nil, a failed download is marked failed and reported |
| Processings.MissingKeyIsTheRows | internal/services/avatar.go:399-401 | an event without a key is processed under the row's key |
| Processings.BadIdsArePassedOver | internal/services/avatar.go:267-284 | events whose avatar id is no UUID touch nothing, and recovery goes on with the first that is one |
| Processings.UndecodableIsDropped | internal/worker/worker.go:138-160 | a message that does not decode changes nothing |
| Processings.AnswerEndsCall | internal/services/avatar.go:267-284 | an answer ends the call, and recovery goes on with its next row |
| Processings.StuckOrSettled | internal/repository/postgres.go:256-271 | a live row can be claimed, which is what the stuck query selects, exactly if it is neither completed nor under a running lease |
| Processings.ClaimableIff | internal/repository/postgres.go:166-175 | in numbers: pending, failed, or processing for more than 120,000,000 microseconds, and not deleted |
| Processings.ClaimableAfterLease | internal/repository/postgres.go:166-175 | after any execution of more than two minutes, a live row that it left as it was is completed or claimable, without another message |
| Gauges.StorageConserved | internal/services/avatar.go:43-71 | gauges, plus what committed runs still owe, plus what crashes lost, always equal the live bytes |
| Gauges.GaugesAddUp | internal/services/avatar.go:43-71 | for processes that start on an empty database and never die, the gauges corrected by runs in flight are exactly the live bytes |
| Validate.UserIdAcceptedIff | internal/domain/validate.go:8-19 | a user id is accepted iff, trimmed, it has 1 to 255 bytes and no control character |
| Validate.UserIdLength | internal/domain/validate.go:8-12 | the limit counts bytes of UTF-8: n copies of a character of one, two, three or four bytes are accepted iff they have at most 255 |
| Validate.MarginsDoNotCount | internal/domain/validate.go:8-19 | white space around a user id never decides whether it is accepted |
| Validate.SizeNormalForm | internal/domain/validate.go:21-30 | a size is accepted iff, lower-cased and trimmed, it is one of the three, which is then the answer, or empty, which means the original |
| Validate.FormatNormalForm | internal/domain/validate.go:32-44 | a format is accepted iff, lower-cased and trimmed, it is one of the three or empty, which is then the answer, or `jpg`, which means `jpeg`; normalising twice is normalising once |
| Fetch.SelectedKeyIsStored | internal/services/avatar.go:323-333 | for every live row and size the selected key is in the bucket with the row's type |
| Fetch.RefusedQueries | internal/services/avatar.go:313-321 | an unknown size, and then an unknown format, is refused with its own error |
| Fetch.FetchIs | internal/services/avatar.go:330-346 | in any state of the bucket: without the selected object only an error of the store; otherwise its bytes if no other format than its type is asked for, an object without a type counting as the row's, and else its conversion |
| Fetch.ServesLiveRow | internal/services/avatar.go:313-356 | every accepted query on a live row reads the thumbnail of its size once the row lists it, and else the original; these bytes are the answer if no other format is asked for, and otherwise there is an answer iff they can be decoded and the encoder of that format takes the picture, and it is that encoder's output |
| Fetch.ServesTheRightImage | internal/services/avatar.go:313-356 | asked for a size as it is, the answer is the stored original decoded, filled into a square of 100 or 300 pixels and encoded in the row's type, once the row lists that thumbnail, and the original itself until then and for its own size |
| Deployments.Deployment.Effect | internal/services/avatar.go:73-461 | between two effects of a run all others may act; the effect itself is one legal step of the protocol and is logged with the state it met |
| Walkthrough.UploadAndRecover | internal/worker/worker.go:68-89 | a deployment built from nothing, whose clock runs on: an accepted image that can be drawn becomes a completed avatar with both thumbnails by one turn of maintenance |
| Flush.PublishWithRetry | internal/services/avatar.go:286-305 | at most three attempts: they end with the item published, or with the third failed or a cancelled one, and then the run is at the next item; undisturbed they fail exactly for a row that the broker never takes |
| Flush.MarkOutboxPublished | internal/repository/postgres.go:251-254 | nil means the row is marked |
| Flush.FlushItem | internal/services/avatar.go:250-261 | the log shows the item tried from its first attempt to the step that ended it; an item is marked only after it was published, and nil means it is marked |
| Flush.FlushOutbox | internal/services/avatar.go:239-265 | in any environment: the items are the answer to one query, each is tried in turn whatever happened to the ones before, done says which were marked, and nil is returned exactly if the query and all of them succeeded; undisturbed it is a FlushCall |
| FlushCalls.ListingIsLeast | internal/repository/postgres.go:230-236 | the list is the least unpublished ids, as many as the limit allows |
| FlushCalls.CallFlushes | internal/services/avatar.go:239-265 | over all executions an undisturbed call publishes exactly the 50 oldest unpublished rows, without those that the broker never takes, and leaves avatars, objects and other runs alone |
| FlushCalls.OutboxBound | internal/services/avatar.go:239-265 | with q < 50 rows that the broker never takes and g others, n calls with n * (50 - q) >= g publish exactly the others |
| FlushCalls.FlushServesIff | internal/repository/postgres.go:230-236 | a row is published, by as many calls as there are rows that the broker takes, iff fewer than 50 that it never takes come before; otherwise no number of calls publishes it |
| Process.PutThumbnail | internal/services/avatar.go:429-441 | one turn of the loop over the sizes: the run goes on to the second size and then to its completion, or on an error to FailProcessing |
| Process.MakeThumbnails | internal/services/avatar.go:409-444 | from claim to complete or fail: it ends with the step that answers, and nil means completed |
| Process.ProcessUpload | internal/services/avatar.go:383-445 | in any environment it goes from its read to the step that answers, with that answer, and nil means settled; undisturbed a claimable avatar ends completed, or failed if its image is hopeless and exactly then with an error, and nothing else changes |
| Recovery.RecoverStuck | internal/services/avatar.go:267-284 | in any environment: the avatars are the answer to one query, each is processed in turn from its read to its answer whatever happened to the ones before, done says whose answer was nil, each of those was settled right then, and nil is returned exactly if the query and all of them succeeded; undisturbed it is a RecoverCall |
| RecoverCalls.CallResolves | internal/services/avatar.go:267-284 | over all executions an undisturbed call resolves exactly the avatars of some answer to the stuck query, completed or failed if hopeless, and leaves everything else and no lease |
| RecoverCalls.CanRecover | internal/services/avatar.go:267-284 | and for every possible answer there is such a call |
| RecoverCalls.CallIsRound | internal/repository/postgres.go:256-271 | so a call is one round over the stuck avatars, the hopeless ones being those that cannot be finished, while time passes |
| RecoverCalls.RecoveryBound | internal/services/avatar.go:267-284 | with p < 20 hopeless avatars and g others, n calls with n * (20 - p) >= g complete every other one |
| RecoverCalls.RecoveryServesIff | internal/repository/postgres.go:256-271 | an avatar is completed, by as many calls as there are avatars that can be, iff fewer than 20 hopeless ones are as old or older |
| RecoverCalls.ListingIsPick | internal/repository/postgres.go:265-271 | an answer to the stuck query holds the oldest claimable rows, as many as the limit allows |
| RecoverCalls.PickIsListing | internal/repository/postgres.go:265-271 | and any such choice among rows of equal age is some answer |
| Progress.RoundsFinish | internal/repository/postgres.go:230-236 | with q below the limit entries that cannot be finished and g others, n rounds with n * (limit - q) >= g finish exactly the others |
| Maintenance.Maintain | internal/worker/worker.go:68-89 | n turns query the outbox and then the stuck avatars, one after the other; undisturbed, each is a FlushCall and a RecoverCall, with any time passing |
| Maintenance.OutboxDrains | internal/worker/worker.go:82-89 | with q < 50 rows that the broker never takes and g others, ceil(g / (50 - q)) turns publish exactly the others, leases and recoveries notwithstanding |
| Maintenance.StuckRecover | internal/worker/worker.go:82-89 | with no lease running at the start, p < 20 hopeless avatars and g others, ceil(g / (20 - p)) turns complete every other one |
| Maintenance.StuckRecoverAhead | internal/worker/worker.go:82-89 | beyond that, an avatar with fewer than 20 hopeless ones ahead is completed within as many turns as there are avatars that can be |
| Service.AllowedIff | internal/services/avatar.go:73-97 | nothing is refused iff the user id is acceptable and the file is there, not too large, signed as one of the three types and of an allowed size |
| Service.Upload | internal/services/avatar.go:73-128 | the checks and their errors without effect; nil means the row is the caller's, with the number of bytes, the type they begin as, the width and height of their header and the key named after these, and any error that there is no row; undisturbed, what is not refused succeeds with a fresh pending row; the run is followed to its end, compensation and gauge included |
| Service.Delete | internal/services/avatar.go:164-184 | nil means this call moved the caller's own live row to deleted, stamped with a time during the call and otherwise as it was; not found and forbidden mean what they say; undisturbed, every call is answered by what it finds |
| Service.HandleDeleteMessage | internal/worker/worker.go:150-160 | the message decodes, the run removes the announced objects one by one to its end, and nil means the avatar counts as cleaned, for which `Cleanup` and `Leftovers` say what is left |
| Service.HandleUploadMessage | internal/worker/worker.go:138-148 | the message decodes; nil means the avatar is settled; undisturbed, a claimable avatar is resolved |
| Repository.AvatarRepository.CreateWithOutbox | internal/repository/postgres.go:28-55 | the row under a new id and its event, both or neither, for a failure at any statement; without failures only a taken id is an error |
| Repository.AvatarRepository.SoftDeleteOwnedWithOutbox | internal/repository/postgres.go:110-136 | the deletion mark and its event, both or neither; not found exactly as the guard says |
| Repository.AvatarRepository.Commit | internal/repository/postgres.go:138-151 | the transaction's writes become visible at the commit or not at all |
| Repository.InsertEnqueues | internal/repository/postgres.go:153-164 | after the insert the event is there with its kind and payload, nothing else changed, no published mark is lost, and no event comes to have two entries |
| Repository.AvatarRepository.GetById | internal/repository/postgres.go:57-65 | soft-deleted rows are not found |
| Repository.AvatarRepository.MarkProcessing | internal/repository/postgres.go:166-185 | a claim is granted exactly for a live row that is pending, failed, or processing for more than two minutes, and sets its status and time |
| Repository.AvatarRepository.CompleteProcessing | internal/repository/postgres.go:187-212 | completes a live row, whatever its status: thumbnails, status, time, and sides where positive; not found otherwise |
| Repository.AvatarRepository.FailProcessing | internal/repository/postgres.go:214-224 | any live row, a completed one too, keeps all it has but can be claimed again at once; other rows and the outbox are as they were |
| Repository.AvatarRepository.ListUnpublished | internal/repository/postgres.go:226-249 | the unpublished rows with the least ids, in order; a limit that is not positive is 50 |
| Repository.AvatarRepository.ListStuckUploads | internal/repository/postgres.go:256-285 | claimable rows, oldest first, as many as the limit allows; a limit that is not positive is 20 |
| Repository.StepIsStatement | internal/repository/postgres.go:28-254 | each protocol step on the tables does what its statement does or nothing: a transaction when it reports success, a single statement also when its answer is lost |
| Bucket.S3.Upload | internal/storage/s3.go:55-73 | a put overwrites |
| Bucket.S3.Delete | internal/storage/s3.go:102-120 | nil means exactly the trimmed keys are gone; on an error those before the failing key are, that key's may be, and nothing else changed |
| Bucket.S3.DeleteWithRetries | internal/storage/s3.go:102-120 | repeated until it succeeds, partial earlier calls make no difference |
| Bucket.DeleteIsConfined | internal/storage/s3.go:102-120 | whatever fails, deleting one avatar's event touches no object of another |
| Bucket.NilRemovesAll | internal/storage/s3.go:102-120 | and if it reports nil, every key of the event is gone, the original among them |
| Bucket.OrderDoesNotMatter | internal/services/avatar.go:197-203 | the announced objects do not depend on the map's iteration order, and are all of the avatar's once it has thumbnails |
| Worker.WithRetry | internal/worker/worker.go:162-182 | after any number of errors without one of the six permanent causes, the next call decides: a success within the limit ends in nil, an error with such a cause or the last one allowed ends in it, and a context done at the wait ends in its error |
| Worker.EndingIsUnique | internal/worker/worker.go:162-182 | that description determines the number of calls and the result |
| Worker.SucceedsIff | internal/worker/worker.go:162-182 | nil iff some attempt within the limit succeeds and everything before it failed without a permanent cause and was not cancelled |
| Worker.Consumer.Consume | internal/worker/worker.go:96-136 | every fetched message is handled to an end and committed before the next fetch, dropped or not; the committed offsets are exactly what the script of events makes them; a failed commit or fetch is returned, and nil only if the context was done or the script ran out |
| Worker.Consumer.Lifetimes | internal/worker/worker.go:96-136 | over any sequence of processes restarted from the committed offsets the commit discipline holds, and the offsets are what their scripts make them |
| Worker.CommittedWasHandled | internal/worker/worker.go:96-136 | every committed message was handled at least once and ended in success, a permanent error, all attempts spent or cancellation, and nothing beyond the first uncommitted message was touched |
| Consumption.Retry | internal/worker/worker.go:162-182 | the same loop around a real handler: each of its calls, at most five, delivered the message; on what they returned it ends as above, and success means that the message has done its work; undisturbed, one call does that of a delete message |
| Consumption.Consume | internal/worker/worker.go:96-136 | exactly what was fetched, of what was there, was delivered to its handler and then committed, the first commit that is not confirmed ending the loop with an error; of the messages that ended in success, the avatar of an upload was settled at that time, and the avatar of a deletion is cleaned from then on |
| Migrate.SortSorts | internal/migrate/migrate.go:49-49 | the sort yields a sorted permutation |
| Migrate.NumberedVersion | internal/migrate/migrate.go:94-102 | the version of a numbered name is the value of its prefix |
| Migrate.AtoiIff | internal/migrate/migrate.go:94-102 | a text is a number iff it is a sign or none and digits with a value of a 64-bit integer, and then it is that value |
| Migrate.VersionIs | internal/migrate/migrate.go:94-102 | a script has a version iff what precedes the first underscore, or the `.sql`, is a number, and then it is that number |
| Migrate.ScriptNamesAre | internal/migrate/migrate.go:42-48 | the names are exactly those of the files that are no directory and end in `.sql`, each as often as it occurs |
| Migrate.NameOrderIsNumeric | internal/migrate/migrate.go:49-49 | for numeric prefixes of one width the name order is the order of versions |
| Migrate.WidthMatters | internal/migrate/migrate.go:49-49 | for different widths it is not |
| Migrate.TodoIsIncreasing | internal/migrate/migrate.go:51-71 | with one width, scripts are applied in strictly increasing order of version |
| Migrate.Database.ApplyFile | internal/migrate/migrate.go:75-92 | script and record are two statements of one transaction: whichever of them, or of the begin and commit, fails or loses its reply, the script is there with its record or not at all, and a version on record is refused |
| Migrate.Database.Up | internal/migrate/migrate.go:17-73 | commits, in name order, a prefix of what is left to do, and only embedded scripts; nil means that every embedded script has a version and it is on record; if no request fails, only a script without a version is an error |
| Migrate.Database.Deployed | internal/migrate/migrate.go:17-73 | over any number of runs that may die anywhere each version commits at most once, only embedded scripts are applied, and after a run that succeeded every embedded script's version is on record and nothing changes; if nothing fails, the first run succeeds |
| Traces.CompletedIsNotFinal | internal/repository/postgres.go:214-218 | a concrete execution completes a live avatar and goes on to where it is not completed |
| Traces.DeletionCanLeaveAThumbnail | internal/services/avatar.go:168-181 | a concrete execution handles a delete message without error and ends with an object of the avatar stored |
| Starvation.TwentyStarveOne | internal/services/avatar.go:267-284 | any twenty accepted images that cannot be drawn and then one that can: an execution uploads them, and goes on with any number of undisturbed calls of RecoverStuck after which the good avatar is still claimable |
| Starvation.RecoveryCanStarve | internal/services/avatar.go:267-284 | and there are such images |
| Starvation.FiftyStarveOne | internal/services/avatar.go:239-265 | any fifty-one uploads of which the broker never takes the first fifty: after any number of undisturbed calls of FlushOutbox the last is still unpublished |
| Sample.LibraryIsLawful | internal/domain/events.go:9-26 | what is assumed of the libraries can be met |

## Left out

- HTTP handlers, routing, CORS, rate limits, health checks, HTML and JavaScript: plumbing and user interface.
- Tracing, logging and metrics, but for the storage gauge; creating topics and buckets.
- The internals of Postgres, MinIO and Kafka, which appear as the atomic effects above.
- Pixel-level image work and the codecs.
- ETags: the hash is truncated, so it promises no uniqueness.
- `sanitizeFileName`, configuration and URL building: single checks that no invariant uses; file names are not modelled.
- `Get`, `GetLatest`, `List` and `DeleteLatest`: reads without effect, and a read followed by `Delete`.
- `upload_status`: every row the service writes is `stored`.
- `avatar.process`, `AvatarProcessEvent` and `processed_events`: declared, but not used by the protocol.
- Sleeping between attempts: only the number of attempts and their cancellation are modelled.
- Failing JSON encoding of an event: the records hold only strings, which always encode.
- Worker.Consumer.Consume: takes the outcomes of the handler's attempts as given; `Consumption` has the real handlers, but leaves the order in which messages are fetched to the environment. A partition moving between live consumers is not modelled.
- Consumption.Retry: which error a failing call reports, hence whether it is permanent, is the environment's choice.
- Maintenance.Maintain: the bounds are for turns that no other run, crash or failure disturbs; in general only the safety properties are stated.
- Validate.SizeNormalForm: lower-casing works character by character, so special casing that changes a string's length is not modelled.
- Migrate.Database.Up: the advisory lock is taken as working, so runs follow one another; script texts appear only by name.
