# Verification model of DIP, the distributed image processor

DIP cuts an uploaded image into tiles, sends each tile as a Kafka message to workers, collects the
results in Redis, requeues what goes missing, and puts the image together again (OpenCV jobs), or
collects object detections (ML jobs). This project models its protocol core and its algorithmic
cores in Dafny and proves what they promise. `dafny verify dfyconfig.toml` checks all of it.

How the modules follow the program:

| part of the program | modules |
|---|---|
| Redis state of a job, its operations, the retry wrapper | `JobRecords`, `JobStore`, `Retry`, `Blobs` |
| result consumers | `Consumers` |
| reaper | `Reaper`, `JobLife` |
| the same code, one Redis command at a time, any number of processes | `TileProtocol`, `TileCode`; results over all runs in `TileSafety`, `TileCompletion`, `TileFinality`, `TileCounters`, `TileAccounting`, `TileRequeues`, `TileConvergence`, `TileAnnouncements`; runs that reach the bounds in `TileBounds`, runs behind the exact conditions in `TileWitnesses` and `TileLateSweep` |
| leader lock | `LeaderLease`, `LeaderHistory`, `LeaderExclusion`, `LeaderContinuity` |
| tiling, splitting, reconstruction, header parser | `Tiling`, `Reconstruction`, `ImageProbe` |
| dispatch and requeue of tile messages | `Dispatch` |
| OpenCV worker, /reconstruct, a job from upload to image | `Worker`, `JobPipeline` |
| ML worker: queue between two threads, batch pass | `InferenceQueue`, `InferenceBatch` |
| rate limiter | `RateLimit` |

Two granularities are used for the job protocol. Code that updates state is a class or a method,
proved against a function of the old state, as if nothing else ran meanwhile. `TileProtocol` is a
transition system in which every action executes one Redis command of one process; consumers,
reapers and /reconstruct requests run in any number and any interleaving, crash between any two
commands, and receive any message at any time, again or never. `TileCode` shows that what the
methods of consumers and reaper do is an uninterrupted run of that system.

## What is proved, and where the code falls short

* `ready_for_reconstruction` and `completed` mean that every tile had been in Redis, `degraded`
  that every tile had been in Redis or abandoned, at the level of single commands.
* A complete job is left at `processing` exactly when the last consumer on its way to the status
  write crashed and no message was delivered since; without such a crash the last one out closes
  the job, and the next delivery repairs a stuck one (`TileCompletion`). Every place between taking
  the result and writing the status is such a crash point
  (`TileWitnesses.CompleteJobsCanStayProcessing`).
* A finished status stays once no process is between its check and its write, unless a /reconstruct
  starts; `TileFinality.OverwritesExactly` says which process can still overwrite it. The comment at
  master/results_consumer.py:60-61 promises more: a consumer that checked in time overwrites
  `degraded`, and, the other way round, a reaper that read the job in time overwrites
  `ready_for_reconstruction` by `degraded` and deletes the blobs of a complete job
  (`TileWitnesses.FinishedCanBeOverwritten`, `TileWitnesses.CompleteJobsCanLoseTheirBlobs`).
  Over whole steps no finished status changes (`JobLife.FinishedStaysFinished`).
* Until /reconstruct deletes the tiles, `results_count` <= latency samples <= distinct tiles <=
  `expected_tiles`. Every first delivery is counted, on its way to be counted, or lost for good: to a
  crash before the HINCRBY, or to a timed-out HSET that the client sends again and that then looks
  like an overwrite. So the counter is the number of tiles held exactly when nothing is on its way
  and nothing was lost (`TileAccounting`); the docstring at app/jobstore.py:244-248 mentions neither.
* The deletion keeps the counter: a job that was rendered once and holds no tile shows
  `results_count` = `expected_tiles` exactly when no first delivery was lost and none is on its way
  (`TileAccounting.RenderedJobsKeepTheirCount`). Redeliveries after it count again: with d deletions
  the counter is at most (d + 1) * `expected_tiles`, and that is reached (`TileBounds`).
* A tile is requeued at most MAX_TILE_ATTEMPTS - 1 times per lifetime of its counter. The
  docstring of `incr_tile_attempts` promises the cap without condition; with d deletions of the
  counters by /reconstruct under running sweeps the most is (d + 1) * (MAX_TILE_ATTEMPTS - 1), and
  that is reached for every MAX_TILE_ATTEMPTS from 2 on and every d (`TileBounds`).
* After max(MAX_TILE_ATTEMPTS, 1) completed sweeps nothing is outstanding. The next sweep that
  passes the grace check and is not crashed finds every tile held, or ends with the job out of
  `processing`. It retries tiles exactly when it reads the abandoned set after the job has left
  `processing` and an id is then in neither of the sets it has read (`TileLateSweep`).
* The completion of an ML job is announced once per status write that no crash follows. With at most
  n consumers about to write at any point that is at most n times, and for every n it is reached; so
  at most m announcements in all such runs exactly when n <= m (`TileAnnouncements`).
* Two replicas are leader at once only within the reply delay D after the younger SET, or until the
  older one's own deadline when it released the lock and the reply was lost. With no such loss that
  is never for D = 0, and for every D > 0 it happens in some run; with one it happens for every D.
* The queue of an ML worker is bounded by max(0, INFERENCE_MAX_QUEUE, INFERENCE_RESUME_QUEUE + 1),
  and every configuration reaches that bound; so INFERENCE_MAX_QUEUE itself is the bound exactly
  when the resume mark is below it (or negative).
* The rate limit holds in all runs whose clock readings are at most delta out of lock order exactly
  when delta is 0; `now` is read before the lock is taken (master/rate_limit.py:74-76).
* Two sweeps that requeue tiles of a job are at least the tile timeout apart exactly when no exception
  ends the first after a requeue: `set_last_reap_time` comes last, so a sweep that fails before it can
  be followed by another at once (`JobLife.SpacingExactly`). An id that SCAN reports twice is harmless
  exactly when the timeout is positive and no exception ends the first visit.
* A job of which every tile was processed to the end has its final status, whatever exceptions
  interrupt other messages. The comment at master/results_consumer.py:86-99 calls committing only after
  a successful processing safe; but a commit covers all earlier offsets of the partition, so a message
  that raised before its HSET is passed over once the next one is processed, and only the reaper
  brings it back. Nothing is lost exactly when every message passed over was stored by its own turn or
  another one (`Consumers.NothingLostExactly`, `Consumers.PassedOver`).
* `send_to_dlq` returns True also for a record that never arrives (`Worker.WorkerNode.SendToDlq`).
* Cropping a detected box clamps one side only; the exact condition under which the crop is the
  visible part of the box is `InferenceBatch.CropIsTheVisibleBox`.
* `failed_tasks` is not the number of tiles that never got to the topic: exceptions after produce()
  count a tile that was sent, and unreported losses are missing (`Dispatch.FailedTasksAddUp`).

## Model

| member | source | states |
|---|---|---|
| JobRecords.Outstanding | master/reaper.py:65-67 | the ids below expected_tiles that are neither received nor abandoned, all of them, in ascending order |
| JobStore.JobStore.CreateJob | app/jobstore.py:150-180 | writes metadata, status and zero counters, keeps the companion keys, touches no other job |
| JobStore.JobStore.RecordTileResult | app/jobstore.py:229-263 | the tile is stored; counter and latency list grow only on a first delivery; the reply is the number of distinct tiles |
| JobStore.JobStore.IncrTileAttempts | app/jobstore.py:303-310 | raises one tile's counter by one and returns the new value |
| JobStore.JobStore.AddAbandonedTile | app/jobstore.py:313-323 | adds the id to the abandoned set and changes nothing else |
| JobStore.JobStore.DeleteJobTileState | app/jobstore.py:342-358 | removes tiles, latencies, abandoned ids and attempt counters, keeps the metadata hash |
| Retry.RetryOperation | app/jobstore.py:55-92 | which of the allowed calls are made, when the loop stops, what the caller sees, and how often the command takes effect |
| Retry.NeverTwice | app/jobstore.py:55-73 | a non-idempotent command takes effect at most once, and exactly once when a reply comes back |
| Retry.RepeatsChangeNothing | app/jobstore.py:73-92 | applying an idempotent command n > 0 times leaves the state of one application |
| Retry.Execute | app/jobstore.py:94-134 | every wrapper leaves the state of zero or one application, one if it returns, zero if no call reached the server; the reply is that of the state found, or, for an idempotent command, perhaps that of a repetition |
| Blobs.BlobKeyInjective | app/blobstore.py:30-39 | within a job and kind two tiles never share a blob key |
| Blobs.BlobStore.PutTile | app/blobstore.py:30-39 | stores the bytes under the tile's own key |
| Blobs.UnderJobExactly | app/blobstore.py:69-69 | for ids without '/', as UUIDs are: the listing under "{job_id}/" holds the blobs of that job and of no other |
| Blobs.BlobStore.DeleteJobTiles | app/blobstore.py:64-79 | removes exactly the job's blobs whose removal does not fail, and counts them; every blob of another job stays with its bytes |
| Consumers.ProcessMessage | master/results_consumer.py:36-66 | the job becomes Processed(old job, message); other jobs stay |
| Consumers.ProcessMlMessage | master/ml_results_consumer.py:30-71 | the same for ML, with the metric and the blob sweep exactly when the message completes the job; blobs of other jobs stay with their bytes |
| Consumers.ListenForResults | master/results_consumer.py:103-130 | from taking to losing leadership: what every job is left with, with empty polls, values that are not JSON, and exceptions after any number of writes; the committed position of every partition |
| Consumers.ListenerOutcome | master/results_consumer.py:103-127 | whatever is interrupted: a tile is held iff some turn made its HSET, a job of which every tile was processed to the end has its final status, and a final status means enough tiles |
| Consumers.PositionExactly | master/results_consumer.py:114-122 | a message lies before the committed position iff its own or a later turn of its partition commits |
| Consumers.NothingLostExactly | master/results_consumer.py:86-99 | every message before a committed position is in Redis iff each of them was stored by its own turn or another one |
| Consumers.PassedOver | master/results_consumer.py:114-127 | an exception before the HSET loses the message once the next one of its partition is processed |
| Consumers.HandledIsDelivered | master/results_consumer.py:103-127 | without exceptions each job ends up as after its own messages alone, in their order |
| Consumers.StreamOutcome | app/jobstore.py:251-263 | after any stream, tile keys are the delivered ids, counter and latencies their number, the status final exactly when enough distinct ids came |
| Consumers.FlipsAtFirstCompletePrefix | master/results_consumer.py:57-63 | the status flips at exactly the first prefix that holds every expected id |
| Consumers.LastDeliveryWins | app/jobstore.py:251-251 | a tile holds the info of the last message delivered for it |
| Consumers.RedeliveryHeals | app/jobstore.py:236-263 | any number of interruptions followed by a redelivery gives the tiles and status of one uninterrupted processing; the counter never counts twice |
| Reaper.RepublishTile | master/reaper.py:70-115 | produces the message exactly if the staged blob exists |
| Reaper.RetryTile | master/reaper.py:204-227 | one tile: the attempt is counted, then the tile is requeued or abandoned, never both |
| Reaper.RetryTiles | master/reaper.py:204-227 | the loop over the retryable tiles, up to an exception if there is one, its messages and its count |
| Reaper.SweepJob | master/reaper.py:140-233 | what one sweep does to one job, its messages, the degraded metric and the blob sweep, and to nothing else, wherever an exception ends it |
| Reaper.ReapOnce | master/reaper.py:118-235 | jobs after the loss of leadership are untouched; every earlier one gets exactly its own visits and messages; the degraded metric and the blobs change exactly by the visits that degrade a job, so a job that the sweep has not turned degraded keeps all its blobs; the return value is the number of messages |
| Reaper.DegradedLabel | master/reaper.py:174-175 | the degraded metric is labelled opencv for jobs of /upload and ml for those of /detect |
| Reaper.SweepDecidesEveryTile | master/reaper.py:148-233 | every retryable tile, or every one before an exception, costs one attempt and is either requeued with its original message plus the attempt number or abandoned; messages and newly abandoned tiles add up; an exception can cost one more attempt and leaves the reap clock; TILE_SIZE's default plays no part |
| JobLife.RepeatsHarmlessExactly | app/jobstore.py:291-300 | an id that SCAN reports again is swept once in effect, in all sweeps and whatever its job, iff the timeout is positive and no exception ends the first visit |
| JobLife.RequeuesAreSpaced | master/reaper.py:148-150 | a sweep that requeues tiles of a job comes at least the timeout after any earlier one that did and was not ended by an exception, whatever arrives in between and whatever the wall clock does |
| JobLife.SpacingExactly | master/reaper.py:229-233 | two requeueing sweeps are at least the timeout apart in all lives iff no exception ends the first, or it comes before a turn is through, or the attempt limit rules requeues out |
| JobLife.FirstRequeueWaits | master/reaper.py:144-150 | nothing is requeued before the timeout has passed since creation |
| JobLife.SweepActsExactlyWhenDue | master/reaper.py:140-157 | a sweep changes a job or sends anything iff the job is processing, creation and last reap are both at least the timeout ago, a tile is missing, and no exception comes before the first attempt is counted |
| JobLife.FinishedStaysFinished | master/reaper.py:141-142 | over whole steps ready, completed and degraded never change and nothing is requeued |
| TileSafety.StatusTellsTheTruth | master/reaper.py:152-173 | in every run: ready or completed implies every id was stored earlier, degraded implies every id was stored or abandoned earlier |
| TileSafety.HistoryIsTrue | app/jobstore.py:251-251 | the history that the invariant speaks of was visible in Redis at some earlier point |
| TileSafety.NothingFromNowhere | worker/main.py:149-165 | in every run only dispatched tiles have tasks, and only tiles with a task have results |
| TileSafety.BlobsStayUntilSwept | app/blobstore.py:64-69 | in every run a staged blob stays until a process sweeps the job's blobs |
| TileSafety.RequeuesHaveBlobs | master/reaper.py:86-88 | in every run a tile is only requeued after its staged blob was seen |
| TileSafety.ExpectedStays | app/jobstore.py:150-180 | in every run the job hash keeps the number of tiles that the results are about |
| TileCompletion.StuckExactly | master/results_consumer.py:57-63 | in every run: a complete job is processing with no consumer left to close it iff the only one left crashed and nothing was delivered since |
| TileCompletion.LastOneOutClosesTheJob | master/results_consumer.py:57-63 | in every run without a crash between taking a result and writing the status: all tiles held and all processes idle imply that the job left processing |
| TileCompletion.CloserFinishes | app/jobstore.py:251-263 | such a consumer's own next commands take a complete job out of processing |
| TileCompletion.DeliveryRepairs | master/ml_results_consumer.py:45-56 | the next message delivered to an idle consumer closes a stuck job |
| TileFinality.FinishedStays | master/results_consumer.py:60-62 | in every run a finished status stays once no process is between its check and its write, unless a /reconstruct starts |
| TileFinality.OverwritesExactly | master/reaper.py:140-173 | in a finished job a process can change the status by its own next commands iff it is about to write another one, or sweeps a job whose missing tiles are all abandoned, or renders one with enough tiles |
| TileCounters.CountersNeverPassTiles | app/jobstore.py:251-263 | in every run, until tile state is deleted: results_count <= latencies <= distinct tiles <= expected_tiles |
| TileCounters.CounterIsBounded | app/jobstore.py:342-346 | in every run: results_count <= (deletions of the tiles key + 1) * expected_tiles |
| TileAccounting.FirstDeliveriesAddUp | app/jobstore.py:251-263 | in every run: HSETs that created a field = results_count + consumers between HSET and HINCRBY + first deliveries lost to a crash there or to a resent HSET |
| TileAccounting.CounterIsExact | app/jobstore.py:251-263 | in every run, until tile state is deleted: results_count is the number of tiles held iff nobody is in between and nothing was lost |
| TileAccounting.RenderedJobsAddUp | app/jobstore.py:342-346 | in every run with one deletion of the tiles key: results_count + in between + lost = expected_tiles + tiles held now |
| TileAccounting.RenderedJobsKeepTheirCount | app/jobstore.py:342-346 | in every such run, if no tile is held: results_count = expected_tiles iff nobody is in between and nothing was lost |
| TileAccounting.LostForGood | app/jobstore.py:251-261 | a first delivery lost to such a crash or resend is counted at no later point of the run, whatever is redelivered |
| TileAccounting.ResentStoreSkipsTheCount | app/jobstore.py:251-255 | a consumer whose HSET of a new tile is sent twice goes straight on to HLEN, and that first delivery is in latencies and results_count at no later point of the run |
| TileBounds.CounterBoundIsReached | app/jobstore.py:342-346 | for every number of tiles and of deletions a run reaches that bound |
| TileBounds.CounterLimitExactly | app/jobstore.py:257-261 | results_count <= expected_tiles in all runs with d deletions iff d = 0 |
| TileBounds.RenderedJobsExist | master/app.py:268-309 | for every number of tiles a run in which the job is rendered once and ends completed, with results_count at expected_tiles and no tile |
| TileRequeues.RequeuesAreBounded | master/reaper.py:204-227 | in every run with any overlapping, crashing and restarted reapers: requeues of a tile <= (counter deletions + 1) * (MAX_TILE_ATTEMPTS - 1) |
| TileRequeues.HistoryCountsRequeues | master/reaper.py:107-112 | the history of requeues counts exactly the executed produce steps |
| TileRequeues.EachValueIssuedOnce | app/jobstore.py:303-310 | two INCRs never return the same value of a tile's counter within one lifetime of it |
| TileBounds.RequeueBoundIsReached | app/jobstore.py:348-358 | for every MAX_TILE_ATTEMPTS from 2 on and every number of deletions a run reaches that bound |
| TileBounds.RequeueLimitExactly | app/jobstore.py:303-310 | MAX_TILE_ATTEMPTS - 1 bounds the requeues of a tile in all runs with d counter deletions iff d = 0 |
| TileConvergence.ProcessingNeverReturns | app/jobstore.py:266-269 | no step sets a job back to processing, and while it is processing no tile and no abandoned id is lost |
| TileConvergence.NothingOutstanding | master/reaper.py:148-230 | once max(MAX_TILE_ATTEMPTS, 1) sweeps have completed, a job still processing has no tile that is neither held nor abandoned, whatever its number of tiles |
| TileConvergence.NextSweepDecides | master/reaper.py:152-227 | the next sweep past the grace check, if not crashed, ends with every tile held at its read or the job out of processing; it retries nothing unless the job had left processing before it read the abandoned set |
| TileCode.ConsumerIsARun | master/ml_results_consumer.py:30-71 | the consumers' function is an uninterrupted run of the command-level system |
| TileCode.SweepIsARun | master/reaper.py:134-233 | so is the sweep of a due job with missing tiles, up to its messages and blobs; an exception in it is a crash at that command |
| TileCode.IdleSweepIsARun | master/reaper.py:148-157 | and the sweep of a processing job that is not due or misses nothing, which changes nothing |
| TileCode.ReconstructIsARun | master/app.py:260-306 | and so is a /reconstruct that finds enough tiles, from the count to the blob sweep |
| TileCode.EarlyReconstructIsARun | master/app.py:268-271 | a /reconstruct that finds too few tiles changes nothing |
| TileLateSweep.LateSweepRetriesExactly | master/reaper.py:152-227 | such a sweep retries tiles iff it reads the abandoned set after the job has left processing and finds an id outstanding against its two reads |
| TileLateSweep.LateSweepsCanRequeue | master/reaper.py:159-227 | a run in which such a sweep requeues a tile, because after its status check a /reconstruct emptied the abandoned set |
| TileAnnouncements.AnnouncementsAddUp | master/ml_results_consumer.py:55-57 | in every run: completions written = announced + lost to a crash in between + still to come |
| TileAnnouncements.AnnouncementsAreBounded | master/ml_results_consumer.py:45-57 | in every run with at most n consumers about to write the status at every point: announcements <= status writes <= n |
| TileAnnouncements.AnnouncedAtMostOnce | master/ml_results_consumer.py:45-57 | with one at a time completion is announced at most once; once when it was written, no writer crashed and none is still to announce |
| TileAnnouncements.AnnouncementBoundIsReached | master/ml_results_consumer.py:45-57 | for every n a run with at most n about to write at any point and n announcements |
| TileAnnouncements.AnnouncementLimitExactly | master/ml_results_consumer.py:45-57 | at most m announcements in all runs with at most n about to write iff n <= m |
| TileWitnesses.CompleteJobsCanStayProcessing | app/jobstore.py:251-263 | for each place between taking the last result and writing the status, a run whose crash there leaves the complete job processing with nobody at work; before the first command when a timed-out HSET had executed |
| TileWitnesses.FinishedCanBeOverwritten | master/results_consumer.py:62-63 | runs in which ready_for_reconstruction overwrites degraded, and the other way round, on a job with all its tiles |
| TileWitnesses.CompleteJobsCanLoseTheirBlobs | master/reaper.py:173-188 | a run in which the latter also deletes the blobs |
| LeaderExclusion.LeadersOverlapOnlyWithinDelay | app/leader.py:94-139 | for any replicas and any run: two is_leader() windows overlap only within the reply delay after the younger SET, on the expiry and on the release path, or, when the reply of the older one's release was lost, until its own deadline, less than the TTL after that SET |
| LeaderExclusion.ExclusiveExactlyWithoutDelay | app/leader.py:109-122 | in all runs that lose no reply of a release there are never two leaders iff the delay is 0 |
| LeaderExclusion.TwoLeadersWheneverDelayed | app/leader.py:117-123 | for every positive delay there is a run with two leaders at once and no lost reply of a release |
| LeaderExclusion.LostReleaseMakesTwoLeaders | app/leader.py:133-139 | with a lost reply of a release two leaders can overlap for any time below the TTL, whatever the delay |
| LeaderExclusion.AcquiredAtIsTrue | app/leader.py:117-119 | the SET that the bound refers to is a step of the run that found the lock free |
| LeaderHistory.LeaderExactly | app/leader.py:94-123 | in every run is_leader() is true iff a SET or a renewal was answered with success less than TTL ago and no refused renewal, end of a release, exception or crash came since |
| LeaderHistory.SendsExactly | app/leader.py:107-119 | what the loop sends is a renewal iff the replica takes itself for the holder, and a SET otherwise |
| LeaderHistory.RefusedMeansFollower | app/leader.py:112-115 | from a refused renewal to the next granted SET the replica is not leader and sends nothing but SETs |
| LeaderHistory.RepliesAreTrue | app/leader.py:68-75 | every reply to a SET or a renewal goes back to an execution that found no live key (SET) or r's own (renewal) iff it grants the lock, and left r's key for another TTL iff it does |
| LeaderHistory.OneExecutionOneReply | app/leader.py:106-141 | between two executions of a replica it got a reply or gave up, and between two replies there is an execution |
| LeaderHistory.CrashedStaysDown | app/leader.py:94-95 | a crashed replica is never leader again |
| LeaderContinuity.NeverDisplaced | app/leader.py:108-115 | a leader whose renewals execute less than the TTL apart, and that does not release, owns the live key all along, for TTL from its last renewal, and every one of those renewals succeeds |
| LeaderContinuity.Failover | app/leader.py:106-123 | once it stops, a replica that does not take itself for the holder, and whose loop executes some command at least every retry interval, attempts a SET before last renewal + TTL + retry interval, which leaves the lock live in other hands |
| LeaderContinuity.FailoverAnyway | app/leader.py:106-139 | whatever the other replica believes, three retry intervals are enough: a refused renewal, perhaps a release, a SET |
| Tiling.TileGeometries | app/imaging.py:74-103 | the nested loops compute Layout; a zero step raises |
| Tiling.ExactPartition | app/imaging.py:84-103 | a pixel is in tile k exactly when it lies in the covered rectangle and k is the position computed from its coordinates |
| Tiling.EveryPixelTiled | app/imaging.py:84-103 | every pixel of the covered rectangle is in some tile |
| Tiling.LayoutShape | app/imaging.py:91-126 | ids are positions, sides lie in [16, tile_size], tiles lie in the image, and their number is at most the product of the ceilings |
| Reconstruction.SplitImage | app/imaging.py:106-137 | for any TILE_SIZE and MAX_TILES: the tiles are the crops along the layout; which sizes are refused; never more than MAX_TILES |
| Reconstruction.Reconstruct | app/imaging.py:167-191 | each canvas pixel is that of the last pasted tile that covers it, black without one; undecodable or misfitting tiles are skipped |
| Reconstruction.LastTileWins | app/imaging.py:178-188 | each pixel is that of the last tile that decodes, fits its slice and covers the pixel, black without one; undecodable and misfitting tiles leave what earlier ones wrote |
| Reconstruction.TileByTileIsWhole | app/imaging.py:176-186 | for a per-pixel operation and a lossless codec, reconstructing processed tiles in any order with any repetition is processing the whole image on the covered rectangle |
| ImageProbe.ProbeImageDimensions | app/imaging.py:25-71 | terminates on all bytes, reads inside them only, and computes Probe |
| ImageProbe.PrefixNeverLies | master/app.py:136-139 | probing a prefix gives nothing or what the whole file gives |
| ImageProbe.JpegRoundTrip | app/imaging.py:42-63 | any marker segments, standalone markers and stray bytes followed by a frame header with Y lines of X samples give (X, Y), for the marker codes of Table B.1 of ITU-T T.81 |
| ImageProbe.ScanFindsFrameHeader | app/imaging.py:44-55 | a size is only ever read from a frame header marker in the data |
| ImageProbe.PngRoundTrip | app/imaging.py:36-40 | the size written into a PNG header is the size probed |
| ImageProbe.BmpRoundTrip | app/imaging.py:65-69 | the same for BMP, with the absolute value of a top-down height |
| Dispatch.PublishTasks | master/publisher.py:69-157 | which messages get to the topic, what failed_tasks counts, and the reply, whichever step raises and whatever the broker loses; every tile that could be staged is stored under the key in its message |
| Dispatch.FailedTasksAddUp | master/publisher.py:35-61 | failed_tasks + unreported losses = tiles whose message is not in the topic + exceptions after produce() |
| Dispatch.SentIsWhatWasPublished | master/ml_publisher.py:57-92 | the messages on the topic are exactly those that were produced and not lost |
| Dispatch.MessageKeyInjective | master/publisher.py:111-115 | for ids without ':' the message key determines job and tile |
| Dispatch.RequeueReproducesDispatch | master/reaper.py:82-112 | a requeued message equals the original in topic, key, job, tile, blob key, geometry and operation, whatever TILE_SIZE is now; the lookup never misses for a job the routes created |
| Worker.WorkerNode.ProcessTile | worker/main.py:149-214 | succeeds exactly if some attempt within the retries can; stores the result blob; counts the outcome once |
| Worker.WorkerNode.PublishResult | worker/main.py:216-272 | reports success exactly when produce() did not raise, flush() left nothing queued and the callback saw no error |
| Worker.WorkerNode.SendToDlq | worker/main.py:274-315 | the DLQ record carries the task, its own attempt number, 1 for an original dispatch, worker, reason and time; success is reported whenever nothing raises, also when the record never arrives |
| Worker.AttemptsOnTheWay | worker/main.py:287-295 | a DLQ record shows attempt 1 for an original dispatch and the reaper's number for a requeued one |
| Worker.WorkerNode.Handle | worker/main.py:384-427 | the commit comes once and last; before it a result or a DLQ record is left, and neither only if the DLQ record did not get out either |
| Worker.WorkerNode.HandleMessage | worker/main.py:384-427 | the same for any message; one that is not JSON is committed and leaves nothing else |
| JobPipeline.ReconstructJob | master/app.py:258-317 | which reply, which image, and which state is left, error replies leaving everything as it was; blobs of other jobs stay with their bytes |
| JobPipeline.AscendingIsSorted | master/app.py:286-286 | the tile list is in ascending order of ids |
| JobPipeline.WorkerResult | worker/main.py:173-175 | handling any message of a staged tile stores that tile's result under its own key |
| JobPipeline.RequeuesAnswerAlike | worker/main.py:178-190 | the result of a requeued message equals that of the original |
| JobPipeline.TasksArePublished | master/reaper.py:82-112 | the tasks that the workers handle are the original dispatch and what the reaper produces for the tile |
| JobPipeline.UploadToImage | master/app.py:275-298 | any stream of results that has every tile makes the job ready, and what /reconstruct renders from it is the operation applied to the whole image on the covered rectangle |
| JobPipeline.PublishingStages | master/publisher.py:64-66 | a publishing loop in which no staging failed leaves every tile staged where its message says |
| JobPipeline.AnswersAreStored | worker/main.py:173-190 | however the job's tasks are handled, no tile is unstaged, and every answer that reaches the broker has the right result in the store |
| JobPipeline.OtherSweepsAreElsewhere | app/blobstore.py:69-69 | sweeping another job's blobs is covered by what may happen elsewhere meanwhile |
| JobPipeline.WorkersToImage | master/app.py:275-298 | from staged tiles through any handling by workers, with any failures and repetitions, to the same image, with nothing assumed about the results |
| InferenceQueue.QueueIsBounded | inference/main.py:83-176 | in every interleaving the queue keeps within the bound, poll() returns nothing while paused, and paused means every assigned partition is paused unless a resume() failed |
| InferenceQueue.BoundIsExact | inference/main.py:166-176 | every configuration reaches the bound; INFERENCE_MAX_QUEUE bounds all runs iff the resume mark is below it or negative |
| InferenceQueue.BatchesAreFifo | inference/main.py:207-230 | batches, current batch and queue are in this order exactly the arrivals; batches have 1 to INFERENCE_BATCH_SIZE items; commits follow flushed results |
| InferenceQueue.CommitsExactly | inference/main.py:127-146 | in every run the tasks of fully flushed batches are handed to the poller in order, each commit is tried once, and of the JSON messages exactly those whose commit did not raise are committed |
| InferenceQueue.BatchIsARun | inference/main.py:181-230 | taking k tasks, processing them and handing them over is an uninterrupted run of the machine |
| InferenceQueue.TurnIsARun | inference/main.py:83-107 | one turn of poll_loop, with or without a raising pause() or resume(), is an uninterrupted run of that machine |
| InferenceQueue.InferenceWorker.DrainCommits | inference/main.py:127-146 | every queued commit is tried once, in order |
| InferenceQueue.InferenceWorker.ApplyBackpressure | inference/main.py:166-176 | pauses or resumes all assigned partitions at the two marks, and only there; if the call raises the flag stays |
| InferenceQueue.InferenceWorker.OnAssign | inference/main.py:148-164 | a paused worker pauses what it is newly assigned |
| InferenceQueue.InferenceWorker.PollOnce | inference/main.py:83-107 | the state after one turn of the poller, rebalances included |
| InferenceQueue.InferenceWorker.CollectBatch | inference/main.py:207-230 | the batch is a prefix of what was queued; its first task sets the deadline, every later get() comes before it and finds a task except perhaps the last; it is cut short only by an empty queue or the deadline |
| InferenceBatch.DetectionEngine.InferBatch | inference/engine.py:151-181 | batched or per tile, each image gets the detections it gets alone |
| InferenceBatch.ClassificationEngine.InferBatch | inference/engine.py:238-262 | every crop gets its own label, empty crops get 'unknown' |
| InferenceBatch.InferenceWorker.DetectAll | inference/main.py:245-250 | detections are scattered back to the tiles that decoded |
| InferenceBatch.InferenceWorker.LabelDetections | inference/main.py:255-269 | each classification lands on its own detection |
| InferenceBatch.InferenceWorker.ProcessBatch | inference/main.py:232-356 | publishes, in order, what each tile alone would publish, nothing for tiles that fail to decode, up to an exception if there is one, and hands messages over for committing only without one and if nothing is still queued |
| InferenceBatch.ResultsHold | inference/main.py:255-317 | exactly the decodable tasks have a result, in order, each with its task's job, tile, x, y, width and height and the detections found in its image, in order, class, box and confidence unchanged, with the label of the crop |
| InferenceBatch.BatchingIsInvisible | inference/main.py:237-330 | how arrivals are cut into batches does not show in the results, only which of them had their turn |
| InferenceBatch.ResultsFollowArrivals | inference/main.py:181-205 | in every run of poller and batcher the results so far are those of the oldest arrivals, run one by one in order, less those whose batch an exception ended before their turn |
| InferenceBatch.CropIsTheVisibleBox | inference/main.py:259-262 | for every image and box: the crop holds exactly the pixels of the image inside the box iff a side wraps around only where the other side's crop is empty |
| InferenceBatch.TruncTowardsZero | inference/main.py:259-259 | int() of a box side drops the fraction, towards 0 |
| InferenceBatch.CropPixels | inference/main.py:259-262 | the crop's pixels are exactly the image's in the columns and rows of the slice |
| RateLimit.RateLimiter.Admit | master/rate_limit.py:69-92 | the decision and the new table |
| RateLimit.RateLimiter.SweepStaleIps | master/rate_limit.py:45-54 | keeps exactly the IPs with a request in the window |
| RateLimit.DecisionsMatchFullHistory | master/rate_limit.py:76-84 | every decision equals that of a limiter that keeps the whole accepted history |
| RateLimit.NeverMoreThanTheLimit | master/rate_limit.py:76-84 | accepted requests of one IP within less than RATE_WINDOW number at most RATE_LIMIT |
| RateLimit.SweepIsInvisible | master/rate_limit.py:45-54 | the sweep changes no later window and so no later decision |
| RateLimit.SweepLeavesLiveIps | master/rate_limit.py:51-54 | right after a sweep exactly the live IPs are left |
| RateLimit.TableStaysSmall | master/rate_limit.py:86-88 | the table never exceeds the size at the last sweep plus the requests accepted since |
| RateLimit.TableTracks | master/rate_limit.py:77-84 | stored lists are at most RATE_LIMIT long and are what the sorted history keeps after expired times |
| RateLimit.OutOfOrderTimesBreakTheLimit | master/rate_limit.py:74-76 | for every inversion up to the window, requests with one inversion of that size get one more than the limit accepted |
| RateLimit.LimitNeedsLockOrder | master/rate_limit.py:74-84 | the limit holds in all runs whose inversions are at most delta iff delta = 0 |

## Left out

- Retry.Execute: a ConnectionError is taken to mean that the command was not applied, as the source's comment does; redis-py's own retry_on_timeout below it is not modelled.
- InferenceQueue.QueueIsBounded: pause() inside on_assign is taken to succeed; if it raises there, the new partitions stay resumed while the worker believes it is paused.
- TileProtocol.ReaperLoop: the grace period is a free choice there, so the results about it hold for every timing; timing itself is in JobLife.
- JobPipeline.ReconstructJob: writing the image file, its path and the completion metric are left out.
- JobPipeline.UploadToImage: JPEG loses information and most OpenCV operations look at neighbouring pixels; the result is about per-pixel operations and a lossless codec.
- LeaderExclusion.LeadersOverlapOnlyWithinDelay: a command is taken to execute before the client gives up on it, never afterwards, and clocks run at equal rate; how long the client waits for a lost reply is left open.
- InferenceBatch.DetectionEngine.InferBatch: letterboxing, NMS, box arithmetic in floats and the networks themselves are functions of one image; that a session treats a stack pointwise is assumed.
- InferenceBatch.InferenceWorker.ProcessBatch: per-batch timings, worker ids and the metrics are not part of a result here; the second produce() after a BufferError is the same as the first.
- Dispatch.PublishTasks: the pool's threads are left out, tiles are taken in the order in which their staging completes; so is a flush() that raises in the handler of a full queue, which ends the loop, and HINCRBYs of failed_tasks that themselves fail.
- Reaper.RepublishTile: the time stamp in the message, which nothing reads; a produce() that raises is the `Cut` of its caller, and a poll() that raises after it, with the message sent but not counted in tiles_requeued_total, is left out.
- Reaper.SweepJob: exceptions before the loop over the tiles that leave the job as it was, and on the way to `degraded`, are left out there; in TileProtocol they are crashes.
- Consumers.ListenForResults: a partition is taken to be read in offset order from its committed position on, and asynchronous commits to arrive in order; an exception in the ML completion branch between the status and the blob sweep is in TileAnnouncements.
- Key expiry: the 24-hour TTLs and every EXPIRE command.
- JSON and the conversion of ids and numbers to strings and back, except the tile ids in blob keys.
- JPEG fill bytes before a marker, which the parser does not handle.
- Admin routes, heartbeats, the DLQ's depth, dashboards, all metrics except the two that count finished jobs and requeued tiles, and logging.
- The routes' checks of file type and image size, and Flask's request handling.
- Signals, shutdown paths other than the end of batch collection, and process start-up.
