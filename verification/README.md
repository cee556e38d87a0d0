# Flowix, verified

A Dafny model of the parts of Flowix, a video hosting service, whose correctness is a
matter of protocol, arithmetic or structure rather than of plumbing: the path of a video
from upload through transcoding to publication, the gateway's admission decisions, the
two resumable upload protocols, token rotation, and the merged API document.

`dafny verify dfyconfig.toml` checks everything.

## How the project is laid out

| files | what they model |
|---|---|
| `VideoTable`, `Ladder`, `Keyframes` | the metadata tables and their transaction, the adaptive ladder, frame rate and keyframe arithmetic |
| `Pipeline` | uploads, queues, consumer sessions, status requests, deletes and the reconciler's writes as one transition system |
| `PipelineStore`, `PipelineMessages`, `PipelineTermination` | what every run of that system keeps about tables and bucket and about messages, and how often it can move a message |
| `PipelineLoss`, `PipelineReplay` | when a ready video is lost, over every run; what replays of its event do |
| `Consumer` | `handle_message` and `process_message` statement by statement, each statement a step of the system, others free to act in between |
| `MetadataHandler` | the VOD mapping and the owner's delete |
| `MetaCache`, `MetaCacheHeap`, `HlsStaleness` | the gateway's LRU as a value, as a map plus a doubly linked list, and with concurrent fetches in time |
| `Multipart`, `MultipartUpload` | part arithmetic and reassembly; browser and upload service against each other |
| `ContentRange`, `Resumable` | the header grammar and the append protocol in 64-bit arithmetic |
| `RateLimit`, `TokenRotation` | the fixed-window limiter; register, login and refresh as steps over the token store |
| `HostPort`, `ClientAddress` | host and port splitting; which address a request comes from |
| `OpenApi`, `OpenApiContent`, `OpenApiHeap` | merging three documents and rewriting their references, on trees, and what then stands at which key; the rewriting in place on map objects, shared ones included |
| `OpenApiParts`, `OpenApiMerge`, `OpenApiServed`, `OpenApiDecode` | the merging in place: parts that share no map, one document poured in by reference, and the handler from decoded documents to the served one; decoding itself, for any documents |
| `Topology`, `Reconciler` | queue declarations and routing; clearing stale rows |

Objects that the code updates in place are classes whose methods are proved against
functions of their contents; the laws are lemmas about those functions and about runs.

## What the model assumes

- Atomic are: one metadata transaction (row lock included), one object-store call, one
  broker-side effect of an AMQP frame, one Redis command or script.
- A session's publish and ack travel one channel in order. The topology is stable.
- A status request is in flight from the moment it is sent: it may commit after its sender
  timed out, or never. The same holds for Redis commands.
- The raw key of an event is always `raw/{id}/original.mp4`; every publisher in the
  repository uses that key.
- A uuid4 is fresh, a signed token cannot be made up, and a browser continues an upload
  session only with the file that opened it (name, size and modification time identify it).
- The limiter's gateways and Redis share one clock.

## Where the code and its promises differ

The model follows the code; each difference is stated by the member named with it.

- `ready` is not final. Over every run a ready row becomes `failed` exactly when a `failed`
  update commits that was sent by the reconciler, or by a handler one of whose calls failed where
  no retry was left: its republish or second ack raised, or, on the last attempt, its ack, a step
  of its work or its ready update (`PipelineLoss.ReadyIsLostExactly`). The ready update is the
  surprising one: its reply may be lost after it committed, so every AMQP call may be answered and
  the handler still overwrites `ready` (`PipelineLoss.LostReplyOverwritesReady`).
- A ready video is safe from replays otherwise: redeliveries, retries and progress updates that
  commit late change nothing, from a state in which no delivery still works on it, no other
  ready update and no failure of it is pending, its status reads are answered, and its owner does
  not delete it (`PipelineReplay.ReplayIsANoOp`).
- A resolved client address is stable under rewriting exactly when the peer address splits as
  host:port or has no bracket (`ClientAddress.ResolutionIsStable`); `[::1]` without a port is the
  exception (`ClientAddress.BareBracketedPeer`). Go's net/http always supplies host:port, so it
  takes another server or a test to meet it. The comment at clientip.go:104 says the left hop is
  taken when all are trusted; the code takes the rightmost valid one (`ClientAddress.HopTaken`).
- The byte limit of resumable uploads is kept by every run exactly when it is below 2^62:
  above, the size check wraps around (`Resumable.LimitKeptExactly`). The comment at
  resumable.go:79 lists `bytes */total`; the regular expression refuses it.
- The limiter is exact for a bucket exactly when no more than burst requests hit it or no script
  runs later than a window after its first (`RateLimit.BucketAdmitsExactly`); a script held up
  longer lets more pass (`RateLimit.LateScriptPassesOneMore`).
- A multipart upload that throws may have queued its event all the same: when publishing erred
  after a copy was taken, or when the reply to complete was lost (`MultipartUpload.UploadVideo`).
- A visibility change shows within the promised 15 s as long as a goroutine waits at most 2 s
  between reading an answer and storing it, and not otherwise (`HlsStaleness.DeployedWindow`).
- The query for a video's renditions may fail unnoticed: a ready video then answers 404, or with
  part of its ladder (`MetadataHandler.GetVodMapping`).
- References of the merged document all resolve exactly when no old-form reference is
  hidden below a `$ref` key that holds no string, where rewriteRefs does not go
  (`OpenApi.MergedReferencesResolve`, `OpenApi.HiddenReferenceStaysBroken`).
- A refresh whose reply is lost after it took effect leaves a correct client without a valid
  token (`TokenRotation.LostReplyLocksOut`).
- The reconciler reads every stat error as absence, so it fails a finished upload exactly
  when the stat errs (`Reconciler.Reconciler.Reconcile`); asking it for more than 500 rows gets
  100 (`Reconciler.EffectiveLimit`).
- The transcoder goes on when binding its dead-letter queue errs; rejected events are then
  dropped until some service declares the binding (`Topology.DeclareAll`).
- The client reads `part_number` where the service writes `PartNumber`, and an empty part
  list arrives as `null` and makes the client start over. Neither touches the result:
  `MultipartUpload.UploadVideo` holds for any subset of the stored parts the client may see.

## Model

| member | source | states |
|---|---|---|
| VideoTable.RenditionsOverAnyHistory | services/metadata/internal/repository/video.go:191-209 | over any history of status updates a quality has one row, its value is the last one the ready guard let through, and qualities never disappear while the row lives |
| VideoTable.HistoryOfARow | services/metadata/internal/repository/video.go:184-210 | after any history the status is the last one not suppressed, the renditions are the upsert of all entries let through, and no other video moves |
| VideoTable.UpdateTouchesOneVideo | services/metadata/internal/repository/video.go:195-209 | one update changes only its video, keeps every quality, and is void exactly when a ready video would go back to processing or uploaded |
| VideoTable.VideoRepo.UpdateStatus | services/metadata/internal/repository/video.go:184-210 | success means exactly the update was committed, an error before COMMIT leaves everything, and an error at COMMIT leaves the old table or exactly the update |
| VideoTable.VideoRepo.DeleteVideo | services/metadata/internal/repository/video.go:143-153 | only the owner's call on an existing row deletes; then row and renditions are gone, those that status updates wrote between the lookup and the DELETE included, and every other video is as before; in the other cases, a database error among them, nothing is deleted |
| Ladder.LadderShapes | services/transcoder/app/consumer.py:162-198 | every probe gives one of three ladders, 720p first, every entry with its rung's size and bitrate; a height of 100..5000 gets exactly the rungs at or below it, and 360p in any case, any other probe all three |
| Keyframes.FpsInRange | services/transcoder/app/consumer.py:131-159 | for every list of rates n/d the frame rate is an integer in 1..30, the nearest one (the even one of two) to the first n/d in 1..120 up to 30, and 30 when there is none |
| Keyframes.ProbeFpsInRange | services/transcoder/app/consumer.py:144-159 | the same for every probe; one without a video stream gives 30 |
| Keyframes.KeyframesEveryTwoSeconds | services/transcoder/app/consumer.py:322-331 | over unboundedly many frames the forced frames and the keyframes are exactly the multiples of 2*fps, two seconds apart |
| Keyframes.RungsShareCutPoints | services/transcoder/app/consumer.py:298-331 | any two rungs of a job's ladder, whatever their heights and bitrates, can be cut before the same frames and at the same times, every two seconds, and none is scaled up from 360 lines or more |
| PipelineStore.ReachableInv | services/transcoder/app/consumer.py:471-628 | every reachable state satisfies the invariant over tables, bucket, requests in flight, deletes and sessions |
| PipelineStore.RenditionRowsAreBacked | services/transcoder/app/consumer.py:569-582 | in every interleaving each rendition row belongs to a live video, carries its own rung's values and names an object in the bucket |
| PipelineStore.ReadyCoversItsLadder | services/transcoder/app/consumer.py:563-614 | once ready was committed the table holds every rung of that attempt for as long as the row lives, whatever statuses followed |
| PipelineStore.ReportsTakeEffect | services/transcoder/app/consumer.py:569-614 | between two rungs the update names every rung uploaded so far, at the end the whole ladder, and once it commits on a row that is not ready the table shows them and the status |
| PipelineStore.RawKeptUntilReady | services/transcoder/app/consumer.py:614-628 | over every run a raw object is there until its video was committed ready or deleted by its owner |
| PipelineStore.RawLeavesAfterReady | services/transcoder/app/consumer.py:614-628 | the one step that removes a raw object is taken after ready, or by a delete whose row is gone |
| PipelineMessages.EventsAreConserved | services/transcoder/app/consumer.py:722-778 | each published event is in main, held by a live session, in retry or dead-lettered, or was returned for; a returned well-formed event's video had been ready or failed |
| PipelineMessages.RetryCountsInRange | services/transcoder/app/consumer.py:737-779 | counts are 1..3 in the retry queue; a dead letter has count 3 or its republish or ack raised |
| PipelineMessages.TakenCalls | services/transcoder/app/consumer.py:734-778 | a taken ack takes the message away, a nack dead-letters it, a republish leaves it and adds the retry copy with the count raised by one; no other message changes but for what a lost connection puts back |
| PipelineTermination.DeliveriesAreBounded | services/transcoder/app/consumer.py:713-779 | without connection loss every event is delivered at most four times, counted over the steps of the run |
| PipelineTermination.StepDecreases | services/transcoder/app/consumer.py:737-779 | every deliver, fail, return and dead-letter step lowers a measure over all live messages, and only a publish raises it |
| PipelineTermination.RetriesTerminate | services/transcoder/app/consumer.py:713-779 | n published events cause at most 18 n message steps, however long the run |
| PipelineLoss.ReadyIsLostExactly | services/transcoder/app/consumer.py:734-779 | over every run of the whole system from the empty state: a step takes a ready row to failed exactly if it is the commit of a failure sent before, by the reconciler or by a handler after a call of the same delivery failed where no retry was left; it takes the row away exactly as its owner's delete; else the row stays ready. Every such call makes that failure due until it is sent or the process dies |
| PipelineLoss.DoomedMayFail | services/transcoder/app/consumer.py:737-779 | and each such call is enough: from any state with the video ready, two steps after it the video is failed |
| PipelineLoss.LostReplyOverwritesReady | services/transcoder/app/consumer.py:614-621 | a run from the empty state, every AMQP call in it answered, in which three attempts fail, the fourth commits ready and loses the reply, and the video ends as failed |
| PipelineLoss.ReadyIsNotFinal | services/metadata/internal/repository/video.go:194-197 | a run from the empty state in which a video is ready on its first attempt and ends as failed |
| PipelineLoss.ReturnedDeliveryMayFail | services/transcoder/app/consumer.py:734-779 | from every state with a returned delivery of a ready video such a continuation exists |
| PipelineReplay.ReplayIsANoOp | services/metadata/internal/repository/video.go:194-197 | over every interleaving of redeliveries, retries, retry copies and late progress updates of a ready video in which no call fails where no retry is left, its status, rows and objects stay as they are and nothing of it is dead-lettered; its raw input goes only when a delivery that saw ready confirmed cleans it up |
| PipelineReplay.QuietIsReached | services/transcoder/app/consumer.py:614 | that law applies from the commit of ready on: for each number of retries such a state is reached from the empty one, the reply still out and a progress update still pending |
| PipelineReplay.FilesStay | services/transcoder/app/consumer.py:482-490 | failing calls included, rows and objects of a ready video stay until a failure of it commits, and for good when no progress update was pending |
| PipelineReplay.ReplaySettles | services/transcoder/app/consumer.py:706-779 | each such delivery takes at most four steps, five from its own ready update on, one of them is always possible, and the last one acknowledges the message or leaves it as it is |
| Consumer.HandleMessage | services/transcoder/app/consumer.py:706-779 | a handling is a run of the system whatever the others do; it acknowledges, leaves, requeues or rejects exactly as process_message came out, the heartbeat stopped, the count stood and the calls answered, by exactly the calls the code makes |
| Consumer.ProcessMessage | services/transcoder/app/consumer.py:471-628 | a malformed body and a video the status read shows ready or failed return in one step; any other starts the work, which raises exactly when the fetch, a rung, the wrap-up or the ready reply fails, and by exactly the steps the code takes until then |
| Consumer.ReadFirst | services/transcoder/app/consumer.py:482-490 | a delivery is skipped exactly when the status read answers and the video is ready or failed at that moment |
| Consumer.SkippedIsHarmless | services/transcoder/app/consumer.py:482-490 | then process_message returns, and no step of its own changes a table, an object or a message or sends a request, whatever the others do |
| Consumer.EncodeAll | services/transcoder/app/consumer.py:565-582 | the loop uploads and reports rung by rung, stops at the first that fails, and otherwise announces exactly the whole ladder |
| MetadataHandler.GetVodMapping | services/metadata/internal/handler/video.go:235-283 | 500 exactly when the lookup errs, 404 exactly when there is no row, it is not ready or no rendition was delivered, 502 exactly when a presign fails, else one clip per delivered row in ascending bitrate, with the row's key and the query that key was presigned with, or none without a presigner |
| MetadataHandler.SortByBitrate | services/metadata/internal/handler/video.go:252-253 | the copied rows end as an ascending permutation |
| MetadataHandler.ReadyMappingIsTheLadder | services/metadata/internal/handler/video.go:247-281 | with the status read in one reachable state and the rows in any later one: whatever rows arrive, in whatever order, the mapping is rungs in strictly ascending bitrate that each name a stored object; if all arrive it is 360p, 720p, 1080p as far as present, the whole ladder that went ready among them, and empty exactly when the video was deleted meanwhile |
| MetadataHandler.ReadyClipsAreServable | services/metadata/internal/handler/video.go:253-281 | and so the clips: each names a stored object of the video with its own presigned query, in strictly ascending bitrate, and with all rows read every rung of the ladder that went ready has one |
| MetadataHandler.MetadataService.Delete | services/metadata/internal/handler/video.go:368-411 | answers 204, 403, 404, 500 exactly as owner, row and database say, whatever others store and report between the lookup and the DELETE; the row goes first, then exactly the video's objects the store lets go, and no row ever names a missing object meanwhile |
| MetaCache.StaysSmallAndDistinct | services/gateway/internal/middleware/hlsauth.go:196-236 | both operations keep keys distinct and the size within max |
| MetaCache.RecentKeyIsAHit | services/gateway/internal/middleware/hlsauth.go:196-236 | a key just used or stored, followed by operations on fewer than max other keys, is a hit with its last value up to the instant it expires |
| MetaCache.HitIsTheLastPut | services/gateway/internal/middleware/hlsauth.go:196-236 | after any operations a hit is the value last put for its key, unexpired |
| MetaCache.EvictedAfterMaxOthers | services/gateway/internal/middleware/hlsauth.go:227-235 | the bound is tight: max puts of other keys push it out |
| MetaCacheHeap.Cache.Get | services/gateway/internal/middleware/hlsauth.go:196-212 | the locked section on map and list does exactly MetaCache.Get |
| MetaCacheHeap.Cache.Put | services/gateway/internal/middleware/hlsauth.go:214-236 | the locked section on map and list does exactly MetaCache.Put with the lifetime of its kind |
| MetaCacheHeap.List.Remove | services/gateway/internal/middleware/hlsauth.go:205-206 | unlinking closes the gap and keeps every other element in place |
| HlsStaleness.DecisionsAreFresh | services/gateway/internal/middleware/hlsauth.go:243-259 | with any number of concurrent misses every decision uses an answer metadata gave at most ttl + timeout + slack before, and the truth if it did not change meanwhile |
| HlsStaleness.OnlyAnswersAreHeld | services/gateway/internal/middleware/hlsauth.go:252-257 | held entries are answers, 404s or 403s, never other errors, and at most max |
| HlsStaleness.WindowIsExact | services/gateway/internal/middleware/hlsauth.go:243-259 | metadata is never used longer than a given time after it was given, over every run, exactly when ttl + timeout + slack is at most that time |
| HlsStaleness.DeployedWindow | services/gateway/internal/middleware/hlsauth.go:110-137 | as deployed, a change shows within 15 s exactly when a goroutine never waits longer than 2 s to store what it read; a 404 is used 8 s and that wait at most |
| HlsStaleness.PrivateVideoClosesWithinTheWindow | services/gateway/internal/middleware/hlsauth.go:261-313 | a video private for longer than the window is served to its owner and nobody else |
| HlsStaleness.VerdictsSettleWithinTheWindow | services/gateway/internal/middleware/hlsauth.go:267-313 | over every run, what a video has been for longer than the window decides: public and unlisted it is served to everybody, private to its owner alone, a 404 is passed on, any other refusal is a 502 |
| HlsStaleness.VerdictsExactly | services/gateway/internal/middleware/hlsauth.go:267-313 | which answers give which verdict: 502 exactly without an answer or for a refusal other than 404, forbidden exactly for a private video whose owner neither subject is |
| HlsStaleness.HlsAuth | services/gateway/internal/middleware/hlsauth.go:260-313 | the handler over the cache object gives that verdict on what getMeta answers |
| HlsStaleness.StoredAnswersAreReused | services/gateway/internal/middleware/hlsauth.go:243-259 | metadata just stored is a hit for ttl, a 404 or 403 for negTtl and no longer; other refusals are not stored |
| HlsStaleness.GetMeta | services/gateway/internal/middleware/hlsauth.go:243-259 | the read-through does to the cache object, and answers, what its specification says on hit, answer, refusal and failure |
| Multipart.PartsRebuildTheFile | frontend/src/lib/api.ts:300-307 | a session holding every part holds exactly 1..N with N = max(1, ceil(size / chunk)), all but the last full, and joins to the file byte for byte |
| Multipart.PartShapes | frontend/src/lib/api.ts:300-302 | every part is at most a chunk, all but the last exactly one, and empty only for an empty file |
| Multipart.SizesAddUp | frontend/src/lib/api.ts:301-306 | the part sizes add up to the file size |
| MultipartUpload.UploadVideo | frontend/src/lib/api.ts:263-341 | from any session state, with failed, late and foreign PUTs, aborts, resumes and lost replies: a video whose complete got as far as publishing has the file as its object; the client returns exactly when that call answered and its reply arrived; a throw leaves nothing queued exactly when complete did not get there or no copy got through, and leaves the session remembered unless none was had; it does return when the services hold up, the file is not empty and has at most 10000 parts |
| MultipartUpload.OpenSession | frontend/src/lib/api.ts:271-299 | the remembered session is continued if it shows parts, otherwise a new one is opened and remembered; what is believed stored is |
| MultipartUpload.SendParts | frontend/src/lib/api.ts:303-336 | when the loop gets through every part is stored, the bytes counted are the file's, and there are at most 10000 parts |
| MultipartUpload.SendPart | frontend/src/lib/api.ts:315-333 | at most three PUTs, stopping at the first stored or aborted one |
| MultipartUpload.ListParts | services/upload/internal/storage/minio.go:233-250 | the pages together list, ascending, at least what was stored at the start and only what is stored at the end, and the loop ends |
| MultipartUpload.FindUploadId | services/upload/internal/storage/minio.go:199-220 | none exactly when no listed upload has the key, else the latest, the first listed among equals |
| MultipartUpload.Complete | services/upload/internal/handler/multipart.go:235-289 | the event's copies are queued exactly when it got as far as publishing, 200 exactly when that also answered; if every part was stored the object is the file then, and it gets there when services hold up and the file is not empty |
| ContentRange.ParseIsTheGrammar | services/upload/internal/handler/resumable.go:79-94 | exactly the headers in the regular expression's language are accepted, and each is read as the numbers its parts spell, too large ones as the largest |
| ContentRange.RoundTrip | services/upload/internal/handler/resumable.go:81-94 | a range of 64-bit numbers survives being written and read |
| ContentRange.HeadersOfTheRfc | services/upload/internal/handler/resumable.go:79-94 | the examples of section 14.4 of RFC 9110 are read as meant, white space around them included |
| Resumable.ResumableHandler.Upload | services/upload/internal/handler/resumable.go:105-232 | without a header the whole body becomes the object exactly when it was read, fits and its write took effect; with a range the whole body goes behind what is stored, or is all there is when the stat gave 0; the code, 200, 308, 400, 413, 416 or 500, and the offset to go on from follow exactly |
| Resumable.StoredIsAPrefix | services/upload/internal/handler/resumable.go:148-214 | requests carrying their named ranges of one file, in any order, repeated, with any failures, keep the stored object a prefix of the file |
| Resumable.HealthyStatsNeverShrink | services/upload/internal/handler/resumable.go:161-214 | while stats answer a ranged request never shortens the object, and adds its whole body or nothing |
| Resumable.LimitKeptExactly | services/upload/internal/handler/resumable.go:116-122 | the byte limit is kept by every run exactly when it is below 2^62 |
| Resumable.FollowTheOffset | services/upload/internal/handler/resumable.go:215-232 | a client that goes on from the offset each answer or status gives, through failing reads, gets and writes, never shrinks what is stored and has stored the whole file once ceil(remaining / step) requests landed; only its last request can be answered 200, only with the file stored, and it is when the write that completed the file was confirmed |
| Resumable.ChunkIsTaken | services/upload/internal/handler/resumable.go:148-232 | a chunk sent from the true offset is stored whole or not at all, is stored when it lands, and completes exactly when it is the last |
| RateLimit.Redis.Eval | services/gateway/internal/middleware/ratelimit.go:18-27 | the script counts, sets the expiry on the first hit only, and allows exactly below the limit |
| RateLimit.Limiter.Admit | services/gateway/internal/middleware/ratelimit.go:63-90 | health checks and Redis failures pass and count nothing; otherwise the script decides on the bucket of the address |
| RateLimit.BucketAdmitsExactly | services/gateway/internal/middleware/ratelimit.go:18-27 | of n requests of one address in one window exactly min(n, burst) pass, if and only if there are no more than burst or none of their scripts runs later than a window after the first; otherwise more than burst pass |
| RateLimit.UndelayedIsPrompt | services/gateway/internal/middleware/ratelimit.go:75-79 | scripts that run when the gateway read its clock meet that condition: the counter outlives its bucket |
| RateLimit.IntervalBound | services/gateway/internal/middleware/ratelimit.go:47-79 | any interval of length L lets at most burst * (L/window + 2) requests of one address through, over all instances, when that address's scripts meet the condition, whatever happens to others |
| RateLimit.BurstBelowTwiceTheRate | services/gateway/internal/middleware/ratelimit.go:41-50 | for every rps and burst, 20 and 40 by default, the window is the larger of one second and the whole seconds in burst/rps, and lets through less than twice the sustained rate |
| RateLimit.KeysAreDistinct | services/gateway/internal/middleware/ratelimit.go:77 | key texts are equal only for equal address and window, colons in addresses included |
| RateLimit.LateScriptPassesOneMore | services/gateway/internal/middleware/ratelimit.go:18-27 | for every configuration a script held up past the expiry lets burst + 1 requests of one window pass |
| TokenRotation.RedeemedAtMostOnce | services/auth/src/core/tokenstore.py:9-16 | over every interleaving each jti is redeemed at most once, and of refreshes with one token at most one is granted |
| TokenRotation.RotationRedeemsTheLatest | services/auth/src/core/tokenstore.py:9-33 | a rotation succeeds exactly on the jti most recently stored for its user, and takes its place |
| TokenRotation.OldTokensStayDead | services/auth/src/core/tokenstore.py:25-33 | a jti replaced by rotation, login or expiry is never redeemed by any later run |
| TokenRotation.EmailsAreUnique | services/auth/src/routers/auth.py:68-78 | however registrations race, no two accounts share an email |
| TokenRotation.ActiveTokenIsHeld | services/auth/src/routers/auth.py:154-164 | over every run a user has an active token exactly when one was stored and has not expired since, it is the last one stored, and somebody holds it exactly when the reply of the command that stored it arrived |
| TokenRotation.LostReplyLocksOut | services/auth/src/routers/auth.py:154-161 | a refresh whose reply is lost leaves the old token dead and the new one with nobody |
| TokenRotation.AuthService.RefreshToken | services/auth/src/routers/auth.py:130-164 | 200, 401 and 503 exactly as token, rotation and store say; 200 means the presented jti was redeemed |
| TokenRotation.AuthService.Register | services/auth/src/routers/auth.py:62-88 | 201 with account and token, 409 whenever the email was taken before and only when it is taken by then, 503 when the store did not answer |
| TokenRotation.AuthService.LogIn | services/auth/src/routers/auth.py:91-109 | 401 exactly when no account with that email verifies, and then nothing moved; else 200 exactly when that account's token was handed out and 503 when the store did not answer |
| TokenRotation.TokenStore.CompareAndSet | services/auth/src/core/tokenstore.py:9-16 | the script swaps exactly on equality |
| TokenRotation.TokenStore.Follow | services/auth/src/core/tokenstore.py:25-33 | run on the store's keys, SET and script do to them, and answer, what the step system says |
| HostPort.JoinThenSplit | services/gateway/internal/middleware/clientip.go:68-72 | splitting undoes joining exactly for hosts without brackets |
| HostPort.JoinedText | services/gateway/internal/middleware/clientip.go:72 | only a host with a colon is put in brackets |
| HostPort.SplitShapes | services/gateway/internal/middleware/clientip.go:81-87 | what is split off has no brackets and was written host:port or [host]:port |
| ClientAddress.ResolutionIsStable | services/gateway/internal/middleware/clientip.go:45-78 | resolving a rewritten request gives the address it was rewritten to, so limiter key and X-Real-IP agree, exactly when the peer address is host:port or has no bracket; the port is kept |
| ClientAddress.BareBracketedPeer | services/gateway/internal/middleware/clientip.go:65-87 | the peer "[::1]" is not: it resolves to itself and, rewritten, to "[[::1]]:0" |
| ClientAddress.ClientIpExactly | services/gateway/internal/middleware/clientip.go:45-121 | over all peers, headers and networks: a stranger's own address; behind a trusted peer the rightmost literal of X-Forwarded-For outside the networks, failing that the rightmost literal, failing that X-Real-IP if it is a literal, failing that the peer |
| ClientAddress.HopTaken | services/gateway/internal/middleware/clientip.go:105-121 | the rightmost untrusted hop, failing that the rightmost valid one, failing that none |
| ClientAddress.PrependingChangesNothing | services/gateway/internal/middleware/clientip.go:105-121 | with an untrusted hop in X-Forwarded-For nothing put in front changes the result |
| ClientAddress.PrependingDecides | services/gateway/internal/middleware/clientip.go:105-121 | without one, behind a trusted peer, a prepended untrusted literal is taken |
| ClientAddress.UntrustedPeerIsTakenAsIs | services/gateway/internal/middleware/clientip.go:45-78 | whatever headers an untrusted peer sends, everything downstream sees its own address, in X-Real-IP and when the rewritten request is resolved again |
| ClientAddress.RightmostUntrusted | services/gateway/internal/middleware/clientip.go:105-121 | the loop takes the hop its specification takes |
| ClientAddress.HttpRequest.RealIp | services/gateway/internal/middleware/clientip.go:65-78 | peer address and X-Real-IP become the resolved address, the port is kept |
| OpenApiHeap.RewriteRefs | services/gateway/internal/handler/docs.go:262-279 | in place, over possibly shared maps and with keys in any order, exactly the maps reached without going below a $ref key are visited, each once in effect |
| OpenApiHeap.RewriteDocument | services/gateway/internal/handler/docs.go:262-279 | afterwards the objects stand for the rewritten tree and no other map changed, unless a map is both visited and hidden |
| OpenApiHeap.UnsharedQualifies | services/gateway/internal/handler/docs.go:163-166 | which cannot be in what a JSON decoder builds |
| OpenApi.RewritingIsIdempotent | services/gateway/internal/handler/docs.go:262-279 | rewriting twice is rewriting once |
| OpenApi.RewritingKeepsPaths | services/gateway/internal/handler/docs.go:262-279 | every path stays, and nothing changes but strings directly under a $ref key that start with the old prefix |
| OpenApiContent.RewritingExactly | services/gateway/internal/handler/docs.go:262-279 | place by place: a string directly under $ref that starts with #/definitions/ names the component schema instead, every other leaf is as it was, every object and list keeps its keys and its length |
| OpenApi.MergedReferencesResolve | services/gateway/internal/handler/docs.go:99-151 | when each source's references resolve in it, all references of the merged, rewritten document resolve in that document, exactly when none in the old form is hidden |
| OpenApi.CleanSourcesResolve | services/gateway/internal/handler/docs.go:99-151 | which holds whenever no source hides one |
| OpenApi.ReferencesLeadHome | services/gateway/internal/handler/docs.go:193-219 | a reference leads to its own service's rewritten schema unless an earlier one has that name |
| OpenApi.HiddenReferenceStaysBroken | services/gateway/internal/handler/docs.go:99-151 | metadata's document with one schema that has a "$ref" property of its own type breaks the merged document, for every name auth does not use, whatever self-contained documents the other two send |
| OpenApiContent.MergedServes | services/gateway/internal/handler/docs.go:99-260 | key by key, whatever was fetched: each path, method, schema and security scheme is that of the first service that has it under paths, components or definitions, api keys in the Authorization header as bearer schemes, the two default schemes first; all of them are there and nothing besides |
| OpenApiServed.HandleMerged | services/gateway/internal/handler/docs.go:99-151 | over decoded documents that share nothing, merged by reference and in place and then rewritten in place, what is served stands for the rewritten merge of what the documents stood for, and holds each of their paths, schemas and schemes in its place |
| OpenApiDecode.Decode | services/gateway/internal/handler/docs.go:153-167 | any value decodes to maps of its own that share nothing and stand for it, and touches no other map |
| OpenApiDecode.ServeMerged | services/gateway/internal/handler/docs.go:99-151 | so, whatever three documents were fetched or not, what is served stands for their rewritten merge and holds at each key what MergedServes says |
| OpenApiParts.Join | services/gateway/internal/handler/docs.go:178-188 | the same seen from the maps: exchanging two parts for their join keeps all parts apart |
| OpenApiMerge.PourPaths | services/gateway/internal/handler/docs.go:169-191 | new paths are taken over, methods of shared paths go into the map that is there; afterwards still no map is held twice, the section stands for the merged paths, what is left of the documents stands for what it did, and no map but the items of shared paths has changed |
| OpenApiMerge.AddSchemes | services/gateway/internal/handler/docs.go:237-260 | missing definitions are taken over, Authorization api keys as fresh bearer schemes, and still no map is held twice |
| Topology.DeclareAll | services/transcoder/app/consumer.py:430-455 | on an agreeing broker a service gets through exactly when no call errs but the transcoder's binding, takes nothing away and has its list declared; rejected events reach the dead-letter queue exactly unless that binding erred untaken and was not there before |
| Topology.DeclarationsNeverClash | services/upload/internal/queue/publisher.go:94-137 | whatever mixture of both services' declarations came first, none of their queues is refused afterwards |
| Topology.Routing | services/upload/internal/queue/publisher.go:103-129 | rejected events go to the dead-letter queue, those of the fan-out queues too, expired retries back to main after 30 s, dead letters stay |
| Topology.Publisher.Publish | services/upload/internal/queue/publisher.go:155-177 | at most two tries, a copy for each that was taken, the second only when the first raised and a connection could be had; exactly when it succeeds |
| Reconciler.Reconciler.Reconcile | services/upload/internal/reconciler/reconciler.go:75-112 | of the first limit rows, found ones are published in order, the others failed and their sessions aborted as far as services answer, and nothing else changes; so a row is failed exactly when its stat erred or its object is absent or empty, and published once, exactly when a stat found bytes |
| Reconciler.Reconciler.Run | services/upload/internal/reconciler/reconciler.go:59-70 | k healthy passes clear the k * limit oldest rows, so ceil(n / limit) clear all |

## Left out

- HTTP plumbing, proxies, CORS, logging, metrics, configuration parsing, React pages and the player.
- FFmpeg, Postgres, RabbitMQ, Redis and MinIO internals: their operations are atomic steps with stated effects.
- JWT signing, password hashing and presigning: opaque; expiry of tokens by their `exp` claim only removes behaviours.
- Deleting and recreating a queue whose arguments differ, which drops messages: the topology is assumed stable.
- Concurrent ranged PUTs to one video and orphans left by a delete during transcoding: the code promises nothing there.
- Thumbnails, GPU detection, encoder presets and bucket lifecycle rules.
- HlsStaleness.HlsAuth: the path's video id and the two tokens are taken as found; any visibility but public and unlisted counts as private.
- OpenApiDecode.Decode: a document starts as a JSON value; reading it from bytes, and the numbers' conversion to doubles, are left out.
- OpenApiServed.HandleMerged: the info block is a parameter; a document's three sections are read before the first of them is poured, which the merging loops do not change.
- PipelineReplay.ReplayIsANoOp: a delivery whose status read fails starts the work over and may add rungs, and so may another delivery still at work or a second ready update still pending; the store and message invariants and `PipelineLoss.ReadyIsLostExactly` cover these, this law does not. Neither does it cover a video its owner deletes or the reconciler fails meanwhile.
- VideoTable.VideoRepo.DeleteVideo: a second delete of the row between lookup and DELETE is left out; the count of deleted rows is not looked at, so both would answer the same.
- MetadataHandler.SortByBitrate: an insertion sort stands for the library's sort; callers only use that it sorts.
- MetaCacheHeap.List.Remove: the library's ring with a sentinel is modelled as a list with front and back.
- MultipartUpload.Complete: part ETags are left out, a part is identified by its number; a video has one session because each Create makes a new key.
- Multipart.PartsRebuildTheFile: sizes are unbounded integers, the browser's doubles are exact up to 2^53.
- RateLimit.Limiter.Admit: the warning printed at most once a minute is left out; the window in nanoseconds is not bounded to 64 bits.
- ClientAddress.ResolutionIsStable: IP literals are decided by an arbitrary function over the literal alphabet, which covers every parser; ParseTrustedCIDRS itself is left out.
- Keyframes.FpsInRange: rates are reals; rounding of the division n/d in doubles is not modelled.
- Reconciler.Reconciler.Run: row ages are not modelled, the stale rows are given; passes overlapping a worker on the same video are covered by the pipeline's reconciler step instead.
- Topology.Publisher.Publish: without publisher confirms a call that returns may still have been lost, and the model allows that; queues other than video.uploaded are declared plainly and left out.
- Consumer.HandleMessage: whether the heartbeat thread stopped in time is an input; on the retry path it is not looked at, as in the code.
