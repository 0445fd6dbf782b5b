# Beat-driven storyboard and music-video generator: a verified model

This project models the core of an application that turns an audio track
into one AI-generated image and one video clip per detected beat. The model
covers:

- **The beat detector and feature extractor** (`AudioAnalysis`).
  - It scans 100 ms frames of the decoded channel and keeps a trailing
    history of at most 43 frame energies.
  - It accepts a beat when a frame's energy beats C times the history mean,
    ten history frames exist, and the last beat is strictly more than a
    minimum gap earlier.
  - It derives tempo, a clamped overall energy and a per-beat bass versus
    high-frequency split, and formats times as `m:ss.hh`.
- **The scene cache** (`SceneCache`): an in-memory store.
  - Image and video lists are upserted by timestamp (replace the first
    entry with the timestamp, or append).
  - One original image is kept per timestamp for reverting character edits.
  - The storyboard and the stitched video are single slots.
- **The provider** (`Provider`): its job-status replies, and the fallback
  chains that find the output URL of a completed job.
- **The three pollers**:
  - the image poller shared by both image routes (`ImagePolling`);
  - the video poller with retries and backoff (`VideoStream`);
  - the character-edit poller (`CharacterEdit`).

  Each is given the provider's replies as a finite script.
- **The generation routes**:
  - streaming video (`VideoStream`);
  - streaming images with cache short-circuit and final bulk write
    (`ImagesStream`);
  - non-streaming images (`ImagesBatch`), sharing the per-scene
    submit-and-poll steps in `ImageJobs`;
  - character edit (`CharacterEdit`);
  - revert (`Revert`);
  - scene-prompt classifiers and JSON extraction (`ScenePrompts`).
- **The client-side state**:
  - the storyboard page (`StoryboardPage.Page`);
  - the render page (`RenderPage.Page`);
  - the editor's stage machine (`Editor.AudioVideoEditor`).

  Each is a class whose fields are the component's state and whose methods
  are its handlers.

Loops in the source are methods with loop invariants. Each is proved equal to
a specification function, and the properties the source promises are proved
about that function as lemmas. `Common` and `Text` hold shared helpers: an
Option type, JavaScript truthiness and `||` on strings, `Math.round`, decimal
rendering, `padStart`, and `split`/`join`.

### Details the properties depend on

- Every character edit overwrites the saved original of its scene
  (`lib/redis-cache.ts:165-181`, called from
  `app/api/regenerate-with-character/route.ts:154`).
- Consecutive beats are strictly more than the minimum gap apart
  (`lib/audio-analysis.ts:85`).
- A frame's energy reads at most 2048 samples from the frame's start
  (`lib/audio-analysis.ts:62`).

## Model

| member | source | states |
|---|---|---|
| Provider.ImageUrlOf | app/api/generate-storyboard-images-stream/route.ts:40-45 | reference definition of the image URL fallback chain: the first truthy of result, image, images[0], url, and the output itself when it is a string |
| Provider.VideoUrlOf | app/api/generate-videos-stream/route.ts:124-130 | reference definition of the video URL fallback chain: the first truthy of result, video, video_url, url, videos[0] when videos is an array, and the output itself when it is a string |
| Provider.Head | app/api/generate-storyboard-images-stream/route.ts:42 | `images?.[0]` is present exactly when the array is present and non-empty, and is then its first element |
| Provider.FirstTruthy | app/api/generate-storyboard-images-stream/route.ts:39-44 | the `a \|\| b \|\| …` chain yields null exactly when no candidate is truthy, and otherwise a truthy value |
| Provider.FirstTruthyIsFirst | app/api/generate-storyboard-images-stream/route.ts:39-44 | when some candidate is truthy, the chain's value is a candidate with no truthy candidate before it |
| Provider.FirstTruthyAt | app/api/generate-storyboard-images-stream/route.ts:39-44 | the first truthy candidate is the chain's value |
| Provider.ImageCandidates | app/api/generate-storyboard-images-stream/route.ts:39-44 | the image routes try five places for the URL |
| Provider.VideoCandidates | app/api/generate-videos-stream/route.ts:124-130 | the video route tries six places for the URL |
| Provider.ImageUrlChain | app/api/generate-storyboard-images-stream/route.ts:39-44 | a non-empty `result` always wins; a string output is the URL exactly when non-empty; no output gives no URL; an object output has a URL iff one of its four fields is non-empty; a URL found is never empty |
| Provider.VideoUrlChain | app/api/generate-videos-stream/route.ts:124-130 | a non-empty `result` wins, then `video`; a string output is the URL exactly when non-empty; an object output has a URL iff one of its five fields is non-empty; a URL found is never empty |
| SceneCache.FindIndex | lib/redis-cache.ts:139 | `findIndex`: -1 exactly when no entry has the timestamp, otherwise the first position that has it |
| SceneCache.Upsert | lib/redis-cache.ts:139-152 | replace the entry with the same timestamp in place, or append: the length grows by one exactly when the key was absent |
| SceneCache.LastWith | app/api/generate-storyboard-images-stream/route.ts:82-90 | a map built by `set` in list order holds the last entry with each timestamp |
| SceneCache.UpsertThenLookup | lib/redis-cache.ts:139-152 | after an upsert, the entry found for the new key is the new entry, whether it replaced or appended |
| SceneCache.DistinctLookups | lib/redis-cache.ts:139 | in a list with distinct timestamps, `findIndex` and the last-wins map find the same entry |
| SceneCache.UpsertKeepsDistinct | lib/redis-cache.ts:139-152 | upserting keeps the timestamps of the list distinct |
| SceneCache.UpsertIdempotent | lib/redis-cache.ts:139-152 | repeating the same upsert changes nothing |
| SceneCache.EntryAt | lib/redis-cache.ts:139 | the entry `findIndex` points at, present exactly when the key is |
| SceneCache.UpsertLookup | lib/redis-cache.ts:139-152 | after an upsert the new entry is found for its own key and every other key finds what it found before |
| SceneCache.HasKeyAppend | lib/redis-cache.ts:151 | a key occurs in a concatenation iff it occurs in one of the parts |
| SceneCache.LastWithAppend | app/api/generate-storyboard-images-stream/route.ts:82-90 | the last entry for a key in a concatenation comes from the second part when it has the key, else from the first |
| SceneCache.ExistingOrEmpty | lib/redis-cache.ts:136 | `(await getCachedImages()) \|\| []`: the stored list, or the empty list when nothing is stored |
| SceneCache.Store.constructor | lib/redis-cache.ts:57-62 | an empty store |
| SceneCache.Store.CacheStoryboard | lib/redis-cache.ts:64-73 | on success the storyboard entry is the given data, on failure it is unchanged; no other key changes; the result reports success |
| SceneCache.Store.GetCachedStoryboard | lib/redis-cache.ts:75-84 | the stored storyboard, or null when the read fails |
| SceneCache.Store.ClearStoryboardCache | lib/redis-cache.ts:86-95 | on success the storyboard entry is gone; no other key changes |
| SceneCache.Store.CacheGeneratedImages | lib/redis-cache.ts:97-107 | on success the image list is replaced by the given list; no other key changes |
| SceneCache.Store.GetCachedImages | lib/redis-cache.ts:109-119 | the stored image list, or null when the read fails |
| SceneCache.Store.ClearImageCache | lib/redis-cache.ts:121-131 | on success the image list is gone; no other key changes |
| SceneCache.Store.CacheGeneratedImage | lib/redis-cache.ts:133-162 | the list becomes the upsert of the new image into the stored list (into the empty list after a failed read), unless the write fails; it always reports true, because the inner write swallows its own failure |
| SceneCache.Store.SaveOriginalImage | lib/redis-cache.ts:165-181 | on success the original for the timestamp is overwritten unconditionally; nothing else changes |
| SceneCache.Store.GetOriginalImage | lib/redis-cache.ts:183-192 | the original saved last for the timestamp, or null when there is none or the read fails |
| SceneCache.Store.CacheGeneratedVideos | lib/redis-cache.ts:195-205 | on success the video list is replaced by the given list; no other key changes |
| SceneCache.Store.GetCachedVideos | lib/redis-cache.ts:207-217 | the stored video list, or null when the read fails |
| SceneCache.Store.CacheGeneratedVideo | lib/redis-cache.ts:219-262 | the same replace-or-append as for images, on the video list |
| SceneCache.Store.ClearVideoCache | lib/redis-cache.ts:264-274 | on success the video list is gone; no other key changes |
| SceneCache.Store.CacheStitchedVideo | lib/redis-cache.ts:276-286 | on success the stitched video entry is the given video; no other key changes |
| SceneCache.Store.GetCachedStitchedVideo | lib/redis-cache.ts:288-298 | the stored stitched video, or null when the read fails |
| SceneCache.Store.ClearStitchedVideoCache | lib/redis-cache.ts:300-309 | on success the stitched video entry is gone; no other key changes |
| SceneCache.ImageUrlAt | lib/redis-cache.ts:139 | a reader finds an image for a timestamp exactly when the stored list has that timestamp |
| SceneCache.RepeatedImageUpsert | lib/redis-cache.ts:133-162 | caching the same image twice on a healthy store keeps the list length, and a reader then finds the new URL for the timestamp |
| SceneCache.FailedReadDropsOtherImages | lib/redis-cache.ts:136-157 | when the read fails, the single-image write replaces the whole list by the one new image, dropping the others |
| VideoStream.Backoff | app/api/generate-videos-stream/route.ts:146-165 | reference definition of the wait after a failed check: `(4 - retries) * 2000` ms, with `retries` already decremented |
| VideoStream.PollFrom | app/api/generate-videos-stream/route.ts:84-168 | reference definition of the video poller from one reply on: a URL ends it; a rate limit waits 10 s and keeps the attempt and the retries; a failure uses a retry and throws on the third; a pending check sleeps 3 s and starts the next attempt, or times out after the 120th; running out of replies stalls |
| VideoStream.SceneTrace | app/api/generate-videos-stream/route.ts:188-295 | reference definition of one scene's events and cache writes: `queued`, then a refused submission's `failed`, or `processing` followed by the poll's `completed` or `failed`, each event written to the cache with the same status |
| VideoStream.EnhancePrompt | app/api/generate-videos-stream/route.ts:11-28 | reference definition of `enhancePromptWithCameraMovement`: camera movement `sceneIndex mod 10` of the ten, ". ", the scene's prompt, then the fixed cinematography suffix |
| VideoStream.PollOf | app/api/generate-videos-stream/route.ts:84-168 | reference definition of `pollJobStatus`: `PollFrom` from the first reply, in attempt 1 with three checks left, after the first 3 s sleep |
| VideoStream.SubmitOutcome | app/api/generate-videos-stream/route.ts:37-82 | reference definition of `submitVideoJob`'s outcome: a thrown request's message; a refusal throws "RunPod submission failed: " with the status and body; an unparsable body its message; otherwise the job id, possibly missing |
| VideoStream.Entry | app/api/generate-videos-stream/route.ts:209-293 | reference definition of the entry a `cacheGeneratedVideo` call stores for a scene: its prompt, timestamp, image and audio duration with the given URL, status, job id and error |
| VideoStream.JobFor | app/api/generate-videos-stream/route.ts:195-212 | reference definition of the job submitted for scene `i`: the camera-moved prompt, the scene's image and its clamped duration |
| VideoStream.PollTrace | app/api/generate-videos-stream/route.ts:239-293 | reference definition of a scene after `processing`: a poll with a URL sends and caches `completed` with it; a thrown poll sends and caches `failed` with its message and no job id; a stalled poll sends nothing |
| VideoStream.SubmitTrace | app/api/generate-videos-stream/route.ts:212-293 | reference definition of a scene after `queued`: a failed submission sends and caches `failed`; an accepted one sends and caches `processing` with the job id, then follows `PollTrace` |
| VideoStream.RunTrace | app/api/generate-videos-stream/route.ts:188-295 | reference definition of the scene loop: the scene traces composed in order, stopping at the first hung poll |
| VideoStream.Jobs | app/api/generate-videos-stream/route.ts:188-212 | reference definition of the jobs submitted for the first `m` scenes, in order |
| VideoStream.StreamTrace | app/api/generate-videos-stream/route.ts:170-307 | reference definition of everything `POST` sends and caches: one error event for an unreadable body or a missing, non-array or empty `prompts`; otherwise the scene loop, closed by `[DONE]` unless a poll hung |
| VideoStream.StreamJobs | app/api/generate-videos-stream/route.ts:188-212 | reference definition of the jobs `POST` submits: one per reached scene of a valid request, none otherwise |
| VideoStream.ApplyWrites | lib/redis-cache.ts:219-262 | reference definition of the video list after a sequence of `cacheGeneratedVideo` writes on a healthy store: each write upserts into the list as it stands, a missing list read as empty |
| VideoStream.CameraMovementCycle | app/api/generate-videos-stream/route.ts:11-28 | scene `i`'s prompt starts with camera movement `i mod 10`, then ". " and the scene's own prompt; scenes ten apart get the same prompt |
| VideoStream.ValidDuration | app/api/generate-videos-stream/route.ts:44 | the duration sent is `Math.round` of the audio duration clamped to [3, 10]: always within [3, 10], equal to the rounded value inside that range, 3 below it and 10 above it |
| VideoStream.CheckOf | app/api/generate-videos-stream/route.ts:93-145 | a check finds a URL only for an ok COMPLETED status, and the URL is the fallback chain's; it is a rate limit iff the response is not ok and its text mentions "Too Many Requests"; it is pending iff the status is ok and neither COMPLETED nor FAILED |
| VideoStream.PollJobStatus | app/api/generate-videos-stream/route.ts:84-168 | the nested attempt/retry loop returns what the recursive reference poll `PollOf` returns on the same replies |
| VideoStream.ThirdFailureThrows | app/api/generate-videos-stream/route.ts:146-165 | three failed checks in a row within one attempt throw the third failure, after waits of 4 s and 6 s (the comment at line 151 announces 2, 4 and 6 s; the code waits after decrementing) |
| VideoStream.RateLimitIsFree | app/api/generate-videos-stream/route.ts:105-111 | a rate-limited check waits 10 s and uses neither a retry nor an attempt |
| VideoStream.AtMostMaxAttempts | app/api/generate-videos-stream/route.ts:84-87 | whatever the replies, the poll reads at most the replies it has and ends after at most 120 pending checks; rate-limited checks are not counted, so this bounds attempts, not requests (see `RateLimitsNeverEnd`) |
| VideoStream.RateLimitsNeverEnd | app/api/generate-videos-stream/route.ts:105-111 | a provider that keeps answering "Too Many Requests" keeps the poll going: however many such replies in a row, it reads them all, waits 10 s after each and neither succeeds nor throws |
| VideoStream.PendingTimesOut | app/api/generate-videos-stream/route.ts:84-167 | a job pending for 120 checks times out after exactly 120 checks and 120 sleeps of 3 s, with the "timed out after 120 attempts" message |
| VideoStream.OutcomeFromLastReply | app/api/generate-videos-stream/route.ts:118-145 | a successful poll returns the URL of its last reply, a completed job; any error other than the time-out is the failure of its last reply |
| VideoStream.SceneTraces | app/api/generate-videos-stream/route.ts:188-295 | one trace per scene |
| VideoStream.Compose | app/api/generate-videos-stream/route.ts:188-295 | the loop reaches at most the scenes it has, and all of them unless a poll hangs |
| VideoStream.ApplyWritesAppend | app/api/generate-videos-stream/route.ts:209-292 | the cache after two batches of writes is the cache after the first batch, then the second |
| VideoStream.ApplyWritesSnoc | lib/redis-cache.ts:219-262 | one more write upserts its entry into the list as it stands |
| VideoStream.RecordVideo | app/api/generate-videos-stream/route.ts:209 | a `cacheGeneratedVideo` call on a healthy store applies exactly its one write and changes no other key |
| VideoStream.FollowJob | app/api/generate-videos-stream/route.ts:239-292 | after the poll, the scene's events and cache writes are those of the reference trace: completed with the URL, failed with the message, or nothing when the poll hangs |
| VideoStream.FollowSubmission | app/api/generate-videos-stream/route.ts:212-292 | a refused submission fails the scene; an accepted one sends `processing` with the job id, caches it, then follows the job |
| VideoStream.ProcessScene | app/api/generate-videos-stream/route.ts:189-293 | one scene: the events and writes of the reference trace, and the job built with the scene's camera movement |
| VideoStream.HungStays | app/api/generate-videos-stream/route.ts:188-295 | once a poll hangs, no later scene is reached |
| VideoStream.RunStep | app/api/generate-videos-stream/route.ts:188-295 | one iteration extends the run by the next scene's trace |
| VideoStream.RunScenes | app/api/generate-videos-stream/route.ts:188-295 | the loop yields the reference run and submits one job per reached scene, in order; a failed scene does not stop the next one |
| VideoStream.GenerateVideos | app/api/generate-videos-stream/route.ts:170-318 | `POST` sends exactly the reference events, submits exactly the reference jobs and leaves the video cache as the reference writes make it; it never reads the cache |
| VideoStream.TerminalsAppend | app/api/generate-videos-stream/route.ts:188-295 | the completed/failed scene indices of two runs of events concatenate |
| VideoStream.MirrorsAppend | app/api/generate-videos-stream/route.ts:188-295 | event/write pairing is kept by concatenation |
| VideoStream.PollShape | app/api/generate-videos-stream/route.ts:239-292 | after the poll a scene writes only for its own timestamp and ends in one completed or failed event, unless the poll hangs |
| VideoStream.SubmitShape | app/api/generate-videos-stream/route.ts:212-292 | from its submission on, a scene sends `failed` alone, or `processing` followed by exactly one completed or failed event, or `processing` alone when its poll hangs |
| VideoStream.SceneShape | app/api/generate-videos-stream/route.ts:195-292 | every scene opens with `queued`, each event is followed by the cache write of the same status for the scene's timestamp, and its events are queued-failed, queued-processing-completed or queued-processing-failed, or queued-processing when its poll hangs |
| VideoStream.ScenesShaped | app/api/generate-videos-stream/route.ts:188-295 | every scene trace has that shape |
| VideoStream.ComposeMirrors | app/api/generate-videos-stream/route.ts:188-295 | across the loop there is one cache write per event, each mirroring its event |
| VideoStream.ComposeTerminals | app/api/generate-videos-stream/route.ts:188-295 | unless a poll hung, the first `n` scenes each end in exactly one completed or failed event, in scene order |
| VideoStream.JobsAt | app/api/generate-videos-stream/route.ts:194-212 | job `k` carries scene `k`'s prompt with camera movement `k mod 10`, its image and its clamped duration |
| VideoStream.StreamShape | app/api/generate-videos-stream/route.ts:170-307 | a body that does not parse or a missing, non-array or empty `prompts` gives exactly one error event, no job and no write; otherwise every job is its scene's job with a duration in [3, 10]; events and writes pair up; and unless a poll hangs every scene ends in one completed or failed event, in order, and `[DONE]` closes the stream |
| VideoStream.DoneOnce | app/api/generate-videos-stream/route.ts:297 | `[DONE]` occurs at most once, last |
| VideoStream.ApplyWritesLookupStep | lib/redis-cache.ts:219-262 | one more write makes its own timestamp find it and leaves other timestamps unchanged |
| VideoStream.LastWithSnoc | lib/redis-cache.ts:219-262 | the last write for a timestamp after one more write |
| VideoStream.ApplyWritesLookup | lib/redis-cache.ts:219-262 | after a sequence of writes, a reader finds for each timestamp the last write for it, or what was stored before when no write was for it |
| VideoStream.NotHungBefore | app/api/generate-videos-stream/route.ts:188-295 | a run that did not hang did not hang on any shorter prefix |
| VideoStream.LastOfOwnWrites | app/api/generate-videos-stream/route.ts:195-292 | among one scene's writes, the last is the last for its timestamp |
| VideoStream.NoOtherKey | app/api/generate-videos-stream/route.ts:195-292 | writes for another timestamp hold no entry for this one |
| VideoStream.LastWriteOfScene | app/api/generate-videos-stream/route.ts:188-295 | when no other scene shares its timestamp, the run's last write for scene `k` is scene `k`'s last write |
| VideoStream.LastAfterOwnWrites | lib/redis-cache.ts:219-262 | appending writes all for `t` makes the last of them the entry for `t` |
| VideoStream.LastAfterOtherWrites | lib/redis-cache.ts:219-262 | appending writes for other timestamps leaves the entry for `t` unchanged |
| VideoStream.FinalCacheMatchesEvents | app/api/generate-videos-stream/route.ts:188-297 | with one scene per timestamp, after a complete stream the cache holds for every scene an entry with the status, URL and error of the scene's final completed or failed event |
| ImagePolling.CheckOf | app/api/generate-storyboard-images-stream/route.ts:22-60 | reference definition of one reply's verdict: a refused or non-JSON response, a thrown request or an unparsable payload is tried again; COMPLETED with a URL in the fallback chain finds it; FAILED, or COMPLETED without a URL, gives up |
| ImagePolling.PollWith | app/api/generate-storyboard-images-stream/route.ts:16-64 | reference definition of the attempt loop on verdicts and waits: a 3 s sleep before every attempt after the first, the first decisive verdict ends it, 30 attempts without one give `null`, and running out of replies stalls |
| ImagePolling.PollOf | app/api/generate-storyboard-images-stream/route.ts:15-65 | reference definition of `pollJobStatus`: `PollWith` on the verdicts and waits of the replies, from attempt 0 |
| ImagePolling.DelayAfter | app/api/generate-storyboard-images-stream/route.ts:30-60 | reference definition of the wait after a reply that is tried again: 5 s after a 429 refusal, 3 s after a thrown request or payload, nothing after another refusal or non-JSON reply |
| ImagePolling.Pause | app/api/generate-storyboard-images-stream/route.ts:18-20 | reference definition of the sleep before an attempt: none before the first, 3 s before every later one |
| ImagePolling.Verdict | app/api/generate-storyboard-images-stream/route.ts:47-55 | reference definition of what a decisive verdict returns: the URL found, or `null` |
| ImagePolling.CheckVerdicts | app/api/generate-storyboard-images-stream/route.ts:22-60 | a URL is found only in an accepted COMPLETED reply, and it is the fallback chain's URL; a job is given up exactly when it FAILED or COMPLETED without a URL; every other reply is tried again |
| ImagePolling.Checks | app/api/generate-storyboard-images-stream/route.ts:15-65 | one verdict per reply |
| ImagePolling.Delays | app/api/generate-storyboard-images-stream/route.ts:30-60 | one wait per reply |
| ImagePolling.HandleReply | app/api/generate-storyboard-images-stream/route.ts:22-60 | the loop body decides each reply as `CheckOf` does and waits as `DelayAfter` says: 5 s after a rate limit, 3 s after a thrown request or payload |
| ImagePolling.PollStep | app/api/generate-storyboard-images-stream/route.ts:17-21 | one attempt: with no reply the poll stalls; a decisive reply ends it; otherwise it goes on with the next attempt after the wait |
| ImagePolling.PollJobStatus | app/api/generate-storyboard-images-stream/route.ts:15-65 | the attempt loop returns what the recursive reference poll `PollOf` returns on the same replies |
| ImagePolling.DecidedFrom | app/api/generate-storyboard-images-stream/route.ts:17-64 | the first reply not tried again decides the poll, after exactly that many checks |
| ImagePolling.UndecidedFrom | app/api/generate-storyboard-images-stream/route.ts:63-64 | when every reply is tried again, 30 of them give `null`, fewer make the poll stall |
| ImagePolling.PollCharacterised | app/api/generate-storyboard-images-stream/route.ts:15-65 | the poll is decided by the first of its first 30 replies that is not tried again: its URL, or `null` for FAILED or a missing URL, after exactly that many checks; 30 replies all tried again time out with `null`; fewer stall |
| ImagePolling.ChecksBoundedFrom | app/api/generate-storyboard-images-stream/route.ts:17 | the number of checks stays between the current attempt and 30 |
| ImagePolling.ChecksBounded | app/api/generate-storyboard-images-stream/route.ts:17 | at most 30 status requests are made, and never more than there are replies |
| ImagePolling.NoSleepBeforeFirstCheck | app/api/generate-storyboard-images-stream/route.ts:18-20 | a poll decided by the first reply has not waited at all: the 3 s sleep comes only before later attempts |
| ImagePolling.VariantsAgreeFrom | app/api/generate-storyboard-images/route.ts:10-70 | with the same verdicts and waits that are never shorter, two polls agree on outcome, URL and checks |
| ImagePolling.VariantsAgree | app/api/generate-storyboard-images/route.ts:10-70 | the streaming and the non-streaming copy of the poller return the same URL after the same number of checks; the non-streaming copy never waits less |
| ImagePolling.FoundNonEmpty | app/api/generate-storyboard-images-stream/route.ts:39-47 | a found URL is never empty |
| ImagePolling.UrlNonEmptyFrom | app/api/generate-storyboard-images-stream/route.ts:15-65 | a poll returns a URL only from a verdict that found it |
| ImagePolling.PollUrlNonEmpty | app/api/generate-storyboard-images-stream/route.ts:15-65 | the poller never returns an empty URL |
| ImagePolling.StalledFrom | app/api/generate-storyboard-images-stream/route.ts:15-65 | a stalled poll had fewer than 30 replies |
| ImagePolling.HungPollIsShort | app/api/generate-storyboard-images-stream/route.ts:15-65 | a poll stalls only when the provider answers fewer than 30 times |
| ImageJobs.OutcomeOf | app/api/generate-storyboard-images-stream/route.ts:125-192 | reference definition of one scene's job: a refused submission reports its body, a thrown request or an unparsable body its message, a missing job id its own error; an accepted job is polled |
| ImageJobs.ReportedUrl | app/api/generate-storyboard-images-stream/route.ts:145-183 | reference definition of a finished scene's `imageUrl`: the poll's result for a polled job, `null` for a refused one |
| ImageJobs.ReportedError | app/api/generate-storyboard-images-stream/route.ts:145-183 | reference definition of a finished scene's `error`: the refusal's message, "Failed to generate image" for a poll without a URL, none for a URL |
| ImageJobs.RunJob | app/api/generate-storyboard-images-stream/route.ts:121-175 | the submission and poll of one scene end as the reference `OutcomeOf` says: refused with the route's error, polled to a URL or `null`, or hung |
| ImageJobs.ReportConsistent | app/api/generate-storyboard-images-stream/route.ts:143-183 | every scene that finishes reports exactly one of a URL and an error, and a reported URL is never empty |
| ImageJobs.ErrorLabels | app/api/generate-storyboard-images-stream/route.ts:143-183 | a refused submission reports "RunPod API error: " and its body, an accepted reply without a job id reports "No job ID in response", a poll that gives `null` reports "Failed to generate image", and a URL the poll returns is reported as it is |
| ImageJobs.HangsOnlyInPoll | app/api/generate-storyboard-images-stream/route.ts:161-175 | a scene hangs only after its job was accepted with an id, in a poll the provider stopped answering before 30 replies |
| ImageJobs.VariantsSameOutcome | app/api/generate-storyboard-images/route.ts:10-70 | a scene's job ends the same way in both image routes |
| ImagesStream.UrlMap | app/api/generate-storyboard-images-stream/route.ts:82-90 | reference definition of the cache map: each cached image sets its timestamp to its URL in list order, so a later entry for the same timestamp wins; the empty list gives the empty map |
| ImagesStream.SceneTrace | app/api/generate-storyboard-images-stream/route.ts:97-211 | reference definition of one scene: a truthy cached URL is sent and kept without a submission; otherwise the full prompt is submitted, and unless the poll hangs its URL or error is sent, a URL is kept, and the route waits 1 s unless it is the last scene |
| ImagesStream.ResponseOf | app/api/generate-storyboard-images-stream/route.ts:67-229 | reference definition of `POST`: 400 for an unreadable body or `prompts` missing or not an array; otherwise the scene events in order, closed by `[DONE]` unless a poll hung |
| ImagesStream.Text | app/api/generate-storyboard-images-stream/route.ts:121 | reference definition of the full prompt: the house style, a blank line, "Scene: " and the scene's prompt |
| ImagesStream.InputOf | app/api/generate-storyboard-images-stream/route.ts:130-139 | reference definition of the submitted `input`: the full prompt, the fixed negative prompt, size "2048*2048", seed -1 and the safety checker on |
| ImagesStream.Get | app/api/generate-storyboard-images-stream/route.ts:101 | reference definition of `cachedImageMap.get`: the URL stored for the timestamp, if any |
| ImagesStream.RunOf | app/api/generate-storyboard-images-stream/route.ts:83-211 | reference definition of the scene loop over the prompts, with the map built from the cache read before it (a failed read gives an empty map) |
| ImagesStream.StreamRun | app/api/generate-storyboard-images-stream/route.ts:67-211 | reference definition of a request's run: the scene loop for a valid request, nothing for a refused one |
| ImagesStream.FinalImages | app/api/generate-storyboard-images-stream/route.ts:213-215 | reference definition of the image list after `POST`: replaced by the kept images when there are any and the stream reached its end, otherwise left as it was |
| ImagesStream.TextRoundTrip | app/api/generate-storyboard-images-stream/route.ts:121-138 | the submitted text starts with the house style and the scene prompt can be read back from it, so distinct scene prompts are submitted as distinct texts; the job input carries that text and the fixed negative prompt |
| ImagesStream.UrlMapLastWins | app/api/generate-storyboard-images-stream/route.ts:85-90 | the map holds a URL for exactly the cached timestamps, and the last cache entry for a timestamp wins |
| ImagesStream.BuildUrlMap | app/api/generate-storyboard-images-stream/route.ts:85-90 | the `forEach` over the cached list builds that map |
| ImagesStream.ProcessScene | app/api/generate-storyboard-images-stream/route.ts:98-210 | one iteration sends, keeps, submits and waits as the reference scene trace says |
| ImagesStream.SceneTraces | app/api/generate-storyboard-images-stream/route.ts:97-211 | one trace per prompt |
| ImagesStream.Compose | app/api/generate-storyboard-images-stream/route.ts:97-211 | the loop reaches at most the prompts it has, all of them unless a poll hangs, and the hung scene is one it reached |
| ImagesStream.RunScenes | app/api/generate-storyboard-images-stream/route.ts:97-211 | the loop yields the reference run over all prompts |
| ImagesStream.GenerateImages | app/api/generate-storyboard-images-stream/route.ts:67-229 | `POST` answers the reference response, submits the reference prompts, waits after the reference scenes, and leaves the image list as `FinalImages` says; no other key changes |
| ImagesStream.HungStays | app/api/generate-storyboard-images-stream/route.ts:97-211 | once a poll hangs, no later scene is reached |
| ImagesStream.WantedAll | app/api/generate-storyboard-images-stream/route.ts:101-121 | one list of prompts to submit per scene |
| ImagesStream.SuccessesOne | app/api/generate-storyboard-images-stream/route.ts:112-117 | a single event keeps its own image |
| ImagesStream.SceneShaped | app/api/generate-storyboard-images-stream/route.ts:98-210 | a hung scene missed the cache and sends, keeps and waits for nothing; any other sends exactly one event reporting it, keeps the image of that event's URL, submits its full prompt unless it hit the cache, and waits when `Waits` says so |
| ImagesStream.ScenesShaped | app/api/generate-storyboard-images-stream/route.ts:97-211 | every scene trace has that shape |
| ImagesStream.ComposeEvents | app/api/generate-storyboard-images-stream/route.ts:97-211 | the loop sends one event per scene it finished, that scene's event; a hung scene sends none |
| ImagesStream.SuccessesAppend | app/api/generate-storyboard-images-stream/route.ts:112-192 | the kept images of two runs of events concatenate |
| ImagesStream.ComposeGenerated | app/api/generate-storyboard-images-stream/route.ts:112-192 | the loop keeps the image of every event that carries a URL, in event order |
| ImagesStream.ComposeSubmitted | app/api/generate-storyboard-images-stream/route.ts:121-141 | the loop submits what every scene it reached submits, in order |
| ImagesStream.ComposePaused | app/api/generate-storyboard-images-stream/route.ts:197-199 | the loop waits after exactly the reached scenes that wait |
| ImagesStream.StreamShape | app/api/generate-storyboard-images-stream/route.ts:97-218 | for an accepted request, unless a poll hangs, one event per prompt and then `[DONE]`; a hung poll ends the stream early with no `[DONE]` |
| ImagesStream.StreamReports | app/api/generate-storyboard-images-stream/route.ts:101-183 | event `k` reports scene `k` with exactly one of a non-empty URL and an error: the cached URL and no error on a truthy cache hit, else the URL or error of its job |
| ImagesStream.StreamSubmissions | app/api/generate-storyboard-images-stream/route.ts:101-141 | a scene whose timestamp the cache map holds with a truthy URL is never submitted; the prompts submitted are the full prompts of the reached scenes that missed the cache, in order |
| ImagesStream.StreamPauses | app/api/generate-storyboard-images-stream/route.ts:197-199 | the route waits 1 s exactly after the reached scenes that were polled and are not the last |
| ImagesStream.FinalWrite | app/api/generate-storyboard-images-stream/route.ts:213-215 | only a stream that reached its end and kept an image writes; it replaces the whole list by the images of the events carrying a URL, cache hits and new images alike, in prompt order; otherwise the cache stays as it was |
| ImagesStream.SuccessesFromEvents | app/api/generate-storyboard-images-stream/route.ts:112-192 | every image the final write keeps has the URL, prompt and timestamp of an event of this run |
| ImagesBatch.Loop | app/api/generate-storyboard-images/route.ts:90-166 | reference definition of the first `m` iterations of the batch loop: every reached prompt is submitted with the style added and gets its result; the loop stops at the first poll that hangs |
| ImagesBatch.ResponseOf | app/api/generate-storyboard-images/route.ts:72-172 | reference definition of `POST`: 400 for an unreadable body or `prompts` missing or not an array; otherwise the list of results, unless a poll hung |
| ImagesBatch.Text | app/api/generate-storyboard-images/route.ts:94 | reference definition of the submitted prompt: the scene's prompt followed by the fixed style |
| ImagesBatch.InputOf | app/api/generate-storyboard-images/route.ts:97-106 | reference definition of the submitted `input`: the styled prompt, the fixed negative prompt, size "2048*2048", seed -1 and the safety checker on |
| ImagesBatch.ResultOf | app/api/generate-storyboard-images/route.ts:121-166 | reference definition of a finished scene's result: its timestamp and prompt with the reported URL and error |
| ImagesBatch.BatchRun | app/api/generate-storyboard-images/route.ts:72-166 | reference definition of a request's run: the loop over every prompt for a valid request, nothing for a refused one |
| ImagesBatch.TextRoundTrip | app/api/generate-storyboard-images/route.ts:94-101 | the submitted text is the scene prompt followed by the fixed style, so the scene prompt can be read back; the job input carries the fixed negative prompt |
| ImagesBatch.Outcomes | app/api/generate-storyboard-images/route.ts:90-166 | one outcome per scene |
| ImagesBatch.HungStays | app/api/generate-storyboard-images/route.ts:90-166 | once a poll hangs, no later scene is reached |
| ImagesBatch.GenerateImages | app/api/generate-storyboard-images/route.ts:72-172 | `POST` answers the reference response and submits and waits as the reference loop says |
| ImagesBatch.LoopShape | app/api/generate-storyboard-images/route.ts:90-166 | the loop submits every reached prompt with the style added, in order, and gives each finished one its result; it stops only at a hung poll |
| ImagesBatch.ResultsPerPrompt | app/api/generate-storyboard-images/route.ts:90-171 | an accepted request is answered iff no poll hangs, and then with one result per prompt, in order, each with the prompt's timestamp and text and exactly one of a non-empty URL and an error |
| ImagesBatch.SubmitsEveryPrompt | app/api/generate-storyboard-images/route.ts:90-145 | every reached prompt is submitted, in order, with the style added; all of them unless a poll hangs |
| ImagesBatch.LoopPauses | app/api/generate-storyboard-images/route.ts:154-156 | the route waits 1 s exactly after the reached scenes that were polled and are not the last |
| ImagesBatch.RoutesAgree | app/api/generate-storyboard-images/route.ts:145-152 | for a scene the cache does not hold, the streaming event and the batch result carry the same URL and the same error |
| AudioAnalysis.DetectBeats | lib/audio-analysis.ts:19-99 | reference definition of `analyzeBeatTimestamps` on a decoded signal: one beat per onset frame of the frame energies that passes the gap test, in frame order, each with its frame time, energy and confidence |
| AudioAnalysis.TempoOf | lib/audio-analysis.ts:122-128 | reference definition of the tempo: `Math.round(60 / mean interval)`, with the mean of the consecutive intervals written as (last - first) / (n - 1); no tempo for fewer than two beats or a zero mean (NaN or Infinity in the source) |
| AudioAnalysis.FeatureOf | lib/audio-analysis.ts:131-172 | reference definition of one beat's features: energy, bass and high presence read from the 100 ms window that starts at the beat, clipped to the signal; an empty window reads nothing |
| AudioAnalysis.FormatTime | lib/audio-analysis.ts:186-191 | reference definition of `formatTime`: minutes, then seconds and hundredths each padded to two digits, as `m:ss.hh` |
| AudioAnalysis.Duration | lib/audio-analysis.ts:113 | reference definition of the decoded duration: samples divided by the sample rate |
| AudioAnalysis.FrameCount | lib/audio-analysis.ts:51 | reference definition of `totalSamples`: `Math.floor(duration / 0.1)` |
| AudioAnalysis.IsOnset | lib/audio-analysis.ts:82 | reference definition of the onset test: the frame's energy strictly exceeds C times the mean of its history, and the history holds at least ten frames |
| AudioAnalysis.BeatFrames | lib/audio-analysis.ts:60-93 | reference definition of the frames accepted as beats: each onset that is the first, or lies strictly more than the minimum gap after the last accepted one, in frame order |
| AudioAnalysis.OnsetBeat | lib/audio-analysis.ts:83-90 | reference definition of the beat recorded for an onset frame: its time `i * 0.1`, its energy as amplitude, and `min(1, energy / (C * mean))` as confidence |
| AudioAnalysis.BeatWindowStart | lib/audio-analysis.ts:132 | reference definition of `Math.floor(beat.time * sampleRate)` |
| AudioAnalysis.BeatWindowEnd | lib/audio-analysis.ts:133-134 | reference definition of the window end: the start plus `Math.floor(0.1 * sampleRate)` samples, clamped to the end of the signal |
| AudioAnalysis.WindowFeature | lib/audio-analysis.ts:157-171 | reference definition of the arithmetic after the window loop: the root mean square as energy (none for an empty window, NaN in the source), and the bass and high shares of their sum, 0.5 each when it is not positive, capped at 1 |
| AudioAnalysis.JsRemainder | lib/audio-analysis.ts:188-189 | reference definition of JavaScript's `%` for a positive divisor: the remainder takes the sign of the dividend |
| AudioAnalysis.TimeFields | lib/audio-analysis.ts:187-189 | reference definition of the minutes, seconds and hundredths `formatTime` shows |
| AudioAnalysis.Threshold | lib/audio-analysis.ts:54 | over the slider range [0, 2] the threshold constant C lies in [1.3, 1.9] |
| AudioAnalysis.MinBeatGap | lib/audio-analysis.ts:56 | over the slider range the minimum time between beats lies in [1.0, 2.0] seconds |
| AudioAnalysis.FrameInBounds | lib/audio-analysis.ts:60-62 | every frame the loop visits starts and ends inside the channel data and reads at least one sample |
| AudioAnalysis.SumSq | lib/audio-analysis.ts:65-68 | a sum of squared samples is never negative |
| AudioAnalysis.FrameEnergy | lib/audio-analysis.ts:61-69 | a frame's mean squared amplitude is never negative |
| AudioAnalysis.FrameEnergies | lib/audio-analysis.ts:51-69 | one non-negative energy per frame, `floor(duration / 0.1)` frames |
| AudioAnalysis.MeasureFrame | lib/audio-analysis.ts:61-69 | the inner loop computes exactly the frame's mean squared amplitude |
| AudioAnalysis.Window | lib/audio-analysis.ts:71-76 | the history seen at frame i holds between 1 and 43 energies and ends with frame i's own |
| AudioAnalysis.FirstWindow | lib/audio-analysis.ts:71 | the first frame's history is its own energy alone |
| AudioAnalysis.WindowStep | lib/audio-analysis.ts:71-76 | push-then-shift on the previous frame's history gives the next frame's window |
| AudioAnalysis.PushHistory | lib/audio-analysis.ts:71-76 | the history array after frame i is exactly the window of frame i |
| AudioAnalysis.SumNonNegativeAtLeastLast | lib/audio-analysis.ts:79 | the reduce-sum of non-negative energies is non-negative and at least its last element |
| AudioAnalysis.MeanNonNegative | lib/audio-analysis.ts:79 | the average of the history is non-negative |
| AudioAnalysis.WindowNonNegative | lib/audio-analysis.ts:71-79 | every history window holds non-negative energies |
| AudioAnalysis.OnsetThresholdPositive | lib/audio-analysis.ts:82 | a frame that passes the onset test clears a strictly positive threshold, so the confidence division is defined |
| AudioAnalysis.OnsetTest | lib/audio-analysis.ts:79-82 | the loop's test `energy > C * avg && history.length >= 10` holds exactly when the frame is an onset |
| AudioAnalysis.Onsets | lib/audio-analysis.ts:82 | one onset verdict per frame |
| AudioAnalysis.OnsetsAreWarm | lib/audio-analysis.ts:82 | no frame before the ninth is an onset: ten history entries are needed |
| AudioAnalysis.AcceptedExtend | lib/audio-analysis.ts:85-86 | appending an onset frame that clears the gap keeps the accepted frames onsets, after warm-up and spaced |
| AudioAnalysis.AcceptedFacts | lib/audio-analysis.ts:60-93 | the accepted frames are onsets, lie before the frame count and after warm-up, and are strictly more than the gap apart |
| AudioAnalysis.BeatFramesFacts | lib/audio-analysis.ts:60-93 | the beat frames of a signal are onsets, lie in [9, n), and are spaced by more than the minimum beat gap |
| AudioAnalysis.OnsetConfidence | lib/audio-analysis.ts:86-90 | a recorded beat has confidence exactly 1 (`Math.min(1, energy / (C * avg))` with energy above C * avg) and positive amplitude |
| AudioAnalysis.BeatsOf | lib/audio-analysis.ts:86-90 | one beat per accepted frame |
| AudioAnalysis.BeatsOfAppend | lib/audio-analysis.ts:86-90 | accepting one more onset frame appends exactly its beat |
| AudioAnalysis.ScanReject | lib/audio-analysis.ts:82-85 | a frame that fails the onset or gap test leaves the beats found so far unchanged |
| AudioAnalysis.GapTest | lib/audio-analysis.ts:83-85 | the loop's gap test on the last recorded beat's time is the gap test on frame times |
| AudioAnalysis.ScanAccept | lib/audio-analysis.ts:82-91 | a frame that passes both tests is appended to the frames and its beat to the beats |
| AudioAnalysis.ScanStep | lib/audio-analysis.ts:71-92 | one iteration of the scan moves the frames and beats from the prefix before frame i to the prefix including it |
| AudioAnalysis.RecordBeat | lib/audio-analysis.ts:79-92 | the per-frame test-and-push records exactly the beats of the specification for frames 0..i |
| AudioAnalysis.AnalyzeBeatTimestamps | lib/audio-analysis.ts:19-99 | the whole scan returns exactly `DetectBeats(signal, sensitivity)` |
| AudioAnalysis.BeatsAreSpaced | lib/audio-analysis.ts:56 | consecutive detected beats are strictly more than the minimum gap, hence more than one second, apart |
| AudioAnalysis.BeatsOnFramesAfterWarmup | lib/audio-analysis.ts:82-83 | every beat lies on a 100 ms frame boundary `i * 0.1` with `9 <= i < frame count`, so no beat is earlier than 0.9 s |
| AudioAnalysis.BeatsHaveFullConfidence | lib/audio-analysis.ts:89 | every detected beat reports confidence 1 and a positive amplitude |
| AudioAnalysis.SumSqOfSilence | lib/audio-analysis.ts:65-68 | the energy of an all-zero stretch is zero |
| AudioAnalysis.SilentFrameIsNoOnset | lib/audio-analysis.ts:82 | a frame with zero energy never passes the strict onset test |
| AudioAnalysis.NoEnergyNoFrames | lib/audio-analysis.ts:60-93 | with every frame silent no frame is accepted |
| AudioAnalysis.SilenceHasNoBeats | lib/audio-analysis.ts:19-99 | an all-zero signal yields no beats, whatever the sensitivity |
| AudioAnalysis.BeatCountBound | lib/audio-analysis.ts:56-93 | the beat count is bounded by the frame count: `11 * beats <= frames + 1` |
| AudioAnalysis.TotalEnergy | lib/audio-analysis.ts:116-119 | the first loop sums the squares of all samples |
| AudioAnalysis.EstimateTempo | lib/audio-analysis.ts:123-128 | the interval loop and average give exactly `TempoOf(beats)`: rounded 60 over the mean interval, None where the source computes NaN or an infinity |
| AudioAnalysis.BassSum | lib/audio-analysis.ts:147-151 | the bass bucket is a non-negative sum of squares |
| AudioAnalysis.HighSum | lib/audio-analysis.ts:151-153 | the high-frequency bucket is a non-negative sum of squares |
| AudioAnalysis.BucketsCoverWindowButFirst | lib/audio-analysis.ts:142-155 | bass plus high energy is the window's energy without its first sample: every later sample goes to exactly one bucket |
| AudioAnalysis.AccumulateWindow | lib/audio-analysis.ts:137-155 | the window loop computes the total, bass and high sums; an empty or inverted window leaves all three 0 |
| AudioAnalysis.BeatWindowInRange | lib/audio-analysis.ts:132-134 | a beat's 100 ms window starts at or after sample 0 and ends inside the channel data |
| AudioAnalysis.ScaledShares | lib/audio-analysis.ts:159-164 | dividing both buckets by the window length does not change their shares |
| AudioAnalysis.SharesOfTotal | lib/audio-analysis.ts:162-164 | with a positive total the two shares are in [0, 1] and sum to 1 |
| AudioAnalysis.NegativeLengthShares | lib/audio-analysis.ts:157-164 | with a negative window length the divided total is not positive, so both shares fall back to 0.5 |
| AudioAnalysis.WindowShares | lib/audio-analysis.ts:157-171 | a feature keeps the beat's time and both presences lie in [0, 1]; they are the buckets' shares of their sum when the window is non-empty with energy, and 0.5 otherwise |
| AudioAnalysis.BeatShares | lib/audio-analysis.ts:131-172 | a beat's bass and high-frequency presences are in [0, 1] and are its window's bucket shares, or 0.5 each for a window without energy |
| AudioAnalysis.BeatFeatureAt | lib/audio-analysis.ts:131-172 | the per-beat body computes exactly `FeatureOf(signal, time)` |
| AudioAnalysis.AnalyzeAudioCharacteristics | lib/audio-analysis.ts:101-184 | duration is the signal's; overall energy is `min(1, 10 * rms)` and so in [0, 1]; tempo is `TempoOf(beats)`; one feature per beat, each `FeatureOf` that beat's time |
| AudioAnalysis.FormatTimeShape | lib/audio-analysis.ts:186-191 | for a non-negative time `formatTime` prints `m:ss.hh` with two-digit seconds in [0, 59] and hundredths in [0, 99] that read back as the fields, and the time shown is the input truncated to hundredths |
| CharacterEdit.ParseDataUrl | app/api/regenerate-with-character/route.ts:79-85 | reference definition of the match of `/^data:([A-Za-z-+/]+);base64,(.+)$/`: the media type and the payload, or none |
| CharacterEdit.PollFrom | app/api/regenerate-with-character/route.ts:11-72 | reference definition of the edit poller from one attempt on: a URL ends it; a failure is swallowed and the next attempt follows, except on the 30th attempt, which throws it; a 429 waits 5 s and a pending reply 3 s; after 30 attempts it times out; running out of replies stalls |
| CharacterEdit.EditResponse | app/api/regenerate-with-character/route.ts:107-169 | reference definition of `POST`'s answer, stage by stage: 500 for an unreadable body, 400 for a missing field, 500 for a bad data URL, a failed upload, a refused or unparsable submission or a failed poll; otherwise the edited image |
| CharacterEdit.SubmittedJob | app/api/regenerate-with-character/route.ts:118-138 | reference definition of the job submitted: the blend prompt around the user's prompt, the scene image then the uploaded character image, 1024x1024, safety checker on; none when the route stops before submitting |
| CharacterEdit.FormatDataUrl | app/api/regenerate-with-character/route.ts:79 | reference definition of the string the data-URL pattern describes: "data:", the media type, ";base64," and the payload |
| CharacterEdit.PollOf | app/api/regenerate-with-character/route.ts:11-72 | reference definition of `pollJobStatus`: `PollFrom` from attempt 1, having waited nothing |
| CharacterEdit.EditJobOf | app/api/regenerate-with-character/route.ts:121-138 | reference definition of the job for a scene image, an uploaded character image and a prompt: the blend prompt around the user's prompt, images in that order, "1024x1024", safety checker on |
| CharacterEdit.JobIdText | app/api/regenerate-with-character/route.ts:147-151 | reference definition of the job id as the status URL spells it: the id, or "undefined" when the reply has none |
| CharacterEdit.BlendKeepsPrompt | app/api/regenerate-with-character/route.ts:121 | the user's prompt sits whole between the fixed opening and closing of the blend prompt, so two different prompts never give the same job |
| CharacterEdit.ProviderOnlyAfterSubmission | app/api/regenerate-with-character/route.ts:107-169 | without a submitted job the provider's replies cannot change the answer; an edited image always comes from a job that lists the scene image first and the uploaded character image second, at 1024x1024 with the safety checker on and the blend prompt |
| CharacterEdit.MimeSpan | app/api/regenerate-with-character/route.ts:79 | the MIME part of a data URL is the longest prefix of characters from `[A-Za-z-+/]` |
| CharacterEdit.MimeSpanOf | app/api/regenerate-with-character/route.ts:79 | the MIME span of a MIME-character string followed by a non-MIME character is exactly that string |
| CharacterEdit.ParseFormat | app/api/regenerate-with-character/route.ts:79-85 | a well-formed data URL, once formatted, matches the pattern and gives back its MIME type and payload |
| CharacterEdit.FormatParse | app/api/regenerate-with-character/route.ts:79-85 | every string the pattern accepts is a well-formed data URL that formats back to the same string |
| CharacterEdit.CheckOf | app/api/regenerate-with-character/route.ts:24-62 | a URL is found only in an ok COMPLETED reply whose output yields it through the `result`, `image`, `images[0]`, `url`, string chain; a 429 is a rate limit exactly; a job is still pending exactly when an ok reply has a status other than COMPLETED and FAILED; everything else is an error |
| CharacterEdit.PollJobStatus | app/api/regenerate-with-character/route.ts:11-72 | the attempt loop returns exactly the outcome `PollOf` defines: at most 30 checks, errors swallowed except on the last attempt, 5 s after a 429 and 3 s after a pending reply |
| CharacterEdit.FoundFrom | app/api/regenerate-with-character/route.ts:40-51 | when no earlier check found a URL and check n does, the poll succeeds with that URL after n + 1 checks |
| CharacterEdit.NotFoundFrom | app/api/regenerate-with-character/route.ts:63-67 | when none of the 30 checks finds a URL the poll throws after 30 checks with the last attempt's error |
| CharacterEdit.PollCharacterised | app/api/regenerate-with-character/route.ts:11-72 | the poll succeeds with the first found URL when one comes within 30 replies, and throws the last attempt's message when none of the 30 finds one |
| CharacterEdit.NoSleepBeforeFirstCheck | app/api/regenerate-with-character/route.ts:14-51 | a URL in the first reply is returned without any wait |
| CharacterEdit.MissingFieldsRefused | app/api/regenerate-with-character/route.ts:112-114 | a request lacking a truthy scene URL, character image or prompt gets 400 "Missing required fields", whatever the upload, provider and poll would have done |
| CharacterEdit.EditedOnlyForDataUrl | app/api/regenerate-with-character/route.ts:107-161 | an edited image is answered only when all three fields are present, the character image is a well-formed data URL, the upload and the ok submission succeeded with a job, and the poll succeeded; the answer is the poll's URL |
| CharacterEdit.RegenerateWithCharacter | app/api/regenerate-with-character/route.ts:107-169 | answers `EditResponse` and submits the job `SubmittedJob` says, if any; on success saves the scene URL as the original for the timestamp and upserts the edited image entry; on any failure the store is unchanged |
| Revert.RevertResponse | app/api/revert-to-original/route.ts:6-36 | 400 exactly for a missing timestamp (0 is accepted); the original URL exactly when an original is saved for the timestamp; 404 otherwise, 500 for an unreadable body |
| Revert.RevertToOriginal | app/api/revert-to-original/route.ts:6-36 | answers `RevertResponse`; a revert upserts the image entry of the timestamp to the original URL and keeps the original; a refusal changes nothing |
| Revert.RevertUndoesEdit | app/api/revert-to-original/route.ts:18-28 | after a character edit of a scene, reverting answers the scene image the edit started from, and the image list then shows it for the scene |
| Revert.RevertTwice | app/api/revert-to-original/route.ts:25 | reverting twice leaves the same image list as reverting once: the original is not consumed |
| Common.Round | app/storyboard/page.tsx:240 | `Math.round` lands within half a unit of its argument |
| Common.OrElse | app/render/page.tsx:229-246 | `a \|\| b` on strings is truthy exactly when one of them is |
| Text.ToFixed2 | app/api/generate-scene-prompts/route.ts:37 | reference definition of `toFixed(2)`: the nearest hundredth, ties away from zero, with two decimals and a leading "-" for a negative number |
| Text.NatToStringRoundTrip | app/api/generate-scene-prompts/route.ts:37 | the decimal text of a beat number reads back as that number |
| Text.TwoDigitsRoundTrip | lib/audio-analysis.ts:190 | `padStart(2, "0")` of a number below 100 is two digits that read back as the number |
| Text.SplitJoin | app/storyboard/page.tsx:220 | splitting lines joined by a separator that none of them holds gives back the lines |
| ScenePrompts.EnergyLevel | app/api/generate-scene-prompts/route.ts:28 | reference definition: "high energy" above 0.7, "moderate energy" above 0.4, else "calm" |
| ScenePrompts.TempoDescription | app/api/generate-scene-prompts/route.ts:29 | reference definition: "fast-paced" above 140, "upbeat" above 100, "mid-tempo" above 80, else "slow", which a `null` tempo also reads |
| ScenePrompts.EnergyDescription | app/api/generate-scene-prompts/route.ts:34 | reference definition: "intense" above 0.7, "moderate" above 0.4, else "soft" |
| ScenePrompts.BassDescription | app/api/generate-scene-prompts/route.ts:35-36 | reference definition: "bass-heavy" above 0.6, "balanced" above 0.4, else "treble-focused" |
| ScenePrompts.BeatDescriptions | app/api/generate-scene-prompts/route.ts:32-39 | reference definition of the beat analysis: one line per beat, joined by newlines |
| ScenePrompts.JsonMatch | app/api/generate-scene-prompts/route.ts:84-89 | reference definition of `text.match(/\[[\s\S]*\]/)`: from the first '[' to the last ']', when some ']' follows it |
| ScenePrompts.ResponseOf | app/api/generate-scene-prompts/route.ts:7-103 | reference definition of `POST`: 500 for an unreadable body, 400 without characteristics or beats, 500 without an API key; otherwise 500 when the model call throws, and the prompts parsed from the bracketed part of its reply (or the whole reply), or 500 when that does not parse |
| ScenePrompts.BeatLine | app/api/generate-scene-prompts/route.ts:37 | reference definition of a beat's line: "Beat ", its position from 1, " at ", its time to two decimals, "s: ", its energy word, ", ", its bass word |
| ScenePrompts.JsonCandidate | app/api/generate-scene-prompts/route.ts:84-89 | reference definition of the text handed to `JSON.parse`: the bracketed match, or the whole reply when there is none |
| ScenePrompts.BriefOf | app/api/generate-scene-prompts/route.ts:51-58 | reference definition of what the model is told: the file name, the tempo and its words, the overall energy and its words, the duration, the beat count and the beat analysis |
| ScenePrompts.Band | app/api/generate-scene-prompts/route.ts:28-36 | a value's band is the number of thresholds it strictly exceeds, at most the number of thresholds |
| ScenePrompts.DescriptionsAreBands | app/api/generate-scene-prompts/route.ts:28-36 | each of the four nested conditionals picks the word of the band the value falls in |
| ScenePrompts.BandSplit | app/api/generate-scene-prompts/route.ts:28-36 | for increasing thresholds, threshold i is exceeded exactly when i is below the band |
| ScenePrompts.BandBounds | app/api/generate-scene-prompts/route.ts:28-36 | band k is exactly the interval (threshold k-1, threshold k] |
| ScenePrompts.BandMonotone | app/api/generate-scene-prompts/route.ts:28-36 | a larger value never falls in a lower band |
| ScenePrompts.DescriptionIntervals | app/api/generate-scene-prompts/route.ts:28-36 | "calm" iff energy <= 0.4, "moderate energy" iff 0.4 < energy <= 0.7, "high energy" iff above 0.7; "slow", "mid-tempo", "upbeat", "fast-paced" at the 80, 100 and 140 BPM boundaries; a beat is "moderate" iff its energy is in (0.4, 0.7] and "balanced" iff its bass share is in (0.4, 0.6] |
| ScenePrompts.DescriptionsMonotone | app/api/generate-scene-prompts/route.ts:28-36 | more energy, a faster tempo or more bass never gives a calmer, slower or more treble word |
| ScenePrompts.LineNumber | app/api/generate-scene-prompts/route.ts:37 | the line of beat index i is numbered i + 1, counted from 1 |
| ScenePrompts.BeatLines | app/api/generate-scene-prompts/route.ts:32-38 | one line per beat |
| ScenePrompts.BeatLineFacts | app/api/generate-scene-prompts/route.ts:37 | a beat line holds no newline and starts with its `Beat n at` head |
| ScenePrompts.BeatDescriptionsLines | app/api/generate-scene-prompts/route.ts:32-39 | the joined descriptions are empty for no beats, and otherwise split back at newlines into exactly the beat lines, line i starting with beat number i + 1 |
| ScenePrompts.FirstIndex | app/api/generate-scene-prompts/route.ts:84 | the first occurrence of a character, or none when it does not occur |
| ScenePrompts.LastIndex | app/api/generate-scene-prompts/route.ts:84 | the last occurrence of a character, or none when it does not occur |
| ScenePrompts.MatchWithinSpan | app/api/generate-scene-prompts/route.ts:84 | any match of `/\[[\s\S]*\]/` lies between the first `[` and the last `]` |
| ScenePrompts.JsonMatchIsRegexMatch | app/api/generate-scene-prompts/route.ts:84-89 | the pattern finds no match exactly when no `[ ... ]` span exists; otherwise it picks the leftmost-longest one, from the first `[` to the last `]` after it |
| ScenePrompts.ChecksBeforeModel | app/api/generate-scene-prompts/route.ts:11-22 | a request missing its analysis or its beats gets 400 and one with them but no key gets 500, both before and whatever the model would answer |
| ScenePrompts.PromptsWhenParsed | app/api/generate-scene-prompts/route.ts:41-101 | once the model is called, prompts are answered exactly when it replies with text whose matched part parses, and they are the parse; otherwise 500 with "Failed to parse AI response" exactly for a text reply and "Failed to generate scene prompts" for a thrown call |
| StoryboardPage.DurationAt | app/storyboard/page.tsx:73-76 | reference definition: a scene lasts until the next one starts; the last lasts 3 s |
| StoryboardPage.LineStep | app/storyboard/page.tsx:222-256 | reference definition of one stream line: `[DONE]` sets the progress to 100; a result updates the cards with its timestamp, each counting as completed whether it got an image or an error; anything else changes nothing |
| StoryboardPage.Reverted | app/storyboard/page.tsx:377-397 | reference definition of a card after a revert: an answered URL replaces the image and clears the character edit; in every case the card stops regenerating |
| StoryboardPage.Loaded | app/storyboard/page.tsx:73-122 | reference definition of the cards after loading: the timeline with durations; a non-empty image cache gives every card the cached image of its timestamp or none, an empty cache or failed read leaves them without images |
| StoryboardPage.CachedUrl | app/storyboard/page.tsx:106-110 | reference definition of `cachedUrl || null`: the URL the map holds for the timestamp, when truthy |
| StoryboardPage.IsDone | app/storyboard/page.tsx:223-230 | reference definition of the `data: [DONE]` line |
| StoryboardPage.ResultOf | app/storyboard/page.tsx:223-233 | reference definition of the result a line carries: a `data: ` line other than `[DONE]` whose payload parses |
| StoryboardPage.Receive | app/storyboard/page.tsx:243-248 | reference definition of a card receiving a result: its truthy URL or `null`, its truthy error or none, and no longer generating |
| StoryboardPage.Percent | app/storyboard/page.tsx:240 | reference definition of `Math.round((completedCount / prompts.length) * 100)` |
| StoryboardPage.ReadLines | app/storyboard/page.tsx:222-257 | reference definition of reading the lines of a chunk: `LineStep` on each line in order |
| StoryboardPage.ReadChunks | app/storyboard/page.tsx:214-258 | reference definition of reading the stream: each chunk split on "\n", then its lines read in order |
| StoryboardPage.WithDurations | app/storyboard/page.tsx:73-76 | one card per timeline entry |
| StoryboardPage.TotalDurationFrom | app/storyboard/page.tsx:73-76 | the first m durations add up to the gap from the first scene to scene m, plus scene m's own duration (its gap to the next scene, or 3 s for the last) |
| StoryboardPage.TimelineCovered | app/storyboard/page.tsx:73-76 | the durations cover the timeline: from the first scene to the start of the last, plus 3 s |
| StoryboardPage.WithCachedImages | app/storyboard/page.tsx:105-112 | showing cached images keeps every card's scene |
| StoryboardPage.CachedImageShown | app/storyboard/page.tsx:99-112 | each card shows the URL of the last cache entry for its timestamp when it is non-empty, and no image otherwise; the rest of the card is kept |
| StoryboardPage.Matches | app/storyboard/page.tsx:238 | the number of cards with a timestamp is at most the number of cards |
| StoryboardPage.ApplyResult | app/storyboard/page.tsx:236-252 | a result keeps every card's scene |
| StoryboardPage.Started | app/storyboard/page.tsx:177-183 | starting generation keeps every card's scene |
| StoryboardPage.Stopped | app/storyboard/page.tsx:263 | stopping after a failed request keeps every card's scene |
| StoryboardPage.PromptsOf | app/storyboard/page.tsx:188-191 | one prompt is sent per card |
| StoryboardPage.Cleared | app/storyboard/page.tsx:128 | after clearing, no card shows an image and everything else on each card is kept |
| StoryboardPage.RevertShowsOriginal | app/storyboard/page.tsx:361-391 | a revert against the route shows the scene's saved original and clears its edit mark exactly when a non-empty original is saved; otherwise the card keeps its image and mark; the spinner always stops |
| StoryboardPage.ReadLinesAppend | app/storyboard/page.tsx:214-258 | reading two runs of lines is reading the first and then the second |
| StoryboardPage.ChunksAreLines | app/storyboard/page.tsx:214-222 | reading a stream chunk by chunk is reading the lines of all chunks in order |
| StoryboardPage.OnlyDataLines | app/storyboard/page.tsx:223 | lines without the `data: ` prefix are ignored |
| StoryboardPage.ReadKeepsScenes | app/storyboard/page.tsx:236-252 | reading the stream keeps every card's scene and never lowers the completed count |
| StoryboardPage.LastResultWins | app/storyboard/page.tsx:236-252 | after the stream each card shows the URL and error of the last result carrying its timestamp, and is untouched when none does |
| StoryboardPage.MatchesKeep | app/storyboard/page.tsx:238 | the number of cards with a timestamp depends only on the scenes |
| StoryboardPage.CompletedCountsHits | app/storyboard/page.tsx:236-241 | `completedCount` grows by one for every card a result reaches, whether the result carries an image or an error |
| StoryboardPage.DoneCompletes | app/storyboard/page.tsx:226-229 | when the last data line is `[DONE]` the progress ends at 100 |
| StoryboardPage.Page.constructor | app/storyboard/page.tsx:25-33 | the page starts with no cards, progress 0, not generating and no cached images |
| StoryboardPage.Page.LoadFromData | app/storyboard/page.tsx:72-123 | the cards are `Loaded(timeline, cache)`: durations, then the cached images when the cache holds any, which also marks the images as cached; progress and the generating flag are kept |
| StoryboardPage.Page.ReadChunk | app/storyboard/page.tsx:219-257 | the loop over one chunk's lines leaves the cards, count and progress that `ReadLines` gives for them |
| StoryboardPage.Page.GenerateImages | app/storyboard/page.tsx:168-269 | refused with no cards; otherwise sends one prompt per card, and after a failed request stops every card with progress 0, or after a stream leaves the cards, count and progress of reading all its chunks from the started cards; never generating afterwards |
| StoryboardPage.Page.RevertToOriginal | app/storyboard/page.tsx:352-399 | a card without a character edit is left alone; otherwise only that card changes, to `Reverted` of the reply |
| StoryboardPage.Page.ClearImageCache | app/storyboard/page.tsx:125-135 | when the clearing request does not throw (the reply's status is not read), no card shows an image and the cached mark is off; a request that throws changes nothing |
| RenderPage.Receive | app/render/page.tsx:238-243 | reference definition of a scene receiving a result: each truthy field of the result replaces the scene's, the others are kept |
| RenderPage.LineStep | app/render/page.tsx:215-253 | reference definition of one stream line: `[DONE]` sets the progress to 100; a result updates the scenes with its timestamp, and only a `completed` result counts, once per scene it reaches |
| RenderPage.Decide | app/render/page.tsx:271-286 | reference definition of `handleStitchVideos`: nothing to stitch without a completed video, a confirmation when only some are completed, the stitcher otherwise |
| RenderPage.VideoMap | app/render/page.tsx:109-112 | reference definition of `videoMap`: each cached video set under its timestamp in list order, the later entry winning |
| RenderPage.WithVideo | app/render/page.tsx:116-124 | reference definition of a scene taking its cached video: its URL, status, job id and error |
| RenderPage.ResultOf | app/render/page.tsx:216-226 | reference definition of the result a line carries: a `data: ` line other than `[DONE]` whose payload parses |
| RenderPage.Hit | app/render/page.tsx:231 | reference definition of `item.timestamp === result.timestamp` |
| RenderPage.ReadLines | app/render/page.tsx:215-253 | reference definition of reading the lines of a chunk: `LineStep` on each line in order |
| RenderPage.ReadChunks | app/render/page.tsx:207-254 | reference definition of reading the stream: each chunk split on "\n", then its lines read in order |
| RenderPage.StitchUrls | app/render/page.tsx:460-463 | reference definition of the stitcher's `videoUrls`: the URLs of the completed scenes with a video, ordered by timestamp |
| RenderPage.Opens | app/render/page.tsx:274-286 | reference definition of whether the stitcher opens: all completed, or only some and the user confirms |
| RenderPage.LastVideoUrl | app/render/page.tsx:240 | reference definition of the URL a scene shows after a stream: the last truthy `videoUrl` of a result for its timestamp, or its own |
| RenderPage.AutoStitchAsWritten | app/render/page.tsx:258-260 | the auto-stitch step as written: it decides on the scenes as they were when the button was clicked (see Findings) |
| RenderPage.AutoStitch | app/render/page.tsx:258-260 | the auto-stitch step as intended: it decides on the scenes as the stream left them (see Findings) |
| RenderPage.StatusText | app/render/page.tsx:325-338 | reference definition of a status label: Completed, Failed, Processing..., Queued, and Pending for any other status |
| RenderPage.WithDurations | app/render/page.tsx:71-75 | one scene per timeline entry, every one pending |
| RenderPage.WithCachedImages | app/render/page.tsx:92-97 | showing cached images keeps every scene |
| RenderPage.CachedImageShown | app/render/page.tsx:85-97 | each scene shows the URL of the last cache entry for its timestamp, or "" when there is none or it is empty; the rest of the scene is kept |
| RenderPage.VideoMapLastWins | app/render/page.tsx:109-112 | the map built from the cached videos holds a timestamp exactly when some video has it, and maps it to the last such video |
| RenderPage.BuildVideoMap | app/render/page.tsx:109-112 | the `forEach` loop builds exactly `VideoMap(videos)` |
| RenderPage.WithCachedVideos | app/render/page.tsx:114-128 | merging cached videos keeps every scene |
| RenderPage.CachedVideoShown | app/render/page.tsx:107-128 | a scene takes the URL, status, job id and error of the last cached video for its timestamp, and is unchanged without one |
| RenderPage.Matches | app/render/page.tsx:231 | the number of scenes a result reaches is at most the number of scenes |
| RenderPage.ApplyResult | app/render/page.tsx:229-248 | a result keeps every scene |
| RenderPage.Started | app/render/page.tsx:168-174 | starting generation keeps every scene |
| RenderPage.PromptsOf | app/render/page.tsx:179-184 | one video prompt is sent per scene |
| RenderPage.ReadKeepsScenes | app/render/page.tsx:207-254 | reading the stream keeps every scene and never lowers the completed count |
| RenderPage.MatchesKeep | app/render/page.tsx:231 | the number of scenes a result reaches depends only on the scenes |
| RenderPage.CompletedCountsCompletions | app/render/page.tsx:231-236 | `completedCount` grows only for "completed" results, once per scene each reaches; queued, processing and failed results and stream errors leave it as it is |
| RenderPage.LastVideoUrlWins | app/render/page.tsx:238-244 | after the stream a scene's video URL is the last non-empty URL a result for its timestamp carried, or the one it had: a result without a URL never erases one |
| RenderPage.CompletedVideos | app/render/page.tsx:272 | the filter keeps exactly the scenes whose status is "completed" and whose video URL is truthy |
| RenderPage.InsertByTime | app/render/page.tsx:462 | inserting a scene adds exactly that scene to the sequence |
| RenderPage.InsertKeepsSorted | app/render/page.tsx:462 | inserting into scenes sorted by timestamp keeps them sorted |
| RenderPage.SortByTime | app/render/page.tsx:462 | the sort is a permutation ordered by timestamp |
| RenderPage.SortedAreCompleted | app/render/page.tsx:460-462 | every scene handed to the stitcher has a completed video and is one of the page's scenes |
| RenderPage.StitcherInput | app/render/page.tsx:460-463 | the stitcher gets one URL per completed video, ordered by timestamp, each the non-empty URL of a completed scene, and every completed scene is among them |
| RenderPage.DecideAllCompleted | app/render/page.tsx:272-286 | with at least one scene, the stitcher opens without a question exactly when every scene has a completed video, and "No completed videos" is reported exactly when none has |
| RenderPage.AllKept | app/render/page.tsx:272 | when every scene has a completed video the filter keeps them all |
| RenderPage.NotAllKept | app/render/page.tsx:272 | when one scene lacks a completed video the filter keeps fewer than all |
| RenderPage.StaleStitchNeverOpens | app/render/page.tsx:258-260 | as written, when the scenes at click time had no completed video (as on a first generation), the auto-stitch never opens the stitcher, whatever the stream delivered |
| RenderPage.StaleStitchExample | app/render/page.tsx:258-260 | one pending scene whose video the stream reports completed: the intended step opens the stitcher and the step as written does not |
| RenderPage.AutoStitchOpens | app/render/page.tsx:258-286 | as intended, once every scene's video has completed and each was counted once, the stitcher opens without a question |
| RenderPage.StatusTextOfCached | app/render/page.tsx:325-338 | a cached video's status is shown by its own label and never as "Pending", the four labels differ, and the pending status reads "Pending" |
| RenderPage.ClearedVideos | app/render/page.tsx:301 | after clearing, every scene is pending with no video and keeps its image |
| RenderPage.Page.constructor | app/render/page.tsx:23-34 | the page starts with no scenes, no audio URL, progress 0, not generating, no cached videos, no stitched video and the stitcher closed |
| RenderPage.Page.LoadFromData | app/render/page.tsx:70-156 | the scenes are the pending timeline, then the cached images when any, then the cached videos when any (which also marks videos as cached); the stitched video is shown when one is read; the audio URL is the given one |
| RenderPage.Page.ReadLine | app/render/page.tsx:216-251 | one line of the stream moves the scenes, count and progress as `LineStep` says, and nothing else |
| RenderPage.Page.ReadChunk | app/render/page.tsx:212-253 | the loop over one chunk's lines leaves the scenes, count and progress that `ReadLines` gives for them |
| RenderPage.Page.StitchVideos | app/render/page.tsx:271-287 | the stitcher opens exactly when `Decide` opens it given the answer to the question; nothing else changes |
| RenderPage.Page.GenerateVideos | app/render/page.tsx:158-269 | refused while a scene lacks an image; otherwise sends one prompt per scene with the audio URL, and after a failed request leaves the started scenes with progress 0, or after a stream leaves the scenes, count and progress of reading all its chunks, opening the stitcher when `AutoStitch` holds on the scenes as the stream left them; never generating afterwards |
| RenderPage.Page.ClearVideoCache | app/render/page.tsx:298-309 | when the clearing request does not throw (the reply's status is not read), every scene is pending with no video, and the cached mark and stitched video are gone; a request that throws changes nothing |
| Editor.StageMessage | components/audio-video-editor.tsx:126-137 | reference definition of the text under each stage; nothing while idle |
| Editor.AudioVideoEditor.Valid | components/audio-video-editor.tsx:22-28 | the state the handlers keep between them: idle or complete; idle only before any beats were found; a timeline only with beats; the sensitivity within the slider's 0 to 2 |
| Editor.StageMessagesDistinct | components/audio-video-editor.tsx:126-137 | only the idle stage shows no message, and the other stages show different messages |
| Editor.PromptsAlert | components/audio-video-editor.tsx:77-97 | no alert exactly when the route answered with prompts; any other alert is non-empty unless the fetch itself threw an empty message |
| Editor.WithPrompt | components/audio-video-editor.tsx:101-105 | editing a prompt keeps the number of timeline items |
| Editor.EditTouchesOnlyItsTimestamp | components/audio-video-editor.tsx:101-105 | an edit keeps every timestamp and the order, sets the prompt of the items at its timestamp, and leaves the other items as they were |
| Editor.EditsCompose | components/audio-video-editor.tsx:101-105 | the last edit at a timestamp wins, and edits at two different timestamps can be made in either order |
| Editor.StoryboardItems | components/audio-video-editor.tsx:163-168 | one storyboard item is posted per timeline item |
| Editor.StoryboardShowsTimeline | components/audio-video-editor.tsx:157-188 | the storyboard page opened on the posted timeline shows one card per item, in order, with the item's timestamp and prompt, whatever the image cache holds |
| Editor.DetectedBeatsTimed | lib/audio-analysis.ts:82-83 | every detected beat has a non-negative time, as the per-beat feature window needs |
| Editor.AudioVideoEditor.constructor | components/audio-video-editor.tsx:25-28 | the editor starts idle with no beats, no timeline and sensitivity 1.0, and its invariant holds |
| Editor.AudioVideoEditor.AnalyzeAudio | components/audio-video-editor.tsx:38-51 | a decodable file gives the beats detected at the current sensitivity and the complete stage; an undecodable one returns to idle with the "Failed to analyze audio" alert; the timeline and sensitivity are kept |
| Editor.AudioVideoEditor.OnAudioFile | components/audio-video-editor.tsx:32-36 | a new file is analysed only while the editor is idle; otherwise nothing changes |
| Editor.AudioVideoEditor.StartProcessing | components/audio-video-editor.tsx:53-98 | nothing happens without beats; otherwise it sends the song's duration, tempo, overall energy and one feature per beat with the file name, ends complete, and replaces the timeline with the prompts exactly when the route answered prompts, alerting otherwise |
| Editor.AudioVideoEditor.ChangePrompt | components/audio-video-editor.tsx:101-105 | the timeline becomes `WithPrompt(timeline, t, prompt)` and nothing else changes |
| Editor.AudioVideoEditor.ChangeSensitivity | components/audio-video-editor.tsx:139-155 | the new sensitivity is always stored; with beats, a decodable file is re-analysed at it and the timeline is cleared, an undecodable one keeps beats and timeline, and the stage ends complete |
| Editor.AudioVideoEditor.GenerateStoryboard | components/audio-video-editor.tsx:157-188 | refused with "Please generate scene prompts first" exactly when the timeline is empty; otherwise posts the timeline, the file name, its URL and the time |

## Left out

- Web Audio decoding (`AudioContext`, `decodeAudioData`, the unused offline context and analyser) is not modelled.
  - The model takes the channel samples and the sample rate as a `Signal`.
  - A file that does not decode is the `Undecodable` case of `Editor.Audio`.
- `Math.sqrt` is a parameter `root`. It is only required to map non-negative numbers to non-negative ones.
- Arithmetic is over unbounded reals. IEEE rounding, NaN and infinities are not modelled.
  - A tempo the source computes as NaN or an infinity (fewer than two beats, or a zero mean interval) is `None`.
- AudioAnalysis.AnalyzeBeatTimestamps: the sensitivity is required to lie in [0, 2]. That is the range of the editor's slider, its only caller (components/audio-video-editor.tsx:210-215). Outside it the threshold can be zero or negative.
- Editor.AudioVideoEditor.ChangeSensitivity: the new sensitivity is required to lie in [0, 2], the slider's range.
- The Redis client, its network failures and TTL expiry are not modelled. The TTLs are kept as constants only.
  - Every cache operation takes the outcome of its store calls as booleans.
  - The routes are modelled against a store whose calls succeed.
  - Concurrent requests and their read-modify-write races are not modelled, because the model is sequential.
- `fetch` to the provider, abort timeouts and real sleeps are not modelled.
  - Provider replies are a finite script.
  - Sleeps are accumulated as waiting times in milliseconds.
  - A poll whose script runs out before an outcome is "hung": the streaming routes stop there, and the non-streaming image route answers nothing.
  - The video poller has no bound on rate limits (app/api/generate-videos-stream/route.ts:107-111): a provider that answers "Too Many Requests" forever keeps it polling forever. With finite scripts that poll is a hung one (`VideoStream.RateLimitsNeverEnd`).
- The `ReadableStream` and `TextEncoder` transport and JSON serialisation are not modelled.
  - Events are records, and a stream line is the event's text.
  - On the pages, `JSON.parse` is a parameter `parse` that returns `None` where it throws.
  - Each chunk the page reads is assumed to hold whole lines.
- RenderPage.Page.GenerateVideos: its auto-stitch step is the corrected one from the Findings table. It decides with `AutoStitch` on the scenes as the stream left them, not with `AutoStitchAsWritten` on the scenes captured at the click (app/render/page.tsx:258-260).
- RenderPage.Page.GenerateVideos: a stream whose read throws after some chunks is not modelled, because a reply (`StoryboardPage.StreamReply`) is either a failed request or the complete list of chunks. In the source the scenes keep the results already applied, progress drops to 0 and the auto-stitch is skipped (app/render/page.tsx:262-265).
- StoryboardPage.Page.GenerateImages: a stream whose read throws after some chunks is not modelled, for the same reason (`StreamReply` has no case for it). In the source the cards keep the images already applied, every card stops generating and progress drops to 0 (app/storyboard/page.tsx:261-265).
- The OpenAI call of the scene-prompt route is a parameter `ask`. Its reply text is parsed by the parameter `parse`.
  - The exact system and user prompt texts are not modelled.
  - The prompts sent to the image provider are represented structurally (scene text plus a fixed style).
- Editor.AudioVideoEditor.StartProcessing: the route's reply is a parameter. It is not tied to `ScenePrompts.ResponseOf` on the characteristics sent.
- A non-ok reply of the scene-prompt route is modelled as its `Failure` payload. An error body that is not JSON is not modelled.
- Revert.RevertToOriginal: the request's prompt is taken as present. The route never checks it (app/api/revert-to-original/route.ts:9, 25); a missing prompt would be stored as `undefined` and drop out of the cached JSON, which the model does not represent.
- Vercel Blob uploads and base64 decoding are not modelled: the upload outcome is a parameter `Upload`.
- React state updates are applied immediately and in order.
  - Each async handler runs to completion without interleaving.
  - The outcomes of its requests are parameters.
  - The stages it passes through are returned as a trace.
- `alert`, `confirm`, `sessionStorage`, the router, object URLs, audio playback and the JSX are not modelled. The answer to `confirm` is a parameter `proceed`.
- The storyboard page's character upload handlers (`handleCharacterUpload`, `handleFileChange`) are not modelled, because they only read a browser file and call the edit route. The edit route itself is modelled.
- The editor's `handleExport` and `handleRegeneratePrompt` are not modelled. They only download a file and show an alert.
- The thin cache routes (`app/api/get-cached-*`, `get-stitched-video`, `clear-*-cache`, `cache-storyboard`) are not part of this model. The pages' reads of them are parameters.
- Video muxing (the stitcher component and the stitch scripts and route), the waveform, newsletter and timeline widgets, and frame extraction are not part of this model.
- The clock (`Date.now()`) is a single parameter `now` for each operation.

## Findings

| source | as written | input that shows it | evidently intended | confidence | as-written member | corrected member |
|---|---|---|---|---|---|---|
| app/render/page.tsx:258-260 | after the stream, `handleStitchVideos` decides on the `items` captured when the button was clicked, so the auto-stitch checks the scenes as they were before generation | one scene, pending at click time, whose video the stream reports completed: `completedCount` equals the scene count, yet the stale scenes hold no completed video and the stitcher does not open | decide on the scenes as the stream left them, so that a run in which every video completes opens the stitcher | not executed | RenderPage.AutoStitchAsWritten | RenderPage.AutoStitch |
