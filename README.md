# video-recorder, modelled in Dafny

video-recorder listens for MQTT trigger messages and starts yt-dlp downloads
as Kubernetes Jobs. This project models the deterministic part of it:

- **Job construction** (`kube-api.js`): the metadata projection
  `addObjectMetadata`, the Job object `runCommand` builds, and the Jobs
  built by `downloadVideo`, `getVideoMetadata` and `createDirectory`.
- **Job status** (`kube-api.js`): the terminal-condition scan of the
  polling loop, the state classification and `download` filter of
  `getAllDownloads`, the age rule of `garbageCollect`, and the `callbacks`
  set that `onUpdate` fills and `statusUpdate` notifies.
- **Triggers** (`index.js`): `downloadTwitch` and `downloadYoutube`, the
  recursive router `handleService` over `directory/<d>/…` service names,
  the yt-dlp option list built by `push` and `splice` in `downloadVideo`,
  and the MQTT message handler with its once-per-minute de-duplication and
  the minute tick that publishes "online" and starts garbage collection.
- **Cache** (`cache.js`): the choice between Redis and an in-process map,
  the map's `getCache`/`setCache`/`has`, and the key prefix of the Redis
  store.

Layout: `js.dfy` (module `Js`) states the JavaScript built-ins the code
relies on: truthiness, `indexOf`, `replace` with a string pattern, `split`,
`join`, `trim`, and an array of strings changed in place by `push` and
`splice`. `kube_api.dfy` (module `KubeApi`), `index.dfy` (module `Index`)
and `cache.dfy` (module `Cache`) follow the three source files.

The cluster, the broker, the clock, the cookie-file check and yt-dlp's
metadata answer are parameters: a download is modelled once both
asynchronous answers are in (`hasCookie`, `metadata`). Environment
variables are the `Env` datatype; an unset string is `""`, since the code
only tests them for truthiness. Optional JavaScript arguments
(`includeSubs`) are `Option`. Timestamps are integer milliseconds.

Code that updates state in place is modelled as classes: `ObjectMeta`
(`addObjectMetadata` writes annotations and labels), `StringArray` (the
option list), `Listeners` (the `callbacks` set), `TriggerService` (the
seen-key set and `lastTick`), `MemoryCache` and `RedisCache`. Each method
is proved against a function of its old state; the properties are lemmas
about those functions. Loops (the condition scan, `getAllDownloads`,
`garbageCollect`, `statusUpdate`, `indexOf`, the chat-flag `forEach`) are
`for`/`while` loops with invariants.

Completion of a Job is found by polling every 500 ms; garbage collection
uses a fixed age rule (see Findings) and never reads the TTL annotation; a
failed `createNamespacedJob` is only logged, so the caller's promise never
settles.

## Model

| member | source | states |
|---|---|---|
| KubeApi.Annotate | kube-api.js:33-56 | the ttl annotation is always present: an existing truthy ttl is kept, otherwise it is "360000"; url, source-type, trigger and type are copied only when truthy and otherwise left as they were; no other key changes |
| KubeApi.Label | kube-api.js:58-60 | the definition is the model: the type label is set to the `taskType` parameter when it is given and truthy; the labels are unchanged otherwise |
| KubeApi.ObjectMeta.AddObjectMetadata | kube-api.js:33-63 | the in-place update leaves the annotations and labels given by `Annotate` and `Label` of the old ones |
| KubeApi.AnnotateIdempotent | kube-api.js:37-60 | applying the metadata projection twice gives the same annotations and labels as once |
| KubeApi.BuildJob | kube-api.js:92-141 | name prefix or "asynctask-"; type label "task" unless a truthy taskType replaces it; ttl annotation present; one completion, parallelism 1, backoffLimit 5, restartPolicy "Never", the PVC claim; priorityClassName present iff the priority is truthy; one container with command `[command]`, args `options`, workingDir "/data/" + workingDir, image and mount path |
| KubeApi.DownloadVideo | kube-api.js:232-244 | the url is pushed onto the caller's list (a new list when there is none); the Job runs yt-dlp with that list, prefix "download-", type "download", priority "realtime" when live and "whenever-you-get-chance" otherwise, and the download's metadata as annotations |
| KubeApi.VideoMetadataJob | kube-api.js:251-253 | the metadata Job runs `yt-dlp -q --no-warnings -J <url>` as a plain task with no priority |
| KubeApi.CreateDirectoryJob | kube-api.js:260-262 | the directory Job runs `mkdir -p <directory>` as a plain task |
| KubeApi.Verdicts | kube-api.js:151-163 | a poll fires at most one verdict per condition, and fires none exactly when no condition is Complete or Failed |
| KubeApi.ScanConditions | kube-api.js:151-163 | the loop over the condition list fires exactly the verdicts `Verdicts` lists |
| KubeApi.TerminalIndices | kube-api.js:152-155 | the positions of the Complete or Failed entries, strictly increasing, each terminal entry's position among them |
| KubeApi.VerdictsMatchConditions | kube-api.js:152-161 | verdict k belongs to the k-th terminal entry (no `break`, so one per terminal entry, in list order): Resolve for Complete, Reject for Failed |
| KubeApi.FirstTerminalSettles | kube-api.js:152-161 | with log fetches finishing in start order, the first terminal entry decides: resolved with the logs for Complete, rejected with them for Failed |
| KubeApi.Settle | kube-api.js:158-161 | the promise stays pending without a verdict, resolves with the log text on Complete and rejects with it on Failed |
| KubeApi.UniformConditionsSettle | kube-api.js:151-163 | with only Complete among the terminal conditions every verdict resolves; with only Failed the promise is rejected with the logs |
| KubeApi.ClassifyCases | kube-api.js:186-193 | running iff active > 0; complete iff not active and succeeded > 0; failed iff neither and failed > 0; unknown otherwise |
| KubeApi.Record | kube-api.js:194-202 | the record carries the Job's uid, name and classified state; an image iff there is a container, and then the first container's image; `created` is the creation time in whole seconds, rounded down; source and trigger are the annotations when present, undefined otherwise |
| KubeApi.Classify | kube-api.js:186-193 | the definition is the model: running when active > 0, else complete when succeeded > 0, else failed when failed > 0, else unknown (the order `ClassifyCases` states) |
| KubeApi.DownloadsOf | kube-api.js:181-205 | the definition is the model: the listed Jobs in order, each download-labelled one writing its record under its name (`DownloadsOfLastWins` states the result) |
| KubeApi.GetAllDownloads | kube-api.js:177-209 | the loop over the listed Jobs builds exactly the map `DownloadsOf` describes |
| KubeApi.DownloadsOfLastWins | kube-api.js:181-205 | a name is a key iff some listed Job with the "download" type label has it, and its record is that of the last such Job |
| KubeApi.GarbageCollect | kube-api.js:276-286 | the loop asks to delete exactly the names `Doomed` lists, under the age rule given |
| KubeApi.StaleAsWritten | kube-api.js:281 | the definition is the model: the test as written, creation time in ms below the current time in seconds less a day, scaled to whole milliseconds |
| KubeApi.OlderThanADay | kube-api.js:280 | the definition is the model: the one-day age the comment describes |
| KubeApi.Expired | kube-api.js:281 | the definition is the model: the age test under the chosen rule |
| KubeApi.Doomed | kube-api.js:279-283 | the definition is the model: the names of the listed Jobs that are expired, in list order (`DoomedExactly` states the result) |
| KubeApi.DoomedExactly | kube-api.js:279-283 | a name is deleted iff some listed Job with that name is expired under the rule, whatever its type label |
| KubeApi.IntendedDeletesDayOldJobs | kube-api.js:279-283 | with the one-day rule the comment states, exactly the Jobs created more than 86400000 ms before now are deleted |
| KubeApi.StaleAsWrittenNeedsEpochTimestamp | kube-api.js:281 | as written, a Job is deleted only if its creation time in milliseconds is below the current time in seconds |
| KubeApi.AsWrittenWithinIntended | kube-api.js:280-281 | as written, the rule deletes nothing the one-day rule would keep, for any creation time after 1970 |
| KubeApi.StaleAsWrittenKeepsTwoDayOldJob | kube-api.js:280-281 | a Job two days old is older than a day, yet the rule as written keeps it |
| KubeApi.Listeners.constructor | kube-api.js:10 | the listener set starts empty |
| KubeApi.Listeners.OnUpdate | kube-api.js:273-275 | adding a listener appends it once, keeps insertion order, and never duplicates one |
| KubeApi.Listeners.StatusUpdate | kube-api.js:211-215 | every listener, in insertion order, receives the same download map `DownloadsOf` gives, and each receives it once |
| Index.OutputFormat | index.js:9-11 | the output template is never empty; the configured Twitch or YouTube format when set for that source, the default when that source's format is unset and for every other source |
| Index.DownloadTwitch | index.js:88-99 | a Twitch download of the channel URL, or of the "videos/" URL when the name is five or more digits; the name is the trigger; no subtitles |
| Index.LooksLikeVod | index.js:92 | the definition is the model: `/^\d{4}\d+$/`, five or more ASCII digits and nothing else |
| Index.TwitchUrlRoundTrip | index.js:90-96 | for a name without '/', the URL built starts with the Twitch prefix and gives the name back |
| Index.DownloadYoutube | index.js:101-106 | a YouTube download of the watch URL followed by the id, with subtitles, the id as trigger |
| Index.Subdirectory | index.js:131-136 | the new directory is the segment when the old one is empty; otherwise the old one, a '/', and the segment |
| Index.HandleService | index.js:108-150 | a message is handled only when service and message are non-empty; an unhandled one starts nothing |
| Index.ServicesHandled | index.js:111-124 | "twitch", "youtube" and "url" are handled, each with its one download: `downloadTwitch`, `downloadYoutube`, or the message as a URL with subtitles |
| Index.RoutingShape | index.js:127-145 | every routing creates directories, each inside the given directory and the one before, then at most one download, into the last directory created |
| Index.DirectoryStep | index.js:127-145 | "directory/<d>/<rest>" creates the subdirectory d and routes `<rest>` inside it |
| Index.HandledExactly | index.js:108-150 | a call returns true iff service and message are non-empty and the service is one of the three or "directory/" followed by something with a further '/' |
| Index.UnknownServiceIgnored | index.js:111-149 | a service other than the three that does not start with "directory/" is not handled |
| Index.YoutubeInDirectory | index.js:117-119 | a YouTube message downloads into the directory it is routed in |
| Index.DirectoryThenYoutube | index.js:127-145 | "directory/<b>/youtube" in directory D creates D/b and downloads into it |
| Index.NestedDirectories | index.js:127-145 | "directory/<a>/directory/<b>/youtube" creates a and a/b and downloads into a/b |
| Index.UnrepeatedPrefixDownloadsNothing | index.js:127-149 | "directory/<a>/<b>/youtube" only creates a: "<b>/youtube" is no service, including "directory/youtube", which has too few parts |
| Index.BaseOptionsFlags | index.js:18 | the initial list holds "--embed-subs" at index 3 and no other flag the builder uses |
| Index.IsLive | index.js:46-49 | the definition is the model: there is metadata, its `is_live` is truthy, and it is not loosely equal to "was_live" |
| Index.SubsRequested | index.js:22 | the definition is the model: subtitles unless `includeSubs` was given as false |
| Index.IgnoreChat | index.js:51-72 | the definition is the model: the URL contains "twitch", or it contains "youtube" and the video is live |
| Index.WithoutChat | index.js:74-79 | the definition is the model: when chat is ignored, the first "--all-subs" and then the first "--embed-subs" are removed |
| Index.YtDlpOptions | index.js:18-81 | the definition is the model: the pushed options with the chat flags taken out when chat is ignored (`ChatFlags`, `OptionFlags` and `OutputTemplateLast` state the result) |
| Index.LaterOptionsShape | index.js:26-66 | for an output format that is not one of the flags: what is pushed after the subtitle flag holds no chat flag and ends with the only "-o" and the format |
| Index.ChatFlagsRemoved | index.js:68-81 | for an output format that is not one of the flags: ignoring chat takes out the pushed "--all-subs" and the initial "--embed-subs" and nothing else |
| Index.ChatFlags | index.js:18-81 | "--all-subs" is given iff subtitles are requested and chat is kept; "--embed-subs" iff chat is kept |
| Index.OptionFlags | index.js:26-58 | "--remux-video" iff ALWAYS_MKV > 0; "--mtime" iff SAVE_MTIME > 0 and "--no-mtime" otherwise; "--cookies" iff the cookie file exists; "--fixup" iff the URL contains "twitch" |
| Index.OutputTemplateLast | index.js:60-66 | exactly one "-o", as the last but one option, followed by the format for the source |
| Index.DropChatFlags | index.js:74-79 | the `forEach` splices out the first "--all-subs" and then the first "--embed-subs", when present |
| Index.MetadataReady | index.js:42-84 | after the metadata answer the option array ends equal to the Job's arguments: the Twitch fixup and the output template are pushed, the chat flags removed when ignored, and the download Job built with the trimmed URL and the live priority |
| Index.CookieChecked | index.js:36-40 | after the cookie check the option array ends equal to the Job's arguments: the cookie flag is pushed when the file exists, then the metadata step |
| Index.CheckCookieFileExists | index.js:13-15 | the check throws a TypeError iff the client exports no `fileExists`; otherwise it answers whether the cookie file is there |
| Index.StartDownload | index.js:17-86 | no Job when the cookie check throws; otherwise the Job whose arguments are `YtDlpOptions` for the cookie answer followed by the trimmed URL |
| Index.CookieCheckThrowsAsWritten | index.js:14 | with the members `kube-api.js` exports, the cookie check throws |
| Index.CookieCheckWithFileExists | index.js:14 | with a `fileExists` exported, the check answers whether the file is there |
| Index.DownloadVideo | index.js:17-86 | the Job's arguments are the option list `YtDlpOptions` followed by the trimmed URL; working directory, priority, labels and annotations as for a download |
| Index.OnMessageStep | index.js:173-187 | a topic outside `<base>/` or an already seen `topic + message` changes nothing and calls nothing; otherwise the key is recorded and `handleService` is called with the service (the topic less `<base>/`) and the trimmed message, unless the service is "status" (`HandleService` gives what that call starts) |
| Index.StatusNeverRouted | index.js:182-184 | a message on `<base>/status` is never routed |
| Index.RoutedAtMostOncePerMinute | index.js:173-187 | within one minute the keys routed are distinct, none was seen before, all are seen afterwards, no seen key is forgotten, and the minute stays |
| Index.MessageKeyRecorded | index.js:176-183 | a routed message's key was not seen before and is seen afterwards; the handler forgets no key and keeps the minute |
| Index.RoutedOnceCons | index.js:176-183 | a key routed in front of a run that keeps the once-only property was new then and recorded from then on, so the longer run keeps it too |
| Index.TickStep | index.js:201-223 | within the same minute nothing happens; on a new minute the seen keys are cleared, "online" is published iff there is a broker and the minute is a multiple of 5, and garbage collection runs iff the minute is not a multiple of 30 |
| Index.MinuteOf | index.js:204 | the definition is the model: whole minutes since the epoch, rounded down |
| Index.TickIdempotent | index.js:204-208 | a second tick in the same minute does nothing |
| Index.RoutedAgainAfterNewMinute | index.js:173-213 | for any topic under `<base>/` other than status and any message: the first handling records the key, and after a new minute the same message is routed again with the same service and trimmed message |
| Index.TriggerService.constructor | index.js:153-201 | no keys seen (`new Set()` at line 153) and last minute 0 (`lastTick` at line 201) |
| Index.OnMessageCases | index.js:173-187 | the handler's outcome branch by branch: outside `<base>/` or already seen, nothing; otherwise the key recorded and, unless the service is "status", a call with the service and the trimmed message |
| Index.TriggerService.OnMessage | index.js:173-187 | the handler's new seen keys and last minute, and the `handleService` call it makes if any, are those `OnMessageStep` gives for the old state |
| Index.TriggerService.Tick | index.js:201-225 | the tick changes the state and decides publishing and collection as `TickStep` says |
| Js.JoinSplit | index.js:128-140 | joining the parts of a split with the same separator gives the string back |
| Js.Truthy | index.js:46 | the definition is the model: undefined, null, false, 0 and "" are falsy, everything else truthy |
| Js.LooseEqualsString | index.js:47 | the definition is the model: `==` against a non-empty, non-numeric string literal such as 'was_live', true only for that string among the values `Value` holds |
| Js.IndexOfFrom | index.js:52 | the first occurrence at or after the start position, or -1 exactly when there is none from there on |
| Js.IndexOf | index.js:52 | the first occurrence, or -1 exactly when there is none; 0 exactly when the string starts with the pattern |
| Js.ReplaceFirst | index.js:179 | the definition is the model: the first occurrence replaced, the string unchanged when there is none (`ReplacePrefix` states the prefix case) |
| Js.Split | index.js:128-140 | never empty, no part holds the separator, and more than one part exactly when the separator occurs |
| Js.Join | index.js:128-140 | the definition is the model: the parts with the separator between them (`JoinSplit` and `SplitJoin` state the round trips) |
| Js.SplitJoin | index.js:128-140 | splitting the join of separator-free parts gives the parts back |
| Js.SplitTail | index.js:128-140 | after `shift`, the joined rest is what follows the first '/' |
| Js.SplitAtHead | index.js:128-140 | splitting `<d>/<rest>` with `d` free of '/' gives more than one part, `d` first, and the rest joins back to `<rest>` |
| Js.TrimIdempotent | index.js:181 | trimming twice is trimming once |
| Js.TrimStart | index.js:181 | a suffix of the string; what is cut is white space and the result does not start with any |
| Js.TrimEnd | index.js:181 | a prefix of the string; what is cut is white space and the result does not end with any |
| Js.Trim | index.js:181 | the definition is the model: `trimEnd` after `trimStart` (`TrimIdempotent` states the result) |
| Js.RemoveFirstLeft | index.js:74-79 | the first occurrence in a list is found in its front part when the front part has one |
| Js.RemoveFirstRight | index.js:74-79 | otherwise the front part is kept and the first occurrence is removed from the rest |
| Js.SeqIndexOf | index.js:75 | the first index of the value, or -1 exactly when it is absent |
| Js.RemoveFirst | index.js:75-77 | the list unchanged when the value is absent, one element shorter otherwise (`RemoveFirstMultiset` states which element goes) |
| Js.RemoveFirstMultiset | index.js:75-78 | splicing out the first occurrence removes exactly one copy of the value, or nothing when it is absent |
| Js.SeqIndexOfUnique | index.js:75-77 | `indexOf` answers the position of an occurrence with none before it, and splicing there removes it |
| Js.StringArray.IndexOf | index.js:75 | the index of the first occurrence, or -1 exactly when there is none |
| Js.StringArray.SpliceOne | index.js:77 | the element at the index is removed and the others keep their order |
| Js.StringArray.Push | index.js:22-34 | the values are appended |
| Cache.SelectBackend | cache.js:4 | Redis is chosen iff the connection string starts with "redis://", with that string as its URL; the map otherwise |
| Cache.MemoryCache.constructor | cache.js:38 | the map starts empty |
| Cache.ReadBack | cache.js:40 | the definition is the model: the stored value when it is truthy, null otherwise (missing keys included) |
| Cache.MemoryCache.GetCache | cache.js:40 | the answer is null or a truthy value stored under the key; null for a missing key |
| Cache.MemoryCache.SetCache | cache.js:41 | the value is stored under the key, nothing else changes, and the answer is true |
| Cache.MemoryCache.Has | cache.js:42 | true iff the key is stored, whatever its value |
| Cache.MemoryReadAfterWrite | cache.js:40-42 | a stored truthy value reads back as written, a falsy one reads back as null while `has` still finds the key, and other keys are unaffected |
| Cache.RedisKey | cache.js:5-18 | the Redis key is the prefix "video-recorder:" followed by the cache key |
| Cache.RedisKeyInjective | cache.js:18-33 | distinct cache keys have distinct Redis keys |
| Cache.RedisLookup | cache.js:17-26 | the definition is the model: the text under the prefixed key, none when it is missing, "nil" or empty |
| Cache.RedisCache.GetCache | cache.js:17-26 | the stored text under the prefixed key, or null when missing, "nil" or empty |
| Cache.RedisCache.SetCache | cache.js:27-30 | the text is stored under the prefixed key and nothing else changes |
| Cache.RedisCache.Has | cache.js:32-35 | true iff the prefixed key exists |
| Cache.RedisReadAfterWrite | cache.js:17-30 | text written under a key reads back unless it is "nil" or empty, and no other key changes |

## Left out

- Every call to the cluster (`createNamespacedJob`, `readNamespacedJobStatus`, `listNamespacedJob`, `deleteNamespacedJob`, pod listing and `getLogs`): the Jobs built and the names deleted are results; listed Jobs, condition lists and log text are parameters.
- Timers and promise timing: the 500 ms poll, the 100 s status interval, the 20 s tick; each is modelled as one step.
- The MQTT client: connecting, the last will, subscribing and publishing; `Tick` returns whether it would publish "online".
- The `onUpdate` listener in `index.js` that publishes the download count and map as JSON.
- `JSON.parse`/`JSON.stringify`, `Date.parse` and `Date.now`: times are integer milliseconds, Redis values are the JSON text.
- The Redis client itself: connecting, errors, expiry (`setEx` and the refreshing `expire`) and quitting on signals.
- Signal handlers, `stop()`, `disconnect()` and the `test` export.
- `fileExists`: `kube-api.js` does not export one, so as written `checkCookieFileExists` throws and every `downloadVideo` promise rejects before any metadata lookup or Job (see Findings); `Index.DownloadVideo` models the function as if the check answered `hasCookie`. The unhandled rejection this leaves at the un-awaited calls of `downloadTwitch`, `downloadYoutube` and `handleService` is not modelled.
- Js.Value: numbers are integers; NaN and -0, which are falsy and would read back from the in-process cache as null, are not represented. Arrays and other objects are known only by an identity, so an object whose string form is "was_live" (such as `["was_live"]`), which is loosely equal to 'was_live', is not captured by `LooseEqualsString`.
- The commented-out Docker code in `index.js`.
- KubeApi.Settle: when a poll sees several terminal conditions, the promise settles with whichever log fetch finishes first; the model assumes they finish in the order they started.
- KubeApi.Listeners: listeners are known by an identity; calling them is left out, `StatusUpdate` returns what each receives.
- KubeApi.ObjectMeta.AddObjectMetadata: the Job object is a value, so aliasing of the metadata object is not captured.
- Index.OptionFlags: requires an output format that is not itself one of the flags; a configured format such as "--mtime" would make the flag appear regardless of `SAVE_MTIME`.
- Index.ChatFlags: requires the same of the output format; when chat is ignored and no subtitle flag was pushed, a format equal to "--all-subs" is the first "--all-subs" and is the one taken out (when subtitles were requested the pushed flag goes and the format stays).
- Index.OutputTemplateLast: requires the same of the output format.
- Index.LaterOptionsShape: requires the same of the output format; a format such as "--all-subs" makes a chat flag appear among the later pushes.
- Index.ChatFlagsRemoved: requires the same of the output format; for a Twitch download without subtitles and the format "--all-subs", the format is what gets spliced out, so the result is not the initial list without "--embed-subs" followed by the later pushes.
- Index.DownloadVideo: models the function once the cookie check and metadata lookup have answered.
- KubeApi.DownloadVideo: the `catch` on `createNamespacedJob` that only logs a failure is left out; the Job built is the result.
- Index.HandleService: the directory job and the recursive call are listed as actions in order; the recursion runs once the directory Job has finished, whether it succeeded or failed, as in the source; it never runs when `createNamespacedJob` fails or the Job never reaches a terminal condition, which the model does not capture.

## Findings

| source | as written | input that shows it | evidently intended | confidence | as-written member | corrected member |
|---|---|---|---|---|---|---|
| kube-api.js:281 | `Date.parse(creationTimestamp) < Date.now() / 1000 - 86400` compares milliseconds with seconds, so no Job created after early 1970 is ever deleted | now 1700000000000 ms, created 1699827200000 ms (two days earlier): 1699827200000 < 1699913600 is false, so the Job is kept | delete Jobs older than a day: `now - created > 86400000` ms | high, not executed | KubeApi.StaleAsWrittenKeepsTwoDayOldJob | KubeApi.IntendedDeletesDayOldJobs |
| index.js:14 | `checkCookieFileExists` calls `kubeClient.fileExists`, which `kube-api.js` (lines 225-293) does not export, so the call throws a TypeError inside the async `downloadVideo` and no Job is ever created | any trigger message, e.g. a `<base>/youtube` message with a video id: `downloadYoutube` calls `downloadVideo`, whose promise rejects at line 36 | export a `fileExists` that answers whether the cookie file exists, so the download proceeds with or without cookies | high, not executed | Index.CookieCheckThrowsAsWritten | Index.CookieCheckWithFileExists |
