# Listen: the Listen agent backend, modelled in Dafny

Listen is a podcast application. Its Convex backend holds:

* each user's *Listen agents*: one entry per podcast episode the user asked to have processed, kept in
  `agentsGenerated`;
* the stored transcripts (`agentTranscripts`);
* the user's notifications, chat histories and podcast/video preferences.

This project models that backend's core and proves properties of the model:

* **The workflow** `listenAgentWorkflow` (convex/index.ts). It starts the user's agent entry, reuses a stored
  transcript of the track or has the audio transcribed, records the transcript, marks the entry completed
  (or failed), and notifies the user.
  * `ListenAgent.ListenAgentWorkflow` is an imperative method over the class `Db.Database`. It is proved
    equal to the pure specification `ListenAgent.ExpectedRun`.
  * The lemmas beside `ExpectedRun` state what the workflow promises: step order, when transcription
    happens, the effects of success and of failure, and what a second run of the same episode does.
* **The handlers the workflow calls** (convex/workflowTools.ts, convex/transcribeAudio.ts,
  convex/notifications.ts, convex/tools.ts). Each is a method with a `modifies` frame on the table it
  writes; the pure list updates they apply are functions with lemmas.
* **The queries** that read the tables (convex/agentsGenerated.ts, convex/workflowStatus.ts,
  convex/agentTranscripts.ts, convex/homeData.ts, convex/preferences.ts, convex/videoPreferences.ts,
  convex/chats.ts). They are pure functions of the table contents.
* **The chat and preference mutations**, as methods.
* **Three helpers** from lib/helpers.ts and lib/utils.ts: merging Apple and Spotify episode lists,
  decoding HTML entities, and formatting a statistic as `1.5K`/`2M`/`3B`.

Database model (module `Db`, record types in module `Schema`):

* Tables are fields of one `Database` object.
* `agentsGenerated` is a map from user id to that user's (first) episode list.
* `agentTranscripts`, `notifications`, `preferences` and `videoPreferences` are sequences, and a document's
  id is its position.
* `chats` is a map from chat key to messages.

Inputs:

* The caller's identity is an `Option<UserId>`.
* `Date.now()` is a `now` parameter.
* The speech-to-text service's answer is a `TranscriberReply` value, and the storage's answer a
  `StoreResult`.
* A thrown `Error(message)` is `Err(message)`.

Modules follow the source files:

* `ListenAgent` models convex/index.ts.
* `WorkflowTools`, `TranscribeAudio`, `Notifications`, `AgentsGenerated`, `Tools`, `WorkflowStatus`,
  `AgentTranscripts`, `HomeData`, `Chats`, `Preferences` and `VideoPreferences` model the convex file of
  the same name.
* `EpisodeMerge`, `StatNumbers` and `HtmlEntities` model the lib helpers.
* `Episodes`, `Sorting` and `JsText` hold the list lookups, the sort, and the JavaScript string
  operations they share.

Where convex/schema.ts and the handlers disagree, the model follows the handlers:

* convex/preferences.ts writes `providers` and podcasts with an `artistName`, which the schema's
  `preferences` table does not declare.
* convex/videoPreferences.ts uses a `videoPreferences` table that the schema does not declare.

## Model

| member | source | states |
|---|---|---|
| Db.FirstOf | convex/preferences.ts:45-50 | `.withIndex('by_user_id').first()`: `None` exactly when no row belongs to the user; otherwise the position of the user's first row, with no earlier row of that user |
| Db.Database.constructor | convex/schema.ts:4-62 | a fresh database has every table empty |
| Episodes.FindEpisode | convex/workflowStatus.ts:19-21 | `episodes.find(...)`: `None` exactly when no entry has the track; otherwise the first entry carrying it |
| Episodes.CountTrack | convex/workflowTools.ts:89-112 | the number of entries for a track is at most the list's length, and zero exactly when the track is absent |
| Episodes.CountTrackAppend | convex/workflowTools.ts:95-106 | appending an episode adds one to its own track's count and leaves every other track's count unchanged |
| Episodes.UniqueCountAtMostOne | convex/workflowTools.ts:89-112 | in a list whose track ids are distinct, each track occurs at most once |
| WorkflowTools.Initialized | convex/workflowTools.ts:71-112 | after `initializeAgentForUser` the list has the track; a new document holds just the new episode; an existing list is kept as a prefix and grows by at most one |
| WorkflowTools.InitializedKeepsExisting | convex/workflowTools.ts:89-93 | when the track is already in the list, the list is left as it was |
| WorkflowTools.InitializedAppendsNew | convex/workflowTools.ts:93-111 | when the track is new, the episode is appended at the end |
| WorkflowTools.InitializedCountsOnce | convex/workflowTools.ts:89-112 | starting from at most one entry for the track, exactly one entry for it remains |
| WorkflowTools.InitializedKeepsUnique | convex/workflowTools.ts:89-112 | distinct track ids stay distinct |
| WorkflowTools.InitializeAgentForUser | convex/workflowTools.ts:54-114 | throws 'Not authorized' for an empty user id and changes nothing; otherwise the user's list becomes `Initialized` of the old document and the new in-progress episode |
| WorkflowTools.WithStatus | convex/workflowTools.ts:172-176 | every entry of the track gets the new status and error message; every other entry is unchanged; the length is kept |
| WorkflowTools.WithStatusOnly | convex/workflowTools.ts:136-143 | every entry of the track gets the new status with its error message untouched; every other entry is unchanged |
| WorkflowTools.WithStatusUnknownTrack | convex/workflowTools.ts:172-176 | updating a track the list does not have leaves the list unchanged |
| WorkflowTools.WithStatusKeepsTracks | convex/workflowTools.ts:172-176 | a status update keeps every entry's track id and keeps distinct track ids distinct |
| WorkflowTools.WithStatusOnlyKeepsTracks | convex/workflowTools.ts:136-143 | the same for the completion update |
| WorkflowTools.WithStatusIdempotent | convex/workflowTools.ts:172-176 | applying the same status update twice equals applying it once |
| WorkflowTools.CompletionOverridesAnyStatus | convex/workflowTools.ts:136-143 | marking a track completed sets that entry to `completed` whatever its status was, and keeps its error message |
| WorkflowTools.UpdateAgentTranscript | convex/workflowTools.ts:116-149 | 'Not authorized' for an empty user id; 'User has no agents generated' without a document; otherwise the list becomes `WithStatusOnly`, and no other table changes |
| WorkflowTools.UpdateAgentStatus | convex/workflowTools.ts:151-182 | the same three outcomes, with `WithStatus` carrying the error message |
| WorkflowTools.CreateAgentTranscript | convex/workflowTools.ts:30-52 | appends exactly one transcript row for the track and returns its id |
| WorkflowTools.CheckIfTranscriptExists | convex/workflowTools.ts:229-243 | `None` exactly when no row has the track; otherwise the storage id of the first row with the track |
| WorkflowTools.FirstTranscriptWins | convex/workflowTools.ts:229-243 | adding rows does not change the answer once a track has a transcript |
| WorkflowTools.FirstTranscriptNew | convex/workflowTools.ts:229-243 | the first row inserted for a track becomes the answer for it |
| WorkflowTools.KickoffWorkflow | convex/workflowTools.ts:193-226 | as written: fails exactly when there is no identity ('Not authorized'); every signed-in caller gets the workflow started, with the caller's id and the given arguments |
| WorkflowTools.KickoffIgnoresExistingEpisode | convex/workflowTools.ts:197-205 | as written: although `agentAlreadyGenerated` answers true, kickoff still starts the workflow |
| WorkflowTools.KickoffWorkflowGuarded | convex/workflowTools.ts:197-205 | corrected: 'Already generated' exactly when the caller's list has the track, 'Not authorized' exactly without an identity; every other signed-in caller gets the workflow started with the same arguments |
| TranscribeAudio.TryTranscribeSucceeds | convex/transcribeAudio.ts:19-56 | the action returns normally exactly when the URL is non-empty, the service answered with text and no error, and the store did not throw; the value is the stored id, or none |
| TranscribeAudio.TryTranscribeAdapterError | convex/transcribeAudio.ts:27-35 | an error reported by the service is thrown with its own message |
| TranscribeAudio.TranscribeAudioAction | convex/transcribeAudio.ts:16-71 | on success returns the storage id and leaves the agents alone; on a throw calls `updateAgentStatus(failed, message)`, whose own errors replace the message |
| Notifications.UnreadNewestFirst | convex/notifications.ts:32-39 | lists exactly the rows unread by the user, each with its id and contents, ids strictly descending |
| Notifications.ListedInFront | convex/notifications.ts:32-39 | putting a newer entry in front keeps the list newest first and keeps every listed id |
| Notifications.HeadIsNewest | convex/notifications.ts:37 | the head of a newest-first list has the largest id listed |
| Notifications.NewerSitsBefore | convex/notifications.ts:37 | in a newest-first list a newer entry comes earlier |
| Notifications.FirstPage | convex/notifications.ts:38 | `.take(5)`: the first `min(n, 5)` entries, in order |
| Notifications.FirstPageKeepsNewest | convex/notifications.ts:38 | the page stays newest first and keeps every entry newer than its last one (all of them when the page has room) |
| Notifications.GetNotifications | convex/notifications.ts:25-44 | `{0, []}` without an identity; otherwise at most five of the caller's unread notifications, newest first, with count equal to their number, and missing none newer than the last one shown |
| Notifications.MarkedReadIdempotent | convex/notifications.ts:51 | marking a notification read twice is the same as once |
| Notifications.MarkedReadIsHidden | convex/notifications.ts:30-51 | a notification marked read is never listed again, for any user |
| Notifications.NewestNotificationListedFirst | convex/notifications.ts:4-41 | a newly created unread notification is the first one its user sees |
| Notifications.CreateNotification | convex/notifications.ts:4-23 | 'Not authorized' for an empty user id; otherwise exactly one row appended |
| Notifications.MarkNotificationAsRead | convex/notifications.ts:46-53 | sets `read` on an existing id and changes nothing else; an unknown id throws and changes nothing |
| Tools.UpdateAgentStatusTool | convex/tools.ts:4-35 | the agent tool has the same three outcomes as `updateAgentStatus` |
| AgentsGenerated.GetAgentsGenerated | convex/agentsGenerated.ts:4-22 | `null` exactly without an identity; `[]` without a document; otherwise the user's episodes rearranged newest first by `createdAt` |
| AgentsGenerated.GetAgentsGeneratedStable | convex/agentsGenerated.ts:16-18 | episodes with the same `createdAt` come back in their stored order (a stable sort) |
| AgentsGenerated.GetAgentsGeneratedKeepsEpisodes | convex/agentsGenerated.ts:16-18 | an episode is returned exactly when it is in the user's list |
| AgentsGenerated.AgentAlreadyGenerated | convex/agentsGenerated.ts:24-43 | 'Unauthorized' without an identity; otherwise true exactly when the user's document has the track |
| AgentsGenerated.FailedEpisodeCountsAsGenerated | convex/agentsGenerated.ts:39-41 | a failed entry still counts as generated |
| WorkflowStatus.GetWorkflowStatus | convex/workflowStatus.ts:4-27 | the three errors (no identity, no document, 'Agent not found' exactly when the track is absent); otherwise the status of the first entry with the track |
| WorkflowStatus.StatusAfterRun | convex/workflowStatus.ts:19-25 | after a started run, the reported status is `completed` if the run succeeded and `failed` otherwise |
| AgentTranscripts.GetAgentTranscript | convex/agentTranscripts.ts:4-43 | a view exactly when the user has the episode and the track has a transcript row; the view shows the first such row's storage id and the episode's title, image and status |
| AgentTranscripts.NoEpisodeNoTranscript | convex/agentTranscripts.ts:22-27 | without the episode in the user's list, nothing is shown |
| AgentTranscripts.TranscriptAfterSuccessfulRun | convex/agentTranscripts.ts:22-41 | after a successful run, the transcript view exists and shows status `completed` |
| HomeData.CompletedOnly | convex/homeData.ts:22-26 | keeps exactly the completed episodes, with their multiplicities |
| HomeData.GetHomeData | convex/homeData.ts:3-33 | `null` exactly without an identity; otherwise the user's completed episodes newest first and the podcasts of the user's preference document (or `[]`) |
| HomeData.CompletedOnlyWithKey | convex/homeData.ts:22-25 | filtering by status and selecting one `createdAt` value commute |
| HomeData.HomeKeepsStoredOrder | convex/homeData.ts:22-26 | completed episodes with the same `createdAt` are shown in their stored order |
| HomeData.HomeListsCompleted | convex/homeData.ts:22-26 | an episode is on the home page exactly when it is a completed episode of the user |
| HomeData.HomeShowsSuccessfulRun | convex/homeData.ts:22-31 | after a successful run, the episode appears on the home page |
| Chats.ToUIMessages | convex/chats.ts:22-32 | one UI message per stored message, with the same id, role and time, and the content as a single text part |
| Chats.FromUIMessages | convex/chats.ts:22-32 | reads each UI message back as a stored message (the text of its first part), one for one |
| Chats.FromUIMessagesOfToUIMessages | convex/chats.ts:22-32 | loading loses nothing: the stored messages are read back from the loaded ones |
| Chats.ToUIMessagesAppend | convex/chats.ts:22-32 | conversion distributes over concatenation |
| Chats.LoadMessages | convex/chats.ts:9-34 | `[]` for an unknown chat; otherwise single-part messages that convert back to the stored ones |
| Chats.IdsOf | convex/chats.ts:60 | exactly the ids of the stored messages |
| Chats.NotYetStored | convex/chats.ts:62-65 | keeps exactly the batch messages whose id is not stored yet, with their multiplicities |
| Chats.NotYetStoredAppend | convex/chats.ts:62-65 | the filter distributes over concatenation |
| Chats.NotYetStoredOfStored | convex/chats.ts:58-70 | a batch whose ids are all stored adds nothing |
| Chats.SavedKeepsPrefix | convex/chats.ts:36-79 | saving creates the chat if needed, keeps its old messages as a prefix, and leaves other chats unchanged |
| Chats.SavedStoresEveryId | convex/chats.ts:36-79 | after saving, every id of the batch is stored |
| Chats.ResaveIsNoop | convex/chats.ts:58-77 | saving the same batch again changes nothing |
| Chats.NewChatStoresBatch | convex/chats.ts:71-77 | a new chat stores the whole batch as given, duplicates included |
| Chats.LoadAfterSave | convex/chats.ts:9-79 | loading after a save shows the old messages followed by the new ones |
| Chats.SaveMessages | convex/chats.ts:36-79 | only the chats table changes, and it becomes `Saved` of the old table |
| Preferences.Patched | convex/preferences.ts:87-95 | `db.patch`: the supplied fields replace the stored ones, the others and the owner are kept |
| Preferences.PatchedTwice | convex/preferences.ts:87-95 | two patches equal one patch with the later field values winning |
| Preferences.PatchedIdempotent | convex/preferences.ts:87-95 | an empty patch changes nothing; repeating a patch equals applying it once |
| Preferences.GetPreferences | convex/preferences.ts:40-52 | 'Unauthorized' without an identity; otherwise the user's first preference document, or `null` exactly when there is none |
| Preferences.CreatePreference | convex/preferences.ts:4-38 | `{success: false}` without an identity and no change; otherwise one document appended and success |
| Preferences.UpdatePreferences | convex/preferences.ts:54-97 | failure without an identity or with an unknown id, nothing changed; otherwise exactly that document patched |
| VideoPreferences.VideoPatched | convex/videoPreferences.ts:109-117 | the supplied fields replace the stored ones, the others and the owner are kept |
| VideoPreferences.VideoPatchedIdempotent | convex/videoPreferences.ts:109-117 | an empty patch changes nothing; repeating a patch equals applying it once |
| VideoPreferences.GetVideoPreferences | convex/videoPreferences.ts:4-14 | `null` without an identity or document; otherwise the user's first document |
| VideoPreferences.FindChannel | convex/videoPreferences.ts:31-33 | the first channel with the id, or none exactly when no channel has it |
| VideoPreferences.GetVideoPreferencesByChannelId | convex/videoPreferences.ts:16-35 | `null` exactly when there is no document; `undefined` exactly when no channel matches; otherwise the first matching channel |
| VideoPreferences.CreateVideoPreference | convex/videoPreferences.ts:37-74 | failure without an identity and no change; otherwise one document appended |
| VideoPreferences.UpdateVideoPreferences | convex/videoPreferences.ts:76-119 | failure without an identity or with an unknown id; otherwise exactly that document patched |
| ListenAgent.ListenAgentWorkflow | convex/index.ts:10-95 | the answer, the steps called and the three tables afterwards are exactly those of `ExpectedRun` on the tables before |
| ListenAgent.TranscribeAndComplete | convex/index.ts:37-93 | after step 1, the rest of the run is that of `ExpectedRun` |
| ListenAgent.TranscribeThenComplete | convex/index.ts:47-93 | the same, when no transcript is stored for the track |
| ListenAgent.CompleteRun | convex/index.ts:71-93 | the last three steps: one transcript row, the entry completed, one notification, and the completion message |
| ListenAgent.ExpectedRunReusing | convex/index.ts:37-46 | with a stored transcript, the run goes straight to the last three steps with that storage id |
| ListenAgent.ExpectedRunTranscribing | convex/index.ts:47-82 | without a stored transcript, each outcome of the transcription gives its own run |
| ListenAgent.ShortJournalsInOrder | convex/index.ts:28-91 | each step sequence of a failing or reusing run follows the handler's order |
| ListenAgent.LongJournalInOrder | convex/index.ts:28-91 | the step sequence of a run that transcribes and succeeds follows the handler's order |
| ListenAgent.BadInputTouchesNothing | convex/index.ts:23-25 | a zero track id or empty audio URL returns the message, calls no step and changes no table |
| ListenAgent.StepsInOrder | convex/index.ts:23-91 | every run calls its steps in the handler's order, none twice, and it starts with step 1 exactly when the input is valid |
| ListenAgent.TranscribeOnlyWithoutTranscript | convex/index.ts:37-58 | the speech-to-text service is called exactly when the run started and the track has no stored transcript |
| ListenAgent.NotifyOnlyOnSuccess | convex/index.ts:85-93 | the user is notified exactly when a started run succeeds |
| ListenAgent.ReuseIgnoresTranscriber | convex/index.ts:37-46 | a run reusing a transcript does not depend on the service or the storage, succeeds, and records the reused storage id again |
| ListenAgent.FailsWithoutStorageId | convex/index.ts:47-68 | a started run fails exactly when no transcript is stored and transcription yields no storage id; with a missing id the error is 'Unable to transcribe audio' |
| ListenAgent.FailureLeavesNoTrace | convex/index.ts:47-68 | a failed run adds no transcript and no notification, and leaves the track's entries `failed` with the thrown message |
| ListenAgent.SuccessEffects | convex/index.ts:71-93 | a successful run returns the completion message, adds one transcript row for the track and one unread 'listen_agent' notification |
| ListenAgent.SuccessCompletesEntry | convex/index.ts:78-82 | after a successful run, the user's list has the track and every entry for it is `completed` |
| ListenAgent.SuccessEndsWithNotify | convex/index.ts:71-91 | a successful run ends with insert, complete, notify |
| ListenAgent.OtherUsersUntouched | convex/index.ts:10-95 | no other user's episode list changes |
| ListenAgent.RunUsers | convex/index.ts:28-35 | a started run adds the user's document if missing; other runs leave the set of users unchanged |
| ListenAgent.RunEntry | convex/index.ts:28-82 | after a started run, the user's list is the initialized list with the track either completed or failed with a message |
| ListenAgent.EarlierEpisodesKept | convex/index.ts:28-82 | earlier entries keep their place and everything but status and error message; the list gains at most one entry, and none when the track was there |
| ListenAgent.UniqueTracksPreserved | convex/index.ts:28-82 | if no user's list repeats a track before the run, none does after |
| ListenAgent.RunKeepsTrack | convex/index.ts:28-35 | after a started run the user's list has the track |
| ListenAgent.RepeatedRun | convex/index.ts:37-93 | running a succeeded episode again reuses the transcript, succeeds with the same message, does not call the service, and adds a second transcript row and a second notification |
| ListenAgent.RepeatedRunOneEntry | convex/index.ts:28-35 | after two runs of the same episode, the user's list still has exactly one entry for it |
| JsText.ToLower | lib/helpers.ts:81 | `toLowerCase` keeps the length |
| JsText.ToLowerChars | lib/helpers.ts:81 | each character is lowered on its own (ASCII letters) |
| JsText.TrimStartShape | lib/helpers.ts:81 | the result is a suffix without leading white space, and only white space was removed |
| JsText.TrimEndShape | lib/helpers.ts:81 | the result is a prefix without trailing white space, and only white space was removed |
| JsText.Digits | lib/helpers.ts:63 | the decimal text of a number is non-empty, all digits, and has no leading zero (only `0` itself starts with `0`) |
| JsText.ValueOfDigitsOfDigits | lib/helpers.ts:63 | reading back the decimal text gives the number |
| Sorting.InsertDescSorted | convex/agentsGenerated.ts:16-18 | inserting into a list sorted newest first keeps it sorted |
| Sorting.InsertDescPermutes | convex/agentsGenerated.ts:16-18 | insertion adds exactly the element |
| Sorting.SortDesc | lib/helpers.ts:116-120 | the result is sorted by key, largest first, and is a permutation of the input |
| Sorting.SortDescSameElements | lib/helpers.ts:116-120 | an element is in the result exactly when it is in the input |
| Sorting.InsertDescStable | lib/helpers.ts:116-120 | the inserted element goes ahead of the elements sharing its key, and their order is kept |
| Sorting.SortDescStable | lib/helpers.ts:116-120 | the sort is stable (as `Array.prototype.sort` has been since ES2019): the elements sharing a key keep their input order |
| EpisodeMerge.Put | lib/helpers.ts:85-111 | `Map.set`: the entry is replaced; a new key goes last, an existing key keeps its place |
| EpisodeMerge.Values | lib/helpers.ts:116 | `Array.from(map.values())`: the entries in key order |
| EpisodeMerge.BeforeT | lib/helpers.ts:82 | `split('T')[0]`: the longest prefix without a 'T' |
| EpisodeMerge.KeysOfEpisodes | lib/helpers.ts:80-113 | the key set is exactly the keys of the episodes |
| EpisodeMerge.AddApple | lib/helpers.ts:80-90 | the Apple loop adds exactly the Apple keys |
| EpisodeMerge.AddSpotify | lib/helpers.ts:93-113 | the Spotify loop adds exactly the Spotify keys |
| EpisodeMerge.AddSpotifyStep | lib/helpers.ts:98-112 | one step of the Spotify loop merges into an existing entry or adds a Spotify-only one |
| EpisodeMerge.LastWithKey | lib/helpers.ts:85-111 | the episode that wins a key: none exactly when no episode has the key |
| EpisodeMerge.FirstWithKey | lib/helpers.ts:107-111 | the episode that creates a Spotify-only entry: none exactly when no episode has the key |
| EpisodeMerge.LastWithKeyIsLast | lib/helpers.ts:85-111 | the winner is an episode with the key, and no later one has it |
| EpisodeMerge.FirstWithKeyIsFirst | lib/helpers.ts:107-111 | the creator is an episode with the key, and no earlier one has it |
| EpisodeMerge.AddAppleEntries | lib/helpers.ts:80-90 | the last Apple episode with a key decides that key's entry |
| EpisodeMerge.AddSpotifyEntries | lib/helpers.ts:93-113 | an existing entry keeps its title and Apple episode and takes the last Spotify episode; a new key takes the first Spotify episode's title and date and the last one's data |
| EpisodeMerge.MergedKeys | lib/helpers.ts:80-113 | the merged keys are the Apple keys together with the Spotify keys |
| EpisodeMerge.MergedCount | lib/helpers.ts:73-121 | the result has one entry per distinct key |
| EpisodeMerge.DistinctOrderCardinality | lib/helpers.ts:77 | a map's insertion order has one position per key |
| EpisodeMerge.DistinctCardinality | lib/helpers.ts:77 | a repetition-free sequence has as many elements as distinct values |
| EpisodeMerge.MergedEntries | lib/helpers.ts:80-113 | a key with an Apple episode shows the last Apple episode's title and date with the last Spotify match; a Spotify-only key shows the first such episode's title and date |
| EpisodeMerge.MergedEpisodes | lib/helpers.ts:116-120 | the merged entries, sorted newest first by release date, none lost or added |
| EpisodeMerge.MergedEpisodesStable | lib/helpers.ts:116-120 | entries with the same date stay in the map's insertion order |
| EpisodeMerge.MergePodcastEpisodes | lib/helpers.ts:73-121 | the method computes exactly `MergedEpisodes` |
| EpisodeMerge.SetAppleEpisodes | lib/helpers.ts:80-90 | the `forEach` loop over Apple episodes computes `AddApple` |
| EpisodeMerge.SetSpotifyEpisodes | lib/helpers.ts:93-113 | the `forEach` loop over Spotify episodes computes `AddSpotify` |
| StatNumbers.DigitPrefix | lib/helpers.ts:50 | the longest all-digit prefix |
| StatNumbers.DigitPrefixOfDigits | lib/helpers.ts:50 | a digit string is its own digit prefix |
| StatNumbers.ParseIntOfIntToString | lib/helpers.ts:50 | `parseInt(String(n), 10)` gives back `n` |
| StatNumbers.ParseIntOfSigned | lib/helpers.ts:50 | a signed decimal reads as its value |
| StatNumbers.ParseIntRejects | lib/helpers.ts:50-52 | text not starting (after white space) with a sign or digit is `NaN` |
| StatNumbers.FormatStatNumber | lib/helpers.ts:49-64 | `'0'` for `NaN`; below 1000 exactly `numValue.toString()` (`IntToString` of the value: its digits without leading zeros, `-` for a negative), which reads back as the value; otherwise the largest of K, M, B not above the value (B for everything from a billion up) |
| StatNumbers.StripPointZeroOnFixed | lib/helpers.ts:55-61 | `.replace(/\.0$/, '')` on a `toFixed(1)` text drops a zero tenth and keeps any other |
| HtmlEntities.ReplaceAll | lib/helpers.ts:37-41 | a global replace by something no longer shortens or keeps the length; text without the pattern's first character is unchanged |
| HtmlEntities.DecodeHtmlEntities | lib/helpers.ts:36-41 | as written: never lengthens the text; leaves text without '&' unchanged |
| HtmlEntities.AmpersandDecodedTwice | lib/utils.ts:40-45 | as written: `"&amp;lt;"` decodes to `"<"` instead of `"&lt;"` |
| HtmlEntities.DecodeOfEncodeFails | lib/helpers.ts:36-41 | as written: decoding the escaped text `"&lt;"` gives `"<"`; the corrected decoder gives back `"&lt;"` |
| HtmlEntities.EncodeHtmlEntities | lib/helpers.ts:36-41 | escaping never shortens the text |
| HtmlEntities.EntityAt | lib/helpers.ts:36-41 | a recognised entity is a prefix of the text starting with '&' |
| HtmlEntities.DecodeHtmlEntitiesOnce | lib/helpers.ts:36-41 | corrected: a single left-to-right pass that never lengthens the text and leaves text without '&' unchanged |
| HtmlEntities.DecodeOnceOfEncodedChar | lib/helpers.ts:36-41 | an escaped character decodes to itself and decoding continues after it |
| HtmlEntities.EncodedSpecialChar | lib/helpers.ts:36-41 | each of the five entities is recognised at the head of the text |
| HtmlEntities.DecodeOnceOfEncode | lib/helpers.ts:36-41 | corrected: decoding undoes escaping for every text |

## Left out

- The workflow engine (`@convex-dev/workflow`): durability, retries, journaling across restarts, `workflow.start` and `workflow.cleanup`. The model runs the steps as plain calls in order; `KickoffWorkflow` returns the arguments it would start the workflow with instead of a workflow id.
- Interleaving: each workflow step is its own transaction, so other mutations (for example the agent tool `updateAgentStatusTool`, or a second workflow for the same track) can run between two steps. `ExpectedRun` runs the steps back to back on the tables as they were after the previous step, so it does not capture such interleavings.
- Workflow argument `trackId`: a `v.number()` is a float64, and `!args.trackId` rejects `NaN` as well as `0`. The model's `TrackId` is an integer, so fractional and `NaN` track ids are not modelled; only the `0` case of the check is.
- Authentication: `ctx.auth.getUserIdentity()` is an `Option<UserId>` parameter; an internal mutation's empty `userId` stands for the falsy id its `!args.userId` check rejects.
- `Date.now()` is a parameter (`now`); `generateRandomColor` and `formatDate` are not part of this model.
- The AssemblyAI client and Convex file storage: their answers are the `TranscriberReply` and `StoreResult` inputs; `ctx.storage.getUrl` in `getAgentTranscript` is not modelled, so the view carries the storage id.
- `transcribeAudioInternalAction` only forwards its arguments to `transcribeAudioAction` and has no model of its own.
- Storage ids are opaque strings. A Convex id is never empty, so the truthiness tests `transcript?.storageId` and `!storageId` on a found id are not modelled as separate cases; a missing id is `None`.
- `createAgentTranscript`'s branch for a missing `storageId` is unreachable, because the validator requires the id; it is left out.
- Convex argument and schema validation: arguments are taken to have the declared types, and the other field checks of `v.*` validators are not modelled.
- The client-side branch of `decodeHtmlEntities` (it parses the text as HTML in a `textarea`) is not part of this model.
- convex/chat.ts, the UI components and the remaining repository files are not part of this model.
- StatNumbers.FormatStatNumber: the digits that `toFixed(1)` prints for the quotient are left abstract. The label records the value, its unit and its letter, and `ScaledText`/`StripPointZeroOnFixed` model the `.0` removal.
- StatNumbers.FormatStatNumber: numbers are unbounded integers, so fractional and non-finite numbers (other than the `NaN` from `parseInt`) and values beyond 2^53 are not modelled.
- JsText.ToLower: lowers the ASCII letters only, not the full Unicode case mapping of `toLowerCase`.
- EpisodeMerge.MergedEpisodes: `new Date(releaseDate).getTime()` is a function parameter returning an integer, so invalid dates (a `NaN` comparator result) are not modelled.
- TranscribeAudio.TranscribeAudioAction: the `catch` falls back to 'Unable to transcribe audio' when the thrown value is not an `Error` (convex/transcribeAudio.ts:64-65). In the model every throw of the service or the storage carries a message (`AdapterThrew`, `StoreThrew`), so that fallback is not modelled.
- Preferences.CreatePreference and Preferences.UpdatePreferences: the error text 'Failed to create/update preference' for a thrown non-`Error` value is not modelled, because the modelled database calls throw nothing.
- EpisodeMerge.MergedKeys: states the key set through the recursive `KeysOf`; `KeysOfEpisodes` relates it to the episodes' positions.

## Findings

| source | as written | input that shows it | evidently intended | confidence | as-written member | corrected member |
|---|---|---|---|---|---|---|
| convex/workflowTools.ts:197-205 | `kickoffWorkflow` tests `isAlreadyGenerated.isAlreadyGenerated`, but `agentAlreadyGenerated` returns a plain boolean, so the property is always `undefined` and the guard never throws | a signed-in user whose `agentsGenerated` list already holds track 7 calls `kickoffWorkflow` for track 7: a second workflow is started | throw 'Listen Agent already generated for this episode' when the query answers `true` | not executed | WorkflowTools.KickoffIgnoresExistingEpisode | WorkflowTools.KickoffWorkflowGuarded |
| lib/helpers.ts:36-41 | the server-side `decodeHtmlEntities` (also lib/utils.ts:40-45) replaces `&amp;` first and then the other entities, so text that was escaped twice is decoded twice | `"&amp;lt;"` (the escaped form of the text `"&lt;"`) becomes `"<"` | decode each entity once, so that decoding undoes escaping (`"&amp;lt;"` becomes `"&lt;"`) | not executed | HtmlEntities.DecodeOfEncodeFails | HtmlEntities.DecodeOnceOfEncode |
