# star-ai-backend character creation and chat, in Dafny

This project models the character-creation and chat orchestration of the
star-ai-backend Go service, and the small deterministic helpers around it.

- **Stage machine.** `CreateCharacterV2` is the create stage machine. It has a
  streaming chat stage, a confirm stage that saves a draft, a voice stage and
  a finalize stage. The finalize stage commits the chosen image and deletes the
  rejected cached images.
- **Snapshot aggregator.** It folds the agent's typed chunks into the snapshot
  that is streamed to the client.
- **Agent stream translation.** `ChatCompletionsStream` and `ChatStream`
  translate the agent's gRPC stream. Two unary replies are also interpreted.
- **HTTP layer.** This covers the admission gate, the Server-Sent Events
  writers of `createV2` and `ChatV2`, and the image-slot allocation of
  `updateCharacter`. The writers use the `data: …` framing of section 9.2 of
  the HTML Living Standard.
- **Repositories.** Characters, voices, like flags and conversations are
  modelled in memory, each with its use case.
- **Account-side logic.** This covers:
  - the replies of the activity service and the login-code check with its
    three delete tries;
  - the sign-in mail, with its address recogniser and retry throttle. The
    recogniser follows the "valid e-mail address" grammar of section
    4.10.5.1.5 of the HTML Living Standard;
  - the mail-pool round robin;
  - the owner checks.
- **Helpers.** Response envelopes, business errors, `ContainsChinese`,
  `URL2FileName`, `GenValidateCode` and the OAuth provider adapter.

Each Go file of the core is one module:

| module | Go file |
|---|---|
| `ServiceCharacter` | `internal/service/character/character.go` |
| `ServiceTypes` | `service.go` |
| `CharacterBiz` | `internal/biz/character.go` |
| `CharacterRouter` | `api/http/v1/character_router.go` |
| `CharacterData` | `internal/data/character.go` |
| `VoiceData`, `VoiceBiz` | the two voice files |
| `LikesData` | the like flags |
| `ConversationData`, `ConversationBiz` | the conversation files |
| `Activity` | `internal/biz/account_activity.go` |
| `AccountRouter` | `api/http/v1/account_router.go` |
| `Mail` | the mail pool |
| `Common`, `Snowflake`, `Goth`, `Resp` | the util package |
| `BizErr` | the bizerr package |

The modules `Wrappers`, `Strs` and `Chan` supply three things:
- `Option`/`Result`;
- the Go `strings` and `fmt` functions that are used;
- Go channels, as a record of what was sent and how often the channel was closed.

Everything outside the process is a parameter of the member that uses it: the
agent, the database, Redis, the account service, the file system, the clock,
uuids, random digits and JSON encoding. A storage or transport error is an
`Option<Error>` argument. A reply is a value argument. `strings.ToLower`, the
Unicode Han test, `util.GenerateVoice` and `json.Marshal` are function-typed
arguments. `CreateCharacterV2` takes all of these bundled in one
`ServiceCharacter.Env` value.

Where the code behaves differently from what its comments, names or the
surrounding design suggest, the model follows the code:

- The image cache never appends. go-cache's `Add` refuses a key that is present,
  so the "append to the cached list" branch (character.go:186-192) changes
  nothing. The session keeps the URLs of its first image chunk
  (`ServiceCharacter.CacheKeepsFirstImages`).
- Finalize does not write `State = 0`. GORM's struct `Updates` skips zero
  values, so a confirmed draft stays at State -1
  (`ServiceCharacter.FinalizeKeepsState`, `CharacterData.ZeroStateKeepsDraft`).
- The `info == nil` check of the finalize stage (character.go:287) is dead. The
  biz lookup already turns a missing character into `ErrCharacterNotExist`,
  which the stage reports wrapped at line 285.
- The voice stage does not check that the draft exists. For an unknown
  session it creates a new record holding only the voice.
- None of the following events reaches the client:
  - the confirm stage's `CreateResponse`;
  - the voice stage's `NeedConfirmChunk`;
  - the finalize stage's session id.

  Their snapshots have an empty message, and the `createV2` writer skips
  those. Its final frame then carries the zero snapshot
  (`CharacterRouter.SilentEventsGiveZero`).
- The finalize stage removes ImagePath + each rejected cache entry
  (character.go:301-307), but the entries are full URLs, ImagesEndpoint +
  id + ".png" (character.go:182-184). Unless ImagesEndpoint is a relative
  file path, the removed path names no local file. The model records the
  path the code builds (`ServiceCharacter.CharacterService.RemoveRejected`).
- `QueryConversationsCountByAccountID` counts the conversations of the
  *character* with the given id.
- `biz.SaveConversation` returns the id it was given, so a new conversation
  yields "".
- `updateCharacter` panics for an image number above the image count and at
  most 9 (see Findings), and the recover middleware answers. The handler
  follows the code as written. `CharacterRouter.SelectImage` is the intended
  selection, and `CharacterRouter.SelectAgrees` shows it agrees with the code
  wherever the code does not panic.

## Model

| member | source | states |
|---|---|---|
| ServiceCharacter.CharacterService.CreateCharacterV2 | internal/service/character/character.go:135-326 | Handles the activity-limit check and each stage. A limit refusal returns before the close is deferred, so the channel stays open. A run that finishes closes the channel exactly once. A crash of the agent goroutine leaves it open and emits nothing. An empty session id emits exactly one snapshot, the zero snapshot carrying the fresh uuid, and saves nothing. States 0 and 3 stream; 1, 2 and 4 confirm, voice and finalize, each with the emitted events, the saved record and the result its effect function gives. Any other state emits nothing and returns no error. |
| ServiceCharacter.Sent | internal/service/character/character.go:135-326 | What a run past the limit check sends, stage by stage, over the stores as they were. An empty session id sends only the zero snapshot with the fresh uuid. A state outside 0-4 sends nothing. A stream stage that does not panic sends one snapshot per agent chunk plus a last one whose message is the whole chat text. |
| ServiceCharacter.CharacterService.StreamStage | internal/service/character/character.go:151-212 | Emits one snapshot per received chunk, then a last snapshot whose message is the in-order concatenation of the chat chunks' contents. Image ids become URLs and are offered to the cache under the session with a one-hour lifetime. A panic of the agent stream emits nothing and leaves the cache unchanged. |
| ServiceCharacter.CharacterService.Consume | internal/service/character/character.go:177-204 | The receive loop. What it emits is exactly the snapshot fold over the URL-rewritten chunks. The accumulated text is the chat text. The cache ends as the go-cache `Add` fold leaves it. |
| ServiceCharacter.CharacterService.RunAgent | internal/service/character/character.go:152-165 | The agent goroutine crashes exactly when the stream panics. Otherwise it hands on exactly the translated chunks. |
| ServiceCharacter.CharacterService.ConfirmStage | internal/service/character/character.go:213-262 | Emits and saves exactly what `ConfirmEffect` prescribes. |
| ServiceCharacter.CharacterService.VoiceStage | internal/service/character/character.go:263-281 | Emits and saves exactly what `VoiceEffect` prescribes. |
| ServiceCharacter.CharacterService.FinalizeStage | internal/service/character/character.go:282-318 | Saves the chosen image and 3-D flag. When the session has a cache entry, it deletes ImagePath + every cached image the message does not contain, and nothing else. Deletion and activity-credit failures never change the result. |
| ServiceCharacter.CharacterService.RemoveRejected | internal/service/character/character.go:301-309 | Exactly the cached images that are not substrings of the message are removed, each as ImagePath + image. The cache is untouched. |
| ServiceCharacter.CharacterService.OfferImages | internal/service/character/character.go:180-197 | An image chunk's ids become URLs. The session's cached list plus those URLs is offered to go-cache `Add` with the one-hour lifetime, and any other chunk leaves the cache as it was. |
| ServiceCharacter.CharacterService.CacheAddItem | internal/service/character/character.go:189-197 | go-cache `Add` refuses, with an error, exactly when the key is present. Otherwise it stores the list with the given lifetime. |
| ServiceCharacter.CharacterService.constructor | internal/service/character/service.go:32-48 | The image cache starts empty, with a 30-minute default expiry and a 30-minute sweep interval. |
| ServiceCharacter.ConfirmEffect | internal/service/character/character.go:213-262 | Distinguishes four failures: a failed agent call, a missing setting (an internal error "Frequent operation, please try again", nothing saved), a failed account lookup and a failed save, each wrapped with its own prefix. On success the draft is saved with State -1 and one event carries the create response built from the agent's reply. |
| ServiceCharacter.Draft | internal/service/character/character.go:225-246 | The draft carries the session id, the setting's name, tags and introduction, the account's name and avatar, the gender rule's value, the request's 3-D flag and State -1. |
| ServiceCharacter.VoiceEffect | internal/service/character/character.go:263-281 | An unknown voice or a lookup error returns the wrapped error before any save. Otherwise it saves the voice with State -1 and emits exactly one snapshot with NeedConfirmChunk set. |
| ServiceCharacter.UnknownVoiceSavesNothing | internal/service/character/character.go:264-267 | A voice id not in the voice table saves nothing and emits nothing. |
| ServiceCharacter.FinalizeEffect | internal/service/character/character.go:283-300 | A lookup error or a missing draft returns an error before any save. Otherwise it saves ImageURL = message, Is3D and State 0, and emits one snapshot holding only the session id. |
| ServiceCharacter.FinalizeKeepsState | internal/service/character/character.go:291-297 | Saving the finalize request over a draft leaves the draft's State at -1. |
| ServiceCharacter.SaveThen | internal/service/character/character.go:248-251 | A failed save emits nothing and returns the error wrapped in the stage's prefix. A successful save emits the stage's events and returns its response. |
| ServiceCharacter.Absorb | internal/service/character/character.go:880-923 | The aggregator rules. A chat chunk sets the message. An image chunk replaces ImageMeta, sets ConfirmType "image_setting" and NeedConfirm, and for 3-D sets ObjURL to the first image with its first ".png" made ".obj". A confirm chunk can only raise NeedConfirm. A setting chunk stores the re-encoded setting. NeedConfirm never falls back to false. |
| ServiceCharacter.Snapshots | internal/service/character/character.go:177-201 | One snapshot per chunk. |
| ServiceCharacter.SnapshotAt | internal/service/character/character.go:177-201 | The i-th emitted snapshot is the fold of the first i+1 chunks. |
| ServiceCharacter.NeedConfirmSticks | internal/service/character/character.go:899-905 | Once a snapshot needs confirmation, every later snapshot does too. |
| ServiceCharacter.ChunkRules | internal/service/character/character.go:888-900 | The i-th snapshot obeys the rule of the i-th chunk: a chat chunk's content becomes the message, an image chunk's URLs become ImageMeta. |
| ServiceCharacter.SessionKept | internal/service/character/character.go:171-175 | Every snapshot keeps the session id of the initial snapshot. |
| ServiceCharacter.ChatTextAppend | internal/service/character/character.go:202-204 | The chat text of a concatenation of chunks is the concatenation of their chat texts. |
| ServiceCharacter.StreamEvents | internal/service/character/character.go:200-207 | There is one more event than there are chunks, and the last event's message is the whole chat text. |
| ServiceCharacter.AgentChunks | internal/biz/character.go:326-382 | The chunks the agent stream hands on are well formed: every image chunk has an image. |
| ServiceCharacter.CacheKeepsFirstImages | internal/service/character/character.go:186-198 | After any sequence of image chunks, the session's entry holds the URLs of its first image chunk with a one-hour lifetime, or the entry it already had. No other key changes. |
| ServiceCharacter.FirstImages | internal/service/character/character.go:186-198 | The images of the earliest image chunk, or none when there is no image chunk. |
| ServiceCharacter.ImageURLs | internal/service/character/character.go:182-185 | Each id becomes ImagesEndpoint + id + ".png", in order. |
| ServiceCharacter.RewriteImages | internal/service/character/character.go:182-185 | The in-place loop yields exactly those URLs. |
| ServiceCharacter.WithURLs | internal/service/character/character.go:180-185 | Only an image chunk's images change: they become URLs. Its kind and index stay. |
| ServiceCharacter.URLChunks | internal/service/character/character.go:180-185 | This is the rewrite, chunk by chunk, with the length kept. |
| ServiceCharacter.Gender | internal/service/character/character.go:225-230 | 1 exactly when the lower-cased gender contains "man", else 2. |
| ServiceCharacter.WomanIsOne | internal/service/character/character.go:226-230 | "woman" is classified as 1. |
| ServiceCharacter.MakeChatMessage | internal/service/character/character.go:798-804 | The message contents, in order, with the length kept. |
| ServiceCharacter.MessageToVoice | internal/service/character/character.go:711-737 | A failed character or voice lookup gives Ok(""), not an error. Otherwise the text is voiced with the ZH role id exactly when it has a Han character, else with the EN role id. A generation failure is the wrapped error. Success gives VoiceEndpoint + file. |
| CharacterBiz.ChatCompletionsStream | internal/biz/character.go:299-384 | The channel is closed exactly once on every exit path. A dial or open error forwards nothing and returns that error wrapped. Otherwise the forwarded chunks and the result are those of `Translate`. |
| CharacterBiz.Receive | internal/biz/character.go:336-380 | One loop iteration decides exactly as `Classify` does. |
| CharacterBiz.Classify | internal/biz/character.go:336-380 | A non-zero code ends the stream with an internal error holding the code and message. A chunk type outside 1-4 ends it with ErrChunkNotExist. A nil chunk, a nil chat message or an empty image list panics. Otherwise the chunk is forwarded with its fields copied. Image ids come from the Id field, and 3-D is the last image's flag. |
| CharacterBiz.CollectImages | internal/biz/character.go:352-357 | The loop yields the Id fields in order, and 3-D is the last element's Enable3D. |
| CharacterBiz.Translate | internal/biz/character.go:326-382 | At most as many chunks as messages. |
| CharacterBiz.TranslateIsPrefix | internal/biz/character.go:326-382 | The forwarded chunks are the translations of the messages before the first stopping message, in arrival order. The outcome is that message's, or the stream end's when no message stops. |
| CharacterBiz.TranslateWellFormed | internal/biz/character.go:351-365 | Every forwarded chunk is well formed. |
| CharacterBiz.EOFCompletes | internal/biz/character.go:328-331 | A stream of forwardable messages that ends in io.EOF forwards all of them and ends with no error. |
| CharacterBiz.EndOutcome | internal/biz/character.go:327-334 | io.EOF completes normally. Any other receive error is an internal error wrapping it. |
| CharacterBiz.Report | internal/biz/character.go:326-383 | A normal completion returns nil. A failure returns its error. A panic is reported as such. |
| CharacterBiz.ChatStream | internal/biz/character.go:499-544 | The channel is closed exactly once. The chunks up to the first message with a non-zero code are forwarded in order. Connection, opening and receive errors are wrapped. |
| CharacterBiz.ChatTranslate | internal/biz/character.go:519-542 | At most as many chunks as messages. |
| CharacterBiz.ChatTranslateIsPrefix | internal/biz/character.go:519-542 | The forwarded chunks are those before the first message with a non-zero code. The error is that message's, or the stream end's. |
| CharacterBiz.ChatCompletions | internal/biz/character.go:190-224 | A connection error, a failed call (a deadline becoming the timeout text) and a non-zero code are all ErrInternalError. A success maps messages role by role and names its images by Name. |
| CharacterBiz.ConfirmCharacterSetting | internal/biz/character.go:257-297 | The same failure rules. The setting is nil exactly when the reply has none, and is copied otherwise. |
| CharacterBiz.UnaryFailuresAreInternal | internal/biz/character.go:205-215 | A timeout and any other failed unary call both yield code InternalError. |
| CharacterBiz.MakeChatMessages | internal/biz/character.go:386-395 | Role and content of each message, in order. |
| CharacterBiz.MakeImageMetas | internal/biz/character.go:397-403 | Unary image metas are their Name fields, in order. |
| CharacterBiz.ImageIDs | internal/biz/character.go:353-356 | Stream image metas are their Id fields, in order. |
| CharacterBiz.ChunkType | internal/biz/character.go:23-28 | Chat 1, image 2, need-confirm 3, setting 4. |
| CharacterBiz.QueryCharacterByID | internal/biz/character.go:414-423 | A missing record gives ErrCharacterNotExist. A storage error gives ErrInternalError wrapping it. A found record comes back unchanged. |
| CharacterBiz.SaveMyCharacter | internal/biz/character.go:405-412 | On success the table is the upsert's result and the id comes back. An error is wrapped in ErrInternalError. |
| CharacterRouter.Gate.TryAcquire | api/http/v1/character_router.go:152-160 | Admits exactly when fewer than ChatLimit slots are held, taking one. A refusal leaves the count. The count never exceeds ChatLimit. |
| CharacterRouter.Gate.Release | api/http/v1/character_router.go:157-159 | The deferred receive gives back one slot. |
| CharacterRouter.Gate.constructor | api/http/v1/character_router.go:71 | A gate of capacity ChatLimit with no slot held. |
| CharacterRouter.CreateV2 | api/http/v1/character_router.go:140-238 | A full gate answers 200 with the queue message and code "1", without calling the service. A body error answers 400 and saves nothing. A limit refusal leaves the writer waiting for ever. A panicking agent stream of a streaming stage aborts the process. Every other run streams exactly `CreateFrames` of what `ServiceCharacter.Sent` says the stage machine sends. An empty session id gives exactly the frame of the fresh uuid, then the final frame. The slot is always given back. |
| CharacterRouter.Serve | api/http/v1/character_router.go:163-238 | The stage machine on a fresh channel, then the writer. Stalled on a limit refusal, Aborted on a crash, otherwise the frames of exactly the snapshots `ServiceCharacter.Sent` gives for the request. |
| CharacterRouter.WriteCreateStream | api/http/v1/character_router.go:191-235 | The writer loop produces exactly `CreateFrames`. |
| CharacterRouter.CreateFrames | api/http/v1/character_router.go:198-233 | One frame per written message, then exactly one final frame with MakeResponse of the last written snapshot. |
| CharacterRouter.WrittenShape | api/http/v1/character_router.go:204-217 | No written message is empty. No two consecutive written messages are equal. The final snapshot is the last one written, or the zero snapshot when none was. |
| CharacterRouter.WrittenFromEvents | api/http/v1/character_router.go:200-211 | Every written message is the (session-substituted) message of some received snapshot. |
| CharacterRouter.SilentEventsGiveZero | api/http/v1/character_router.go:204-226 | When no snapshot has a message, only the final frame is written, and it carries the zero snapshot. The confirm, voice and finalize events are of this kind. |
| CharacterRouter.FreshSessionFrames | api/http/v1/character_router.go:201-211 | Without a session id, the single uuid snapshot is written as its uuid, then in the final envelope. |
| CharacterRouter.Escape | api/http/v1/character_router.go:208 | No newline survives the escape, and newline-free text is unchanged. |
| CharacterRouter.DataFrames | api/http/v1/character_router.go:208-211 | One `data: ` frame per message, escaped and in order. |
| CharacterRouter.WriteChatStream | api/http/v1/character_router.go:430-468 | The ChatV2 writer produces exactly `ChatFrames`. |
| CharacterRouter.StreamChunks | api/http/v1/character_router.go:436-448 | Every chunk is written escaped, with no deduplication, and the content is their concatenation. |
| CharacterRouter.ChatFrames | api/http/v1/character_router.go:436-466 | Frame i is chunk i escaped. A final frame with the whole text and its voice follows exactly when MessageToVoice succeeds. |
| CharacterRouter.LookupFailureStillAnswers | api/http/v1/character_router.go:449-464 | A failed character lookup still ends the stream with the text and an empty voice. |
| CharacterRouter.UpdateCharacter | api/http/v1/character_router.go:552-634 | Parse errors answer 400 with the parser's message. Atoi errors answer 400 with Atoi's message. A form error and a directory error each answer 400 with that error's envelope. More than 4 images in all answers 400 with the upload-limit error. None of these calls the service. Otherwise the upload ends as `UploadAndCall` states. |
| CharacterRouter.UploadAndCall | api/http/v1/character_router.go:596-632 | The first failed save answers 500 with its error envelope and calls nothing. When every save succeeds and image count < num <= 9, the selection panics and the recovered 500 is the answer, with no call. Otherwise the service is called with the form's id, description, name and voice and the handler's account. Its images are the existing ones followed by endpoint + account + "/" + slot + ext + "?t=" + stamp per file, each file in a distinct free slot. Its image is the one the as-written selection picks (the raw value when it keeps it), which equals the corrected `SelectImage`. The reply is 200 "ok" when the service succeeds and its error envelope with 500 when it fails. |
| CharacterRouter.OverrunIsRecovered | api/http/v1/character_router.go:613-615 | With no images, no files and Image "1", the handler answers with the recovered panic and never calls the service. |
| CharacterRouter.FreeSlotsOf | api/http/v1/character_router.go:587-593 | The slots left are {"1","2","3","4"} minus the pre-"." base names of the existing images. |
| CharacterRouter.EnoughSlots | api/http/v1/character_router.go:587-597 | Within the limit of 4, there are at least as many free slots as files. |
| CharacterRouter.TakenAtMost | api/http/v1/character_router.go:589-593 | The images occupy no more slots than there are images. |
| CharacterRouter.AllocateSlots | api/http/v1/character_router.go:597-611 | Each saved file takes a distinct free slot, and its URL is endpoint + account + "/" + slot + ext + "?t=" + stamp, appended in order. A failed save stops the loop with that file's error. |
| CharacterRouter.TakeSlot | api/http/v1/character_router.go:599-608 | Some free slot is taken and deleted from the map. |
| CharacterRouter.UploadURLsSnoc | api/http/v1/character_router.go:597-608 | Saving one more file appends exactly its URL after the URLs of the files before it. |
| CharacterRouter.UploadURLsDistinct | api/http/v1/character_router.go:600-605 | Distinct slots give distinct URLs. |
| CharacterRouter.Ext | api/http/v1/character_router.go:600 | filepath.Ext: a suffix of the path that starts with "." and contains no "/" and no further ".". It is "" only when the last element has no ".". |
| CharacterRouter.Atoi | api/http/v1/character_router.go:571-574 | A parse succeeds only on non-empty text. |
| CharacterRouter.AtoiReadsIntToString | api/http/v1/character_router.go:571 | Atoi reads back every printed integer. |
| CharacterRouter.SelectAsWrittenOverruns | api/http/v1/character_router.go:613-615 | With no images and no files, Image "1" indexes past the end. |
| CharacterRouter.OverrunIff | api/http/v1/character_router.go:613-615 | The as-written selection overruns exactly when image count < num ≤ 9. |
| CharacterRouter.SelectImage | api/http/v1/character_router.go:613-618 | 10 + j names the j-th uploaded file. A number below the image count names that image. Anything else keeps the raw value. It is always in range. |
| CharacterRouter.SelectAgrees | api/http/v1/character_router.go:613-618 | Wherever the as-written selection does not overrun, the corrected one agrees with it. |
| CharacterData.CharacterStore.SaveCharacter | internal/data/character.go:57-113 | Returns the request id. An absent id is inserted with the tag map listed once per entry. A present id gets the request merged. A lookup or write error saves nothing. |
| CharacterData.CharacterStore.QueryCharacterByID | internal/data/character.go:115-124 | The stored record's response, or nothing with no error. |
| CharacterData.NewCharacter | internal/data/character.go:62-82 | Every request field but LikeCount. No image list, not minted. |
| CharacterData.Merge | internal/data/character.go:92-109 | Writes only non-zero request fields. LikeCount, Tag, ImageURLs, IsMint and Mint are kept. |
| CharacterData.ZeroStateKeepsDraft | internal/data/character.go:92-109 | Zero values (State 0, Is3D false, "") leave the stored fields as they were. |
| CharacterData.MergeIdempotent | internal/data/character.go:92-109 | Merging the same request twice is merging it once. |
| CharacterData.QueryCharactersByAccountID | internal/data/character.go:126-154 | Without an account: the non-draft rows, windowed, with a count of the whole table. With an account: that account's rows whose prompt, account name or name contains the query under the column collation `fold`, drafts included. |
| CharacterData.QueryCharactersByNameOrPrompt | internal/data/character.go:156-186 | Only non-draft rows, all or those matching the query under the collation `fold`. The count excludes drafts. |
| CharacterData.PublicListingHasNoDrafts | internal/data/character.go:133 | No listed public response comes from a draft. |
| CharacterData.DraftsCountedWithoutAccount | internal/data/character.go:137 | With no account, one draft makes the count exceed what can ever be listed. |
| CharacterData.FilterListed | internal/data/character.go:133 | Keeps exactly the non-draft rows. One draft makes the result shorter than the rows. |
| CharacterData.FilterListedAppend | internal/data/character.go:133 | Filtering a concatenation filters each part, so order and multiplicity are kept. |
| CharacterData.FilterListedSingle | internal/data/character.go:133 | A single row is kept exactly when it is no draft. |
| CharacterData.FilterOwner | internal/data/character.go:141-145 | Keeps exactly the account's rows matching the query under `fold`. |
| CharacterData.FilterOwnerAppend | internal/data/character.go:141-145 | Filtering a concatenation filters each part, so order and multiplicity are kept. |
| CharacterData.FilterOwnerSingle | internal/data/character.go:141-145 | A single row is kept exactly when it is the account's and matches. |
| CharacterData.FilterPublic | internal/data/character.go:163-168 | Keeps exactly the non-draft rows matching the query under `fold`. |
| CharacterData.FilterPublicAppend | internal/data/character.go:163-168 | Filtering a concatenation filters each part, so order and multiplicity are kept. |
| CharacterData.FilterPublicSingle | internal/data/character.go:163-168 | A single row is kept exactly when it is no draft and matches. |
| CharacterData.MatchUnderCollation | internal/data/character.go:141-145 | The match sees a field only through the collation key: a name with the same key matches the same queries, and a query with the name's key matches. |
| CharacterData.Offset | internal/data/character.go:133 | (page-1)*limit when positive, else 0. |
| CharacterData.Window | internal/data/character.go:133 | The rows from the offset on, at most `limit` of them. |
| CharacterData.MakeBizCharacterResponse | internal/data/character.go:216-245 | The record's fields under the response's names: VoiceID as Voice, UpdatedAt as UpdateTime, the tags and image list copied. |
| CharacterData.ResponseForgetsOnlyBookkeeping | internal/data/character.go:216-245 | Two records give the same response exactly when they agree on every field but State, IsCustomized and CreatedAt. |
| CharacterData.Responses | internal/data/character.go:247-253 | One response per record, in order. |
| CharacterData.MakeBizCharacterResponses | internal/data/character.go:247-253 | The loop yields exactly those responses. |
| VoiceData.VoiceStore.CreateCharacterVoice | internal/data/character_voice.go:37-47 | Inserts under the fresh uuid, with ENUrl stored as ZHUrl. An insert error changes nothing. |
| VoiceData.VoiceStore.QueryAllCharacterVoice | internal/data/character_voice.go:49-56 | Every row, mapped, in order. Gender plays no part. |
| VoiceData.VoiceStore.QueryCharacterVoiceByID | internal/data/character_voice.go:58-68 | The row with that uuid, or nothing and no error. |
| VoiceData.MakeBizCharacterVoice | internal/data/character_voice.go:70-81 | ENUrl goes into both ZHUrl and ENUrl. The role ids are copied. |
| VoiceData.VoiceList | internal/data/character_voice.go:83-89 | Same length, same order. |
| VoiceData.MakeBizCharacterVoiceList | internal/data/character_voice.go:83-89 | The loop yields exactly that list. |
| VoiceData.Lookup | internal/data/character_voice.go:58-68 | The first row with the id, or none when no row has it. |
| VoiceData.LookupFindsRow | internal/data/character_voice.go:58-68 | With unique uuids, the lookup finds the row that has the id. |
| VoiceData.CreatedVoiceFound | internal/data/character_voice.go:37-68 | After a create, the voice is found under its uuid with ENUrl in both URL fields. |
| VoiceData.StoredVoiceFound | internal/data/character_voice.go:58-81 | Looking up a stored row's uuid returns that row, mapped. |
| VoiceBiz.QueryCharacterVoice | internal/biz/character_voice.go:43-52 | An absent voice gives ErrVoiceNotExist. A repository error gives wrapped ErrInternalError. A found voice comes back unchanged. |
| VoiceBiz.QueryAllCharacterVoice | internal/biz/character_voice.go:35-41 | Queries with gender 0 and returns the list unchanged, or a wrapped ErrInternalError. |
| VoiceBiz.VoiceAcceptedIff | internal/biz/character_voice.go:43-52 | Without storage errors, an id is accepted exactly when a stored voice has it. |
| LikesData.LikeStore.SaveCharacterAccountLike | internal/data/character_account_likes.go:31-49 | Creates the pair or overwrites only its flag. A lookup error other than not-found is returned and saves nothing. A save failure is swallowed. |
| LikesData.LikeStore.QueryCharacterAccountLike | internal/data/character_account_likes.go:51-60 | The pair's flag. A missing pair is the not-found error, not false. |
| LikesData.LikeStore.QueryCharacterLikeCount | internal/data/character_account_likes.go:62-69 | The number of accounts whose flag for the character is set. |
| LikesData.SaveThenQuery | internal/data/character_account_likes.go:31-60 | After saving f for a pair, querying it gives f. |
| LikesData.SaveKeepsOtherPairs | internal/data/character_account_likes.go:35-45 | Every other pair keeps its flag. |
| LikesData.LikersAfterSave | internal/data/character_account_likes.go:35-69 | Setting adds the account to the likers and clearing removes it. |
| LikesData.LikersOfOthersUnchanged | internal/data/character_account_likes.go:35-69 | Other characters' likers are unchanged. |
| LikesData.LikeCountAfterLike | internal/data/character_account_likes.go:31-69 | A new like raises the count by one. A repeated like leaves it. |
| ConversationData.ConversationStore.SaveConversation | internal/data/conversation.go:68-86 | An empty id creates a record under the fresh id. Any other id updates only matching rows' account and character. |
| ConversationData.ConversationStore.QueryConversationByID | internal/data/conversation.go:32-47 | The first match of account and character, or nothing and no error. |
| ConversationData.ConversationStore.QueryConversationsByAccountID | internal/data/conversation.go:49-66 | All of the account's conversations, latest update first, with their number. Page and limit are ignored. |
| ConversationData.ConversationStore.QueryConversationsCountByAccountID | internal/data/conversation.go:101-108 | Counts the rows whose character_id is the argument. |
| ConversationData.FirstOf | internal/data/conversation.go:32-47 | The earliest matching row, or none when none matches. |
| ConversationData.OfAccount | internal/data/conversation.go:49-66 | Exactly the account's rows, in order. |
| ConversationData.SortByUpdateDesc | internal/data/conversation.go:56 | A permutation with the latest update first. |
| ConversationData.InsertByUpdate | internal/data/conversation.go:56 | Insertion keeps the elements, plus one. |
| ConversationData.InsertKeepsOrder | internal/data/conversation.go:56 | Inserting into an ordered list keeps it ordered. |
| ConversationData.UpdateRow | internal/data/conversation.go:79-84 | Only a row with the request's id changes, and only its non-empty account and character. |
| ConversationData.MakeBizConversationResponse | internal/data/conversation.go:88-99 | The row's fields under the response's names. |
| ConversationData.ConversationResponses | internal/data/conversation.go:88-99 | A response per row, in order. |
| ConversationData.MakeBizConversationResponses | internal/data/conversation.go:88-99 | The loop yields exactly that list. |
| ConversationData.CreatedConversationFound | internal/data/conversation.go:32-78 | A new conversation of a pair that had none is the one the lookup finds. |
| ConversationData.CountAfterCreate | internal/data/conversation.go:70-108 | A create raises its character's count by one. |
| ConversationData.UpdateKeepsIDs | internal/data/conversation.go:79-84 | An update keeps the row count and every row's id. |
| ConversationBiz.SaveConversation | internal/biz/conversation.go:48-59 | Returns the id it was given, so "" for a new conversation. Repository errors are wrapped in ErrInternalError. |
| ConversationBiz.QueryConversation | internal/biz/conversation.go:40-46 | An absent conversation passes through with no error. Errors are wrapped. |
| ConversationBiz.QueryConversations | internal/biz/conversation.go:61-67 | The repository's list and count, or the wrapped error. |
| ConversationBiz.QueryConversationsCount | internal/biz/conversation.go:69-75 | The argument reaches the by-character count unchanged. |
| ConversationBiz.Internal | internal/biz/conversation.go:43 | ErrInternalError caused by the repository error. |
| Activity.ParseActivityCodeToErr | internal/biz/account_activity.go:496-507 | Chat, Like and CreateCharacter each have their own Limit-coded message. Every other code, Login included, is ErrLimit. |
| Activity.PostActivityResult | internal/biz/account_activity.go:310-333 | Code "0" gives nil and "100" gives the limit error. Every other failure is ErrInternalError. |
| Activity.QueryActivityLimitResult | internal/biz/account_activity.go:354-379 | A code other than "0" is ErrInternalError. "0" with is_limit gives the limit error. Otherwise nil. |
| Activity.ClaimPointsResult | internal/biz/account_activity.go:413-435 | Success returns Data. "Not enough points" gives ErrNotEnoughPoints. Other failures give ErrInternalError. |
| Activity.InternalFailure | internal/biz/account_activity.go:300-330 | Each failed exchange is ErrInternalError wrapping its own description. A decoded failure's description ends with the `%+v` text of the reply. A bad status prints the number the format is given. |
| Activity.InternalTextReachesClient | internal/biz/account_activity.go:300-330 | ErrInternalError around a text reaches the client with that text after its own in the envelope's data. |
| Activity.FailureTextReachesClient | internal/biz/account_activity.go:372-374 | A failed limit query reaches the client with the `%+v` text of the reply. |
| Activity.StatusAddressReachesClient | internal/biz/account_activity.go:354-356 | A bad status of the limit query reaches the client with the printed address of the `StatusCode` method, whatever the status. |
| Activity.LimitErrorEnvelope | internal/biz/account_activity.go:31-37 | Every limit error reaches the client as envelope code "100". |
| Activity.PostActivityEnvelopeCode | internal/biz/account_activity.go:326-331 | A failed post answers envelope code "100" exactly when the service did. |
| Activity.QueryActivityLimitIgnoresLimitCode | internal/biz/account_activity.go:372-379 | Reply code "100" is an internal error for the limit query but a limit error for the post. |
| Activity.LimitMessagesDistinct | internal/biz/account_activity.go:496-507 | Two activity codes get the same limit error exactly when they are equal or neither is Chat, Like or CreateCharacter. |
| Activity.LoginCodeStore.Set | internal/data/account.go:24-31 | SET stores code and expiration, unless Redis fails. |
| Activity.LoginCodeStore.Get | internal/data/account.go:33-40 | The stored code, redis.Nil for a missing key, or the fault. |
| Activity.LoginCodeStore.Del | internal/data/account.go:42-49 | DEL removes the key, unless Redis fails. Each call is counted. |
| Activity.CheckLoginCode | internal/biz/account_activity.go:509-531 | The retry loop's answer, store and delete count are those of `CheckLoginCodeSpec`. |
| Activity.CheckLoginCodeSpec | internal/biz/account_activity.go:509-531 | At most 3 deletes are issued. |
| Activity.FirstDelSuccess | internal/biz/account_activity.go:515-523 | The first successful try, all earlier tries having failed, or none when all three fail. |
| Activity.CheckSucceedsIff | internal/biz/account_activity.go:514-528 | A matching code is accepted exactly when one of the three deletes succeeds. |
| Activity.MismatchDeletesNothing | internal/biz/account_activity.go:514-530 | A wrong code is ErrVerificationCodeFailed, with no delete and the store unchanged. |
| Activity.CodeIsSingleUse | internal/biz/account_activity.go:510-528 | After a successful check, a second check fails on the lookup. |
| Activity.SetLoginCode | internal/biz/account_activity.go:533-539 | Stores the code for the expiry. A failure is ErrInternalError wrapping it. |
| Activity.SetThenCheck | internal/biz/account_activity.go:509-539 | A code just set passes the check. |
| AccountRouter.EmailRecogniserCorrect | api/http/v1/account_router.go:341-345 | The recogniser accepts exactly the addresses the valid e-mail grammar derives. |
| AccountRouter.SigninMailer.SendSigninMail | api/http/v1/account_router.go:330-370 | A body parser error answers 400 with the parser's message, and a malformed address answers 400. A throttled address gets a polite refusal. None of these sends anything or changes the throttle, pool or codes. Otherwise the mail is sent. Only when the code is also stored is the address throttled for 30 seconds. |
| AccountRouter.LoginSendMail | internal/service/account/account.go:13-21 | A six-digit code is sent through the next pool client, then stored for the expiry. A store failure is reported wrapped, after the mail has gone. |
| AccountRouter.SigninStoreFailureEnvelope | api/http/v1/account_router.go:356-360 | A store failure reaches the client as the internal-error code. |
| AccountRouter.ActivityService | internal/service/account/account.go:55-66 | The limit check's error first. Then the post's error, wrapped. |
| AccountRouter.ActivityHandler | api/http/v1/account_router.go:293-328 | A body or params parser error answers 500 with the parser's message. The service is called exactly when the parse succeeds and the path account is the token's. Otherwise "not auth" with 500. A service error gives the 500 error envelope. |
| AccountRouter.SavePointsAddrHandler | api/http/v1/account_router.go:401-431 | The same parse failures and owner check, with the service called exactly when both pass. A service error gives a bare message. |
| AccountRouter.ChatLimitReachesClient | api/http/v1/account_router.go:322-324 | A chat over its limit reaches the client as code "100" with the chat message. |
| AccountRouter.AuthRequestFor | api/http/v1/account_router.go:103-106 | The body id, registered with provider "Blockchain" and nothing else. |
| Mail.MailPool.SendMail | internal/biz/mail.go:65-80 | The client at index mod count sends, and the index advances by one. |
| Mail.MailPool.constructor | internal/biz/mail.go:39-63 | Index 0, one client per configured account, in order. |
| Mail.SendAll | internal/biz/mail.go:65-80 | Successive sends dispatch exactly `Sends`. |
| Mail.SendsAt | internal/biz/mail.go:65-80 | The i-th send goes to client (start+i) mod count. |
| Mail.SendsRoundRobin | internal/biz/mail.go:65-80 | Each send uses the next client, wrapping from the last to the first. |
| Mail.FromZeroEachClientOnce | internal/biz/mail.go:39-80 | From a fresh pool, as many sends as clients use each client once, in order. |
| Mail.MakeMessage | internal/biz/mail.go:82-116 | From the client's user name, to the recipient, with the fixed subject and the code. |
| Common.ContainsChinese | internal/pkg/util/common.go:37-44 | True exactly when some character is Han. |
| Common.AsciiIsNotChinese | internal/pkg/util/common.go:37-44 | ASCII-only text has no Han character. |
| Common.ContainsChineseConcat | internal/pkg/util/common.go:37-44 | A concatenation contains Chinese exactly when one of its parts does. |
| Common.URL2FileName | internal/pkg/util/common.go:130-140 | The last "/"-part, cut before its first "?". It holds neither "/" nor "?". |
| Common.URL2FileNamePosition | internal/pkg/util/common.go:130-140 | The name starts right after the last "/" of the URL. |
| Snowflake.GenValidateCode | internal/pkg/util/snowflake.go:28-37 | `width` decimal digits, the i-th being the i-th draw. |
| Goth.FiberGothAdapter | internal/pkg/util/goth.go:14-30 | Reads the segment after the first "auth", or segment 0. Sets the provider exactly when it is registered. |
| Goth.FirstAuth | internal/pkg/util/goth.go:17-22 | The position of the first "auth" segment, or none when there is none. |
| Goth.NoAuthSegment | internal/pkg/util/goth.go:15-24 | An absolute path without an "auth" segment names provider "". |
| Resp.MakeResponse | internal/pkg/util/resp.go:15-21 | Code "0", empty message, the payload. |
| Resp.MakeErrResponse | internal/pkg/util/resp.go:23-37 | A business error in the chain gives its code, message and text. Otherwise "-1" with the error text. |
| Resp.MakeResponseWithMsg | internal/pkg/util/resp.go:39-45 | Empty code, the message, no payload. |
| Resp.Response.SetCode | internal/pkg/util/resp.go:47-50 | Changes the code in place and returns the same response. |
| Resp.ErrResponseOfWrappedBiz | internal/pkg/util/resp.go:23-31 | A wrapped business error's envelope carries the outermost business error's code. |
| Resp.PlainErrorResponse | internal/pkg/util/resp.go:32-36 | A plain error's envelope is code "-1". |
| BizErr.NewBizError | internal/pkg/bizerr/biz.go:14-20 | The message and code, no cause, and the text "(code) msg". |
| BizErr.ErrorString | internal/pkg/bizerr/biz.go:30-35 | A business error's text starts with "(code) msg". A wrapper's text starts with its prefix and ends with its suffix. |
| BizErr.Unwrap | internal/pkg/bizerr/biz.go:37-39 | No cause exactly when the unwrap chain has one element. Otherwise the cause is the chain's next element, and its chain is the rest. |
| BizErr.ErrorTextMentionsChain | internal/pkg/bizerr/biz.go:30-35 | The text of every error on the unwrap chain occurs in the outermost error's text. |
| BizErr.Wrap | internal/pkg/bizerr/biz.go:45-51 | Same message and code, caused by the error. |
| BizErr.Wrapf | internal/pkg/bizerr/biz.go:53-59 | The message gets ": " and the formatted text. Code and cause as in Wrap. |
| BizErr.Errorf | internal/pkg/bizerr/biz.go:61-63 | Wrap of a new error with the formatted text. |
| BizErr.ErrorToBizError | internal/pkg/bizerr/biz.go:65-72 | The first business error in the unwrap chain, or none when the chain has none. |
| BizErr.FoundThroughWrappers | internal/pkg/bizerr/biz.go:65-72 | A business error found through wrappers keeps its code and message. |
| BizErr.WrapErrorString | internal/pkg/bizerr/biz.go:30-35 | A wrapped business error's text is its own, ": ", then the cause's. |
| BizErr.Int32 | internal/pkg/bizerr/error.go:5-7 | The code as a 32-bit value. |

## Left out

- The legacy `CreateCharacter` and `Chat` flows are not modelled:
  `internal/service/character/character.go:33-133` and `485-549`, and the
  legacy `create`/`chat` handlers except their shared gate. `createV2` and
  `ChatV2` replaced them, and they repeat the same stage and stream logic.
- The `ChatV2` service method is not modelled, only its router writer. The
  writer takes the chunks it receives as its input.
- `refreshCharacterTask` and its periodic goroutine are not modelled. They are
  timers and background I/O.
- Logging through `zap` is not modelled. It has no effect on results. The
  `%+v` texts that end up inside returned errors are modelled.
- The 50 ms sleep between SSE frames is not modelled.
- Flush errors in the writers are not modelled, and neither is the `i` counter.
- JSON encoding and decoding are abstract functions, `toJSON` and
  `settingJSON`. Go's field tags and `omitempty` are not modelled.
- Expiry is not modelled. Each entry keeps its lifetime but never expires.
  This covers three stores:
  - the image cache's items, together with the go-cache sweep;
  - the Redis login code's TTL (`Activity.LoginCodeStore`, so `SetThenCheck`
    holds at any later time);
  - the sign-in throttle's 30-second entry
    (`AccountRouter.SigninMailer.SendSigninMail`, which therefore throttles an
    address for good).
- `Activity.PostActivityResult`, `Activity.ClaimPointsResult`: the failures
  of building the request are not modelled. `Encode` gives a plain
  "req encode" error, and `NewRequestWithContext` a wrapped ErrInternalError
  (internal/biz/account_activity.go:285-293 and 387-395). Neither
  happens for these fixed request structs and well-formed hosts.
- `CharacterRouter.UploadAndCall`: the recovered panic answers `Recovered`.
  The body that fiber's recover and error handlers write is not modelled,
  because those handlers are outside the core.
- `Activity.InternalFailure`: the `%+v` text of a reply and the address that
  `%d` prints for the method value `resp.StatusCode` are parameters. Go's
  struct formatting and memory addresses are not modelled.
- `ServiceCharacter.CharacterService.CreateCharacterV2`: a panic of the
  agent goroutine is modelled as emitting nothing. In Go the snapshots sent
  before the panic would already have been consumed.
- Goroutine interleavings are not modelled. The model runs the service, then
  the writer. The `errCh` send in `createV2` has no receiver. A handler's slot
  release happens when the handler returns, which the model places before
  the writer runs.
- `CharacterRouter.Gate.TryAcquire`: the check and the send in Go are not
  atomic, so concurrent requests can briefly exceed the limit (they then
  block on the channel). The model runs them atomically.
- SQL `like '%q%'` is modelled as a substring test under the column
  collation, an abstract key function `fold` applied to the field and the
  query. `%` and `_` in the query are not wildcards. Collation rules that
  cannot be written as one key per text, such as trailing-space padding, are
  not modelled.
- When conversations have equal time stamps, the model keeps table order.
  SQL does not promise any order for such ties.
- `CharacterRouter.Atoi`: strconv's range error for numbers beyond 64 bits is
  not modelled. Go quotes the input with `%q`; the model's error text puts it
  between plain quotes.
- The account HTTP service, `QueryAccount`, `Auth` and `GenerateVoice` are
  oracles, given as their replies.
- `PostActivity`'s result in finalize is only logged, so the model ignores it.
- `Mail.MailPool.SendMail` requires at least one mail client. With none the
  Go modulo panics, and the deployment configures at least one.
- `sort.Slice` in listings outside the core is not modelled.
- File-system deletes are recorded in the ghost set `removed`. Errors from
  `os.Remove` are ignored, as the Go code ignores them.

## Findings

| source | as written | input that shows it | evidently intended | confidence | as-written member | corrected member |
|---|---|---|---|---|---|---|
| api/http/v1/character_router.go:613-615 | For `len(Images) < num <= 9 + len(files)`, the handler indexes `Images[num % 10 + urlLen]`. For `num <= 9` that index is at least `num`, which is past the end: an index-out-of-range panic, after the files were saved. | No existing images, no files, `image=1`. | `10 + j` names the j-th uploaded image, and smaller numbers address existing images, so the guard should start at 10. | not executed | CharacterRouter.SelectAsWrittenOverruns | CharacterRouter.SelectImage |
