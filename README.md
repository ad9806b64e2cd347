# Pyrus–Telegram bridge, modelled in Dafny

This project models the core of a bot that connects Telegram users with the Pyrus CRM.

In one direction, Pyrus calls a webhook whenever a task changes. The server checks the call and queues it. A single worker then forwards the task's last comment to the user's Telegram chat, or opens the task's chat when the task has just been created.

In the other direction, a Telegram message from a registered user becomes a comment in the user's appeal task. An appeal task is created and its chat opened when there is none. Several messages sent together as one album become a single comment, posted three seconds after the album's first message. A user who is not registered goes through a short dialogue: name, then telephone.

Every call to Pyrus except the token request goes through `api_request`. It takes the access token from a process-wide `TokenManager`, drops the token on a 401, and tries the call at most three times. The token request itself, `_refresh_token`, posts to `/auth` directly, with its own retry.

Files, one module each:

- `wrappers.dfy` (`Wrappers`): `Option` and `Result`.
- `python.dfy` (`Python`): the Python string and integer behaviour the code relies on.
  - `str.strip`, `str.lower` on ASCII, `str.startswith`.
  - `int(str)` on ASCII decimal text, with `_` separators and a sign.
- `pyrus_api.dfy` (`PyrusApi`): `pyrus_api_service.py`.
  - The token manager and the lazily created singleton.
  - `api_request` with its retry.
- `utils.py` is modelled in `utils.dfy` (`Utils`):
  - field lookup, payload building, chunking;
  - attachment downloads;
  - forwarding to a Telegram chat;
  - the replies of the task, register, comment and upload endpoints.
- `server_main.dfy` (`Webhook`): `server/main.py`.
  - The endpoint's gate: User-Agent and HMAC signature.
  - The guard chain and the effects of `process_webhook`.
  - The queue and its worker, as the class `WebhookService`.
- `process_message.dfy` (`ProcessMessage`): `bot/process_message.py`.
  - Which file a message carries, and the size gate.
  - The comment made for a single message.
  - Album buffering, as the class `MediaGroups`, whose fields are the module's `media_groups_data` and `processing_tasks` and the pending flush timers.
- `bot_handlers.dfy` (`Handlers`): `bot/handlers.py`.
  - The routing of a message in `message_text_handler`.
  - The task payloads the handlers build.
  - The registration dialogue, as the class `Conversation`.

## How the model handles the outside world

Nothing is executed; everything outside the process is an input.

| Input | What it stands for |
|---|---|
| `auth(k)` | The reply to the k-th POST to `/auth` made by one token manager. |
| `respond(k)` | The reply to the k-th HTTP request made by one `api_request` call. |
| `hexHmac(key, body)` | The HMAC-SHA1 hex digest. |
| `parse(body)` | The result of `json.loads`. |
| `World` | The Telegram and Pyrus answers one webhook run sees. |
| `upload(fileId, filename)` | The GUID that the Telegram download followed by `get_unique_file_id` gives (`Utils.UniqueFileId` of the upload reply). |
| `Lookups`, and the results passed to `Conversation.OnTelephone` | The answers the handlers see. |

Python values are modelled explicitly:

- Truthiness: `Truthy`, `HasText`, `Present`.
- A missing key read with `dict.get` is `VNull` or `None`.
- What each function raises is a `Failure`.
- A tenacity retry that gives up is `RetryError(last)`.

Several replies to the user are built as request objects but never awaited, so nothing is sent:

- `message.answer` at `bot/handlers.py` lines 49, 57, 76 and 82;
- every `msg.reply` in `bot/process_message.py`.

The model keeps these apart: `Handlers.Reply` has `Sent` for awaited answers and `Built` for answers that are only created. `ProcessMessage` reports such replies as "error reply built".

Where the system's design specification and the code disagree, the model follows the code:

- **403 is retried.** `api_request` retries every failure, 403 included (`PyrusApi.ForbiddenIsRetried`). The design specification says a 403 is never retried.
- **No `sha1=` prefix is removed.** `verify_signature` does not strip a `sha1=` prefix, although its docstring and the design specification accept one. A prefixed header is always rejected (`Webhook.PrefixedSignatureRejected`).
- **Case is ignored.** The signature comparison ignores the case of letters (`Webhook.SignatureCaseInsensitive`). So a mutation that only changes case is accepted, not rejected.
- **A full queue waits.** The design specification says a full queue is a server error; the code waits on `put` instead.
- **The webhook token bypasses the cache.** The webhook path takes its token from a fresh `TokenManager()`, not from the shared one. Every forwarded comment therefore costs at least one auth request (`Webhook.DeliveryAlwaysAuthenticates`).
- **Downloads go by id.** `download_one` downloads by attachment id, not by the attachment's `url`. Its "Invalid response" branch is dead (`Utils.DownloadNeverInvalid`).
- **A dead duplicate check.** The second `require(fields, "Unexpected User-Agent")` repeats the first and never fires (`Webhook.Guard`).
- **Settings missing from the configuration.** `USER_FORM_FIELDS`, `CLIENT_FORM_ID` and `APPEAL_FORM_ID` are used but not defined in `config.py`, so they are the parameter `Handlers.Config`. `REQUEST_FORM_FIELDS` is fio 26, telephone 27, tg_account 28, tg_id 29 (`Utils.RequestFio` and the constants after it).

## Model

| member | source | states |
|---|---|---|
| Python.StripIsSlice | bot/handlers.py:223 | `str.strip()` gives the slice of its input between the leading and the trailing whitespace, and removes nothing else. |
| Python.PyIntOfIntToString | server/main.py:212 | `int(str(v).strip())` reads back every integer written in decimal. |
| PyrusApi.RefreshAttempt | pyrus_api_service.py:39-53 | One refresh attempt succeeds exactly on a 2xx auth reply that has "access_token", and yields that token. |
| PyrusApi.RefreshFromSpec | pyrus_api_service.py:36-53 | The retried refresh:<br>• makes one to three auth requests;<br>• succeeds exactly when one is accepted, with the token of the last (accepted) one;<br>• every earlier attempt failed;<br>• a failure is a `RetryError` after exactly three requests. |
| PyrusApi.CachedTokenFastPath | pyrus_api_service.py:20-27 | A cached non-empty token is returned as it is, with no auth request. |
| PyrusApi.GetTokenFromSpec | pyrus_api_service.py:17-34 | `get_token`:<br>• on success, returns the token it leaves cached, and that token is non-empty;<br>• on failure, raises `RetryError` and leaves no usable token;<br>• makes no auth request exactly when a token was cached;<br>• makes at most nine auth requests. |
| PyrusApi.GetTokenAfterInvalidateRefreshes | pyrus_api_service.py:55-57 | After `invalidate`, the next `get_token` makes an auth request. |
| PyrusApi.TokenManager.constructor | pyrus_api_service.py:13-15 | A new manager holds no token. |
| PyrusApi.TokenManager.RefreshToken | pyrus_api_service.py:36-53 | The method's result, token and auth counter are those of `RefreshFrom`; the token changes only on success. |
| PyrusApi.TokenManager.GetToken | pyrus_api_service.py:17-34 | The method's result, token and auth counter are those of `ObtainToken`. |
| PyrusApi.TokenManager.Invalidate | pyrus_api_service.py:55-57 | The token is dropped; nothing else changes. |
| PyrusApi.RequestUrl | pyrus_api_service.py:80 | A non-empty `url` wins; otherwise the URL is the base URL followed by the endpoint. |
| PyrusApi.UnauthorizedInvalidates | pyrus_api_service.py:98-101 | A 401 drops the token and is raised as an HTTP status error. |
| PyrusApi.ApiAttemptSpec | pyrus_api_service.py:80-106 | One attempt:<br>• sends at most one request;<br>• succeeds only on a 2xx reply to it;<br>• returns raw bytes exactly when `download` is set, and those are the reply's bytes. |
| PyrusApi.ApiFromSpec | pyrus_api_service.py:70-106 | The retried call:<br>• sends at most three requests;<br>• a success comes from a 2xx reply to the last one, raw exactly when `download` is set;<br>• every failure is a `RetryError`. |
| PyrusApi.ForbiddenIsRetried | pyrus_api_service.py:70-101 | A server that always answers 403 sees three requests. The caller gets `RetryError(403)`, not the 403. |
| PyrusApi.RetryAfterUnauthorizedRefreshes | pyrus_api_service.py:82-99 | After a 401, a new token is fetched even if one was cached at the start. |
| PyrusApi.Unwrapped | pyrus_api_service.py:70 | The exception with every `RetryError` wrapper removed (the `reraise=True` reading); other exceptions are unchanged. |
| PyrusApi.Reraised | pyrus_api_service.py:70 | A success is unchanged; a failure becomes its unwrapped exception. |
| PyrusApi.ApiClient.GetTokenManager | pyrus_api_service.py:62-67 | The first call creates a manager without a token; later calls return the same one. |
| PyrusApi.ApiClient.Request | pyrus_api_service.py:70-106 | Result, requests sent, token and auth counter are those of `Api` on the singleton manager's state. |
| Utils.BuildPayload | utils.py:252-270 | The comment payload:<br>• channel is "telegram";<br>• text is the given text, or "..." when it is empty, so never empty;<br>• attachments are present exactly when there are files, and are those files. |
| Utils.ChunksFlatten | utils.py:127-129 | Concatenating the chunks gives back the list. |
| Utils.ChunksShape | utils.py:127-129 | Chunks are non-empty and at most `size` long; all but the last are exactly `size`; there are ⌈n/size⌉ of them. |
| Utils.FieldsToDictSpec | utils.py:35-41 | The dictionary has a key exactly for ids of fields carrying both id and value. It maps each to the value of the last such field. |
| Utils.FindValueSpec | utils.py:44-49 | `find_value` returns the value of the first field with the id, and `None` when there is none. |
| Utils.SingleFieldLookupsAgree | utils.py:35-49 | For an id that occurs once, the dictionary and `find_value` agree. |
| Utils.DownloadGuard | utils.py:60-70 | The first failing guard, in order: no name, no URL or size, too large. No error exactly when the name, URL and size are set and the size is within the limit. |
| Utils.FailureText | utils.py:93-95 | The error text of a caught exception is never empty. |
| Utils.DownloadOne | utils.py:52-95 | • A request is made exactly when the guards pass, to the download address built from the attachment's id.<br>• Raw bytes become `{filename, content}`.<br>• A failure becomes a non-empty error with no content. |
| Utils.DownloadIgnoresUrl | utils.py:54-79 | The attachment's "url" is only checked for being non-empty. Changing it to another non-empty value changes neither the request nor the result. |
| Utils.DownloadNeverInvalid | utils.py:77-85 | A download through the retried request never returns "Invalid response". |
| Utils.DownloadFiles | utils.py:98-112 | One `download_one` result per attachment, in order. |
| Utils.ProcessFileData | utils.py:115-124 | A file exactly for content and a name without an error, carrying them. |
| Utils.ProcessedFilesSpec | utils.py:148-154 | The kept files are exactly the accepted attachments' files: none is lost, none invented. |
| Utils.ProcessedFilesAppend | utils.py:148-154 | The kept files of a concatenation are the kept files of the first part followed by those of the second. So the files keep input order and multiplicity. |
| Utils.ProcessedFilesOne | utils.py:148-154 | One download result is kept, as its `process_file_data` value, exactly when that value is not None. |
| Utils.ChatSendPlanSendsAllFiles | utils.py:132-169 | Unless the text fails, every kept file is sent in order, in batches of 1 to 10 documents to the same chat. |
| Utils.SendMessageToChat | utils.py:132-169 | The calls made and whether it raises are `ChatSendPlan`. Every delivered call was made. |
| Utils.CommentsEndpoint | utils.py:25 | The endpoint is `/tasks/<id>/comments` and contains the task id. |
| Utils.OpenChatResult | utils.py:15-32 | `open_chat` succeeds exactly on a JSON-object reply. It re-raises request failures; any other reply is a TypeError. |
| Utils.CheckApiElement | utils.py:191-206 | The first task of the lookup, `None` when there is none. Request failures pass through; a non-object reply is a TypeError. |
| Utils.CreatedTask | utils.py:172-188 | The created task, or `{}` when the reply has none. Failures pass through; a non-object reply is a TypeError. `create_appeal_task` (lines 233-249) is the same code. |
| Utils.UniqueFileId | utils.py:210-230 | The GUID exactly for an object reply that carries one; `None` otherwise. |
| Utils.UploadAsWrittenNeverSucceeds | utils.py:219-221 | The upload call as written ends in `RetryError(TypeError)` and yields no GUID. |
| Webhook.CompareDigest | server/main.py:49 | Raises unless both strings are ASCII; otherwise reports equality. |
| Webhook.VerifySignature | server/main.py:37-51 | Accepted exactly when:<br>• the header is non-empty;<br>• the header and the digest are ASCII;<br>• both are equal once lower-cased. |
| Webhook.PrefixedSignatureRejected | server/main.py:37-49 | A "sha1=" prefixed header is always rejected. |
| Webhook.SignatureCaseInsensitive | server/main.py:49 | A header that lower-cases to the digest is accepted. |
| Webhook.MissingSignatureRejected | server/main.py:41-43 | A missing or empty header is rejected. |
| Webhook.AlteredSignatureRejected | server/main.py:46-49 | A header that differs from the digest in one position, other than by letter case, is rejected. |
| Webhook.Gate | server/main.py:99-107 | An event is queued exactly when its User-Agent starts with "Pyrus-Bot-" and its signature verifies. Otherwise it is refused: 400 "Bad User-Agent" first, else 500 "Request body is missing". |
| Webhook.Decide | server/main.py:124-186 | • 500 on an empty body, 422 on bad JSON, AttributeError on a non-object.<br>• A payload goes on exactly when every `require` passes.<br>• Then: the chat is opened exactly when the last comment's create_date equals the task's.<br>• Otherwise the comment is delivered exactly when its channel is telegram. |
| Webhook.Guard | server/main.py:138-171 | The first failing `require` in order. None fails exactly for an accepted payload. "Unexpected User-Agent" never occurs. |
| Webhook.TriggersBeforeCreateDate | server/main.py:163-171 | Every accepted payload is counted. A counted one can fail only the create_date check. |
| Webhook.ProcessWebhook | server/main.py:114-222 | A rejected payload raises with no effect. A comment from another channel answers 200 with no effect. |
| Webhook.DownloadCountSpec | utils.py:52-81 | No download request is made exactly when every attachment fails a guard, and one per attachment exactly when none does. |
| Webhook.ChatIdRoundTrip | server/main.py:204-215 | A chat id stored as a number or as its decimal text is read back unchanged. |
| Webhook.CreationCommentOpensChat | server/main.py:173-178 | A task-creation comment causes one `open_chat` to the task and nothing else. The run answers 200 exactly when that succeeds. |
| Webhook.OnlyTelegramCommentsForwarded | server/main.py:180-217 | Something reaches Telegram only when:<br>• the payload is accepted;<br>• its last comment is a Telegram one and not the creation comment;<br>• the chat id is valid.<br>Every call goes to that chat. |
| Webhook.DeliveryAlwaysAuthenticates | server/main.py:189 | Forwarding a comment always makes at least one auth request. |
| Webhook.DeliveryStatuses | server/main.py:183-220 | The forwarding branch always answers and never raises:<br>• a failed token: 500, nothing sent;<br>• no bot instance: 200 with "Failed to get bot instance", nothing sent;<br>• a falsy tg_id value: 200 with "Chat ID not found in task fields", nothing sent;<br>• a chat id `int()` cannot read: 200, nothing sent;<br>• a failed text message: 500, after that one call;<br>• otherwise: 200. |
| Webhook.DeliveryForwardsAllFiles | server/main.py:188-222 | When the token, the bot, the chat id and the text succeed:<br>• the text goes first;<br>• every downloaded and accepted file follows, in order, in batches of at most ten;<br>• the run answers 200. |
| Webhook.WebhookService.constructor | server/main.py:18-20 | The queue starts empty and the counter starts at 1. |
| Webhook.WebhookService.Receive | server/main.py:90-111 | The reply is `Gate`. The event is appended to the queue exactly when it is queued. |
| Webhook.WebhookService.WorkOne | server/main.py:54-67 | The oldest event is processed and removed, and counted when it triggers. |
| Webhook.WebhookService.Drain | server/main.py:54-67 | Every queued event is processed in arrival order and the queue ends empty. The counter rises by the number of triggering events. |
| ProcessMessage.StickerExtension | bot/process_message.py:50-55 | "tgs" exactly for animated stickers, else "webm" exactly for video, else "webp". |
| ProcessMessage.IdentifyFileData | bot/process_message.py:16-61 | No file exactly when the message has none of the six kinds. The filename is never empty. |
| ProcessMessage.IdentifyFirstMatch | bot/process_message.py:20-61 | The first kind present decides, and later kinds do not matter. The file data per kind:<br>• a photo: its last size, named `file_unique_id.jpg`;<br>• a document: its own name, or "document" when the name is missing or empty;<br>• audio, voice or video: `audio_`, `voice_` or `video_`, then the file id, then `.mp3`, `.ogg` or `.mp4`;<br>• a sticker: `sticker_`, the unique id, then its extension.<br>Each kind keeps its own file id and size, except that a sticker's missing size becomes 0. |
| ProcessMessage.MediaNameRecoversId | bot/process_message.py:28-45 | The name of an audio, voice or video file gives back its kind (from the prefix) and its file id (the name without prefix and extension). |
| ProcessMessage.StickerSizeDefaultsToZero | bot/process_message.py:59 | A sticker without a size gets size 0 and passes the size gate. |
| ProcessMessage.CheckFile | bot/process_message.py:64-80 | • Accepted exactly when there is a file with an id that is not too large, and then it carries that id and name.<br>• Otherwise the rejection is "unsupported" (no file or no id) or "too large". |
| ProcessMessage.CommentText | bot/process_message.py:84 | The caption, else the text, else `None`. |
| ProcessMessage.SingleComment | bot/process_message.py:83-122 | A comment is posted exactly when the file passes the gate and uploads. It carries that GUID and the comment text. An error reply exactly when nothing is posted or the post fails. |
| ProcessMessage.SingleCommentShape | bot/process_message.py:113 | A posted comment has one attachment, and its text is the caption, the text, or "...". |
| ProcessMessage.TextOnlyMessageDropped | bot/process_message.py:86-91 | A text message without a file is rejected as an unsupported file and never posted. |
| ProcessMessage.SingleCommentIntended | bot/process_message.py:83-122 | A message without a file but with text is posted as a text comment; all else is as written. |
| ProcessMessage.IntendedPostsEveryText | bot/process_message.py:84 | Under the intended behaviour a text message gives a comment carrying its text and no attachment. |
| ProcessMessage.AddKeepsValid | bot/process_message.py:150-162 | Adding a message:<br>• keeps the buffer, pending and timer bookkeeping consistent;<br>• schedules a flush exactly for a keyed message whose key is not pending, and then its buffer is that message;<br>• leaves everything unchanged for an unkeyed message. |
| ProcessMessage.FlushKeepsValid | bot/process_message.py:164-169 | A firing timer keeps the bookkeeping consistent. It returns the key's non-empty buffer and clears the key. |
| ProcessMessage.AddToPending | bot/process_message.py:155-158 | Further messages of a pending album extend its buffer in order and schedule nothing. |
| ProcessMessage.AlbumFlushedOnce | bot/process_message.py:148-169 | An album schedules exactly one flush, on its first message, and the flush returns all its messages in order. |
| ProcessMessage.LateMessageStartsNewAlbum | bot/process_message.py:155-167 | A message after the flush starts a new buffer and a new flush. |
| ProcessMessage.GroupFileIdsSpec | bot/process_message.py:177-216 | The collected GUIDs are exactly those of the album messages that pass the gate and upload. |
| ProcessMessage.GroupFileIdsAppend | bot/process_message.py:177-216 | The GUIDs of a concatenation of album messages are those of the first part followed by those of the second. So the GUIDs follow buffer order. |
| ProcessMessage.GroupFileIdsOne | bot/process_message.py:190-212 | One message adds its GUID exactly when its file passes the gate and the upload returns a GUID. |
| ProcessMessage.AlbumText | bot/process_message.py:174 | The first message's caption, or `None`. |
| ProcessMessage.ProcessGroup | bot/process_message.py:174-218 | The comment carries the first caption and the collected GUIDs. Every message either gives a GUID or gets a reply. |
| ProcessMessage.FailedAlbumStillPosts | bot/process_message.py:218-220 | An album where no file uploads still posts a comment with no attachments. |
| ProcessMessage.MediaGroups.constructor | bot/process_message.py:12-13 | The album state starts empty. |
| ProcessMessage.MediaGroups.Add | bot/process_message.py:148-162 | The state and the scheduling decision are `AddStep`; the bookkeeping stays consistent. |
| ProcessMessage.MediaGroups.Flush | bot/process_message.py:165-169 | The state and the returned buffer are `FlushStep`; the buffer is non-empty. |
| ProcessMessage.MediaGroups.FlushAndProcess | bot/process_message.py:164-220 | The key is cleared. The comment is built from the popped buffer's first caption and GUIDs. |
| Handlers.AppealPayload | bot/handlers.py:133-159 | The appeal form carries tg_id, fio, telephone and tg_account in that order, and the first is the user's Telegram id. |
| Handlers.AppealPayloadDefaults | bot/handlers.py:133-143 | Full name, telephone and Telegram account each fall back to their default when no user field carries the id with a value. Otherwise each is the last such value. |
| Handlers.UserPayload | bot/handlers.py:248-256 | The client form carries fullname, telephone, tg_account and tg_id in that order. |
| Handlers.RegisteredAppealPayload | bot/handlers.py:286-294 | The appeal form carries fio, telephone, tg_account and tg_id in that order. |
| Handlers.AppealPayloadsAgree | bot/handlers.py:145-159 | Built from the user task registration stored, the appeal made on a message carries exactly the entries of the appeal registration makes, with the Telegram id moved from last to first (distinct user field ids). |
| Handlers.AfterUserLookup | bot/handlers.py:70-73 | A 403 status error counts as "no user"; any other outcome is kept. |
| Handlers.Route | bot/handlers.py:190-199 | A message goes to album processing exactly when it has a media_group_id. |
| Handlers.MessageTextHandler | bot/handlers.py:46-199 | • Raising never dispatches.<br>• A dispatch needs a found user with a truthy id and fields; it goes to a truthy task id and is routed by media_group_id.<br>• An unregistered user gets only the registration prompt after one lookup.<br>• A created appeal is built from the found user's fields.<br>• Every `open_chat` request comes right after a creation request. |
| Handlers.ExistingAppealIsReused | bot/handlers.py:117-127 | An existing appeal is used after two lookups, with no creation and no reply. |
| Handlers.AppealCreation | bot/handlers.py:127-182 | With no appeal, one is created from the user's fields. If creation raises, the handler raises. If the created task has no id, the user gets the creation-failure reply and nothing is dispatched. If it has an id, `open_chat` on `tasks/{id}/comments` follows. The message is then routed to that id, or the handler raises if `open_chat` fails. |
| Handlers.EmptyUserFieldsAnswered | bot/handlers.py:108-115 | A registered user whose task has no fields gets the "no user data" reply after one lookup, with no dispatch and no exception. |
| Handlers.LookupFailureRaises | bot/handlers.py:74-85 | A user lookup failure other than 403 builds the generic error and raises. |
| Handlers.ForbiddenLookupAsWritten | bot/handlers.py:66-73 | With Pyrus answering 403, the handler builds the generic error and raises instead of asking the user to register. |
| Handlers.ForbiddenLookupWithReraise | bot/handlers.py:70-73 | With the last exception re-raised, the same 403 replies send the registration prompt. |
| Handlers.CallbackStep | bot/handlers.py:202-213 | The name is asked for exactly when the callback has a message. |
| Handlers.FullnameStep | bot/handlers.py:216-226 | Empty text keeps the state. Otherwise the stripped name is stored and the telephone is awaited. |
| Handlers.TelephoneStep | bot/handlers.py:229-316 | • It clears the dialogue exactly when the user creation fails or returns no id, or when the appeal and `open_chat` both succeed.<br>• It raises exactly on a failed appeal creation or `open_chat` after a successful registration.<br>• Its first request registers the stripped telephone. |
| Handlers.RegistrationRoundTrip | bot/handlers.py:202-316 | Button, name and telephone, with every reply succeeding: the dialogue ends cleared, after creating the user, creating the appeal and opening its chat. |
| Handlers.FailedAppealKeepsDialogue | bot/handlers.py:296-309 | An appeal created without an id leaves the dialogue waiting for the telephone, although the user exists. The next telephone registers the user again. |
| Handlers.Conversation.constructor | bot/handlers.py:40-42 | A conversation starts with no state, no data and empty logs. |
| Handlers.Conversation.OnMessage | bot/handlers.py:45-199 | The logs grow by `MessageTextHandler`'s replies and requests; the dialogue is untouched. |
| Handlers.Conversation.OnRegisterButton | bot/handlers.py:202-213 | The state and reply are `CallbackStep`. |
| Handlers.Conversation.OnFullname | bot/handlers.py:216-226 | The state and reply are `FullnameStep`. |
| Handlers.Conversation.OnTelephone | bot/handlers.py:229-316 | The logs grow by `TelephoneStep`; the dialogue is cleared exactly when it clears. |

## Findings

| source | as written | input that shows it | evidently intended | confidence | as-written member | corrected member |
|---|---|---|---|---|---|---|
| bot/handlers.py:70-73 | The handler catches `HTTPStatusError` with status 403 to treat the user as unregistered. But `api_request` retries without `reraise`, so a 403 arrives as `RetryError` and the generic error path raises. | A user lookup that Pyrus answers with 403 on all three attempts. | A 403 reaches the handler, and the user is asked to register. | high, not executed | Handlers.ForbiddenLookupAsWritten | Handlers.ForbiddenLookupWithReraise |
| bot/process_message.py:83-91 | A message with only text has no file, so it is rejected as an unsupported file type and its text is never posted. | A Telegram message with text "hello" and no attachment. | The text is posted to the appeal as a comment. `comment_text` falls back to `msg.text` for exactly this case. | medium, not executed | ProcessMessage.TextOnlyMessageDropped | ProcessMessage.SingleCommentIntended |
| utils.py:219-221 | `get_unique_file_id` passes `files=` to `api_request`, which has no such parameter. Every attempt raises TypeError, the retry ends in `RetryError`, and the function returns `None`. | Any file sent to the bot. | The file is uploaded and its GUID returned. | high, not executed | Utils.UploadAsWrittenNeverSucceeds | Utils.UniqueFileId |

## Left out

- **Logging.** No log output is modelled.
- **`create_file_payload` (server/main.py:27-34).** It writes `data/payload.json`, and its errors are swallowed, so it has no effect on the outcome. Filesystem I/O is out of scope.
- **Network and timing details.** These are not modelled:
  - tenacity's exponential backoff waits;
  - the 30-second HTTP timeouts;
  - the connection pool limit of `download_files`;
  - the three-second album delay, which is an explicit `Flush` call instead.
- **Concurrency.** Events are modelled one at a time.
  - `_lock` inside `get_token`: the re-check under the lock coincides with the fast path.
  - `get_user_lock` and its per-user locks.
  - Parallel downloads in `download_files`: modelled in attachment order.
  - The worker as an asyncio task, and `lifespan` start and cancellation.
- **`webhook_queue` capacity.** The bound of 500 is not modelled: a `put` on a full queue waits, and the model's queue is unbounded.
- **HMAC-SHA1 and JSON decoding.** These are the oracles `hexHmac` and `parse`. The Telegram Bot API (`get_file`, `download_file`, `send_message`, `send_media_group`) and `BotClient.get_instance` are inputs too.
- **`process_webhook` headers.** Its `x_pyrus_sig`, `x_pyrus_retry` and `user_agent` parameters are unused by the code and have no effect in the model.
- **Malformed JSON shapes.** Payloads whose values have the wrong JSON types are not modelled. Examples are a "task" that is a list, and JSON `null` for "task" or for a comment's "channel", which raises `AttributeError` at server/main.py:136 and :179. Missing keys and empty strings, lists and objects are modelled.
- Utils.FailureText: gives the exception's class name, not the full `str(e)` of the httpx or tenacity exception that becomes the "error" text.
- **Webhook error texts.** `Webhook.DeliverComment` reports a failed Telegram text message as "TelegramAPIError", not as the exception's own message.
- **`send_comment_in_pyrus` (utils.py:272-277).** It is the boolean `posted`: its reply is only logged. A failed post inside an album's `process_group` raises inside a background task, and the model does not record that.
- **The task an album is posted to.** It is the one given with the album's first message, through the closure. `MediaGroups.FlushAndProcess` returns the comment without the task id.
- **The empty `callback_query.answer()` (bot/handlers.py:213).** It acknowledges the button press and is not logged as a reply.
- **The appeal-data error (bot/handlers.py:184-188).** The reply "Произошла ошибка при попытке получить данные в обращении." is unreachable: the task id is truthy on every path that gets there. It is not a separate outcome.
- **State filters.** The aiogram `StateFilter` routing appears as the `requires` of each `Conversation` method.
- **Unawaited error replies.** `process_single_comment` and `process_group` only build their error replies. `ProcessMessage` therefore records a flag or message ids, not the reply texts.
- Python.PyInt: accepts only the ASCII digits 0-9. Python's `int()` also accepts other Unicode decimal digits (such as Arabic-Indic digits), which read back as a chat id there but as `None` here. Strings have no Unicode character classes in this model.
- **The `open_chat` comment body.** The requests record `open_chat` by its endpoint `tasks/{id}/comments`. The fixed comment it posts ("Чат открыт." on the telegram channel, utils.py:17-20) is not part of the recorded request.
- **`config.py` and `db.py`.** `config.py` is not part of this model beyond the constants named above. `db.py` is not part of this model.
