# WAload bridge, window and media items in Dafny

WAload is a Windows desktop application that watches one WhatsApp group and
saves the media files posted in it. It has two halves that talk over a pipe:

- **The worker** is a Node.js script (`whatsapp.js`). It drives WhatsApp Web
  and writes one JSON object per stdout line: `qr`, `status`, `userName`,
  `groups`, `media`, `monitoringStatus` and `error`. It reads commands from
  stdin: `get_groups`, `monitor_group`, `stop_monitoring` and `logout`.
- **The host** is a WPF application. Its `WhatsAppService` starts the worker
  and filters and deserializes its stdout lines into `NodeMessage`s. It keeps
  the `IsConnected`/`IsMonitoring` flags and raises one typed event per
  message. The `MainWindow` subscribes to those events. It keeps bound
  properties that raise `PropertyChanged`, shows the group list, and saves
  every received media file under the first free name in the download
  folder, as a `MediaItem` in its list.

The model follows that structure:

| file | module | what |
|---|---|---|
| `wrappers.dfy` | `Wrappers` | `Option` |
| `text.dfy` | `Text` | the .NET string operations the core relies on (`TrimStart`, `StartsWith`, `EndsWith`, ignore-case comparison and `ToLower` over ASCII, integer formatting) |
| `node_message.dfy` | `NodeMessages` | `NodeMessage`, `GroupInfo`, `MediaInfo`, `TextInfo`, and the records handed to subscribers |
| `commands.dfy` | `Commands` | the JSON objects the host writes to the worker's stdin |
| `whatsapp_service.dfy` | `Bridge` | `WhatsAppService` as a class over its process handle, flags, raised events and stdin, proved against the pure `Dispatch`/`Apply`/`Run` |
| `whatsapp_worker.dfy` | `Worker` | the script's state (`isMonitoring`, `selectedGroupId`, `lastQrTimestamp`) as a class, its handlers and command switch, the chat retry loop, the group filter and the QR throttle |
| `protocol.dfy` | `Protocol` | the pipe end to end: what the host makes of every line the worker can write |
| `media_files.dfy` | `MediaFiles` | the window's file-name helpers: MIME type ↔ extension tables, `GetSafeFileName`, and the unique-name loop of `DownloadMediaAsync` |
| `media_item.dfy` | `MediaItems` | `MediaItem` as a class with its notifying setters and kind flags; `MediaMessage.DateTime`; the size unit |
| `main_window.dfy` | `Window` | `MainWindow` as a class with its bound properties and event handlers, and `DownloadMediaAsync` |

Where this description and the code disagree, the model follows the code.
Three such places:

- The worker's `error` lines reach no subscriber. The host has no case for
  them (`Protocol.WorkerErrorsAreDropped`).
- A `Text` payload is declared in `NodeMessage` but never dispatched
  (`Bridge.TextPayloadIsNotDispatched`).
- `LogoutAsync` does not clear `IsMonitoring` itself. It asks the worker to
  stop, waits one second and kills it; only the worker's reply, if it comes
  in that second, clears the flag through the output handler
  (`Bridge.WhatsAppService.LogoutAsync`).

The file system, the clock and the JSON parser are parameters:

- The session-directory delete is a function from attempt number to outcome.
- `getChats()` is a function from attempt number to result.
- `JsonSerializer.Deserialize` is a `decode` function.
- The base64 decoding, the file write and `DateTime.Now` are a `SaveEnv` value.
- The download folder's contents are a set of names.

## Model

| member | source | states |
|---|---|---|
| Text.TrimStart | WAload/WAload/Services/WhatsAppService.cs:135 | the result is a suffix of the line; everything dropped is white space, and the result does not start with white space |
| Text.LowerPointwise | WAload/WAload/MainWindow.xaml.cs:499 | lower-casing keeps the length and folds each character on its own |
| Text.LowerIdempotent | WAload/WAload/MainWindow.xaml.cs:499 | lower-casing twice is lower-casing once |
| Text.LowerAppend | WAload/WAload/MainWindow.xaml.cs:530 | lower-casing distributes over concatenation |
| Text.EndsWithIgnoreCaseAppend | WAload/WAload/MainWindow.xaml.cs:530-533 | a name with the extension appended ends with it, ignoring case |
| Text.NatToString | WAload/WAload/MainWindow.xaml.cs:465 | a decimal rendering is non-empty, all digits, and has at least two digits from 10 up |
| Text.NatToStringInjective | WAload/WAload/MainWindow.xaml.cs:465 | different counters render differently |
| Commands.Serialize | WAload/WAload/Services/WhatsAppService.cs:258-302 | every command carries a string `type`; only `monitor_group` carries a `groupId` |
| Bridge.Apply | WAload/WAload/Services/WhatsAppService.cs:166-233 | each known tag fires exactly its event with the payload or its default ("", false); a flag changes only together with the one event announcing its new value; an unknown or missing tag does nothing |
| Bridge.Dispatch | WAload/WAload/Services/WhatsAppService.cs:128-239 | null, empty and non-`{` lines, JSON errors and `null` messages change nothing; a parsed line does what `Apply` says; at most one event per line |
| Bridge.GroupsMessageFiresList | WAload/WAload/Services/WhatsAppService.cs:181-192 | a `groups` line fires one `GroupsUpdated` with the list in order, missing id/name as "", and nothing without a list |
| Bridge.MediaMessageFiresPayload | WAload/WAload/Services/WhatsAppService.cs:193-227 | a `media` line fires one `MediaMessageReceived` carrying every payload field (defaults "" and 0), and nothing without a payload |
| Bridge.TextPayloadIsNotDispatched | WAload/WAload/Models/NodeMessage.cs:72-94 | a message carrying only a `Text` payload under an unknown tag changes no flag and fires nothing |
| Bridge.LastConnectedAppend | WAload/WAload/Services/WhatsAppService.cs:172-176 | the last announced connection over two traces is the last over the second, starting from the first |
| Bridge.LastMonitoringAppend | WAload/WAload/Services/WhatsAppService.cs:228-233 | the same for the monitoring flag |
| Bridge.DispatchKeepsFlagsAnnounced | WAload/WAload/Services/WhatsAppService.cs:128-239 | after one line each flag equals the last event that announced it |
| Bridge.RunFlagsMatchLastEvent | WAload/WAload/Services/WhatsAppService.cs:128-239 | over any stdout stream, `IsConnected` and `IsMonitoring` equal the payload of the last event announcing them |
| Bridge.ObjectLineDispatched | WAload/WAload/Services/WhatsAppService.cs:135-166 | a line that starts with `{` and parses reaches the switch with its message |
| Bridge.RunTwo | WAload/WAload/Services/WhatsAppService.cs:128-239 | the second of two lines is handled from the flags the first left, and its events follow the first's |
| Bridge.StatusThenGroupsInOrder | WAload/WAload/Services/WhatsAppService.cs:128-239 | lines raise their events in arrival order: a status line then a groups line fire connection first, then the list |
| Bridge.DeleteWithRetry | WAload/WAload/Services/WhatsAppService.cs:66-84 | at most 5 attempts; it retries only after an I/O or access failure and never after the last attempt; it deletes exactly when the last attempt did |
| Bridge.ToWhatsGroups | WAload/WAload/Services/WhatsAppService.cs:183-188 | the list is the received entries in order, each with missing id/name as "" |
| Bridge.WhatsAppService.constructor | WAload/WAload/Services/WhatsAppService.cs:11-26 | no process, both flags false, no event raised, nothing written |
| Bridge.WhatsAppService.OnNodeOutputReceived | WAload/WAload/Services/WhatsAppService.cs:128-239 | flags and raised events become what `Dispatch` gives for the line, and the flags keep matching the last announcing event |
| Bridge.WhatsAppService.Raise | WAload/WAload/Services/WhatsAppService.cs:166-233 | the switch stores and raises what `Apply` says |
| Bridge.WhatsAppService.OnNodeProcessExited | WAload/WAload/Services/WhatsAppService.cs:250-256 | both flags drop and both drops are announced, connection first |
| Bridge.WhatsAppService.GetGroupsAsync | WAload/WAload/Services/WhatsAppService.cs:258-282 | `get_groups` is written and flushed only to a live process |
| Bridge.WhatsAppService.StartMonitoringAsync | WAload/WAload/Services/WhatsAppService.cs:284-292 | `monitor_group` with the id is written only to a live process |
| Bridge.WhatsAppService.StopMonitoringAsync | WAload/WAload/Services/WhatsAppService.cs:294-302 | `stop_monitoring` is written only to a live process; the local flag waits for the worker's reply |
| Bridge.WhatsAppService.SendCommandAsync | WAload/WAload/Services/WhatsAppService.cs:371-379 | `{type, data: null}` is written only to a live process |
| Bridge.WhatsAppService.CleanupSessionData | WAload/WAload/Services/WhatsAppService.cs:54-96 | the session directory is gone afterwards exactly when some attempt deleted it after only retryable failures |
| Bridge.WhatsAppService.InitializeAsync | WAload/WAload/Services/WhatsAppService.cs:28-52 | cleans the session first, so a session directory that existed is gone afterwards exactly when the retry loop deleted it; a missing script throws (the `FileNotFoundException`, wrapped in an `InvalidOperationException`) and starts nothing; otherwise the worker runs |
| Bridge.WhatsAppService.LogoutAsync | WAload/WAload/Services/WhatsAppService.cs:304-347 | a live worker gets `stop_monitoring` (when monitoring) and then `logout`; the handle is released; a session directory that existed is gone afterwards exactly when the retry loop deleted it; disconnection is announced; `IsMonitoring` is unchanged |
| Bridge.WhatsAppService.WorkerExitsAsWritten | WAload/WAload/Services/WhatsAppService.cs:113-116 | a worker that dies leaves both flags and the event trace untouched, because `Exited` is never raised |
| Bridge.WhatsAppService.WorkerExits | WAload/WAload/Services/WhatsAppService.cs:250-256 | with the exit event delivered, a dead worker leaves both flags false and announced |
| Bridge.WhatsAppService.DisposeAsyncAsWritten | WAload/WAload/Services/WhatsAppService.cs:349-369 | disposing a live worker logs out and then throws `NullReferenceException`; otherwise it does nothing |
| Bridge.WhatsAppService.DisposeAsync | WAload/WAload/Services/WhatsAppService.cs:349-369 | corrected disposal: it always completes; a live worker is logged out and released |
| Bridge.CrashLeavesStaleConnection | WAload/WAload/Services/WhatsAppService.cs:113-116 | connect then crash: the service still reports connected while no process is alive |
| Bridge.CrashEndsDisconnected | WAload/WAload/Services/WhatsAppService.cs:250-256 | the same history with the exit event delivered ends disconnected |
| Bridge.DisposeOfRunningWorkerThrows | WAload/WAload/Services/WhatsAppService.cs:349-369 | disposing a started service throws, as written |
| Bridge.DisposeOfRunningWorkerCompletes | WAload/WAload/Services/WhatsAppService.cs:349-369 | with the corrected disposal it completes and no process is left |
| Worker.ReadCommand | WAload/WAload/Node/whatsapp.js:363-395 | a command is unknown exactly when its `type` is absent, not a string or none of the four the switch handles; it is `monitor_group` exactly when its type says so, and then the group id is read exactly when it is a string |
| Worker.HostCommandsRoundTrip | WAload/WAload/Node/whatsapp.js:359-397 | a single command line the host serializes, read as one stdin chunk, reaches the worker's switch as the request it means |
| Worker.GetChatsWithRetry | WAload/WAload/Node/whatsapp.js:149-191 | at most `maxAttempts` tries, stopping at the first non-empty list, which it returns; otherwise every attempt failed or was empty and it returns [] |
| Worker.GroupsOf | WAload/WAload/Node/whatsapp.js:199-204 | the mapped groups are no more than the chats, and each is the `{id, name}` of some group chat; their order and completeness are the lemmas below |
| Worker.GroupsFromMapsPositions | WAload/WAload/Node/whatsapp.js:199-204 | entry k of the mapped groups is the `{id, name}` of the k-th group chat |
| Worker.GroupPositionsOrderedComplete | WAload/WAload/Node/whatsapp.js:199-204 | the group positions increase and list every group chat |
| Worker.GroupsOfIsOrderedFilter | WAload/WAload/Node/whatsapp.js:199-204 | the groups sent are exactly the group chats, mapped to `{id, name}`, in their original order |
| Worker.Throttle | WAload/WAload/Node/whatsapp.js:217-224 | no more codes are forwarded than received, and the first forwarded one is more than 5000 ms after the last forwarding time |
| Worker.ThrottleSpacing | WAload/WAload/Node/whatsapp.js:217-224 | forwarded QR codes are received ones, more than 5000 ms after the previous forwarded one |
| Worker.WhatsAppWorker.constructor | WAload/WAload/Node/whatsapp.js:20-23 | not monitoring, no group, QR time 0, nothing written |
| Worker.WhatsAppWorker.Start | WAload/WAload/Node/whatsapp.js:319-336 | a failed initialization writes its `error` line and exits with 1; otherwise the initial disconnected status is written |
| Worker.WhatsAppWorker.FetchAndSendGroups | WAload/WAload/Node/whatsapp.js:193-213 | writes one `groups` line: the mapped groups of the first chats the retry loop got, or [] with an error when mapping throws |
| Worker.WhatsAppWorker.HandleCommand | WAload/WAload/Node/whatsapp.js:359-397 | unparsable and unknown commands change nothing; `get_groups` answers with groups; `monitor_group` selects and acknowledges; `stop_monitoring` clears and acknowledges; `logout` exits with 0 |
| Worker.WhatsAppWorker.OnQr | WAload/WAload/Node/whatsapp.js:217-224 | a code is forwarded, and its time recorded, exactly when the throttle lets it through |
| Worker.WhatsAppWorker.OnReady | WAload/WAload/Node/whatsapp.js:227-240 | connected status, then the user name |
| Worker.WhatsAppWorker.OnDisconnected | WAload/WAload/Node/whatsapp.js:243-249 | monitoring is cleared; disconnected status and stopped monitoring are written in that order |
| Worker.WhatsAppWorker.OnMessage | WAload/WAload/Node/whatsapp.js:252-283 | a media line is written exactly when monitoring is on for this message's group, it has media, its download resolves and its contact is fetched; a rejected `getChat`, `downloadMedia` or `getContact` writes nothing |
| Protocol.Transmit | WAload/WAload/Models/NodeMessage.cs:5-70 | a worker line fails to parse exactly when it is media with a number too large for a `long`; a parsed tag is one the host handles exactly when it is not `error` |
| Protocol.ObjectLinesPass | WAload/WAload/Services/WhatsAppService.cs:130-141 | every line the worker writes passes the host's line filter |
| Protocol.HostSeesWorkerOutput | WAload/WAload/Services/WhatsAppService.cs:128-239 | for any worker output, the host's line-by-line dispatch equals the worker-side `Deliver` |
| Protocol.DeliverOne | WAload/WAload/Services/WhatsAppService.cs:128-239 | one line delivers what the host's reaction to it says |
| Protocol.ReadyHandshake | WAload/WAload/Node/whatsapp.js:227-240 | `ready` makes the host connected, then it learns the user name ("" when absent) |
| Protocol.DisconnectHandshake | WAload/WAload/Node/whatsapp.js:243-249 | `disconnected` leaves the host disconnected and not monitoring, announced in that order |
| Protocol.WorkerErrorsAreDropped | WAload/WAload/Node/whatsapp.js:319-336 | the worker's `error` line reaches no subscriber and changes no flag |
| Protocol.GroupsArriveIntact | WAload/WAload/Node/whatsapp.js:193-213 | the sent groups arrive in order with their ids, missing names as ""; a failed fetch arrives as [] |
| Protocol.MediaArrives | WAload/WAload/Node/whatsapp.js:264-280 | a forwarded payload arrives field by field with defaults for missing ones; one with an oversized number is lost |
| Protocol.MonitorHandshake | WAload/WAload/Node/whatsapp.js:376-381 | `monitor_group` selects the group in the worker and turns the host's flag on with one event |
| Protocol.StopHandshake | WAload/WAload/Node/whatsapp.js:383-388 | a message arriving after `stop_monitoring` is not forwarded, even from the group that was monitored, and the host's flag is off |
| MediaFiles.GetFileExtension | WAload/WAload/MainWindow.xaml.cs:497-517 | the extension is a valid file name; it is `.bin` exactly when the lower-cased type has no row in the table, and one of the table's extensions otherwise |
| MediaFiles.GetMediaTypeFromExtension | WAload/WAload/MainWindow.xaml.cs:629-649 | the type is `application/octet-stream` exactly when the lower-cased extension has no row in the table, and one of the table's types otherwise |
| MediaFiles.ExtensionSwitch | WAload/WAload/MainWindow.xaml.cs:497-517 | every extension the table can give is a valid file name |
| MediaFiles.UnmappedFallBack | WAload/WAload/MainWindow.xaml.cs:515 | an unlisted MIME type gets `.bin`; an unlisted extension gets `application/octet-stream` |
| MediaFiles.JpegAliases | WAload/WAload/MainWindow.xaml.cs:501 | both JPEG MIME spellings give `.jpg`; `.jpg` and `.jpeg` both give `image/jpeg` |
| MediaFiles.RowJpeg | WAload/WAload/MainWindow.xaml.cs:501 | `image/jpeg` ↔ `.jpg` |
| MediaFiles.RowPng | WAload/WAload/MainWindow.xaml.cs:502 | `image/png` ↔ `.png` |
| MediaFiles.RowGif | WAload/WAload/MainWindow.xaml.cs:503 | `image/gif` ↔ `.gif` |
| MediaFiles.RowWebp | WAload/WAload/MainWindow.xaml.cs:504 | `image/webp` ↔ `.webp` |
| MediaFiles.RowMp4 | WAload/WAload/MainWindow.xaml.cs:505 | `video/mp4` ↔ `.mp4` |
| MediaFiles.RowAvi | WAload/WAload/MainWindow.xaml.cs:506 | `video/avi` ↔ `.avi` |
| MediaFiles.RowMov | WAload/WAload/MainWindow.xaml.cs:507 | `video/mov` ↔ `.mov` |
| MediaFiles.RowWmv | WAload/WAload/MainWindow.xaml.cs:508 | `video/wmv` ↔ `.wmv` |
| MediaFiles.RowMp3 | WAload/WAload/MainWindow.xaml.cs:509 | `audio/mp3` ↔ `.mp3` |
| MediaFiles.RowWav | WAload/WAload/MainWindow.xaml.cs:510 | `audio/wav` ↔ `.wav` |
| MediaFiles.RowOgg | WAload/WAload/MainWindow.xaml.cs:511 | `audio/ogg` ↔ `.ogg` |
| MediaFiles.RowPdf | WAload/WAload/MainWindow.xaml.cs:512 | `application/pdf` ↔ `.pdf` |
| MediaFiles.RowDoc | WAload/WAload/MainWindow.xaml.cs:513 | `application/msword` ↔ `.doc` |
| MediaFiles.RowDocx | WAload/WAload/MainWindow.xaml.cs:514 | the Word document type ↔ `.docx` |
| MediaFiles.MimeRoundTrip | WAload/WAload/MainWindow.xaml.cs:629-649 | for each of the 14 MIME types in any ASCII letter case, mapping to an extension and back gives the lower-case type |
| MediaFiles.ReplaceChar | WAload/WAload/MainWindow.xaml.cs:528 | one `Replace(c, '_')`: same length, exactly the occurrences of c become `_` |
| MediaFiles.ReplaceEachPointwise | WAload/WAload/MainWindow.xaml.cs:527-528 | folding the replacements over the invalid characters turns exactly those characters into `_` |
| MediaFiles.ControlsAre | WAload/WAload/MainWindow.xaml.cs:527 | the control part of the invalid characters is exactly the characters below U+0020 |
| MediaFiles.InvalidCharsAre | WAload/WAload/MainWindow.xaml.cs:527 | the invalid file-name characters are the control characters and `" < > \| : * ? \ /` |
| MediaFiles.Sanitize | WAload/WAload/MainWindow.xaml.cs:527-528 | the result is valid, as long as the input, and differs only where an invalid character was |
| MediaFiles.GetSafeFileName | WAload/WAload/MainWindow.xaml.cs:519-537 | the result ends with the extension (ignoring case); it is the sanitized name, or `media_<stamp>` when empty, with the extension appended exactly when the cleaned name does not already end with it, ignoring case; it is valid when the extension is |
| MediaFiles.SanitizeClean | WAload/WAload/MainWindow.xaml.cs:527-528 | sanitizing a valid name changes nothing |
| MediaFiles.GetSafeFileNameIdempotent | WAload/WAload/MainWindow.xaml.cs:519-537 | making a safe name safe again gives it back |
| MediaFiles.LastDot | WAload/WAload/MainWindow.xaml.cs:464 | the position of the last `.`, or none when there is none |
| MediaFiles.Stem | WAload/WAload/MainWindow.xaml.cs:464 | `GetFileNameWithoutExtension`: a prefix of the name that stops at its last dot |
| MediaFiles.AttemptsDistinct | WAload/WAload/MainWindow.xaml.cs:461-468 | two different counters give names that differ even ignoring case |
| MediaFiles.FoldedAttemptsSize | WAload/WAload/MainWindow.xaml.cs:461-468 | the first n candidate names are n different names, ignoring case |
| MediaFiles.FoldedAttemptsStep | WAload/WAload/MainWindow.xaml.cs:461-468 | each new candidate is unlike all earlier ones |
| MediaFiles.NextAttempt | WAload/WAload/MainWindow.xaml.cs:461-468 | while every candidate so far is taken, the folder has at least as many files as candidates tried |
| MediaFiles.UniqueFileName | WAload/WAload/MainWindow.xaml.cs:461-468 | the loop ends: it returns the first candidate not in the folder (ignoring case, as Windows does), all earlier ones being taken, after at most as many collisions as files |
| MediaFiles.FoldedSmaller | WAload/WAload/MainWindow.xaml.cs:462 | case-folding the folder's names cannot add names |
| MediaFiles.SubsetSmaller | WAload/WAload/MainWindow.xaml.cs:462 | a subset is no larger |
| MediaFiles.AttemptClean | WAload/WAload/MainWindow.xaml.cs:465 | every candidate built from a valid name and extension is valid |
| MediaItems.FromUnixTimeSeconds | WAload/WAload/Models/MediaMessage.cs:17 | a time exists exactly for seconds between year 1 and year 9999, and then it is that many seconds after the Unix epoch |
| MediaItems.UnitOf | WAload/WAload/Models/MediaItem.cs:76-89 | the chosen unit is one the size reaches (bytes always qualify), and the size is below 1024 of it unless it is gigabytes |
| MediaItems.UnitOfRange | WAload/WAload/Models/MediaItem.cs:76-89 | a size gets a unit exactly when it is at least one such unit and less than 1024 of them |
| MediaItems.UnitOfMonotone | WAload/WAload/Models/MediaItem.cs:76-89 | a larger file never gets a smaller unit |
| MediaItems.KindOf | WAload/WAload/Models/MediaItem.cs:198-203 | video iff the type starts with `video/`, image iff with `image/`, document otherwise: exactly one kind |
| MediaItems.KindIsCaseSensitive | WAload/WAload/Models/MediaItem.cs:200-201 | `VIDEO/MP4` is a document and `video/mp4` a video |
| MediaItems.MediaItem.constructor | WAload/WAload/Models/MediaItem.cs:9-20 | empty strings, size 0, `DateTime.MinValue`, no kind flag, nothing announced |
| MediaItems.MediaItem.SetFileName | WAload/WAload/Models/MediaItem.cs:22-33 | stores the name and announces it only when it changed |
| MediaItems.MediaItem.SetFilePath | WAload/WAload/Models/MediaItem.cs:35-46 | stores the path and announces it only when it changed |
| MediaItems.MediaItem.SetMediaType | WAload/WAload/Models/MediaItem.cs:48-60 | a new type is stored and announced, and the flags then agree with it; the current type changes nothing |
| MediaItems.MediaItem.SetFileSize | WAload/WAload/Models/MediaItem.cs:62-74 | a new size announces the size and the formatted size |
| MediaItems.MediaItem.SetTimestamp | WAload/WAload/Models/MediaItem.cs:91-103 | a new time announces the time and the formatted time |
| MediaItems.MediaItem.SetSenderName | WAload/WAload/Models/MediaItem.cs:107-118 | stores the sender and announces it only when it changed |
| MediaItems.MediaItem.SetGroupId | WAload/WAload/Models/MediaItem.cs:120-131 | stores the group and announces it only when it changed |
| MediaItems.MediaItem.SetIsVideo | WAload/WAload/Models/MediaItem.cs:146-157 | stores the flag and announces it only when it changed |
| MediaItems.MediaItem.SetIsImage | WAload/WAload/Models/MediaItem.cs:159-170 | stores the flag and announces it only when it changed |
| MediaItems.MediaItem.SetIsDocument | WAload/WAload/Models/MediaItem.cs:172-183 | stores the flag and announces it only when it changed |
| MediaItems.MediaItem.SetExtension | WAload/WAload/Models/MediaItem.cs:185-196 | stores the extension and announces it only when it changed |
| MediaItems.MediaItem.UpdateMediaTypeFlags | WAload/WAload/Models/MediaItem.cs:198-203 | afterwards the flags agree with the type; each flag that moved is announced, in video, image, document order |
| MediaItems.Create | WAload/WAload/MainWindow.xaml.cs:474-483 | the initialized entry holds every given value; its flags agree with a non-empty type, and none is set for an empty one |
| MediaItems.UntypedItemHasNoKind | WAload/WAload/Models/MediaItem.cs:48-60 | an item whose type is set to "" has no kind flag at all |
| MediaItems.TypedItemHasOneKind | WAload/WAload/Models/MediaItem.cs:48-60 | an item given any other type has exactly one kind flag, the one its type gives |
| Window.Combine | WAload/WAload/MainWindow.xaml.cs:458 | `Path.Combine` for a non-empty folder: the result ends with the name, starts with the folder, and a separator sits between them |
| Window.GetFileName | WAload/WAload/MainWindow.xaml.cs:476 | `Path.GetFileName`: the part of the path after its last separator |
| Window.FileNameOfCombine | WAload/WAload/MainWindow.xaml.cs:476 | the file name of a combined path is the name put in |
| Window.CleanHasNoSeparator | WAload/WAload/MainWindow.xaml.cs:476 | valid file names contain no separator |
| Window.MainWindow.IsGroupsLoadedAndNotMonitoring | WAload/WAload/MainWindow.xaml.cs:111 | true exactly when the groups are loaded and monitoring is off |
| Window.ConnectionStatusOf | WAload/WAload/MainWindow.xaml.cs:113 | "Connected" exactly when connected, "Disconnected" exactly when not |
| Window.DerivedChangesAnnounced | WAload/WAload/MainWindow.xaml.cs:67-113 | whatever the three flag setters change, every derived property whose value moved is announced |
| Window.MainWindow.constructor | WAload/WAload/MainWindow.xaml.cs:26-36 | status "Ready", all flags off, no groups, no items, connect button enabled, nothing announced |
| Window.MainWindow.SetStatusMessage | WAload/WAload/MainWindow.xaml.cs:55-65 | stores the message and announces it only when it changed |
| Window.MainWindow.SetIsConnected | WAload/WAload/MainWindow.xaml.cs:68-80 | a change announces the flag and both derived properties |
| Window.MainWindow.SetIsMonitoring | WAload/WAload/MainWindow.xaml.cs:83-95 | a change announces the flag and the derived loaded-and-not-monitoring property |
| Window.MainWindow.SetIsGroupsLoaded | WAload/WAload/MainWindow.xaml.cs:97-109 | a change announces the flag and the derived loaded-and-not-monitoring property |
| Window.MainWindow.OnConnectionStatusChanged | WAload/WAload/MainWindow.xaml.cs:347-379 | stores the flag and disables connect while connected; going up hides the QR, shows progress and requests groups from a live worker; going down clears monitoring, groups and the loaded flag; the notices are exactly those of the setters whose values changed, in the order they run |
| Window.MainWindow.ShowConnected | WAload/WAload/MainWindow.xaml.cs:356-363 | QR hidden, "Connected as" the user, progress shown, groups requested |
| Window.MainWindow.ShowDisconnected | WAload/WAload/MainWindow.xaml.cs:371-377 | "Disconnected", monitoring and loaded flags off, group list empty |
| Window.MainWindow.OnUserNameReceived | WAload/WAload/MainWindow.xaml.cs:381-391 | the name is stored; the status shows it only while connected |
| Window.MainWindow.OnGroupsUpdated | WAload/WAload/MainWindow.xaml.cs:393-415 | the group list becomes the received one, in order; loaded iff non-empty; status "Loaded n groups"; progress hidden; drop-down opened when non-empty |
| Window.MainWindow.OnMonitoringStatusChanged | WAload/WAload/MainWindow.xaml.cs:439-446 | stores the flag and says "Monitoring active" or "Monitoring stopped" |
| Window.MainWindow.OnQrCodeReceived | WAload/WAload/MainWindow.xaml.cs:311-345 | a rendered code shows the overlay and asks for a scan; a rendering failure reports its message and leaves the overlay |
| Window.MainWindow.CancelQr | WAload/WAload/MainWindow.xaml.cs:304-309 | overlay hidden, connect enabled, "QR code scan cancelled" |
| Window.MainWindow.DownloadMediaAsync | WAload/WAload/MainWindow.xaml.cs:448-495 | nothing is written when base64 or the write fails; otherwise exactly one new, valid file is added under the first free candidate name; an entry describing it exists exactly when the written file's time is representable |
| Window.MainWindow.OnMediaMessageReceived | WAload/WAload/MainWindow.xaml.cs:417-437 | a built entry is appended and named in the status; otherwise the list is unchanged and the status stays "Downloading media..." |
| Window.Handle | WAload/WAload/MainWindow.xaml.cs:141-149 | each bridge event reaches its handler: the connection, monitoring, group list and user name follow the event, and only a connection event moves the connection flag |
| Window.HandleAll | WAload/WAload/MainWindow.xaml.cs:141-149 | after a stream of bridge events the window shows the connection of the last one announcing it, the value the bridge's own flag holds |

## Left out

- JSON: the text grammar of serialization and deserialization is not modelled. Deserialization is the `decode` parameter, related to the worker's output by the `Agree` predicate. Serialization is the JSON object `Serialize` builds.
- Process management: starting `node`, `Task.Delay` waits, `Kill(true)` and `Dispose` are reduced to a handle with three states. The worker's stderr handler only logs, so it is left out.
- Logging (`Debug.WriteLine` and the worker's `log`): it has no effect on state.
- whatsapp-web.js: `createClient`, `waitForClientReady`, `dismissIntroPopup`, the 30-second timeout race and the 5-second retry wait are not modelled. The library's answers are inputs: `attempt`, `Incoming` and `pushname`.
- The worker's `message_create` handler is the same as `message`. `Worker.WhatsAppWorker.OnMessage` models both.
- Worker.WhatsAppWorker.OnMessage: each message is handled atomically. The source checks `isMonitoring` and `selectedGroupId` only on entry and then awaits `getChat`, `downloadMedia` and `getContact`; a `stop_monitoring` (or a `monitor_group` for another group) that arrives during those awaits does not stop a message already past the check, which is then forwarded. The model does not capture that interleaving.
- Worker.WhatsAppWorker.HandleCommand: one `data` chunk is taken to carry exactly one command line. Node may deliver several lines in one chunk (`LogoutAsync` writes `stop_monitoring` and `logout` back to back); `JSON.parse` then fails and every command in the chunk is dropped, which the model captures only as the unparsable case. A line split over two chunks is not modelled either.
- Worker.WhatsAppWorker.HandleCommand: the `get_groups` reply is written before the command returns. The source does not await `fetchAndSendGroups`, so its `groups` (or `error`) line can follow the output of later commands and messages.
- `handleLogout`: the client's logout and destroy are foreign calls. The model keeps only the exit code. The `SIGINT` handler is not modelled.
- Rendering: QR rendering (`QRCodeGenerator`) is reduced to an optional error message. `GenerateThumbnailAsync`, the `Thumbnail` property and the progress dialog's text are not modelled.
- `Dispatcher` marshalling: each handler runs atomically on the UI thread. `Window.Handle` uses one `SaveEnv` for every event of a stream.
- Window.HandleAll: handlers run in the order the bridge raises the events. In the source the QR, user-name, group and monitoring handlers use `Dispatcher.Invoke` (Send priority), while the connection and media handlers use `Dispatcher.InvokeAsync` (Normal priority), so a later synchronous handler can run before an earlier asynchronous one. The two asynchronous handlers also yield at their `await`s (`GetGroupsAsync`, `DownloadMediaAsync`), so two of them can interleave; the model does not capture either reordering.
- Bridge.WhatsAppService.LogoutAsync: the one-second wait is not modelled. The worker's `monitoringStatus: false` reply to the `stop_monitoring` that `LogoutAsync` writes can arrive during it and clear `IsMonitoring` on the output thread; the model states only that `LogoutAsync` itself leaves the flag as it was.
- Window.Combine: for an empty name .NET returns the folder alone, while the model appends a separator. The window never combines an empty name.
- Window.GetFileName: a ':' counts as a separator anywhere, while .NET counts it only as the drive separator. The two agree on paths whose only ':' follows the drive letter, which every path the window builds from its folder and a cleaned name is.
- In `OnConnectionStatusChanged`, the "Failed to load groups" catch is not modelled: `GetGroupsAsync` catches its own exceptions. The same holds for the "Download failed" catch in `OnMediaMessageReceived`: `DownloadMediaAsync` returns null instead of throwing.
- Buttons and menus: the `ConnectButton_Click`, `GetGroupsButton_Click`, `MonitorButton_Click`, `StopMonitorButton_Click`, `LogoutButton_Click` and `BrowseFolderButton_Click` handlers and the file context-menu actions are user-interface glue around the service calls that are modelled.
- `LoadExistingMedia` and the `DownloadFolder` setter's reload: folder listing and file metadata are I/O. The window's constructor starts from the state before the listing, with the folder's names given.
- `MediaItems.UnitOf`: only the unit `FileSizeFormatted` picks is modelled, not the one-decimal floating-point number.
- `TimestampFormatted`: date formatting is not modelled.
- `MediaItems.FromUnixTimeSeconds`: a `DateTime` is whole seconds since year 1. Ticks are not modelled, because the source only converts whole seconds.
- Window.MainWindow.DownloadMediaAsync: base64 decoding and the file write are the two booleans of `SaveEnv`, and `DateTime.Now` is its `stamp` string.
- Culture: the model assumes the current culture lower-cases and compares ASCII text as the invariant culture and ordinal comparison do. `ToLower()` and `StartsWith(string)` use the current culture; under Turkish or Azeri `"I"` lowers to dotless `"ı"`, so `IMAGE/JPEG` would not map to `.jpg`, and the model does not cover those cultures.
- Text.Lower: case folding covers ASCII letters only. .NET's culture-sensitive `ToLower` and Windows' file-name case folding also fold other letters, and the model does not prove results for those.
- MediaFiles.MimeRoundTrip: only MIME → extension → MIME is proved. The reverse trip fails for `image/jpg` and for extensions outside the table, and the model proves only the alias lemma for it.
- The `VideoProcessingService`, `LicenseService`, `SettingsService`, `XTweetScreenshotService`, the settings model and the value converters are not part of this model.

## Findings

| source | as written | input that shows it | evidently intended | confidence | as-written member | corrected member |
|---|---|---|---|---|---|---|
| WAload/WAload/Services/WhatsAppService.cs:113-116 | `OnNodeProcessExited` is attached to `Exited`, but `EnableRaisingEvents` is never set, so .NET never raises `Exited` | the worker reports `status: true`, then the node process dies: `IsConnected` stays true while no process is alive | a dead worker resets both flags and announces it (the handler at lines 250-256) | not executed | Bridge.CrashLeavesStaleConnection | Bridge.CrashEndsDisconnected |
| WAload/WAload/Services/WhatsAppService.cs:349-369 | `DisposeAsync` calls `LogoutAsync`, which sets `_nodeProcess` to null; the following `_nodeProcess.Kill()` throws (swallowed), and `_nodeProcess.Dispose()` in `finally` throws a `NullReferenceException` that escapes | `DisposeAsync` on a service whose worker is running | disposal completes once logout has released the process | not executed | Bridge.DisposeOfRunningWorkerThrows | Bridge.DisposeOfRunningWorkerCompletes |
