# Nexis core, modelled in Dafny

Nexis is a collaboration site with:

- a Node backend: a WebSocket room hub for calls and a shared whiteboard, an
  in-memory AI chat store, and file sharing grouped by room code;
- browser scripts for the file page, sign-up, the AI chat page and the
  whiteboard;
- two Python scripts that probe the Gemini API with a key read from a
  `KEY=VALUE` configuration file.

This project models the sequential logic of those parts and proves what they
promise. There is one module per source file, plus shared helpers:

| module | models |
|---|---|
| `Wrappers` | `Option` |
| `Text` | ASCII trimming, case mapping, prefix and substring tests, cut points, decimal rendering |
| `Sorting` | a descending insertion sort, proved sorted and a permutation |
| `Grouping` | filtering and grouping by key, with first-seen key order |
| `ScriptLog` | the log file the Python scripts empty once and then append to |
| `EnvConfig` | `load_env_file`, shared by both scripts |
| `GeminiProbe` | `test_gemini_api.py` |
| `ModelLister` | `list_gemini_models.py` |
| `RoomRegistry` | `backend/websocket.js` |
| `ChatStore` | `backend/routers/ai.routes.js` |
| `FileRooms` | `backend/routers/file.routes.js` over records shaped like `backend/models/File.js` |
| `Diagnose` | `backend/scripts/diagnose-files.js` |
| `FilesPage` | `frontend/Scripts/files.js` |
| `Signup` | `frontend/Scripts/signup.js` |
| `AiChatClient` | `frontend/Scripts/ai-chat.js` |
| `WhiteboardSync` | `frontend/Scripts/whiteboard-sync.js` |
| `Whiteboard` | `frontend/Scripts/whiteboard.js` |

Every stateful source file uses the same pattern:

- a value datatype holds the state, and pure transition functions change it;
- lemmas state the properties of those transitions;
- a class holds the same fields as the source's globals or maps, and its
  methods update them in place;
- each method is proved to end in exactly the state the transition function
  gives (`ensures Snapshot() == F(old(Snapshot()), ...)`), so every lemma
  about `F` also holds of the class.

Loops in the source stay loops, each verified with its invariants:

- the probe loop and the descriptor loop;
- the heartbeat sweep;
- the grouping `forEach` and the print loops of the diagnostic script;
- the cleanup deletions;
- the room-code generator;
- history rendering;
- the streaming ticks.

Outside inputs become parameters:

- HTTP replies and the Gemini answer are an `Outcome` or `Reply` value;
- random draws, identifiers and clock readings are plain arguments;
- a `confirm` answer is a `bool`;
- what the socket layer reports is a `current` flag or a connection set.

Outputs are recorded in order:

- log lines;
- sends and terminations in the hub's outbox;
- messages written by the whiteboard client;
- calls the board makes into the sync module.

Where the code departs from its evident intent, the model follows the code:

- The second join of one connection leaves it in its first room's set
  (`backend/websocket.js:145`). Disconnect removes it only from the recorded
  room. A member without a client record then makes the `room-info` lookup
  throw, so the joiner gets no participant list (see
  `RoomRegistry.StaleMembership` and `RoomRegistry.StaleMemberBlocksRoomInfo`).
  The model stops at that caught error; what the catch block does next is
  under "## Left out".
- verify-room counts records under the code exactly as given, without
  normalising it. The upload route does normalise, so a code typed in lower
  case is reported as missing (`FileRooms.RawCodeNotVerified`).
- A field marked `required` in the File schema refuses the empty string. An
  upload with an empty name, type, path or uploader therefore fails with the
  route's 500 reply and stores nothing (`FileRooms.UploadRejects`).
- The `chat` message type calls a handler that is not defined anywhere. The
  model stops at the caught ReferenceError and leaves the tables unchanged;
  what the catch block does next is under "## Left out".
- The file routes look up a `broadcastToRoom` that the server never
  registers, so uploads and deletions broadcast nothing.

## Model

| member | source | states |
|---|---|---|
| Sorting.SortDesc | backend/routers/ai.routes.js:244 | the result is sorted by descending key and is a permutation of the input; it also models the `uploadedAt: -1` sort at backend/routers/file.routes.js:118-125 |
| Grouping.GroupBy | backend/scripts/diagnose-files.js:28-31 | groups built left to right by pushing onto the group of each key; proved by GroupIsSelection |
| Grouping.GroupIsSelection | backend/scripts/diagnose-files.js:23-33 | a key has a group exactly when some element has it, the key order lists each key once, and a group holds exactly its key's elements in order |
| ScriptLog.LogFile.Truncate | test_gemini_api.py:17-18 | opening the log empties it |
| ScriptLog.LogFile.Log | test_gemini_api.py:12-15 | each call appends exactly one line, last |
| ScriptLog.LogFile.LogAll | test_gemini_api.py:12-15 | a run of calls appends its lines in call order |
| EnvConfig.ParseLine | test_gemini_api.py:24-28 | a line contributes a pair exactly when, stripped, it is non-empty, does not start with `#` and contains `=` |
| EnvConfig.ParseLineSplitsAtFirstEquals | test_gemini_api.py:27-28 | a kept line is split at its first `=`: the key holds no `=`, the value may, and both are stripped |
| EnvConfig.ParseAll | test_gemini_api.py:23-28 | one contribution per line, in file order |
| EnvConfig.CollectKeys | test_gemini_api.py:23-28 | a key is in the dictionary exactly when some kept line sets it |
| EnvConfig.CollectLastWins | test_gemini_api.py:28 | a key's value comes from the last line that sets it |
| EnvConfig.LoadEnvFile | list_gemini_models.py:18-27 | a missing file gives the empty dictionary; otherwise the loop builds the dictionary of ParseLines |
| GeminiProbe.Classify | test_gemini_api.py:31-60 | success exactly for a 200 whose body has a candidate text |
| GeminiProbe.ClassifyMessages | test_gemini_api.py:31-60 | the message is the candidate text; "No response"; the body error cut to 200; "HTTP code: " plus the body cut to 200; an exception cut to 200 |
| GeminiProbe.FailureMessageBounded | test_gemini_api.py:51-60 | a failure message is never longer than its prefix plus 200 characters |
| GeminiProbe.MaskKey | test_gemini_api.py:86 | the masked key is the first 10 characters, `...`, then the last 4 |
| GeminiProbe.ShortKeyFullyShown | test_gemini_api.py:86 | a key of at most 14 characters is shown in full across the two ends |
| GeminiProbe.Working | test_gemini_api.py:91-109 | the candidates whose replies succeed, in candidate order; proved by WorkingMembers and WorkingFirst, and ProbeEach shows the loop builds it |
| GeminiProbe.ProbeBlock | test_gemini_api.py:100-109 | one candidate's lines: its bullet, then `SUCCESS!` and the reply cut to 80, or the failure cut to 120, then a blank line; LogProbe logs it |
| GeminiProbe.WorkingMembers | test_gemini_api.py:91-109 | a model is in `working` exactly when its probe succeeded |
| GeminiProbe.WorkingFirst | test_gemini_api.py:116-121 | `working` is empty exactly when every probe failed; the recommended `working[0]` is the first model that succeeded |
| EnvConfig.KeyIn | test_gemini_api.py:79-84 | the key is present exactly when `GEMINI_API_KEY` is set and non-empty, and then it is that value (the same test is list_gemini_models.py:37-42) |
| GeminiProbe.ReadKey | test_gemini_api.py:79-84 | reads the key from the loaded dictionary |
| GeminiProbe.ProbeAll | test_gemini_api.py:91-109 | every candidate is probed in order, even after failures, one log block each, and `working` collects the successes |
| GeminiProbe.ProbeEach | test_gemini_api.py:99-109 | the loop over any model list: one block per model in order, `working` is exactly `Working` of the list |
| GeminiProbe.ProbeStep | test_gemini_api.py:99-109 | one more probe extends the working list by that model exactly when it succeeded, and the log by its block |
| GeminiProbe.LogProbe | test_gemini_api.py:100-109 | logs one candidate's block |
| GeminiProbe.Summary | test_gemini_api.py:111-132 | the closing lines: the working list and `Use model: working[0]` when something worked, the advice otherwise; LogSummary logs it |
| GeminiProbe.LogBanner | test_gemini_api.py:62-70 | logs the banner lines |
| GeminiProbe.LogSummary | test_gemini_api.py:111-132 | logs the working list and recommendation, or the no-working-models advice |
| GeminiProbe.LogWorking | test_gemini_api.py:113-122 | logs the success header, one bullet per working model and the recommendation of `working[0]` |
| GeminiProbe.LogBullets | test_gemini_api.py:117-118 | logs one bullet per working model, in order |
| GeminiProbe.Bullets | test_gemini_api.py:117-118 | one bullet line per working model, each the model's name after the bullet prefix |
| GeminiProbe.RunTester | test_gemini_api.py:62-132 | a missing file or key exits 1 before any probe; otherwise all candidates are probed and the exit code is 0 exactly when `working` is non-empty |
| ModelLister.FirstNonString | list_gemini_models.py:76 | the index `join` stops at: the first element that is not a string, or none when every element is a string |
| ModelLister.ModelId | list_gemini_models.py:70 | the id has no `/`; it is the text after the last `/`, or the whole name |
| ModelLister.EntryOutcome | list_gemini_models.py:64-80 | one pass of the loop body: a non-object raises before logging (no `get`), a null name raises at `'/' in name`, a methods field that does not join raises after the four head lines, and anything else logs DescriptorBlock; proved by EntryCompletes and EntryRaises |
| ModelLister.EntriesOutcome | list_gemini_models.py:64-80 | the loop over `data['models']`, ended by the first entry that raises; proved by EntriesSnoc, RaisedStops, AllCompleteLogged and FirstRaiseReported |
| ModelLister.ModelsLines | list_gemini_models.py:58-92 | the header with the entry count, the loop's lines, then the footer, or the `❌ Error:` line when an entry raised; proved by AnnouncedCountMatchesBlocks |
| ModelLister.ReplyLines | list_gemini_models.py:51-92 | the lines for each fetch outcome: ModelsLines for a 200 with models, "No models found", the status and body cut to 300, or the error; proved through LogReply |
| ModelLister.EntryCompletes | list_gemini_models.py:64-80 | an entry raises exactly when it is not an object with a non-null name and joinable methods; otherwise it logs its full block |
| ModelLister.EntryRaises | list_gemini_models.py:64-76 | a non-dict raises `'<type>' object has no attribute 'get'` with nothing logged; a null name raises `argument of type 'NoneType' is not iterable` with nothing logged; null methods raise `can only join an iterable` after the four head lines |
| ModelLister.MethodItemRaises | list_gemini_models.py:72-76 | a method list raises `sequence item i: expected str instance, <type> found` at its first non-string element, after the four head lines |
| ModelLister.FirstNonStringAt | list_gemini_models.py:76 | the first non-string element is the one FirstNonString finds |
| ModelLister.EntriesSnoc | list_gemini_models.py:64-80 | while nothing has raised, one more entry appends its lines and its outcome |
| ModelLister.RaisedStops | list_gemini_models.py:64-92 | once an entry raised, the entries after it log nothing and change nothing |
| ModelLister.AllCompleteLogged | list_gemini_models.py:64-80 | the loop ends without an exception exactly when every entry is read through |
| ModelLister.FirstRaiseReported | list_gemini_models.py:64-92 | at the first entry that raises, the loop's lines are the earlier entries' lines plus what that entry logged, and its exception is the one reported |
| ModelLister.RaisedAt | list_gemini_models.py:64-92 | the outcome of the first raising entry is the outcome of the whole loop |
| ModelLister.CountLinesAppend | list_gemini_models.py:64-80 | counting matching lines distributes over concatenation |
| ModelLister.EntryCounts | list_gemini_models.py:64-80 | an entry logs one Model ID line exactly when it is an object with a non-null name, and the chat marker exactly when it is read through and lists `generateContent` |
| ModelLister.ChatMarkersCounted | list_gemini_models.py:79-80 | at most one chat marker per read-through entry that lists `generateContent`, and exactly that many when no entry raises |
| ModelLister.IdLinesCounted | list_gemini_models.py:64-80 | at most one Model ID line per entry, and exactly one each when no entry raises |
| ModelLister.CountFour | list_gemini_models.py:72-75 | a four-line block is counted line by line |
| ModelLister.HeadCounts | list_gemini_models.py:72-75 | the four head lines hold one id line and no chat marker |
| ModelLister.BlockCounts | list_gemini_models.py:65-80 | a read-through block holds one id line, and a chat marker exactly when the model supports chat; missing fields take their defaults |
| ModelLister.HeadLineKinds | list_gemini_models.py:72-75 | of the four head lines only the "Model ID" line is an id line, and none is the chat marker |
| ModelLister.AnnouncedCountMatchesBlocks | list_gemini_models.py:58-92 | the heading announces the number of entries; at most that many Model ID lines follow, exactly that many followed by the footer when no entry raises, and the last line is the error when one does |
| ModelLister.ReadKey | list_gemini_models.py:37-42 | a missing file reads as an empty configuration |
| ModelLister.LogEntry | list_gemini_models.py:64-80 | logs one pass of the loop body and returns its exception, as EntryOutcome |
| ModelLister.LogEntries | list_gemini_models.py:64-80 | the loop logs entry after entry and stops at the first exception, as EntriesOutcome |
| ModelLister.LogReply | list_gemini_models.py:51-92 | logs ReplyLines: an exception inside the `try`, from the fetch, the JSON or the loop, is logged, not raised |
| ModelLister.RunLister | list_gemini_models.py:29-95 | without a key it exits 1 and sends nothing; otherwise it fetches once, logs the outcome and always ends with the "Results saved" line |
| RoomRegistry.AddMember | backend/websocket.js:150-151 | `Set.add`: the members plus the new one, no duplicates, one more only when it was absent |
| RoomRegistry.RemoveMember | backend/websocket.js:214-216 | `Set.delete`: exactly the other members, no duplicates |
| RoomRegistry.Recipients | backend/websocket.js:234-254 | the open members other than the sender |
| RoomRegistry.Sends | backend/websocket.js:236-250 | one send per recipient, in order |
| RoomRegistry.BroadcastReaches | backend/websocket.js:234-254 | a broadcast reaches exactly the open members of the room other than the sender, sends only that message, and reaches nobody for a room not in the table |
| RoomRegistry.Others | backend/websocket.js:160-161 | the members other than the joiner |
| RoomRegistry.Participants | backend/websocket.js:160-167 | the other members' emails, one each in set order; no list when a member has no client record |
| RoomRegistry.Forwardee | backend/websocket.js:338-350 | a forwardee exists exactly when some open member other than the requester does, and then it is one of them |
| RoomRegistry.ForwardeeFirst | backend/websocket.js:338-350 | the forwardee is the first member in room order that is open and not the requester |
| RoomRegistry.JoinHub | backend/websocket.js:131-168 | `handleJoin`: 'Room is full' at 10 or more, otherwise the record, the added member, the `user-joined` broadcast and the room-info reply; proved by JoinFullRoom, JoinRecords, RoomInfoListsOthers, JoinKeepsCapacity and JoinWellFormed |
| RoomRegistry.DisconnectHub | backend/websocket.js:208-231 | `handleDisconnect` on the recorded room only; proved by DisconnectUnknown, DisconnectRemoves and DisconnectWellFormed |
| RoomRegistry.BoardJoinHub | backend/websocket.js:257-285 | `handleWhiteboardJoin`: no capacity check, the stored state first, then the broadcast; proved by BoardJoinIgnoresCapacity, StoredStateServed and BoardJoinWellFormed |
| RoomRegistry.RequestStateHub | backend/websocket.js:328-352 | the stored state, or one state request to the Forwardee in a room of more than one member; proved by StoredStateServed, ClearedStateNotServed and RequestForwarded |
| RoomRegistry.Handle | backend/websocket.js:57-91 | the message switch; unknown types change nothing, and 'chat' stops at its caught error with the tables unchanged (the catch path is under Left out); proved by HandleWellFormed |
| RoomRegistry.SweepStep | backend/websocket.js:19-31 | one connection's heartbeat turn: terminate a connection not alive since the last sweep, else mark it and ping; proved by SweepStepEffect, PongSaves and SweepStepMonotone |
| RoomRegistry.Sweep | backend/websocket.js:17-32 | the sweep over all connections in order; proved by SweepMonotone, SweepMarks, SweepRemovesDead, UnansweredPingTerminates and SweepWellFormed |
| RoomRegistry.Broadcast | backend/websocket.js:234-254 | the sends of `broadcastToRoom`; proved by BroadcastReaches |
| RoomRegistry.JoinFullRoom | backend/websocket.js:133-142 | joining a room of 10 or more replies 'Room is full' and changes no table |
| RoomRegistry.JoinRecords | backend/websocket.js:145-151 | a join records {room, email}, adds the connection to the room (creating it) and leaves other rooms alone |
| RoomRegistry.RoomInfoListsOthers | backend/websocket.js:160-167 | the room-info reply lists one email per other member, never the joiner's own |
| RoomRegistry.RemoveAbsent | backend/websocket.js:214-216 | deleting an absent member changes nothing |
| RoomRegistry.RemovePresent | backend/websocket.js:214-216 | deleting a present member shortens the set by one |
| RoomRegistry.JoinRooms | backend/websocket.js:133-151 | the room table after a join: unchanged for a full room, otherwise the joiner added to its room |
| RoomRegistry.JoinKeepsCapacity | backend/websocket.js:133-151 | join never takes a room past 10 members |
| RoomRegistry.BoardJoinIgnoresCapacity | backend/websocket.js:257-285 | the whiteboard join has no capacity check: a new member is always added, one more, so a room of 10 or more grows past 10 |
| RoomRegistry.DisconnectUnknown | backend/websocket.js:208-211 | disconnecting an unknown connection changes nothing |
| RoomRegistry.DisconnectRemoves | backend/websocket.js:208-231 | disconnect removes the record and the connection from its recorded room only, deletes that room exactly when it empties, and tells the rest |
| RoomRegistry.StaleMembership | backend/websocket.js:145-151 | a second join leaves the connection in its first room, and disconnect leaves it there |
| RoomRegistry.StaleMemberBlocksRoomInfo | backend/websocket.js:160-167 | a stale member makes the participant lookup fail: the joiner is recorded and announced but gets no room-info |
| RoomRegistry.StoredStateServed | backend/websocket.js:270-336 | after a state update, a state request and a whiteboard join both receive that state |
| RoomRegistry.ClearedStateNotServed | backend/websocket.js:314-352 | after a clear nothing is stored, and a request only forwards a state request |
| RoomRegistry.RequestForwarded | backend/websocket.js:328-352 | with no stored state, the request goes to exactly one other open member, the first, only when the room has more than one member; nothing else changes |
| RoomRegistry.SweepStepEffect | backend/websocket.js:17-32 | a connection not alive since the last sweep is disconnected and terminated; any other is marked not alive and pinged |
| RoomRegistry.PongSaves | backend/websocket.js:42-43 | a pong before the sweep means a ping, not a termination |
| RoomRegistry.SweepStepMonotone | backend/websocket.js:17-32 | a sweep step keeps earlier sends, adds no client and touches no other flag |
| RoomRegistry.SweepMonotone | backend/websocket.js:17-32 | a whole sweep keeps earlier sends, adds no client or open connection, and leaves unswept flags alone |
| RoomRegistry.SweepMarks | backend/websocket.js:17-32 | after a sweep every swept connection is marked not alive |
| RoomRegistry.SweepRemovesDead | backend/websocket.js:23-27 | a swept connection that entered not alive is disconnected and terminated |
| RoomRegistry.UnansweredPingTerminates | backend/websocket.js:17-32 | a connection that answers no ping between two sweeps is terminated by the second |
| RoomRegistry.HandleWellFormed | backend/websocket.js:57-91 | every message handler keeps rooms non-empty and free of repeats |
| RoomRegistry.AddWellFormed | backend/websocket.js:145-151 | adding a connection to a room, new or existing, keeps every room non-empty and free of repeats |
| RoomRegistry.JoinWellFormed | backend/websocket.js:131-168 | a join keeps rooms non-empty and free of repeats |
| RoomRegistry.BoardJoinWellFormed | backend/websocket.js:257-285 | a whiteboard join keeps rooms non-empty and free of repeats |
| RoomRegistry.DisconnectWellFormed | backend/websocket.js:208-231 | disconnect keeps rooms non-empty and free of repeats |
| RoomRegistry.SweepWellFormed | backend/websocket.js:17-32 | the heartbeat keeps rooms non-empty and free of repeats |
| RoomRegistry.Server.constructor | backend/websocket.js:6-11 | empty tables |
| RoomRegistry.Server.Connect | backend/websocket.js:38-43 | a new connection is tracked, open and alive |
| RoomRegistry.Server.Pong | backend/websocket.js:42-43 | the pong listener marks the connection alive |
| RoomRegistry.Server.BroadcastToRoom | backend/websocket.js:234-254 | the loop sends to each open member but the sender, in set order, as Broadcast |
| RoomRegistry.Server.HandleJoin | backend/websocket.js:131-168 | updates the tables as JoinHub |
| RoomRegistry.Server.HandleDisconnect | backend/websocket.js:208-231 | updates the tables as DisconnectHub |
| RoomRegistry.Server.HandleBoardJoin | backend/websocket.js:257-285 | updates the tables as BoardJoinHub |
| RoomRegistry.Server.HandleRequestState | backend/websocket.js:328-352 | updates the tables as RequestStateHub |
| RoomRegistry.FirstOpenOther | backend/websocket.js:338-350 | the loop stops at the first open member other than the requester, as Forwardee |
| RoomRegistry.SendToOthers | backend/websocket.js:236-249 | the broadcast loop appends one send per open member other than the sender, in member order, as Sends of Recipients |
| RoomRegistry.Server.OnMessage | backend/websocket.js:57-91 | dispatches by message type as Handle, including the relays at 171-205 and the state handlers at 288-325 |
| RoomRegistry.Server.OnClose | backend/websocket.js:98-100 | the close listener disconnects |
| RoomRegistry.Server.HeartbeatSweep | backend/websocket.js:17-32 | one interval run over all connections |
| ChatStore.Valid | backend/routers/ai.routes.js:64-69 | the store invariant: the key order lists the metadata ids once each, and each chat with metadata has a history whose length is its `messageCount`; kept by StartCreates and SendKeepsValid |
| ChatStore.ClassifyError | backend/routers/ai.routes.js:192-204 | the six tests on the error message in source order; proved by ClassifyErrorCases, ClassifyDefault and ClassifyFirstMatchWins |
| ChatStore.StartChat | backend/routers/ai.routes.js:57-79 | `POST /chat/start`; proved by StartCreates and StartNeedsModel |
| ChatStore.SendMessage | backend/routers/ai.routes.js:82-219 | `POST /chat/message`: the three guards, then Exchange; proved by GuardsChangeNothing, GuardsPassed and SendKeepsValid |
| ChatStore.Exchange | backend/routers/ai.routes.js:102-211 | the missing history created, then the outcome applied; proved by Pending, SuccessAppendsTwo and FailureAppendsNothing |
| ChatStore.Answer | backend/routers/ai.routes.js:110-211 | a throw, a block, an empty text or a usable answer; proved by AnswerUsable, FailureAppendsNothing and SuccessUpdatesMetadata |
| ChatStore.ListChats | backend/routers/ai.routes.js:234-250 | the summaries sorted newest first; proved by SummariesListChats and ListOrdered |
| ChatStore.DeleteChat | backend/routers/ai.routes.js:253-264 | both maps and the key order without the id; proved by DeleteRemoves |
| ChatStore.Title | backend/routers/ai.routes.js:173 | the first 50 characters, plus `...` exactly when the message is longer |
| ChatStore.TitleMarksCut | backend/routers/ai.routes.js:173 | a title is over 50 characters exactly when the message was cut; it is at most 53 |
| ChatStore.ClassifyErrorCases | backend/routers/ai.routes.js:192-204 | a missing message gives the default text, "empty" wins over every other test, a key problem comes next, and the text is always one of the six |
| ChatStore.ClassifyDefault | backend/routers/ai.routes.js:192-204 | the default message appears exactly when no test matches |
| ChatStore.ClassifyFirstMatchWins | backend/routers/ai.routes.js:194-199 | for every message, an earlier test shadows a later one: "empty" beats all, a key problem beats the rest, and a quota, safety or not-found answer rules out the earlier tests |
| ChatStore.QuotaEmptyIsEmpty | backend/routers/ai.routes.js:194-196 | the quota error "quota empty" is reported as an empty response |
| ChatStore.AddKey | backend/routers/ai.routes.js:64-69 | `Map.set`: a new id goes last, an old one keeps its place |
| ChatStore.DropKey | backend/routers/ai.routes.js:257 | `Map.delete` on the key order |
| ChatStore.Touch | backend/routers/ai.routes.js:169-178 | the count, the new time, and a new title only while it is 'New Chat' |
| ChatStore.HistoryOf | backend/routers/ai.routes.js:222-231 | an unknown chat reads as an empty history |
| ChatStore.StartCreates | backend/routers/ai.routes.js:57-79 | an empty history and 'New Chat' metadata with count 0 under the new id; the invariant is kept |
| ChatStore.StartNeedsModel | backend/routers/ai.routes.js:57-79 | without a model nothing is stored and the reply is 500 |
| ChatStore.GuardsChangeNothing | backend/routers/ai.routes.js:94-100 | a missing message or chat id is a 400 that changes nothing |
| ChatStore.Pending | backend/routers/ai.routes.js:103-108 | after the lookup the chat has a history |
| ChatStore.GuardsPassed | backend/routers/ai.routes.js:84-108 | once the model is ready and both fields are given, the request is the model's outcome applied to that store |
| ChatStore.AnswerUsable | backend/routers/ai.routes.js:164-166 | a usable answer appends its two entries, keeps the key order and replies with the text |
| ChatStore.SuccessAppendsTwo | backend/routers/ai.routes.js:164-166 | a success appends exactly the user entry, then the assistant entry |
| ChatStore.FailureAppendsNothing | backend/routers/ai.routes.js:103-211 | a blocked, empty or failed answer appends nothing and leaves the metadata alone |
| ChatStore.SuccessUpdatesMetadata | backend/routers/ai.routes.js:103-178 | metadata is updated only when it exists: count equals history length, new time, title only from 'New Chat' |
| ChatStore.SendKeepsValid | backend/routers/ai.routes.js:82-219 | every message request keeps `messageCount == |history|` and the key order |
| ChatStore.DeleteRemoves | backend/routers/ai.routes.js:253-264 | delete removes the id from both maps and leaves the other chats alone |
| ChatStore.SummariesListChats | backend/routers/ai.routes.js:236-242 | one summary per chat, in map order, with its metadata |
| ChatStore.ListOrdered | backend/routers/ai.routes.js:234-250 | the list is sorted by `lastUpdated`, else `timestamp`, newest first, and is a permutation of the stored chats |
| ChatStore.ChatServer.constructor | backend/routers/ai.routes.js:52-54 | empty maps |
| ChatStore.ChatServer.Start | backend/routers/ai.routes.js:57-79 | updates the maps as StartChat |
| ChatStore.ChatServer.Message | backend/routers/ai.routes.js:82-219 | updates the maps as SendMessage and keeps the invariant |
| ChatStore.ChatServer.Record | backend/routers/ai.routes.js:102-211 | creates the missing history, then applies the outcome, as Exchange |
| ChatStore.ChatServer.Apply | backend/routers/ai.routes.js:110-211 | the outcome applied in place, as Answer |
| ChatStore.ChatServer.History | backend/routers/ai.routes.js:222-231 | replies with HistoryOf |
| ChatStore.ChatServer.List | backend/routers/ai.routes.js:234-250 | the loop collects the summaries, then sorts them |
| ChatStore.ChatServer.Delete | backend/routers/ai.routes.js:253-264 | updates the maps as DeleteChat |
| FileRooms.Normalise | backend/routers/file.routes.js:45 | `trim().toUpperCase()`; proved by NormalisedIsNotLowerPlaceholder, UploadedFileListed and RawCodeNotVerified |
| FileRooms.UploadFile | backend/routers/file.routes.js:41-99 | `POST /upload`; proved by UploadRejects, PlaceholderRefused, UploadStores and UploadKeepsValid |
| FileRooms.ListFiles | backend/routers/file.routes.js:107-125 | `GET /list`; proved by QueryIsRoomMatch, ListSelectsRoomNewestFirst and UploadedFileListed |
| FileRooms.DeleteFile | backend/routers/file.routes.js:173-190 | `DELETE /delete/:id`; proved by DeleteOutcomes and RemoveKeepsValid |
| FileRooms.VerifyRoom | backend/routers/file.routes.js:216-232 | `POST /verify-room`; proved by VerifyRoomCounts and RawCodeNotVerified |
| FileRooms.ByRoom | backend/routers/file.routes.js:246-265 | `GET /debug/by-room`; proved by ByRoomPartitions |
| FileRooms.Cleanup | backend/routers/file.routes.js:275-298 | `DELETE /cleanup/invalid-rooms`; proved by CleanupRemovesExactly and CleanupKeepsValid |
| FileRooms.UploadRejects | backend/routers/file.routes.js:41-99 | a rejected upload stores nothing; no file gives 400, a bad code gives 400, an empty required field gives 500 |
| FileRooms.PlaceholderRefused | backend/routers/file.routes.js:45-50 | `undefined` and `null`, in any case and with blanks around them, are refused |
| FileRooms.UploadStores | backend/routers/file.routes.js:54-62 | the stored record is appended last, belongs to the uploader and carries the normalised code |
| FileRooms.UploadKeepsValid | backend/models/File.js:3-37 | an upload with a fresh id keeps identifiers unique |
| FileRooms.AppendFreshValid | backend/models/File.js:3-37 | appending a record whose id is not taken keeps identifiers unique |
| FileRooms.NormalisedIsNotLowerPlaceholder | backend/routers/file.routes.js:112-123 | a normalised code never equals the lower-case `undefined` or `null` |
| FileRooms.QueryIsRoomMatch | backend/routers/file.routes.js:112-125 | the extra exclusions of the list query drop nothing the room code matches |
| FileRooms.ListSelectsRoomNewestFirst | backend/routers/file.routes.js:107-125 | a blank code lists nothing; otherwise exactly the room's records, newest first |
| FileRooms.UploadedFileListed | backend/routers/file.routes.js:45-62 | an uploaded file is listed under any spelling that normalises to the same code |
| FileRooms.FindIndex | backend/routers/file.routes.js:173-177 | the first record with the id, or none exactly when the id is absent |
| FileRooms.Remove | backend/routers/file.routes.js:190 | a present id's record is removed, one fewer; an absent id changes nothing |
| FileRooms.FreshAfter | backend/models/File.js:3-37 | with unique ids, no later record shares a found record's id |
| FileRooms.WithoutFresh | backend/routers/file.routes.js:190 | filtering out an absent id keeps everything |
| FileRooms.CutIsWithout | backend/routers/file.routes.js:190 | cutting the only record with an id is filtering that id out |
| FileRooms.RemoveIsWithout | backend/routers/file.routes.js:190 | with unique ids, removing the found record drops every record with that id |
| FileRooms.RemoveKeepsValid | backend/routers/file.routes.js:190 | removal keeps identifiers unique |
| FileRooms.DeleteOutcomes | backend/routers/file.routes.js:173-190 | an unknown id gives 404 and a non-uploader 403, both changing nothing; otherwise exactly that record goes |
| FileRooms.VerifyRoomCounts | backend/routers/file.routes.js:216-232 | `exists` exactly when the count of records with the raw code is positive, and `fileCount` is that count |
| FileRooms.RawCodeNotVerified | backend/routers/file.routes.js:224-232 | a file uploaded under a code that normalisation changes does not make the raw code exist |
| FileRooms.ByRoomPartitions | backend/routers/file.routes.js:246-265 | each record is in exactly the group of its code or `NO_ROOM`, in database order; the total is the record count |
| FileRooms.Names | backend/routers/file.routes.js:297 | the reported names, one per removed record |
| FileRooms.CleanupRemovesExactly | backend/routers/file.routes.js:275-298 | cleanup removes exactly the records whose code is null, empty or missing, keeps `undefined`/`null` strings, and reports as many names |
| FileRooms.Ids | backend/routers/file.routes.js:286-293 | the identifiers of the targets |
| FileRooms.WithoutStep | backend/routers/file.routes.js:286-293 | deleting one more id from the remainder |
| FileRooms.RemoveStep | backend/routers/file.routes.js:286-293 | deleting one more target from the remainder leaves exactly the records whose id was not yet deleted, and ids stay unique |
| FileRooms.CleanupKeepsValid | backend/routers/file.routes.js:275-298 | cleanup keeps identifiers unique |
| FileRooms.CleanedIds | backend/routers/file.routes.js:275-293 | once every target id is deleted, exactly the kept records remain |
| FileRooms.FileStore.constructor | backend/models/File.js:3-37 | an empty collection |
| FileRooms.FileStore.Upload | backend/routers/file.routes.js:41-99 | updates the records as UploadFile and keeps ids unique |
| FileRooms.FileStore.List | backend/routers/file.routes.js:107-125 | replies with ListFiles |
| FileRooms.FileStore.Delete | backend/routers/file.routes.js:173-190 | updates the records as DeleteFile |
| FileRooms.FileStore.Verify | backend/routers/file.routes.js:216-232 | replies with VerifyRoom |
| FileRooms.FileStore.DebugByRoom | backend/routers/file.routes.js:246-265 | the `forEach` grouping equals ByRoom |
| FileRooms.FileStore.CleanupInvalid | backend/routers/file.routes.js:275-298 | finds the targets, deletes each, and ends as Cleanup |
| FileRooms.FileStore.RemoveAll | backend/routers/file.routes.js:286-293 | the deletion loop leaves exactly the records whose id it did not delete |
| Diagnose.Invalid | backend/scripts/diagnose-files.js:25 | a code that is missing, null, empty, `undefined` or `null`; proved by InvalidListExact |
| Diagnose.Groups | backend/scripts/diagnose-files.js:23-33 | the valid records grouped by code; proved by GroupIsSubsequence, GroupsExact, GroupMembers and CountsAddUp |
| Diagnose.Report | backend/scripts/diagnose-files.js:16-57 | the lines printed after connecting; proved by ReportSections and NoRoomsIff |
| Diagnose.GroupIsSubsequence | backend/scripts/diagnose-files.js:23-33 | a room's group is its valid records in database order |
| Diagnose.InvalidListExact | backend/scripts/diagnose-files.js:25 | a record is in the invalid list exactly when its code is missing, empty, `undefined` or `null` |
| Diagnose.GroupsExact | backend/scripts/diagnose-files.js:23-33 | a group exists exactly for the rooms of valid records, and holds them in order |
| Diagnose.GroupMembers | backend/scripts/diagnose-files.js:23-33 | each valid record is in its own room's group and no other, so never in both lists |
| Diagnose.CountsAddUp | backend/scripts/diagnose-files.js:16-33 | the group sizes plus the invalid count equal the total |
| Diagnose.NoRoomsIff | backend/scripts/diagnose-files.js:53 | there is no room exactly when every record is invalid |
| Diagnose.WithRoomStep | backend/scripts/diagnose-files.js:23-33 | one more record goes to exactly one of the two lists |
| Diagnose.GroupStep | backend/scripts/diagnose-files.js:28-31 | one more record joins its room's group, creating it and its key if new |
| Diagnose.Push | backend/scripts/diagnose-files.js:28-31 | creates the group when missing, then appends |
| Diagnose.Partition | backend/scripts/diagnose-files.js:23-33 | the `forEach` ends with the groups, the key order and the invalid list |
| Diagnose.ReportSections | backend/scripts/diagnose-files.js:36-57 | the invalid section appears exactly when some record is invalid, one line each; the warning appears exactly when there are records and none is valid |
| Diagnose.InvalidLinesLength | backend/scripts/diagnose-files.js:38-40 | one line per invalid record |
| Diagnose.PrintInvalid | backend/scripts/diagnose-files.js:38-40 | prints the invalid records in order |
| Diagnose.PrintInvalidSection | backend/scripts/diagnose-files.js:35-42 | prints the heading with the count, the invalid records and a blank line, and nothing when every record has a code |
| Diagnose.PrintNames | backend/scripts/diagnose-files.js:48-50 | prints a room's file names in order |
| Diagnose.PrintRooms | backend/scripts/diagnose-files.js:45-51 | one block per room, in key order |
| Diagnose.DiagnoseFiles | backend/scripts/diagnose-files.js:16-57 | the printout after the connection message (line 13) is Report |
| FilesPage.ExtensionType | frontend/Scripts/files.js:348-361 | the extension tests in source order; proved by ExtensionTypeByTable and ExtensionTypeDefault |
| FilesPage.Icon | frontend/Scripts/files.js:364-374 | `getFileIcon` as written; proved by IconMatchesClass and OfficeSheetClassedAsDocument |
| FilesPage.TypeClass | frontend/Scripts/files.js:377-387 | `getFileTypeClass` as written; proved by IconMatchesClass and OfficeSheetClassedAsDocument |
| FilesPage.FormatDate | frontend/Scripts/files.js:399-417 | the relative date label; proved by AgoIsNotJustNow and DateBuckets |
| FilesPage.CountLabel | frontend/Scripts/files.js:285-299 | the file count label; proved by CountLabelRule |
| FilesPage.CardOf | frontend/Scripts/files.js:306-340 | one card as written, with Icon and TypeClass; proved by CardConsistent |
| FilesPage.EnterRoom | frontend/Scripts/files.js:63-77 | `joinRoom`; proved by EnterRoomOutcome |
| FilesPage.Exit | frontend/Scripts/files.js:98-105 | `exitRoom`; proved by ExitOutcome |
| FilesPage.Drop | frontend/Scripts/files.js:145-168 | the drop handler; proved by DragKeepsConsistent |
| FilesPage.Extension | frontend/Scripts/files.js:349 | the text after the last dot, lower-cased, holds no dot |
| FilesPage.ExtensionTypeByTable | frontend/Scripts/files.js:348-361 | an extension listed under a category gets that category, whatever the order of the tests |
| FilesPage.ExtensionTypeDefault | frontend/Scripts/files.js:348-361 | `default` exactly when no category lists the extension |
| FilesPage.FileTypeIgnoresCase | frontend/Scripts/files.js:349 | the category does not depend on the case of the name |
| FilesPage.IconMatchesClass | frontend/Scripts/files.js:364-387 | the icon is the icon of the class, and `default` pairs with `insert_drive_file` |
| FilesPage.OfficeSheetClassedAsDocument | frontend/Scripts/files.js:364-387 | as written, a type containing "document" is classed as a document even when it is a spreadsheet or slide deck |
| FilesPage.FixedClassesOfficeTypes | frontend/Scripts/files.js:364-387 | with the corrected order, spreadsheet and presentation types get their own class, and only those cases change |
| FilesPage.FloorDiv | frontend/Scripts/files.js:403-405 | `Math.floor` of a division by a positive divisor |
| FilesPage.AgoIsNotJustNow | frontend/Scripts/files.js:407-410 | a relative label is never 'Just now' |
| FilesPage.DateBuckets | frontend/Scripts/files.js:399-417 | 'Just now' exactly when under a minute; then minutes, hours and days in their ranges; the calendar date from 7 days |
| FilesPage.CountLabelRule | frontend/Scripts/files.js:285-299 | '0 files' for an empty list, else N file, plus s unless N is 1 |
| FilesPage.AlphabetChars | frontend/Scripts/files.js:52 | the alphabet has 36 upper-case letters and digits |
| FilesPage.GenerateRoomCode | frontend/Scripts/files.js:51-60 | the nested loops build three groups of three drawn characters joined by `-` |
| FilesPage.GroupsWellFormed | frontend/Scripts/files.js:51-60 | the code has 11 characters, dashes at 3 and 7, and code characters elsewhere |
| FilesPage.GeneratedCodeIsNormal | frontend/Scripts/files.js:51-60 | a generated code is unchanged by normalising and the upload route accepts it |
| FilesPage.DeleteButtonMatchesBackend | frontend/Scripts/files.js:306-340 | the delete button shows exactly for the user the backend lets delete; others get 403 and the name before `@` |
| FilesPage.NameCanReadYou | frontend/Scripts/files.js:328 | any other uploader whose address starts with `You@` is labelled "You", like the user, but gets no delete button |
| FilesPage.CardConsistent | frontend/Scripts/files.js:306-387 | a card's icon is the icon of its class, and the delete button shows exactly for the uploader, who is then labelled "You" |
| FilesPage.CardOfFixed | frontend/Scripts/files.js:364-387 | the card with the corrected classification |
| FilesPage.FixedCardDiffersOnlyForDocuments | frontend/Scripts/files.js:364-387 | the corrected card equals the card as written unless the file is classed as a document |
| FilesPage.Display | frontend/Scripts/files.js:280-345 | the count label for the number of files, and one as-written card per listed file, in list order |
| FilesPage.EnterRoomOutcome | frontend/Scripts/files.js:63-77 | a blank entry changes nothing; otherwise the normalised code becomes the room and is stored |
| FilesPage.ExitOutcome | frontend/Scripts/files.js:98-105 | the room and its stored copy are cleared only on confirmation |
| FilesPage.DragKeepsConsistent | frontend/Scripts/files.js:126-148 | enter, a matched leave and drop keep the highlight on exactly while the counter is positive |
| FilesPage.StrayLeaveDesynchronises | frontend/Scripts/files.js:134-139 | a leave without an enter drives the counter negative; the next enter highlights at zero |
| FilesPage.FilesView.constructor | frontend/Scripts/files.js:26-34 | the stored room is resumed; without one the room dialog opens |
| FilesPage.FilesView.JoinRoom | frontend/Scripts/files.js:63-77 | updates the page as EnterRoom; it joins exactly when the entry is not blank |
| FilesPage.FilesView.ExitRoom | frontend/Scripts/files.js:98-105 | updates the page as Exit |
| FilesPage.FilesView.OnDragEnter | frontend/Scripts/files.js:128-132 | counter up, highlight on |
| FilesPage.FilesView.OnDragLeave | frontend/Scripts/files.js:134-139 | counter down, highlight off at zero |
| FilesPage.FilesView.OnDrop | frontend/Scripts/files.js:145-168 | resets the counter; uploads only with a room, else opens the room dialog |
| Signup.IsEmail | frontend/Scripts/signup.js:29-33 | the address check as a scan; proved equal to the pattern by IsEmailMatchesPattern |
| Signup.Check | frontend/Scripts/signup.js:23-39 | the three checks in order; proved by CheckPosts and SubmitOrder |
| Signup.Submit | frontend/Scripts/signup.js:16-39 | the submit handler; proved by SubmitAccepts |
| Signup.AfterResponse | frontend/Scripts/signup.js:52-68 | the reply handling; proved by RedirectByRole |
| Signup.IsEmailMatchesPattern | frontend/Scripts/signup.js:29-33 | the scan accepts exactly the addresses the pattern matches: one `@`, no whitespace, a non-empty local part, a dot inside the domain |
| Signup.IsEmailHasSplit | frontend/Scripts/signup.js:29-33 | an address the scan accepts splits into local part, `@`, domain text, `.` and domain text, each made of plain characters |
| Signup.SplitIsEmail | frontend/Scripts/signup.js:29-33 | every such split of an address is accepted by the scan |
| Signup.CheckPosts | frontend/Scripts/signup.js:23-39 | the checks pass exactly when the name is given, the address is accepted and the password has 6 characters, and then the checked values are posted |
| Signup.FullNameEmpty | frontend/Scripts/signup.js:16-18 | the name is empty exactly when both name fields are blank |
| Signup.SubmitAccepts | frontend/Scripts/signup.js:16-39 | the form is posted exactly when some name is given, the address matches and the password has 6 characters; the trimmed fields are posted |
| Signup.SubmitOrder | frontend/Scripts/signup.js:23-39 | an empty field wins over a bad address, which wins over a short password |
| Signup.RedirectByRole | frontend/Scripts/signup.js:52-68 | only the admin role reaches the admin dashboard; an error always shows a non-empty message |
| AiChatClient.Tick | frontend/Scripts/ai-chat.js:282-286 | a tick moves the index forward by at most 3, never past the end, and the text stays a prefix of the content |
| AiChatClient.StreamReply | frontend/Scripts/ai-chat.js:249-295 | the loop ends with the whole content after ceil(n/3) appending ticks |
| AiChatClient.Render | frontend/Scripts/ai-chat.js:119-125 | history in stored order; assistant entries are AI bubbles |
| AiChatClient.ChatList | frontend/Scripts/ai-chat.js:71-96 | one row per chat; a row is active exactly when its id is the open chat's |
| AiChatClient.OneActiveRow | frontend/Scripts/ai-chat.js:85 | with distinct ids exactly one row is active, and none when no chat is open |
| AiChatClient.NewChat | frontend/Scripts/ai-chat.js:140-155 | `startNewChat` with the started id; ChatPage.StartNewChat ends in it |
| AiChatClient.NewChatResets | frontend/Scripts/ai-chat.js:140-155 | bubbles emptied, both ids equal to the started id (None when the start failed), guard and text box kept, and no active row without a chat |
| AiChatClient.Load | frontend/Scripts/ai-chat.js:98-137 | `loadChat`; proved by LoadMarksActive |
| AiChatClient.BeginSend | frontend/Scripts/ai-chat.js:158-183 | `sendMessage` up to the request; proved by SendGuard and SendStartsChatOnce |
| AiChatClient.FinishSend | frontend/Scripts/ai-chat.js:195-216 | the settled request; proved by SendRoundTrip |
| AiChatClient.SendGuard | frontend/Scripts/ai-chat.js:158-177 | while busy or with a blank box nothing happens; otherwise the guard is raised, the box cleared and the user bubble shown |
| AiChatClient.SendRoundTrip | frontend/Scripts/ai-chat.js:177-216 | after the request the guard is down again, with the user bubble and then any reply bubble |
| AiChatClient.SendStartsChatOnce | frontend/Scripts/ai-chat.js:167-174 | an open chat is kept; a missing one is started and becomes the open chat |
| AiChatClient.LoadMarksActive | frontend/Scripts/ai-chat.js:98-137 | a load sets both ids to the selected chat, whose row is then the active one |
| AiChatClient.ChatPage.constructor | frontend/Scripts/ai-chat.js:1-3 | no chat, not busy |
| AiChatClient.ChatPage.Type | frontend/Scripts/ai-chat.js:161-162 | the text box that sendMessage reads holds what was typed |
| AiChatClient.ChatPage.StartNewChat | frontend/Scripts/ai-chat.js:140-155 | both ids cleared, then set to the started chat |
| AiChatClient.ChatPage.LoadChat | frontend/Scripts/ai-chat.js:98-137 | the rendering loop ends as Load |
| AiChatClient.ChatPage.Send | frontend/Scripts/ai-chat.js:158-183 | as BeginSend |
| AiChatClient.ChatPage.Settle | frontend/Scripts/ai-chat.js:195-216 | streams the reply and always drops the guard |
| WhiteboardSync.Send | frontend/Scripts/whiteboard-sync.js:88-94 | `sendMessage`; proved by SendOnlyWhenOpen |
| WhiteboardSync.Init | frontend/Scripts/whiteboard-sync.js:20-32 | `initWhiteboardSync`; proved by InitWhileOpen |
| WhiteboardSync.Opened | frontend/Scripts/whiteboard-sync.js:33-44 | the open handler; proved by OpenJoins |
| WhiteboardSync.Reconnect | frontend/Scripts/whiteboard-sync.js:71-85 | `attemptReconnect`; proved by StepKeepsValid and AttemptsBounded |
| WhiteboardSync.Closing | frontend/Scripts/whiteboard-sync.js:55-59 | the close handler; proved by ClosesStopAtMaximum |
| WhiteboardSync.TimerFired | frontend/Scripts/whiteboard-sync.js:80-84 | a reconnect timer firing; proved by DisconnectIsFinal |
| WhiteboardSync.Dispatch | frontend/Scripts/whiteboard-sync.js:97-125 | `handleIncomingMessage`; proved by DispatchAnswers |
| WhiteboardSync.Disconnect | frontend/Scripts/whiteboard-sync.js:278-286 | `disconnectWhiteboardSync`; proved by DisconnectIsFinal |
| WhiteboardSync.SendOnlyWhenOpen | frontend/Scripts/whiteboard-sync.js:88-94 | a message is written exactly when the socket is open, and nothing else changes |
| WhiteboardSync.OpenJoins | frontend/Scripts/whiteboard-sync.js:33-44 | an open resets the counter, marks connected and joins the current room |
| WhiteboardSync.InitWhileOpen | frontend/Scripts/whiteboard-sync.js:20-24 | initialising while open changes nothing |
| WhiteboardSync.NoRoomNoBroadcast | frontend/Scripts/whiteboard-sync.js:233-265 | without a room no broadcast sends anything |
| WhiteboardSync.DispatchAnswers | frontend/Scripts/whiteboard-sync.js:97-125 | exactly a joining user and a state request make the client send its canvas |
| WhiteboardSync.StepKeepsValid | frontend/Scripts/whiteboard-sync.js:71-85 | every handler keeps the counter at most 5 |
| WhiteboardSync.AttemptsBounded | frontend/Scripts/whiteboard-sync.js:8 | `reconnectAttempts` never exceeds 5, whatever happens |
| WhiteboardSync.ClosesStopAtMaximum | frontend/Scripts/whiteboard-sync.js:72-77 | at the maximum a close schedules no timer |
| WhiteboardSync.DisconnectIsFinal | frontend/Scripts/whiteboard-sync.js:278-286 | after disconnect no timer or stale handler reconnects or sends |
| WhiteboardSync.SyncClient.constructor | frontend/Scripts/whiteboard-sync.js:4-8 | no socket, no room |
| WhiteboardSync.SyncClient.SendMessage | frontend/Scripts/whiteboard-sync.js:88-94 | as Send |
| WhiteboardSync.SyncClient.InitSync | frontend/Scripts/whiteboard-sync.js:20-32 | as Init |
| WhiteboardSync.SyncClient.OnOpen | frontend/Scripts/whiteboard-sync.js:33-44 | as Opened |
| WhiteboardSync.SyncClient.AttemptReconnect | frontend/Scripts/whiteboard-sync.js:71-85 | as Reconnect |
| WhiteboardSync.SyncClient.OnClose | frontend/Scripts/whiteboard-sync.js:55-59 | as Closing |
| WhiteboardSync.SyncClient.OnTimer | frontend/Scripts/whiteboard-sync.js:80-84 | as TimerFired |
| WhiteboardSync.SyncClient.Draw | frontend/Scripts/whiteboard-sync.js:247-255 | as BroadcastDraw |
| WhiteboardSync.SyncClient.Clear | frontend/Scripts/whiteboard-sync.js:258-265 | as BroadcastClear |
| WhiteboardSync.SyncClient.SendState | frontend/Scripts/whiteboard-sync.js:233-244 | as SendCanvasState |
| WhiteboardSync.SyncClient.HandleIncoming | frontend/Scripts/whiteboard-sync.js:97-125 | as Dispatch |
| WhiteboardSync.SyncClient.DisconnectSync | frontend/Scripts/whiteboard-sync.js:278-286 | as Disconnect |
| Whiteboard.Press | frontend/Scripts/whiteboard.js:39-70 | a tool button; proved by PressSelects and HandlersKeepValid |
| Whiteboard.Start | frontend/Scripts/whiteboard.js:85-98 | `startDrawing`; proved by StartSetsPoints |
| Whiteboard.Move | frontend/Scripts/whiteboard.js:100-170 | `draw`; proved by MoveBroadcasts, PenStroke and PenCallsChain |
| Whiteboard.Stop | frontend/Scripts/whiteboard.js:172-183 | `stopDrawing`; proved by StopSends and ShapeStroke |
| Whiteboard.ClearCanvas | frontend/Scripts/whiteboard.js:185-194 | `clearCanvas`; proved by ClearOnlyConfirmed |
| Whiteboard.PressSelects | frontend/Scripts/whiteboard.js:39-70 | eraser selects the pen in eraser mode; another tool is selected without it; no attribute, clear, save and hand leave both alone |
| Whiteboard.HandlersKeepValid | frontend/Scripts/whiteboard.js:39-194 | the tool is always a drawing tool, and the eraser is only a pen mode |
| Whiteboard.StartSetsPoints | frontend/Scripts/whiteboard.js:85-98 | starting sets drawing and both points to the mouse position |
| Whiteboard.MoveBroadcasts | frontend/Scripts/whiteboard.js:100-170 | no effect outside a gesture; a pen move sends one segment from the last point and moves it; shapes send nothing |
| Whiteboard.StopSends | frontend/Scripts/whiteboard.js:172-183 | no effect outside a gesture; otherwise ends it and sends the canvas only after a shape |
| Whiteboard.ClearOnlyConfirmed | frontend/Scripts/whiteboard.js:185-194 | clears and broadcasts only on confirmation |
| Whiteboard.PenCalls | frontend/Scripts/whiteboard.js:119-141 | one segment per point |
| Whiteboard.PenStroke | frontend/Scripts/whiteboard.js:85-141 | a pen gesture sends one segment per move, ending at the last point |
| Whiteboard.PenCallsChain | frontend/Scripts/whiteboard.js:119-141 | the first segment starts at the pressed point, and each starts where the previous ended |
| Whiteboard.ShapeStroke | frontend/Scripts/whiteboard.js:143-183 | a shape sends nothing until it ends, then one state |
| Whiteboard.WhiteboardPage.constructor | frontend/Scripts/whiteboard.js:3-13 | pen, default colour, not drawing |
| Whiteboard.WhiteboardPage.OnToolButton | frontend/Scripts/whiteboard.js:39-70 | as Press |
| Whiteboard.WhiteboardPage.OnColor | frontend/Scripts/whiteboard.js:76-82 | the colour input sets the colour |
| Whiteboard.WhiteboardPage.StartDrawing | frontend/Scripts/whiteboard.js:85-98 | as Start |
| Whiteboard.WhiteboardPage.Draw | frontend/Scripts/whiteboard.js:100-170 | as Move |
| Whiteboard.WhiteboardPage.StopDrawing | frontend/Scripts/whiteboard.js:172-183 | as Stop |
| Whiteboard.WhiteboardPage.Clear | frontend/Scripts/whiteboard.js:185-194 | as ClearCanvas |

## Left out

- Network and process I/O (`requests`, the Gemini SDK, `fetch`, real sockets, `sys.exit`, `ws.terminate`): each becomes an input value or a recorded effect.
- MongoDB and Mongoose query semantics: the store is a sequence of records in insertion order. The order of equal `uploadedAt` values is not modelled, and `SortDesc` is not proved stable.
- Malformed ObjectIds and the catch-all 500 paths of the file routes: not modelled.
- multer's disk storage and size limit, upload name suffixes, `fs.unlinkSync` and the download route: not modelled.
- `backend/scripts/cleanup-invalid-files.js` is not part of this model; it repeats the diagnostic predicate with database and filesystem plumbing.
- `frontend/Scripts/dashboard.js`, `frontend/Scripts/toast.js`, `frontend/Scripts/handtracking.js` and `backend/index.js` are not part of this model. They are redirects, UI and server wiring.
- Timers and asynchrony: each heartbeat run, stream tick and reconnect timer is one discrete step. Interleaving during the awaited requests of `sendMessage`, `loadChat` and `Promise.all` is not modelled.
- `RoomRegistry.Handle`: the catch block of the message listener (backend/websocket.js:92-95) is not modelled. It calls `handleError` (lines 109-128), which sits outside the connection callback that declares `reconnectAttempts` (line 46). For a connection with a client record, `reconnectAttempts++` at line 112 therefore throws a ReferenceError. `handleError` is `async` and is not awaited (lines 94, 104 and 247), and the server installs no rejection handler, so the rejection is unhandled; on Node 15 and later that ends the server process. Three inputs from a joined connection reach this path: a `chat` message, a malformed message, and the stale-member throw of `RoomRegistry.StaleMemberBlocksRoomInfo`. The model stops at the caught error and keeps serving, where the real process may have exited. JSON parse failures and the socket `error` event are not modelled either.
- Floating point: `formatFileSize`, the circle radius and the hand tracking are left out. Canvas coordinates are integers.
- DOM, canvas pixels and image data (`handleRemoteDraw`, `handleRemoteState`, `savedState`), `marked`, `escapeHtml`, the clipboard, `copyRoomCode` and `saveCanvas`: left out. A `confirm` answer is an input.
- `toLocaleDateString`: dates older than a week are the single label `Calendar`.
- Whitespace and case are ASCII only: `Text.IsSpace` holds of space, tab, line feed, carriage return, vertical tab and form feed. Python's `str.strip()` also removes `\x1c`-`\x1f`, `\x85`, `\xa0` and the other Unicode spaces, and JavaScript's `trim` and `\s` remove `\xa0`, `\ufeff`, the line and paragraph separators and the other Unicode spaces; a key, a room code or a form field surrounded by those characters keeps them in the model. Unicode `toUpperCase` and UTF-16 string lengths are not modelled either.
- The insertion order of `Object.keys` for integer-like keys, and keys such as `__proto__`: grouping keeps first-seen order for every key.
- The signup page's network-error message and its `localStorage` writes, and the room-code field prefill in `showRoomModal`: not modelled.
- `RoomRegistry.Server.Connect`: requires the new connection to be unknown, as a freshly created socket object is.
- `FilesPage.FilesView.OnDrop` and `WhiteboardSync.SyncClient.SendState`: the file count and the canvas image are inputs; the upload itself and `toDataURL` are not modelled.
- `Whiteboard.WhiteboardPage.Draw`, `Whiteboard.WhiteboardPage.StopDrawing` and `Whiteboard.WhiteboardPage.Clear`: the `typeof` tests for `broadcastDraw`, `sendCanvasState` and `broadcastClear` (frontend/Scripts/whiteboard.js:127, 180, 191) are taken as true, since the sync script is always loaded.
- The error bubbles of `showError` in frontend/Scripts/ai-chat.js (lines 43, 135, 168, 171, 208, 213, defined at 334) are not recorded in `bubbles`, which holds the user and AI message bubbles only. A page that lazily starts a chat, or whose request fails, therefore shows an error bubble more than the model.
- The awaited model call in `POST /chat/message` (backend/routers/ai.routes.js:117-118) is a point where other requests can run. Each request is modelled as one atomic step, so the model does not capture this: a `DELETE /chat/:chatId` (lines 253-264) that runs while a message to that chat is pending removes both maps, after which line 166 stores the history again under the id while the metadata stays gone. `messageCount` is then never set again, and the chat is missing from `/chat/list` while `/chat/history/:chatId` still serves its entries. `ChatStore.Valid` holds only for the sequential model.
- `ModelLister`: an entry of `data['models']` is an object or a value of another JSON kind, and a descriptor's name and display name are missing, null or a string. A name of another kind (a number, `'/' in 5` raises; a list, `'/' in [...]` tests membership), a display name of another kind (printed by `str`), a methods value that is a string or an object (joined character by character or key by key), `data['models']` not being a list and `data` not being an object are not modelled.
- `ModelLister`: the exception texts are those of CPython 3.12; other versions word some of them differently.
- `WhiteboardSync.SyncClient.OnOpen` and `WhiteboardSync.SyncClient.OnClose`: the handlers of an abandoned socket are modelled by a `current` flag, not by separate socket objects.

## Findings

| source | as written | input that shows it | evidently intended | confidence | as-written member | corrected member |
|---|---|---|---|---|---|---|
| frontend/Scripts/files.js:364-387 | `getFileIcon` and `getFileTypeClass` test for "document" before "sheet" and "presentation" | `application/vnd.openxmlformats-officedocument.spreadsheetml.sheet` (an .xlsx file) is classed `document` with icon `description` | an Office spreadsheet or slide deck gets the spreadsheet or presentation class and icon | not executed | FilesPage.OfficeSheetClassedAsDocument | FilesPage.FixedClassesOfficeTypes |

The file cards (`FilesPage.CardOf`, `FilesPage.Display`) keep the
classification as written, as the page shows it. `FilesPage.CardOfFixed` is
the card with the corrected classification, `TypeClassFixed` and `IconFixed`,
and `FilesPage.FixedCardDiffersOnlyForDocuments` proves that the two cards
differ only for a file classed as a document.
