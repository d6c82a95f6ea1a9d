# Session logic of the CodePulse realtime editor, in Dafny

This project models the session logic of CodePulse's collaborative editor page and proves properties about it. The page is `EditorPage`. It embeds the CodeMirror wrapper `Editor`. One participant's session consists of:

- the page's last known text, `codeRef`;
- the editor's own copy of the text, which is the CodeMirror value;
- the echo guard `isSyncing`;
- the `hasInitialized` guard;
- the socket reference and the listeners registered on it;
- the roster of connected clients.

There are two modules:

- `Roster` (`roster.dfy`) is pure. It covers the `JOINED` roster merge and the `DISCONNECTED` filter.
  - `MapValues` models `Array.from(new Map(list.map(c => [c.socketId, c])).values())` exactly. A key keeps the position where it was first inserted and holds the last value written under it.
  - `Dedup`, `Unseen` and `LastWith` are reference definitions that do not use a map. They give the first-occurrence order of ids and the last record for an id.
  - The lemmas connect the merge to these reference definitions. They prove no duplicate ids, which ids are kept, order, which record wins, idempotence, and that the filter keeps order.
- `Session` (`session.dfy`) has two layers.
  - Each event handler is a function `After…` from a `State` value to the next `State`, and lemmas state what the handlers promise.
  - A `Session` class holds the same state in mutable fields. Its methods are the handlers, written the way the source writes them. For example, `EditorHandleCodeChange` sets `isSyncing`, then calls `EditorSetValue`, which fires the `change` handler synchronously, and then clears the flag. Each method is proved to produce exactly the state that its `After…` function gives.

Everything the page or the editor sends on the socket is appended to `outbox`.

The model follows what the code does:

- A user's edit outside a sync window sends `CODE_CHANGE` twice. `Editor`'s change handler calls the page's `handleCodeChange`, which emits once, and then the handler emits again itself.
- `handleCodeChange` calls `socketRef.current.emit` without checking for a socket. Without a socket, the call throws after `codeRef` has been updated. The `ok = false` results of `HandleCodeChange`, `EditorOnChange` and `EditorSetValue` model that throw.
- Every `JOINED` event sends `SYNC_CODE` with the current `codeRef` to the joined socket id. This includes the session's own join.
- The page's `CODE_CHANGE` listener writes the `.editor` element through `setEditorContent`. That write is the field `pageText`. It does not change the CodeMirror value and fires no `change` event.
- The editor registers its own `CODE_CHANGE` listener (`EditorSubscribe`). That registration takes effect only if the socket already exists when the effect runs.
- On mount, that effect never finds a socket. React runs the child's effects before the parent's, and `init` assigns the socket only after `await initSocket()`. The effect runs again only when the room changes. By then, the page's cleanup has disconnected the socket.
- So the editor's listener never hears a message. A code from the server reaches `codeRef` and the `.editor` element, but never the CodeMirror value.
  - `AfterMount` and the `Step` sequence model this effect order.
  - `RemoteCodeNeverReachesEditor` proves the fact for every sequence of steps.
  - `NewcomerSync` shows it for a newcomer: its synced text stays out of CodeMirror.
- The page's cleanup removes every `CODE_CHANGE` listener, the editor's included. A disconnected socket delivers nothing, and the page never reconnects it. `hasInitialized` stays set after cleanup, so a later `init` does not reconnect.
- Nothing checks whether a `JOINED` arrival is new: `SYNC_CODE` goes out on every `JOINED` event.
- There is no leave message and no failed or leaving state. Cleanup only disconnects and removes listeners. A failed connect leaves `hasInitialized` set and no socket.

## Model

| member | source | states |
|---|---|---|
| Roster.Upsert | realtime-editor/src/pages/EditorPage.js:58 | `Map.set` on entries with unique keys: an existing key keeps its position and takes the new record, and a new key is appended. Keys stay unique. |
| Roster.UpsertAt | realtime-editor/src/pages/EditorPage.js:58 | After `Map.set`, an entry with the written id is the new record, and any other entry is the old one at the same position. |
| Roster.MapValues | realtime-editor/src/pages/EditorPage.js:57-59 | The values of a Map built from a client list never share a socket id. |
| Roster.MergeClients | realtime-editor/src/pages/EditorPage.js:55-61 | After a `JOINED` merge, no two clients in the roster share a `socketId`. |
| Roster.UpsertIds | realtime-editor/src/pages/EditorPage.js:58 | On the keys alone, `Map.set` leaves an existing key where it is and appends a new key. |
| Roster.MapValuesIds | realtime-editor/src/pages/EditorPage.js:57-59 | The Map's keys are the ids of the list in first-occurrence order (`Dedup`). |
| Roster.MapValuesRecords | realtime-editor/src/pages/EditorPage.js:57-59 | Each value of the Map is the last record in the list carrying its id (`LastWith`). |
| Roster.MapValuesSpec | realtime-editor/src/pages/EditorPage.js:57-59 | Both of the above together: the Map-based dedup equals the reference definition by first-occurrence order and last record. |
| Roster.MergeClientsIds | realtime-editor/src/pages/EditorPage.js:56-59 | An id is in the merged roster exactly when it is in the previous roster or in the incoming list. |
| Roster.MergeClientsOrder | realtime-editor/src/pages/EditorPage.js:56-59 | When the previous roster has no repeated id, the merge lists the known ids in their original order, followed by the ids new to it in the order the incoming list supplies them. |
| Roster.MergeClientsValues | realtime-editor/src/pages/EditorPage.js:56-59 | A merged entry whose id the incoming list carries is the last incoming record for it. Any other merged entry is the last known record for its id. |
| Roster.MergeClientsKeepsKnown | realtime-editor/src/pages/EditorPage.js:56-59 | Known client `i` stays at position `i`. It is unchanged when the incoming list does not mention it, and otherwise it is replaced by the last incoming record for its id. |
| Roster.MapValuesOfUnique | realtime-editor/src/pages/EditorPage.js:57-59 | A client list without repeated ids comes out of the Map unchanged. |
| Roster.MergeIntoEmpty | realtime-editor/src/pages/EditorPage.js:55-61 | The first snapshot merged into an empty roster is taken as it is when its ids are distinct. |
| Roster.MergeClientsIdempotent | realtime-editor/src/pages/EditorPage.js:55-61 | Merging the same incoming list a second time gives the same roster as merging it once. |
| Roster.MergeKnownAndNew | realtime-editor/src/pages/EditorPage.js:55-61 | Merging `[a, b]` into `[a]`, with distinct ids, gives `[a, b]`. |
| Roster.DuplicateSnapshotScenario | realtime-editor/src/pages/EditorPage.js:55-61 | The snapshot `[a]` followed by the snapshot `[a, b]` leaves the roster `[a, b]`, not `[a, a, b]`. |
| Roster.RemoveClient | realtime-editor/src/pages/EditorPage.js:79 | The `DISCONNECTED` filter: after a departure, a record is in the roster exactly when it was there before and carries another id. |
| Roster.RemoveClientAbsent | realtime-editor/src/pages/EditorPage.js:79 | A departure for an id that is not in the roster leaves the roster unchanged. |
| Roster.RemoveClientSpec | realtime-editor/src/pages/EditorPage.js:79 | After a departure, no entry carries the departed id, exactly the other entries remain, and an absent id changes nothing. |
| Roster.RemoveClientAppend | realtime-editor/src/pages/EditorPage.js:79 | The filter distributes over concatenation, so the surviving entries keep their relative order. |
| Roster.RemoveClientUnique | realtime-editor/src/pages/EditorPage.js:79 | A departure keeps the roster free of repeated ids. |
| Session.InitWithoutUsername | realtime-editor/src/pages/EditorPage.js:20-24 | Without a username, `init` redirects and changes nothing: no socket, no JOIN, and the guard stays unset. |
| Session.InitAtMostOnce | realtime-editor/src/pages/EditorPage.js:26-27 | Once `init` has passed the username check, every later `init` changes nothing and never connects. |
| Session.InitSendsOneJoin | realtime-editor/src/pages/EditorPage.js:26-46 | A successful `init` sends exactly one `JOIN {roomId, username}`. Every other outcome sends nothing and opens no socket. |
| Session.HandleCodeChangeSendsOne | realtime-editor/src/pages/EditorPage.js:107-110 | With a socket, the page's `handleCodeChange` sets `codeRef` to the code and sends exactly one `CODE_CHANGE {roomId, code}`. |
| Session.LocalEditSendsTwice | realtime-editor/src/components/Editor.js:26-35 | A user's edit outside a sync window, with a socket, updates the editor value and `codeRef` and sends `CODE_CHANGE {roomId, code}` twice. |
| Session.LocalEditWithoutSocket | realtime-editor/src/pages/EditorPage.js:107-110 | Without a socket, a user's edit still updates `codeRef` and sends nothing. |
| Session.ChangeWhileSyncingIsSilent | realtime-editor/src/components/Editor.js:29-34 | A `change` event while `isSyncing` is set changes only the editor value. It neither reaches `onCodeChange` nor sends anything. |
| Session.CodeChangeIdempotent | realtime-editor/src/pages/EditorPage.js:68-74 | For the page listener, the editor listener and their combined delivery, applying the same inbound code twice leaves the state of applying it once. |
| Session.CodeChangeSendsNothing | realtime-editor/src/components/Editor.js:49-55 | Loop freedom: an inbound `CODE_CHANGE` sends nothing. On a connected socket, each listening copy of the text ends equal to the code. A copy without a listener, or any copy on a disconnected socket, is untouched. |
| Session.JoinedSendsSync | realtime-editor/src/pages/EditorPage.js:49-65 | On a connected socket, every `JOINED` event merges the roster and sends `SYNC_CODE` with the current `codeRef` to the joined socket id. |
| Session.ReceiveKeepsInv | realtime-editor/src/pages/EditorPage.js:49-80 | Every inbound message keeps the session invariant: `isSyncing` is off, listeners imply a socket, and the roster has unique ids. |
| Session.StepsKeepInv | realtime-editor/src/components/Editor.js:13 | `init`, a user's edit, the editor's subscription and the cleanup keep the invariant, including `isSyncing` being false between handlers. |
| Session.CleanupSilencesListeners | realtime-editor/src/pages/EditorPage.js:90-97 | After the cleanup, no inbound message has any effect. This holds even once the editor's effect has registered its listener again on the disconnected socket. A second cleanup changes nothing. |
| Session.NoInitAfterCleanup | realtime-editor/src/pages/EditorPage.js:16-27 | After the cleanup of an initialized page, `init` changes nothing, because `hasInitialized` stays set. |
| Session.SyncReachesPageOnly | realtime-editor/src/pages/EditorPage.js:68-74 | The page listens and the editor does not. The first delivery of a code takes it into `codeRef` and the `.editor` element, and leaves the CodeMirror value as it was. A second delivery of the same code changes nothing, and nothing is sent. |
| Session.MountLeavesEditorDeaf | realtime-editor/src/components/Editor.js:45-58 | On mount the editor's listener effect runs before `init` has a socket. The editor's listener is not registered, the page's listeners are registered exactly when `init` connects, and the invariant holds. |
| Session.StepKeepsEditorDeaf | realtime-editor/src/pages/EditorPage.js:90-98 | An edit, a delivered message or a re-run of the effects keeps the invariant. No step leaves the editor's listener registered on a connected socket. |
| Session.RunKeepsEditorDeaf | realtime-editor/src/pages/EditorPage.js:90-98 | The same holds for every sequence of steps. |
| Session.RemoteCodeNeverReachesEditor | realtime-editor/src/components/Editor.js:45-65 | After the mount and any sequence of steps, a `CODE_CHANGE` from the server never changes the CodeMirror value. |
| Session.StaysDisconnected | realtime-editor/src/pages/EditorPage.js:26-27 | A disconnected page that has run `init` stays disconnected through any sequence of steps. |
| Session.NothingArrivesAfterCleanup | realtime-editor/src/pages/EditorPage.js:90-97 | After the cleanup of a page that has run `init`, no message has any effect after any sequence of later edits and re-runs. |
| Session.Session.constructor | realtime-editor/src/pages/EditorPage.js:10-16 | The page mounts with empty text, no socket, no listeners, no clients and nothing sent. |
| Session.Session.Emit | realtime-editor/src/pages/EditorPage.js:43-46 | `socket.emit` appends the message to the outbox and changes nothing else. |
| Session.Session.Init | realtime-editor/src/pages/EditorPage.js:19-86 | `init` follows `AfterInit`: the username check, the `hasInitialized` check, then connect, JOIN and listener registration, or a failed connect that only sets the guard. The invariant is kept. |
| Session.Session.HandleCodeChange | realtime-editor/src/pages/EditorPage.js:107-110 | Sets `codeRef`, then emits `CODE_CHANGE`. It reports failure (the TypeError) exactly when there is no socket. |
| Session.Session.EditorOnChange | realtime-editor/src/components/Editor.js:26-35 | The `change` handler follows `AfterChange`: it does nothing while `isSyncing` is set, and otherwise calls `onCodeChange` and then emits itself. |
| Session.Session.EditorSetValue | realtime-editor/src/components/Editor.js:52 | `setValue` replaces the editor value and fires `change` synchronously, following `AfterSetValue`. |
| Session.Session.EditorHandleCodeChange | realtime-editor/src/components/Editor.js:49-55 | An inbound code equal to the editor value changes nothing. A different one becomes the editor value with nothing sent and `isSyncing` false again afterwards. |
| Session.Session.EditorSubscribe | realtime-editor/src/components/Editor.js:45-65 | The editor's listener is registered only if a socket exists when the effect runs. |
| Session.Session.OnCodeChange | realtime-editor/src/pages/EditorPage.js:68-74 | An inbound code equal to `codeRef` changes nothing. A different one replaces `codeRef` and the `.editor` element's text. |
| Session.Session.OnJoined | realtime-editor/src/pages/EditorPage.js:49-65 | The roster becomes the merge of the old roster and the incoming list, and `SYNC_CODE {codeRef, socketId}` is sent. |
| Session.Session.OnDisconnected | realtime-editor/src/pages/EditorPage.js:77-80 | The roster loses the departed socket id and keeps unique ids. |
| Session.Session.Receive | realtime-editor/src/pages/EditorPage.js:49-80 | On a connected socket, an inbound message reaches exactly the listeners that are registered. On a disconnected socket nothing happens. The state follows `AfterReceive`. |
| Session.Session.Cleanup | realtime-editor/src/pages/EditorPage.js:90-97 | With a socket, the page disconnects and all listeners, the editor's included, are removed. Without a socket, nothing changes. |
| Session.NewcomerJoin | realtime-editor/src/pages/EditorPage.js:43-64 | The newcomer mounts: the editor's effect finds no socket, then `init` connects. After it hears its own `JOINED`, it has sent `JOIN` and one `SYNC_CODE` with its empty text, and it holds itself as the only client. The page listens and the editor does not. |
| Session.NewcomerSync | realtime-editor/src/pages/EditorPage.js:68-74 | After the newcomer receives the incumbents' text twice, `codeRef` and the `.editor` element hold it. The CodeMirror value stays empty, and nothing more is sent. |

## Left out

- React rendering and hooks: effects appear only through their order (`AfterMount`, `Rerun`), and each handler is atomic.
- `async`/`await` interleaving is not modelled. One case is a cleanup that runs while `init` still awaits `initSocket()`: it would find no socket, and `init` would then connect with nothing left to disconnect it. Interleaving across connections is not modelled either.
- Toast notifications, `reactNavigator`/`Navigate` redirects, `copyRoomId` and `leaveRoom` (these only navigate or use the clipboard), and the username comparison in the `JOINED` handler (it only chooses a notification).
- The socket.io transport: `initSocket` becomes the `connectOk` parameter, and `emit` appends to `outbox`. The `connect_error`/`connect_failed` handlers are left out because they only notify and redirect. The server, which relays `SYNC_CODE` and `CODE_CHANGE` between participants, is not part of this model, so properties spanning two participants are stated from one participant's side.
- `setEditorContent` writes the `.editor` DOM element only if that element exists. The model writes `pageText` unconditionally.
- `socket.emit` after the socket has been disconnected: the message is appended to `outbox`, although socket.io only buffers it, and the page never reconnects.
- The editor's first effect rebuilds the CodeMirror instance from its textarea. It re-runs when the room changes, and also when `onCodeChange` changes identity, which happens on every render of the page. The model keeps one editor whose value carries over each rebuild. `toTextArea` writes that value back to the textarea, so the rebuilt instance starts from it.
- An editor listener that waits for the socket to exist is not modelled. As written, the editor never receives remote code (see above). The model proves that behaviour and does not model a corrected wiring.
- A re-run whose dependencies have not changed: React would skip it, but `Rerun` always performs the page's cleanup and `init`.
- CodeMirror configuration and `toTextArea` teardown. The editor's own unmount cleanup (`Editor.js:61-63`) is covered only through the page cleanup, which removes every `CODE_CHANGE` listener.
- Listener order on `CODE_CHANGE`: the model calls the page's listener first and then the editor's. The two listeners touch disjoint fields, so the order does not change the result.
- React's deferred `setClients` updater is applied immediately.
