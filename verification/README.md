# Instance registry of the WhatsApp gateway, in Dafny

The gateway runs several WhatsApp sessions ("instances") side by side. Each
instance is identified by a caller-chosen id. An instance manager keeps three
things:

- a map from id to a runtime record `{ id, name, webhook, status, qr, info, socket | client }`;
- a session directory holding `meta-<id>.json` for each instance, plus
  authentication or session files;
- the webhook deliveries it has made.

The manager comes in three variants, and each is modelled in its own module
with its own vocabulary:

- `BaileysRegistry` models the Baileys-based `SessionManager` in
  `src/sessionManager.ts`:
  - The statuses are `initializing`, `qr`, `connected` and `disconnected`.
  - Addresses get the suffix `@s.whatsapp.net`.
  - `delete` removes `meta-<id>.json` and `auth-<id>.json`.
  - The instance records are objects (`class Instance`). Each socket's
    `connection.update` handler captured one of them, changes it in place and
    puts it back into the map on every update. The model keeps that aliasing
    in a `listeners` map from socket to captured instance, so a handler that
    fires after `delete` or after a newer start re-registers its stale
    instance, as the source does.
  - The handler's effect on an instance is the pure state machine `Step`.
    `Replay` runs it over a sequence of updates.
- `VenomRegistry` models `VenomManager` in `src/venomManager.js`:
  - Addresses get the suffix `@c.us`.
  - `delete` removes `meta-<id>.json` and `<id>`.
  - `create` refuses an empty id.
  - `list` is included.
- `VenomSessionRegistry` models the venom-based `SessionManager` in
  `src/sessionManager.js`:
  - Addresses get the suffix `@c.us`.
  - `delete` removes `meta-<id>.json`, `<id>.json` and `<id>`.
  - `_startInstance` first creates the folder `<id>`.
  - The send operations check only that the id is registered.
- `VenomEntries` holds what the two venom variants share:
  - the entry type;
  - the QR and status callbacks' effect on the registry. Each callback looks
    the id up, falls back to `{}`, sets fields and puts the entry back, so
    it can create a partial entry that has no client;
  - `ApplyAll`, which folds a sequence of callbacks.
- `Common` holds what all three share:
  - JavaScript `||` on optional strings (`Truthy`, `OrElse`, `OrNull`,
    `FirstTruthy`);
  - recipient-address normalisation (`ToAddress`);
  - the "post only if a webhook is set" decision (`Forward`);
  - the file names `meta-<id>.json` and `auth-<id>.json`, and the restore
    filter `IsMetaFileName`;
  - the directory model (`Directory`, `Without`, `ReadDir`).

Some foreign calls and nondeterministic inputs are turned into explicit
values or parameters:

- Sockets are allocated objects and venom clients are opaque `Handle`s.
- `venom.create` is modelled as two parts. The first is the sequence of
  callbacks it fires while pending. The second is its `Launch` outcome: a
  client, or the error it throws.
- Baileys connection updates are explicit method calls
  (`OnConnectionUpdate`, `OnCredsUpdate`, `OnMessagesUpsert`). So are venom
  callbacks (`OnQr`, `OnStatus`) and message handlers (`OnMessage`).
- `Date.now()` readings are parameters.
- The result of the Baileys media download is a parameter.
- What the Baileys adapter setup in `_startInstance` throws, if anything, is a
  parameter. That setup loads the credential file and opens the socket. `init`
  takes one such error per id.
- Webhook POSTs are appended to an `outbox` field.
- A call made on a socket or client is returned as an `Outgoing` value.
- A JavaScript `throw` is an `Err(message)`. That includes the engine's own
  message when a method is read off a missing client or socket.

## Model

| member | source | states |
|---|---|---|
| Common.FirstTruthy | src/venomManager.js:85 | the first truthy of the candidates, else null: the result is absent exactly when no candidate is truthy; otherwise it is a truthy candidate, namely the first truthy one |
| Common.OrElseStable | src/sessionManager.ts:94-95 | applying the `id` or null default twice gives the same value as once, which is why a restored instance keeps its name and webhook |
| Common.ToAddress | src/sessionManager.ts:146 | a recipient containing `@` is kept unchanged; otherwise the result is the recipient followed by the network suffix; the result always contains `@` |
| Common.ToAddressIdempotent | src/sessionManager.ts:154 | normalising an already normalised address changes nothing |
| Common.Forward | src/sessionManager.ts:162-170 | at most one delivery; a delivery is made exactly when the webhook is truthy, and it carries the webhook URL, the instance id and the event |
| Common.MetaFileNameRecognised | src/sessionManager.ts:34 | every `meta-<id>.json` written by the manager passes the restore filter |
| Common.MetaFileNameInjective | src/sessionManager.ts:53 | distinct ids never share a metadata file name |
| Common.AuthFileNameInjective | src/sessionManager.ts:71 | distinct ids never share an authentication file name |
| Common.MetaFileNameParsed | src/sessionManager.ts:34 | every name the `.json`/`meta-` filter accepts has at least ten characters and is `meta-<id>.json` for the id between prefix and suffix |
| Common.AuthFileNotRestored | src/sessionManager.ts:34 | an `auth-<id>.json` file never passes the restore filter |
| Common.Without | src/sessionManager.ts:71-75 | removing a list of names if present: a name survives exactly when it was there and is not listed, with its content unchanged |
| Common.WithoutIdempotent | src/sessionManager.ts:72-75 | removing the same names again changes nothing, so a repeated `delete` leaves the directory as the first one did |
| Common.ReadDir | src/sessionManager.ts:32 | the listing holds every directory entry and nothing else, each exactly once |
| BaileysRegistry.DisconnectReason | src/sessionManager.ts:121 | the first truthy of status code, message and `lastDisconnect`: a nonzero status code wins; otherwise a non-empty message; otherwise the raw `lastDisconnect` |
| BaileysRegistry.Step | src/sessionManager.ts:105-123 | `open` gives `connected` with no QR and info `{ user }`, even when the same update carried a QR; `close` gives `disconnected`; otherwise a truthy QR is stored with status `qr`, and info is kept unless the connection opens |
| BaileysRegistry.Emitted | src/sessionManager.ts:111-123 | an event is forwarded exactly for `open` (a `connected` event with the info) and `close` (a `disconnected` event with the reason) |
| BaileysRegistry.Notify | src/sessionManager.ts:116-122 | an update causes one delivery exactly when the instance's webhook is truthy and the update opens or closes the connection |
| BaileysRegistry.StepCoherent | src/sessionManager.ts:106-123 | each update keeps the pairing state coherent: a `qr` status holds a code, and a `connected` status holds no code but holds info |
| BaileysRegistry.ReplayCoherent | src/sessionManager.ts:104-125 | any sequence of updates from a coherent state, such as a fresh instance, stays coherent |
| BaileysRegistry.ConnectedNeedsOpen | src/sessionManager.ts:111-112 | an instance that was not `connected` becomes `connected` only if some update had `connection === 'open'` |
| BaileysRegistry.OpenLast | src/sessionManager.ts:106-117 | after any history, an `open` update leaves `connected`, no QR and the socket's user as info |
| BaileysRegistry.DeleteSparesOtherIds | src/sessionManager.ts:71-75 | the files `delete(a)` removes are neither the metadata nor the authentication file of any other id |
| BaileysRegistry.Instance.constructor | src/sessionManager.ts:92-101 | a new record has the given id, name, webhook and socket, with status `initializing`, no QR and no info |
| BaileysRegistry.SessionManager.constructor | src/sessionManager.ts:23-28 | a manager over an existing directory starts with no instances, no handlers and no deliveries |
| BaileysRegistry.SessionManager.StartInstance | src/sessionManager.ts:78-139 | if the adapter setup throws, the error is rethrown and nothing changes; otherwise there is a fresh socket and a fresh instance (name defaulting to the id, webhook to null, status `initializing`), whose handlers are registered for that socket alone; `meta-<id>.json` is rewritten without `createdAt`; only the id's entry changes; the answer is `{ id, status: initializing }` |
| BaileysRegistry.SessionManager.Create | src/sessionManager.ts:46-56 | writes the metadata file, then starts. A failed start is rethrown, leaves the metadata file with `createdAt`, and changes no instance or handler. A successful one maps the id to a fresh instance on a fresh socket, adds that socket's handlers (earlier sockets keep theirs), leaves the metadata file as `_startInstance` rewrote it, and answers `{ id, createdAt, info: { id, initializing } }` |
| BaileysRegistry.SessionManager.GetState | src/sessionManager.ts:58-60 | null exactly for an unregistered id; otherwise the stored instance, whose own id is the key |
| BaileysRegistry.SessionManager.Delete | src/sessionManager.ts:62-76 | the id leaves the registry; `meta-<id>.json` and `auth-<id>.json` leave the directory if present; nothing else changes; metadata stays filed under its own ids |
| BaileysRegistry.SessionManager.OnConnectionUpdate | src/sessionManager.ts:104-125 | the captured instance takes one `Step`; its event is forwarded if the webhook is set; the instance is put back under its id whatever the map held, including after `delete` |
| BaileysRegistry.SessionManager.OnCredsUpdate | src/sessionManager.ts:127 | saving credentials writes `auth-<id>.json` and changes nothing else |
| BaileysRegistry.SessionManager.OnMessagesUpsert | src/sessionManager.ts:129-132 | received messages are forwarded to the captured webhook, if set, and nothing else changes |
| BaileysRegistry.SessionManager.SendText | src/sessionManager.ts:141-149 | `Instance not found` exactly for an unknown id; `Socket not available` for a missing socket; otherwise a text message to the socket, addressed with `@s.whatsapp.net` unless the recipient contains `@` |
| BaileysRegistry.SessionManager.SendMediaByUrl | src/sessionManager.ts:151-160 | `Instance not found` for an unknown id, then the download's error; no socket check, so a missing socket fails on `sendMessage`; otherwise an image with the downloaded bytes and the caption defaulting to "" |
| BaileysRegistry.SessionManager.SendFailsOnlyForUnknownIds | src/sessionManager.ts:141-160 | in a consistent manager, sending fails exactly for unknown ids (and, for media, failed downloads) |
| BaileysRegistry.SessionManager.RestoreFile | src/sessionManager.ts:34-40 | one iteration of `init`: a `meta-*.json` entry holding metadata has its instance restarted, unless that restart throws; the file is left as `AfterRestore` says and every other file is unchanged; only the restarted id's instance changes, and instances restored before stay restored |
| BaileysRegistry.SessionManager.Init | src/sessionManager.ts:30-44 | lists the directory and restarts every `meta-*.json` entry that holds metadata, skipping other files and restarts that throw; handlers registered before are kept. When each metadata file is named after its own id: every instance whose restart succeeds is registered with its stored name and webhook; every other registered instance is kept as it was; the only new ids are restored ones; each file ends as `AfterRestore` says |
| BaileysRegistry.RestartRestores | src/sessionManager.ts:30-56 | round trip: an instance created on one manager is restored, with the same name and webhook and status `initializing`, by `init` on a new manager over the same directory, provided neither start throws |
| VenomEntries.WithQr | src/venomManager.js:87-90 | the QR callback sets `qr` and status `qr` on the id's entry, creating a bare one without client if absent; other ids are untouched |
| VenomEntries.WithStatus | src/venomManager.js:95-97 | the status callback overwrites only `status`, creating a bare entry if absent; other ids are untouched |
| VenomEntries.ApplyAllFrame | src/venomManager.js:81-98 | callbacks touch only their own id and keep registered entries filed under their ids, so the final registration overwrites everything they did |
| VenomEntries.ApplyAllQr | src/venomManager.js:85-90 | once any QR callback fired, the entry's `qr` equals the last QR the start closure captured |
| VenomRegistry.QrOf | src/venomManager.js:85 | the QR value is `base64Qr`, else `asciiQR`, else `urlCode` (first truthy), else null |
| VenomRegistry.DeleteReachesOtherMeta | src/venomManager.js:58 | `delete(a)` removes another id `b`'s metadata file exactly when `a` is spelled `meta-<b>.json` |
| VenomRegistry.VenomManager.constructor | src/venomManager.js:7-11 | a manager over an existing directory starts with no instances |
| VenomRegistry.VenomManager.Create | src/venomManager.js:30-36 | an empty id gives `missing id` with nothing changed; otherwise the metadata file is written with `createdAt` and the start's outcome is returned or rethrown; for each outcome the registry, the directory and the message handlers are stated, so a launched client's handler is subscribed |
| VenomRegistry.VenomManager.List | src/venomManager.js:38-44 | exactly one `{ id, status, name, webhook }` summary per registered id, matching the entry, with no id repeated |
| VenomRegistry.VenomManager.Get | src/venomManager.js:46-48 | null exactly for an unregistered id; otherwise the stored entry |
| VenomRegistry.VenomManager.Delete | src/venomManager.js:50-65 | answers true; the id leaves the registry; `meta-<id>.json` and `<id>` leave the directory if present; nothing else changes |
| VenomRegistry.VenomManager.OnQr | src/venomManager.js:83-91 | the QR callback computes `QrOf` and applies `WithQr`, returning the value the closure keeps as `lastQr` |
| VenomRegistry.VenomManager.OnStatus | src/venomManager.js:92-98 | the status callback applies `WithStatus` and changes nothing else |
| VenomRegistry.VenomManager.FireCallbacks | src/venomManager.js:81-105 | the registry after the callbacks is their fold `ApplyAll`, and `lastQr` is the last QR value of the sequence |
| VenomRegistry.VenomManager.StartInstance | src/venomManager.js:67-142 | an entry with a client is answered with its status and nothing changes; a failed launch rethrows, keeping the callbacks' entries; a successful one registers `connected` with the last QR and the connection state, subscribes the message handler and rewrites the metadata file |
| VenomRegistry.VenomManager.OnMessage | src/venomManager.js:128-135 | a received message is forwarded to the captured webhook, if set, and nothing else changes |
| VenomRegistry.VenomManager.SendText | src/venomManager.js:144-150 | fails with `instance not found or not connected` exactly when the entry is absent or has no client; otherwise a text to the client, addressed with `@c.us` unless the recipient contains `@` |
| VenomRegistry.VenomManager.SendMediaByUrl | src/venomManager.js:152-158 | the same guard and address; the client sends the URL with an empty file name and the caption defaulting to "" |
| VenomSessionRegistry.QrOf | src/sessionManager.js:67 | the QR value is `base64Qr`, else `asciiQR` (first truthy), else null; the URL code is ignored |
| VenomSessionRegistry.WithSessionFolder | src/sessionManager.js:56-57 | the folder `<id>` exists afterwards and every other entry is unchanged |
| VenomSessionRegistry.DeleteReachesOtherMeta | src/sessionManager.js:46 | `delete(a)` removes another id `b`'s metadata file exactly when `a` is `meta-<b>` (through `<a>.json`) or `meta-<b>.json` (through `<a>`) |
| VenomSessionRegistry.SessionManager.constructor | src/sessionManager.js:8-12 | a manager over an existing directory starts with no instances |
| VenomSessionRegistry.SessionManager.Create | src/sessionManager.js:29-34 | no id check; the metadata file is written with `createdAt`, then the start's outcome is returned or rethrown; for each outcome the registry, the directory and the message handlers are stated, so a launched client's handler is subscribed |
| VenomSessionRegistry.SessionManager.GetState | src/sessionManager.js:36-38 | null exactly for an unregistered id; otherwise the stored entry |
| VenomSessionRegistry.SessionManager.Delete | src/sessionManager.js:40-53 | the id leaves the registry; `meta-<id>.json`, `<id>.json` and `<id>` leave the directory if present; nothing else changes |
| VenomSessionRegistry.SessionManager.OnQr | src/sessionManager.js:65-71 | the QR callback computes `QrOf` and applies `WithQr`, returning the value kept in `qrs.last` |
| VenomSessionRegistry.SessionManager.OnStatus | src/sessionManager.js:72-76 | the status callback applies `WithStatus` and changes nothing else |
| VenomSessionRegistry.SessionManager.FireCallbacks | src/sessionManager.js:64-89 | the registry after the callbacks is their fold `ApplyAll`, and `qrs.last` is the last QR value of the sequence |
| VenomSessionRegistry.SessionManager.StartInstance | src/sessionManager.js:55-117 | the session folder is made first; an entry with a client is answered with its status; a failed launch rethrows, keeping the callbacks' entries; a successful one registers `connected` with the last QR and null info, subscribes the handler and rewrites the metadata file with `createdAt` |
| VenomSessionRegistry.SessionManager.OnMessage | src/sessionManager.js:102-109 | a received message is forwarded to the captured webhook, if set, and nothing else changes |
| VenomSessionRegistry.SessionManager.SendText | src/sessionManager.js:119-125 | `Instance not found` exactly for an unknown id; an entry without a client fails on `sendText`; otherwise a text to the client, addressed with `@c.us` unless the recipient contains `@` |
| VenomSessionRegistry.SessionManager.SendMediaByUrl | src/sessionManager.js:127-133 | `Instance not found` exactly for an unknown id; an entry without a client fails on `sendFileFromUrl`; otherwise the URL, an empty file name and the caption defaulting to "" |

## Left out

- The messaging libraries (Baileys, venom-bot) are not modelled: what the managers do with their sockets and clients is the call they make, returned as a value.
  - `logout`/`end`/`close` in `delete` are adapter calls outside the model.
  - What `useSingleFileAuthState` and `makeWASocket` do is not modelled; only whether they throw, and with what error, is. `fetchLatestBaileysVersion` is not modelled, because its failure is caught and replaced by a fixed version.
  - The credential file appears only through `OnCredsUpdate`.
- Network I/O is not modelled.
  - A webhook POST is recorded in `outbox`; its failure is swallowed by the source and is not modelled.
  - The Baileys media download is a `Result<Bytes>` parameter.
- File-system I/O is not modelled.
  - The directory is a map from names to contents.
  - JSON (de)serialisation is not modelled: a metadata file either holds parsed metadata or is `Opaque`, and the latter is skipped by `init`.
  - Write and remove failures are not modelled.
  - `path.join` normalisation is not modelled. In the venom variants, for example, `delete('')` names the storage directory itself.
  - The `authFile` field stored by the Baileys `create` is not modelled.
- `async` interleavings are not modelled: every operation and every event is one atomic step, and callbacks fired during `venom.create` are taken to run before it settles.
- JavaScript `null` and `undefined` are both `None`.
- The Baileys disconnect reason reads `error.output.statusCode`; the model flattens this to `error.statusCode`.
- Status codes that are not integers are not modelled.
- `Date.now()` readings are parameters.
- Logging is not modelled.
- `storagePath`/`webhookBase` resolution in the constructors is not modelled.
- `VenomManager` keeps a local `status` variable (src/venomManager.js:75). Each callback sets it and at once copies it into the entry (:86-89, :94-96), and the final record uses `'connected'` rather than it (:116). The model writes the value into the entry directly and does not keep the variable.
- `VenomManager.init` and the venom `SessionManager.init` are not modelled; only the Baileys `init` is. In the venom variants, restoring depends on one adapter outcome per file.
- The objects returned by `getState`/`get` are aliased by callers in the source; the model's venom entries are values, so a caller mutating a returned entry is not modelled.
- The socket's `user` is passed with each connection update rather than read from the socket.
- VenomRegistry.VenomManager.List: states the summaries and that each id appears once, but not their order; JavaScript yields insertion order, which the model's map does not keep.
- Common.ReadDir: the order of the listing is left open, as `readdirSync` does not promise one.
- BaileysRegistry.SessionManager.Init: the restore guarantee, the frame on other instances and the final directory are stated only for directories where every metadata file is named after the id it holds. For other directories the model states only that no instance, handler or file is lost. The handlers `init` adds for restored sockets are described by `StartInstance`, and `Init` does not restate them.
