/**
 * The Baileys-based `SessionManager` (src/sessionManager.ts).
 *
 * The manager owns a map from instance id to an instance object, the
 * session directory with one `meta-<id>.json` (and, once the adapter has
 * saved credentials, one `auth-<id>.json`) per instance, and the outbox of
 * webhook deliveries. Each started instance gets its own socket whose
 * `connection.update` handler captured that instance object: the handler
 * changes the object in place and then puts it back into the map under its
 * id, whatever the map held before.
 */
module BaileysRegistry {
  import opened Common

  // ---------------------------------------------------------------------------
  // The pairing state machine of one instance
  // ---------------------------------------------------------------------------

  datatype Status = Initializing | Qr | Connected | Disconnected

  /** The `connection` field of a Baileys connection update. */
  datatype Connection = Open | Connecting | Close

  datatype DisconnectError = DisconnectError(statusCode: Option<int>, message: Option<string>)

  /** The `lastDisconnect` field of a connection update. */
  datatype LastDisconnect = LastDisconnect(error: Option<DisconnectError>)

  /** The `reason` sent with a `disconnected` event. */
  datatype Reason =
    | ReasonCode(code: int)
    | ReasonText(text: string)
    | ReasonRaw(lastDisconnect: Option<LastDisconnect>)

  /** What `connected` caches: `{ user: sock.user }`. */
  datatype ConnInfo = ConnInfo(user: Option<string>)

  /**
   * One `connection.update` event, together with the socket's `user` at the
   * moment the event arrives (read by the handler when the connection opens).
   */
  datatype Update = Update(
    connection: Option<Connection>,
    lastDisconnect: Option<LastDisconnect>,
    qr: Option<string>,
    socketUser: Option<string>)

  /** The webhook events of this manager. */
  datatype Event =
    | ConnectedEvent(info: ConnInfo)
    | DisconnectedEvent(reason: Reason)
    | MessageEvent(messages: string)

  /** The part of an instance that the connection handler changes. */
  datatype Pairing = Pairing(status: Status, qr: Option<string>, info: Option<ConnInfo>)

  const Fresh: Pairing := Pairing(Initializing, None, None)

  /**
   * `statusCode || message || lastDisconnect`: the first truthy of the
   * error's status code and message, else the raw `lastDisconnect`.
   */
  function DisconnectReason(ld: Option<LastDisconnect>): (r: Reason)
    ensures r.ReasonCode? <==>
      ld.Some? && ld.value.error.Some? && ld.value.error.value.statusCode.Some? && ld.value.error.value.statusCode.value != 0
    ensures r.ReasonCode? ==> r.code == ld.value.error.value.statusCode.value
    ensures r.ReasonText? ==> r.text != "" && ld.Some? && ld.value.error.Some? && ld.value.error.value.message == Some(r.text)
    ensures r.ReasonRaw? ==> r.lastDisconnect == ld && (ld.Some? && ld.value.error.Some? ==> !Truthy(ld.value.error.value.message))
  {
    match ld
    case Some(LastDisconnect(Some(DisconnectError(code, message)))) =>
      if code.Some? && code.value != 0 then ReasonCode(code.value)
      else if Truthy(message) then ReasonText(message.value)
      else ReasonRaw(ld)
    case _ => ReasonRaw(ld)
  }

  /**
   * The handler's effect on the instance: a truthy `qr` is stored and moves
   * the status to `qr`; then `open` moves it to `connected`, clears the QR
   * and caches the connection info (so `open` wins over a `qr` carried by the
   * same update); `close` moves it to `disconnected`.
   */
  function Step(p: Pairing, u: Update): (q: Pairing)
    ensures u.connection == Some(Open) ==> q == Pairing(Connected, None, Some(ConnInfo(u.socketUser)))
    ensures u.connection == Some(Close) ==> q.status == Disconnected
    ensures u.connection != Some(Open) ==> q.info == p.info && q.qr == (if Truthy(u.qr) then u.qr else p.qr)
    ensures u.connection.None? || u.connection == Some(Connecting) ==>
      q.status == (if Truthy(u.qr) then Qr else p.status)
  {
    var p' := if Truthy(u.qr) then p.(status := Qr, qr := u.qr) else p;
    if u.connection == Some(Open) then
      p'.(status := Connected, qr := None, info := Some(ConnInfo(u.socketUser)))
    else if u.connection == Some(Close) then
      p'.(status := Disconnected)
    else
      p'
  }

  /** The event the handler forwards for an update, if any. */
  function Emitted(u: Update): (e: Option<Event>)
    ensures e.Some? <==> u.connection == Some(Open) || u.connection == Some(Close)
    ensures u.connection == Some(Open) ==> e == Some(ConnectedEvent(ConnInfo(u.socketUser)))
    ensures u.connection == Some(Close) ==> e == Some(DisconnectedEvent(DisconnectReason(u.lastDisconnect)))
  {
    match u.connection
    case Some(Open) => Some(ConnectedEvent(ConnInfo(u.socketUser)))
    case Some(Close) => Some(DisconnectedEvent(DisconnectReason(u.lastDisconnect)))
    case _ => None
  }

  /** The deliveries caused by an update of the instance `id` with webhook `webhook`. */
  function Notify(webhook: Option<string>, id: string, u: Update): (out: seq<Delivery<Event>>)
    ensures |out| <= 1
    ensures out != [] <==> Truthy(webhook) && Emitted(u).Some?
    ensures forall d :: d in out ==> d.url == webhook.value && d.instanceId == id && Some(d.event) == Emitted(u)
  {
    match Emitted(u)
    case None => []
    case Some(e) => Forward(webhook, id, e)
  }

  /**
   * The pairing states the handler can produce from a fresh instance: a
   * `qr` status always holds a code, and a `connected` one holds no code
   * and the cached connection info.
   */
  predicate Coherent(p: Pairing)
  {
    && (p.status == Initializing ==> p.qr.None? && p.info.None?)
    && (p.status == Qr ==> Truthy(p.qr))
    && (p.status == Connected ==> p.qr.None? && p.info.Some?)
  }

  /** The pairing state after a sequence of updates, in delivery order. */
  function Replay(p: Pairing, us: seq<Update>): Pairing
    decreases |us|
  {
    if us == [] then p else Replay(Step(p, us[0]), us[1..])
  }

  /** Each update keeps the pairing state coherent. */
  lemma StepCoherent(p: Pairing, u: Update)
    requires Coherent(p)
    ensures Coherent(Step(p, u))
  {
  }

  /** Any sequence of updates keeps the pairing state coherent. */
  lemma {:induction false} ReplayCoherent(p: Pairing, us: seq<Update>)
    requires Coherent(p)
    ensures Coherent(Replay(p, us))
    decreases |us|
  {
    if us != [] {
      StepCoherent(p, us[0]);
      ReplayCoherent(Step(p, us[0]), us[1..]);
    }
  }

  /**
   * An instance is never seen `connected` unless an `open` update arrived:
   * starting from any state that is not `connected`, a replay ending in
   * `connected` contains an update with `connection === 'open'`.
   */
  lemma {:induction false} ConnectedNeedsOpen(p: Pairing, us: seq<Update>)
    requires p.status != Connected
    requires Replay(p, us).status == Connected
    ensures exists i :: 0 <= i < |us| && us[i].connection == Some(Open)
    decreases |us|
  {
    assert us != [];
    if us[0].connection == Some(Open) {
    } else {
      var p' := Step(p, us[0]);
      assert p'.status != Connected;
      ConnectedNeedsOpen(p', us[1..]);
      var i :| 0 <= i < |us[1..]| && us[1..][i].connection == Some(Open);
      assert us[i + 1].connection == Some(Open);
    }
  }

  /** The last update decides `connected`: an `open` update leaves no QR behind. */
  lemma {:induction false} OpenLast(p: Pairing, us: seq<Update>, u: Update)
    requires u.connection == Some(Open)
    ensures Replay(p, us + [u]) == Pairing(Connected, None, Some(ConnInfo(u.socketUser)))
    decreases |us|
  {
    if us == [] {
      assert us + [u] == [u];
      assert Replay(p, [u]) == Replay(Step(p, u), []);
    } else {
      assert (us + [u])[1..] == us[1..] + [u];
      OpenLast(Step(p, us[0]), us[1..], u);
    }
  }

  // ---------------------------------------------------------------------------
  // Runtime objects
  // ---------------------------------------------------------------------------

  /** A Baileys socket, opaque to the manager; `makeWASocket` allocates a new one. */
  class Socket {
    constructor ()
    {
    }
  }

  /**
   * The runtime record `{ id, name, webhook, socket, status, qr, info }` that
   * `_startInstance` builds and the socket's handler captures.
   */
  class Instance {
    const id: string
    const name: string
    const webhook: Option<string>
    const socket: Socket?
    var status: Status
    var qr: Option<string>
    var info: Option<ConnInfo>

    constructor (id: string, name: string, webhook: Option<string>, socket: Socket?)
      ensures this.id == id && this.name == name && this.webhook == webhook && this.socket == socket
      ensures View() == Fresh
    {
      this.id := id;
      this.name := name;
      this.webhook := webhook;
      this.socket := socket;
      status := Initializing;
      qr := None;
      info := None;
    }

    function View(): Pairing
      reads this
    {
      Pairing(status, qr, info)
    }
  }

  /** The files `delete` removes: `meta-<id>.json` and `auth-<id>.json`. */
  function DeletedNames(id: string): seq<string>
  {
    [MetaFileName(id), AuthFileName(id)]
  }

  /**
   * Deleting one id never removes a file of another id: the names `delete`
   * removes for `a` are neither the metadata nor the authentication file of
   * any `b != a`.
   */
  lemma {:induction false} DeleteSparesOtherIds(a: string, b: string)
    requires a != b
    ensures MetaFileName(b) !in DeletedNames(a) && AuthFileName(b) !in DeletedNames(a)
  {
    MetaFileNameInjective(a, b);
    AuthFileNameInjective(a, b);
    assert MetaFileName(b)[0] != AuthFileName(a)[0];
    assert AuthFileName(b)[0] != MetaFileName(a)[0];
  }

  /** What `_startInstance` returns: `{ id, status }`. */
  datatype StartInfo = StartInfo(id: string, status: Status)

  /** What `create` returns: `{ id, createdAt, info }`. */
  datatype Created = Created(id: string, createdAt: int, info: StartInfo)

  /** The message a send operation hands to the socket. */
  datatype Outgoing =
    | TextMessage(socket: Socket, jid: string, text: string)
    | ImageMessage(socket: Socket, jid: string, image: Bytes, caption: string)

  const InstanceNotFound: string := "Instance not found"
  const SocketNotAvailable: string := "Socket not available"
  /** What the engine throws when `inst.socket.sendMessage` is read off a null socket. */
  const NullSocket: string := "Cannot read properties of null (reading 'sendMessage')"

  /**
   * Every metadata file sits under the name its own id gives it; the
   * manager's writes keep this, and restoring relies on it.
   */
  ghost predicate MetaConsistent(files: Directory)
  {
    forall f :: f in files && files[f].MetaFile? ==> f == MetaFileName(files[f].meta.id)
  }

  /**
   * `init` restarts `id`: its metadata file is present and parses, and its
   * adapter setup does not throw (`setupErrors` maps each id whose setup
   * throws to the error).
   */
  predicate Restorable(files: Directory, setupErrors: map<string, string>, id: string)
  {
    MetaFileName(id) in files && files[MetaFileName(id)].MetaFile? && id !in setupErrors
  }

  /**
   * What `init` leaves in the file `f`: a metadata file whose instance
   * restarts is rewritten by `_startInstance` (without `createdAt`); every
   * other file stays as it was.
   */
  function AfterRestore(files: Directory, setupErrors: map<string, string>, f: string): FileContent
    requires f in files
  {
    if IsMetaFileName(f) && files[f].MetaFile? && files[f].meta.id !in setupErrors then
      var m := files[f].meta;
      MetaFile(StoredMeta(m.id, OrElse(Some(m.name), m.id), OrNull(m.webhook), None))
    else
      files[f]
  }

  class SessionManager {
    /** `instances`: id to the instance object most recently put there. */
    var instances: map<string, Instance>
    /** The session directory. */
    var files: Directory
    /** The sockets created so far, each with the instance its handlers captured. */
    var listeners: map<Socket, Instance>
    /** The webhook deliveries dispatched so far. */
    var outbox: seq<Delivery<Event>>

    /**
     * Every registered instance is filed under its own id and owns a socket
     * whose handlers captured it.
     */
    ghost predicate Valid()
      reads this
    {
      && (forall k :: k in instances ==>
            instances[k].id == k && instances[k].socket != null &&
            instances[k].socket in listeners && listeners[instances[k].socket] == instances[k])
      && (forall s :: s in listeners ==> listeners[s].socket == s)
    }

    /** A manager over an existing session directory, with nothing started yet. */
    constructor (dir: Directory)
      ensures Valid()
      ensures instances == map[] && files == dir && listeners == map[] && outbox == []
    {
      instances := map[];
      files := dir;
      listeners := map[];
      outbox := [];
    }

    /**
     * `_startInstance`: the adapter is set up first (loading the credential
     * file, opening the socket); `setupError` is what that setup throws, if
     * anything, and then nothing has changed. Otherwise a new socket and a
     * fresh instance (status `initializing`, name defaulting to the id,
     * webhook to null), the socket's handlers capturing the instance, the
     * metadata file rewritten, and the id mapped to the new instance.
     */
    method StartInstance(id: string, opts: Options, setupError: Option<string>) returns (r: Result<StartInfo>)
      requires Valid()
      modifies this
      ensures Valid()
      ensures setupError.Some? ==>
        r == Err(setupError.value) &&
        instances == old(instances) && files == old(files) && listeners == old(listeners)
      ensures setupError.None? ==>
        && r == Ok(StartInfo(id, Initializing))
        && id in instances && fresh(instances[id]) && fresh(instances[id].socket)
        && instances == old(instances)[id := instances[id]]
        && instances[id].name == OrElse(opts.name, id) && instances[id].webhook == OrNull(opts.webhook)
        && instances[id].View() == Fresh
        && listeners == old(listeners)[instances[id].socket := instances[id]]
        && files == old(files)[MetaFileName(id) := MetaFile(StoredMeta(id, OrElse(opts.name, id), OrNull(opts.webhook), None))]
      ensures MetaConsistent(old(files)) ==> MetaConsistent(files)
      ensures outbox == old(outbox)
    {
      if setupError.Some? {
        return Err(setupError.value);
      }
      var sock := new Socket();
      var inst := new Instance(id, OrElse(opts.name, id), OrNull(opts.webhook), sock);
      listeners := listeners[sock := inst];
      files := files[MetaFileName(id) := MetaFile(StoredMeta(id, inst.name, inst.webhook, None))];
      instances := instances[id := inst];
      r := Ok(StartInfo(id, inst.status));
    }

    /**
     * `create`: writes the metadata file (with `createdAt`), then starts the
     * instance. A failed start is rethrown and leaves that file behind; a
     * successful one rewrites it without `createdAt`.
     */
    method Create(id: string, opts: Options, now: int, setupError: Option<string>) returns (r: Result<Created>)
      requires Valid()
      modifies this
      ensures Valid()
      ensures setupError.Some? ==>
        r == Err(setupError.value) &&
        instances == old(instances) && listeners == old(listeners) &&
        files == old(files)[MetaFileName(id) := MetaFile(StoredMeta(id, OrElse(opts.name, id), OrNull(opts.webhook), Some(now)))]
      ensures setupError.None? ==>
        && r == Ok(Created(id, now, StartInfo(id, Initializing)))
        && id in instances && fresh(instances[id]) && fresh(instances[id].socket)
        && instances == old(instances)[id := instances[id]]
        && instances[id].name == OrElse(opts.name, id) && instances[id].webhook == OrNull(opts.webhook)
        && instances[id].View() == Fresh
        && listeners == old(listeners)[instances[id].socket := instances[id]]
        && files == old(files)[MetaFileName(id) := MetaFile(StoredMeta(id, OrElse(opts.name, id), OrNull(opts.webhook), None))]
      ensures MetaConsistent(old(files)) ==> MetaConsistent(files)
      ensures outbox == old(outbox)
    {
      files := files[MetaFileName(id) := MetaFile(StoredMeta(id, OrElse(opts.name, id), OrNull(opts.webhook), Some(now)))];
      var started := StartInstance(id, opts, setupError);
      match started
      case Ok(info) => r := Ok(Created(id, now, info));
      case Err(msg) => r := Err(msg);
    }

    /** `getState`: the registered instance, or null. */
    function GetState(id: string): (r: Option<Instance>)
      reads this
      ensures r.None? <==> id !in instances
      ensures r.Some? ==> r.value == instances[id]
      ensures Valid() && r.Some? ==> r.value.id == id
    {
      if id in instances then Some(instances[id]) else None
    }

    /**
     * `delete`: the id leaves the registry and its metadata and
     * authentication files leave the directory; nothing else changes.
     */
    method Delete(id: string)
      requires Valid()
      modifies this
      ensures Valid()
      ensures instances == old(instances) - {id}
      ensures files == Without(old(files), DeletedNames(id))
      ensures MetaConsistent(old(files)) ==> MetaConsistent(files)
      ensures listeners == old(listeners) && outbox == old(outbox)
    {
      // logging out and ending the socket are adapter calls, outside the model
      instances := instances - {id};
      var names := DeletedNames(id);
      for i := 0 to |names|
        invariant files == Without(old(files), names[..i])
        invariant instances == old(instances) - {id}
        invariant listeners == old(listeners) && outbox == old(outbox)
      {
        if names[i] in files {
          files := files - {names[i]};
        }
        assert names[..i + 1] == names[..i] + [names[i]];
      }
      assert names[..|names|] == names;
    }

    /**
     * The socket's `connection.update` handler: the captured instance takes
     * the step of the state machine, the event (if any) is forwarded, and
     * the instance is put back into the map under its id, even after a
     * `delete` or a newer start of the same id.
     */
    method OnConnectionUpdate(sock: Socket, u: Update)
      requires Valid() && sock in listeners
      modifies this, listeners[sock]
      ensures Valid()
      ensures listeners == old(listeners) && files == old(files)
      ensures listeners[sock].View() == Step(old(listeners[sock].View()), u)
      ensures instances == old(instances)[listeners[sock].id := listeners[sock]]
      ensures outbox == old(outbox) + Notify(listeners[sock].webhook, listeners[sock].id, u)
    {
      var inst := listeners[sock];
      if Truthy(u.qr) {
        inst.qr := u.qr;
        inst.status := Qr;
      }
      if u.connection == Some(Open) {
        inst.status := Connected;
        inst.qr := None;
        inst.info := Some(ConnInfo(u.socketUser));
        outbox := outbox + Forward(inst.webhook, inst.id, ConnectedEvent(ConnInfo(u.socketUser)));
      }
      if u.connection == Some(Close) {
        inst.status := Disconnected;
        outbox := outbox + Forward(inst.webhook, inst.id, DisconnectedEvent(DisconnectReason(u.lastDisconnect)));
      }
      instances := instances[inst.id := inst];
    }

    /** The socket's `creds.update` handler: the adapter saves the credentials to `auth-<id>.json`. */
    method OnCredsUpdate(sock: Socket)
      requires Valid() && sock in listeners
      modifies this
      ensures Valid()
      ensures instances == old(instances) && listeners == old(listeners) && outbox == old(outbox)
      ensures files == old(files)[AuthFileName(listeners[sock].id) := Opaque]
      ensures MetaConsistent(old(files)) ==> MetaConsistent(files)
    {
      files := files[AuthFileName(listeners[sock].id) := Opaque];
    }

    /** The socket's `messages.upsert` handler: the messages are forwarded. */
    method OnMessagesUpsert(sock: Socket, messages: string)
      requires Valid() && sock in listeners
      modifies this
      ensures Valid()
      ensures instances == old(instances) && listeners == old(listeners) && files == old(files)
      ensures outbox == old(outbox) + Forward(listeners[sock].webhook, listeners[sock].id, MessageEvent(messages))
    {
      var inst := listeners[sock];
      outbox := outbox + Forward(inst.webhook, inst.id, MessageEvent(messages));
    }

    /**
     * `sendText`: fails for an unknown id or a missing socket; otherwise the
     * text goes to the socket, addressed to the normalised recipient.
     */
    function SendText(id: string, to: string, text: string): (r: Result<Outgoing>)
      reads this
      ensures id !in instances ==> r == Err(InstanceNotFound)
      ensures id in instances && instances[id].socket == null ==> r == Err(SocketNotAvailable)
      ensures r.Ok? <==> id in instances && instances[id].socket != null
      ensures r.Ok? ==> r.value.TextMessage? && r.value.socket == instances[id].socket && r.value.text == text
      ensures r.Ok? ==> r.value.jid == ToAddress(to, UserSuffix) && '@' in r.value.jid
    {
      if id !in instances then Err(InstanceNotFound)
      else
        var inst := instances[id];
        if inst.socket == null then Err(SocketNotAvailable)
        else Ok(TextMessage(inst.socket, ToAddress(to, UserSuffix), text))
    }

    /**
     * `sendMediaByUrl`: fails for an unknown id; otherwise the URL is fetched
     * (`download` is the fetch's outcome, whose failure propagates) and the
     * image goes to the socket with the caption defaulting to "". There is
     * no socket check: a missing socket fails when `sendMessage` is read.
     */
    function SendMediaByUrl(id: string, to: string, download: Result<Bytes>, caption: Option<string>): (r: Result<Outgoing>)
      reads this
      ensures id !in instances ==> r == Err(InstanceNotFound)
      ensures id in instances && download.Err? ==> r == Err(download.message)
      ensures r.Ok? <==> id in instances && download.Ok? && instances[id].socket != null
      ensures r.Ok? ==> r.value == ImageMessage(instances[id].socket, ToAddress(to, UserSuffix), download.value, OrElse(caption, ""))
    {
      if id !in instances then Err(InstanceNotFound)
      else
        var inst := instances[id];
        var jid := ToAddress(to, UserSuffix);
        match download
        case Err(msg) => Err(msg)
        case Ok(bytes) =>
          if inst.socket == null then Err(NullSocket)
          else Ok(ImageMessage(inst.socket, jid, bytes, OrElse(caption, "")))
    }

    /**
     * In a valid manager every registered instance has a socket, so sending
     * fails exactly for unknown ids (and, for media, failed downloads).
     */
    lemma SendFailsOnlyForUnknownIds(id: string, to: string, text: string, download: Result<Bytes>, caption: Option<string>)
      requires Valid()
      ensures SendText(id, to, text).Err? <==> id !in instances
      ensures SendMediaByUrl(id, to, download, caption).Err? <==> id !in instances || download.Err?
    {
    }

    /** The instance of metadata `m` is registered as restored from it. */
    ghost predicate Restored(m: StoredMeta)
      reads this, instances.Values
    {
      m.id in instances &&
      instances[m.id].name == OrElse(Some(m.name), m.id) &&
      instances[m.id].webhook == OrNull(m.webhook) &&
      instances[m.id].View() == Fresh
    }

    /**
     * One iteration of `init` over the file `f` of the directory as it was
     * listed (`files0`): a file that passes the `meta-*.json` filter and
     * parses as metadata has its instance restarted; any other file, or a
     * restart that throws, changes nothing.
     */
    method RestoreFile(f: string, setupErrors: map<string, string>, ghost files0: Directory)
      requires Valid() && f in files
      requires MetaConsistent(files0) ==> MetaConsistent(files) && f in files0 && files[f] == files0[f]
      modifies this
      ensures Valid()
      ensures forall k :: k in old(instances) ==> k in instances
      ensures forall s :: s in old(listeners) ==> s in listeners && listeners[s] == old(listeners)[s]
      ensures old(files).Keys <= files.Keys
      ensures outbox == old(outbox)
      ensures MetaConsistent(files0) ==>
        && MetaConsistent(files) && files.Keys == old(files).Keys
        && files[f] == AfterRestore(files0, setupErrors, f)
        && forall g :: g in old(files) && g != f ==> files[g] == old(files)[g]
      ensures MetaConsistent(files0) ==>
        forall k :: k in old(instances) && !Restorable(files0, setupErrors, k) ==> instances[k] == old(instances)[k]
      ensures MetaConsistent(files0) ==>
        forall k :: k in instances ==> k in old(instances) || Restorable(files0, setupErrors, k)
      ensures MetaConsistent(files0) && IsMetaFileName(f) && files0[f].MetaFile? && files0[f].meta.id !in setupErrors ==>
        Restored(files0[f].meta)
      ensures MetaConsistent(files0) ==>
        forall g :: g in files0 && g != f && files0[g].MetaFile? && old(Restored(files0[g].meta)) ==> Restored(files0[g].meta)
    {
      if IsMetaFileName(f) && files[f].MetaFile? {
        var m := files[f].meta;
        var setupError := if m.id in setupErrors then Some(setupErrors[m.id]) else None;
        var _ := StartInstance(m.id, Options(Some(m.name), m.webhook), setupError);
        if MetaConsistent(files0) {
          forall g | g in files0 && g != f && files0[g].MetaFile?
            ensures files0[g].meta.id != m.id
          {
            MetaFileNameInjective(files0[g].meta.id, m.id);
          }
        }
      }
    }

    /**
     * `init`: lists the directory and restarts the instance of every file
     * that passes the `meta-*.json` filter and parses as metadata; other
     * files are skipped, and so is a file whose restart throws (the error is
     * only logged). Handlers registered before stay registered. When each
     * metadata file is named after the id it holds, every instance whose
     * restart succeeds comes back with the stored name and webhook, every
     * other registered instance is kept as it was, and the directory differs
     * only in the rewritten metadata files.
     */
    method Init(setupErrors: map<string, string>)
      requires Valid()
      modifies this
      ensures Valid()
      ensures forall k :: k in old(instances) ==> k in instances
      ensures forall s :: s in old(listeners) ==> s in listeners && listeners[s] == old(listeners)[s]
      ensures old(files).Keys <= files.Keys
      ensures MetaConsistent(old(files)) ==> MetaConsistent(files)
      ensures outbox == old(outbox)
      ensures MetaConsistent(old(files)) ==>
        forall f :: f in old(files) && IsMetaFileName(f) && old(files)[f].MetaFile? && old(files)[f].meta.id !in setupErrors ==>
          Restored(old(files)[f].meta)
      ensures MetaConsistent(old(files)) ==>
        forall k :: k in old(instances) && !Restorable(old(files), setupErrors, k) ==> instances[k] == old(instances)[k]
      ensures MetaConsistent(old(files)) ==>
        forall k :: k in instances ==> k in old(instances) || Restorable(old(files), setupErrors, k)
      ensures MetaConsistent(old(files)) ==>
        files.Keys == old(files).Keys && forall f :: f in old(files) ==> files[f] == AfterRestore(old(files), setupErrors, f)
    {
      ghost var files0 := files;
      var listing := ReadDir(files);
      for i := 0 to |listing|
        invariant Valid()
        invariant forall k :: k in old(instances) ==> k in instances
        invariant forall s :: s in old(listeners) ==> s in listeners && listeners[s] == old(listeners)[s]
        invariant files0.Keys <= files.Keys
        invariant outbox == old(outbox)
        invariant MetaConsistent(files0) ==> MetaConsistent(files) && files.Keys == files0.Keys
        invariant MetaConsistent(files0) ==>
          forall j :: i <= j < |listing| ==> files[listing[j]] == files0[listing[j]]
        invariant MetaConsistent(files0) ==>
          forall j :: 0 <= j < i ==> files[listing[j]] == AfterRestore(files0, setupErrors, listing[j])
        invariant MetaConsistent(files0) ==>
          forall j :: 0 <= j < i && IsMetaFileName(listing[j]) && files0[listing[j]].MetaFile? &&
                      files0[listing[j]].meta.id !in setupErrors ==>
            Restored(files0[listing[j]].meta)
        invariant MetaConsistent(files0) ==>
          forall k :: k in old(instances) && !Restorable(files0, setupErrors, k) ==> instances[k] == old(instances)[k]
        invariant MetaConsistent(files0) ==>
          forall k :: k in instances ==> k in old(instances) || Restorable(files0, setupErrors, k)
      {
        assert forall j :: 0 <= j < |listing| && j != i ==> listing[j] != listing[i];
        RestoreFile(listing[i], setupErrors, files0);
      }
      if MetaConsistent(files0) {
        forall f | f in files0
          ensures files[f] == AfterRestore(files0, setupErrors, f)
        {
          var j :| 0 <= j < |listing| && listing[j] == f;
        }
      }
    }
  }

  /**
   * The restart round trip: an instance created on one manager comes back,
   * with the same name and webhook, when a new manager over the same
   * directory runs `init`, provided neither start throws.
   */
  method RestartRestores(m: SessionManager, id: string, opts: Options, now: int, setupErrors: map<string, string>)
    returns (m2: SessionManager)
    requires m.Valid() && MetaConsistent(m.files)
    requires id !in setupErrors
    modifies m
    ensures m2.Valid()
    ensures id in m2.instances
    ensures m2.instances[id].name == OrElse(opts.name, id) && m2.instances[id].webhook == OrNull(opts.webhook)
    ensures m2.instances[id].status == Initializing
  {
    var _ := m.Create(id, opts, now, None);
    m2 := new SessionManager(m.files);
    ghost var dir := m2.files;
    m2.Init(setupErrors);
    MetaFileNameRecognised(id);
    assert m2.Restored(dir[MetaFileName(id)].meta);
    OrElseStable(opts.name, id);
    OrElseStable(opts.webhook, id);
  }
}
