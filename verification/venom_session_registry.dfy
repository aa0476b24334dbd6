/**
 * The venom-based `SessionManager` (src/sessionManager.js).
 *
 * Like `VenomManager` but: `create` does not check the id; `_startInstance`
 * creates the session folder `<id>` before anything else, takes the QR value
 * as `base64Qr || asciiQR || null`, registers `info` as null and writes
 * `createdAt` into the metadata file; `delete` also removes `<id>.json`;
 * the send operations check only that the id is registered.
 */
module VenomSessionRegistry {
  import opened Common
  import opened VenomEntries

  const InstanceNotFound: string := "Instance not found"
  /** What the engine throws when `inst.client.sendText` is read off an entry without a client. */
  const NoClientText: string := "Cannot read properties of undefined (reading 'sendText')"
  /** What the engine throws when `inst.client.sendFileFromUrl` is read off an entry without a client. */
  const NoClientFile: string := "Cannot read properties of undefined (reading 'sendFileFromUrl')"

  /** The QR callback's value: `base64Qr || asciiQR || null`; the URL code is not looked at. */
  function QrOf(base64Qr: Option<string>, asciiQR: Option<string>): (qr: Option<string>)
    ensures qr.Some? <==> Truthy(base64Qr) || Truthy(asciiQR)
    ensures Truthy(base64Qr) ==> qr == base64Qr
    ensures !Truthy(base64Qr) ==> qr == OrNull(asciiQR)
  {
    var candidates := [base64Qr, asciiQR];
    assert candidates[0] == base64Qr && candidates[1] == asciiQR;
    FirstTruthy(candidates)
  }

  function EffectOf(cb: Callback): Effect
  {
    match cb
    case QrCallback(b, a, _) => SetQr(QrOf(b, a))
    case StatusCallback(s) => SetStatus(s)
  }

  function Effects(cbs: seq<Callback>): (es: seq<Effect>)
    ensures |es| == |cbs| && forall i :: 0 <= i < |cbs| ==> es[i] == EffectOf(cbs[i])
  {
    seq(|cbs|, i requires 0 <= i < |cbs| => EffectOf(cbs[i]))
  }

  /** The entry a successful start registers: status `connected`, the last QR captured, `info` null. */
  function Registered(id: string, opts: Options, client: Handle, qr: Option<string>): Entry
  {
    Entry(Some(id), Some(OrElse(opts.name, id)), OrNull(opts.webhook), Some(client), "connected", qr, None)
  }

  /** The session folder `_startInstance` makes sure exists. */
  function WithSessionFolder(files: Directory, id: string): (r: Directory)
    ensures r.Keys == files.Keys + {id}
    ensures forall f :: f in files ==> r[f] == files[f]
    ensures id !in files ==> r[id] == Folder
  {
    if id in files then files else files[id := Folder]
  }

  /** The metadata `_startInstance` writes, with its own `createdAt`. */
  function StartMeta(id: string, opts: Options, now: int): StoredMeta
  {
    StoredMeta(id, OrElse(opts.name, id), OrNull(opts.webhook), Some(now))
  }

  /** The paths `delete` removes: `meta-<id>.json`, `<id>.json` and `<id>`. */
  function DeletedNames(id: string): seq<string>
  {
    [MetaFileName(id), id + JsonSuffix, id]
  }

  /**
   * Deleting `a` removes the metadata file of a different id `b` exactly
   * when `a` is spelled `meta-<b>` (through `<a>.json`) or `meta-<b>.json`
   * (through `<a>`).
   */
  lemma DeleteReachesOtherMeta(a: string, b: string)
    requires a != b
    ensures MetaFileName(b) in DeletedNames(a) <==> a == MetaPrefix + b || a == MetaFileName(b)
  {
    MetaFileNameInjective(a, b);
    if MetaFileName(b) == a + JsonSuffix {
      assert MetaFileName(b) == (MetaPrefix + b) + JsonSuffix;
      assert a == (a + JsonSuffix)[..|a|];
      assert MetaPrefix + b == ((MetaPrefix + b) + JsonSuffix)[..|MetaPrefix + b|];
    }
  }

  class SessionManager {
    /** `instances`: id to entry. */
    var instances: map<string, Entry>
    /** The session directory. */
    var files: Directory
    /** The clients' `onMessage` handlers. */
    var listeners: map<Handle, Listener>
    /** The webhook deliveries dispatched so far. */
    var outbox: seq<Delivery<Event>>

    ghost predicate Valid()
      reads this
    {
      WellFiled(instances)
    }

    constructor (dir: Directory)
      ensures Valid()
      ensures instances == map[] && files == dir && listeners == map[] && outbox == []
    {
      instances := map[];
      files := dir;
      listeners := map[];
      outbox := [];
    }

    /**
     * `create`: writes the metadata file (with `createdAt`), then starts the
     * instance; a failed start is rethrown and leaves the metadata file.
     * `createdAt` and `startedAt` are the two clock readings.
     */
    method Create(id: string, opts: Options, createdAt: int, startedAt: int, callbacks: seq<Callback>, launch: Launch)
      returns (r: Result<Created>)
      requires Valid()
      modifies this
      ensures Valid()
      ensures Live(old(instances), id) ==>
        r == Ok(Created(id, createdAt, StartInfo(id, old(instances)[id].status))) && instances == old(instances) &&
        listeners == old(listeners) &&
        files == WithSessionFolder(old(files)[MetaFileName(id) := MetaFile(StartMeta(id, opts, createdAt))], id)
      ensures !Live(old(instances), id) && launch.LaunchFailed? ==>
        r == Err(launch.message) && instances == ApplyAll(old(instances), id, Effects(callbacks)) &&
        listeners == old(listeners) &&
        files == WithSessionFolder(old(files)[MetaFileName(id) := MetaFile(StartMeta(id, opts, createdAt))], id)
      ensures !Live(old(instances), id) && launch.Launched? ==>
        r == Ok(Created(id, createdAt, StartInfo(id, "connected"))) &&
        instances == old(instances)[id := Registered(id, opts, launch.client, LastQr(Effects(callbacks)))] &&
        listeners == old(listeners)[launch.client := Listener(id, OrNull(opts.webhook))] &&
        files == WithSessionFolder(old(files)[MetaFileName(id) := MetaFile(StartMeta(id, opts, createdAt))], id)
                   [MetaFileName(id) := MetaFile(StartMeta(id, opts, startedAt))]
      ensures outbox == old(outbox)
    {
      files := files[MetaFileName(id) := MetaFile(StartMeta(id, opts, createdAt))];
      var started := StartInstance(id, opts, startedAt, callbacks, launch);
      match started
      case Ok(info) => r := Ok(Created(id, createdAt, info));
      case Err(msg) => r := Err(msg);
    }

    /** `getState(id)`: the entry, or null. */
    function GetState(id: string): (r: Option<Entry>)
      reads this
      ensures r.None? <==> id !in instances
      ensures r.Some? ==> r.value == instances[id]
      ensures Valid() && r.Some? && r.value.id.Some? ==> r.value.id.value == id
    {
      if id in instances then Some(instances[id]) else None
    }

    /**
     * `delete`: the entry leaves the registry and `meta-<id>.json`,
     * `<id>.json` and `<id>` leave the directory.
     */
    method Delete(id: string)
      requires Valid()
      modifies this
      ensures Valid()
      ensures instances == old(instances) - {id}
      ensures files == Without(old(files), DeletedNames(id))
      ensures listeners == old(listeners) && outbox == old(outbox)
    {
      // closing the client is an adapter call, outside the model
      instances := instances - {id};
      var names := DeletedNames(id);
      for i := 0 to |names|
        invariant files == Without(old(files), names[..i])
        invariant instances == old(instances) - {id}
        invariant listeners == old(listeners) && outbox == old(outbox)
      {
        if names[i] in files {
          files := files - {names[i]};
        }
        assert names[..i + 1] == names[..i] + [names[i]];
      }
      assert names[..|names|] == names;
    }

    /**
     * The QR callback: the QR value is computed, stored with status `qr` on
     * the id's entry (created if absent), and kept as the closure's last QR.
     */
    method OnQr(id: string, base64Qr: Option<string>, asciiQR: Option<string>) returns (last: Option<string>)
      requires Valid()
      modifies this
      ensures Valid()
      ensures last == QrOf(base64Qr, asciiQR)
      ensures instances == WithQr(old(instances), id, last)
      ensures files == old(files) && listeners == old(listeners) && outbox == old(outbox)
    {
      last := QrOf(base64Qr, asciiQR);
      var inst := if id in instances then instances[id] else Blank;
      inst := inst.(qr := last);
      inst := inst.(status := "qr");
      instances := instances[id := inst];
    }

    /** The status callback: only `status` changes, on an entry created if absent. */
    method OnStatus(id: string, statusSession: string)
      requires Valid()
      modifies this
      ensures Valid()
      ensures instances == WithStatus(old(instances), id, statusSession)
      ensures files == old(files) && listeners == old(listeners) && outbox == old(outbox)
    {
      var inst := if id in instances then instances[id] else Blank;
      inst := inst.(status := statusSession);
      instances := instances[id := inst];
    }

    /**
     * The callbacks venom fires while `venom.create` is pending, in order;
     * the result is `qrs.last` afterwards.
     */
    method FireCallbacks(id: string, callbacks: seq<Callback>) returns (last: Option<string>)
      requires Valid()
      modifies this
      ensures Valid()
      ensures instances == ApplyAll(old(instances), id, Effects(callbacks))
      ensures last == LastQr(Effects(callbacks))
      ensures files == old(files) && listeners == old(listeners) && outbox == old(outbox)
    {
      last := None;
      for i := 0 to |callbacks|
        invariant Valid()
        invariant instances == ApplyAll(old(instances), id, Effects(callbacks[..i]))
        invariant last == LastQr(Effects(callbacks[..i]))
        invariant files == old(files) && listeners == old(listeners) && outbox == old(outbox)
      {
        assert Effects(callbacks[..i + 1]) == Effects(callbacks[..i]) + [EffectOf(callbacks[i])];
        assert Effects(callbacks[..i + 1])[..i] == Effects(callbacks[..i]);
        match callbacks[i]
        case QrCallback(b, a, _) =>
          last := OnQr(id, b, a);
        case StatusCallback(s) =>
          OnStatus(id, s);
      }
      assert callbacks[..|callbacks|] == callbacks;
    }

    /**
     * `_startInstance`: the session folder is made first. An id whose entry
     * holds a client is then answered with its current status. Otherwise the
     * callbacks fire; a failed launch is rethrown and leaves the entries the
     * callbacks made; a successful one registers the entry (status
     * `connected`, the last QR captured), subscribes the client's message
     * handler and rewrites the metadata file with `createdAt` = `now`.
     */
    method StartInstance(id: string, opts: Options, now: int, callbacks: seq<Callback>, launch: Launch) returns (r: Result<StartInfo>)
      requires Valid()
      modifies this
      ensures Valid()
      ensures Live(old(instances), id) ==>
        r == Ok(StartInfo(id, old(instances)[id].status)) &&
        instances == old(instances) && files == WithSessionFolder(old(files), id) && listeners == old(listeners)
      ensures !Live(old(instances), id) && launch.LaunchFailed? ==>
        r == Err(launch.message) && instances == ApplyAll(old(instances), id, Effects(callbacks)) &&
        files == WithSessionFolder(old(files), id) && listeners == old(listeners)
      ensures !Live(old(instances), id) && launch.Launched? ==>
        r == Ok(StartInfo(id, "connected")) &&
        instances == old(instances)[id := Registered(id, opts, launch.client, LastQr(Effects(callbacks)))] &&
        files == WithSessionFolder(old(files), id)[MetaFileName(id) := MetaFile(StartMeta(id, opts, now))] &&
        listeners == old(listeners)[launch.client := Listener(id, OrNull(opts.webhook))]
      ensures outbox == old(outbox)
    {
      if id !in files {
        files := files[id := Folder];
      }
      if id in instances && instances[id].client.Some? {
        return Ok(StartInfo(id, instances[id].status));
      }
      var last := FireCallbacks(id, callbacks);
      match launch
      case LaunchFailed(msg) =>
        r := Err(msg);
      case Launched(client, _) =>
        var instance := Entry(Some(id), Some(OrElse(opts.name, id)), OrNull(opts.webhook), Some(client), "connected", last, None);
        listeners := listeners[client := Listener(id, instance.webhook)];
        files := files[MetaFileName(id) := MetaFile(StoredMeta(id, instance.name.value, instance.webhook, Some(now)))];
        ApplyAllFrame(old(instances), id, Effects(callbacks), instance);
        instances := instances[id := instance];
        r := Ok(StartInfo(id, instance.status));
    }

    /** A client's `onMessage` handler: the message is forwarded to the captured webhook, if set. */
    method OnMessage(client: Handle, message: string)
      requires client in listeners
      modifies this
      ensures instances == old(instances) && files == old(files) && listeners == old(listeners)
      ensures outbox == old(outbox) + Forward(listeners[client].webhook, listeners[client].id, MessageEvent(message))
    {
      var l := listeners[client];
      outbox := outbox + Forward(l.webhook, l.id, MessageEvent(message));
    }

    /**
     * `sendText`: fails with `Instance not found` for an unknown id; an entry
     * that a callback created has no client, and reading `sendText` off it
     * throws. Otherwise the text goes to the client, addressed to the
     * normalised recipient.
     */
    function SendText(id: string, to: string, text: string): (r: Result<Outgoing>)
      reads this
      ensures id !in instances ==> r == Err(InstanceNotFound)
      ensures id in instances && instances[id].client.None? ==> r == Err(NoClientText)
      ensures r.Ok? <==> Live(instances, id)
      ensures r.Ok? ==> r.value == ClientSendText(instances[id].client.value, ToAddress(to, ContactSuffix), text)
      ensures r.Ok? ==> '@' in r.value.jid
    {
      if id !in instances then Err(InstanceNotFound)
      else if instances[id].client.None? then Err(NoClientText)
      else Ok(ClientSendText(instances[id].client.value, ToAddress(to, ContactSuffix), text))
    }

    /**
     * `sendMediaByUrl`: the same checks; the client fetches the URL itself,
     * with an empty file name and the caption defaulting to "".
     */
    function SendMediaByUrl(id: string, to: string, url: string, caption: Option<string>): (r: Result<Outgoing>)
      reads this
      ensures id !in instances ==> r == Err(InstanceNotFound)
      ensures id in instances && instances[id].client.None? ==> r == Err(NoClientFile)
      ensures r.Ok? <==> Live(instances, id)
      ensures r.Ok? ==>
        r.value == ClientSendFileFromUrl(instances[id].client.value, ToAddress(to, ContactSuffix), url, "", OrElse(caption, ""))
    {
      if id !in instances then Err(InstanceNotFound)
      else if instances[id].client.None? then Err(NoClientFile)
      else Ok(ClientSendFileFromUrl(instances[id].client.value, ToAddress(to, ContactSuffix), url, "", OrElse(caption, "")))
    }
  }
}
