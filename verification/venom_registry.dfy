/**
 * `VenomManager` (src/venomManager.js): the venom-based manager with
 * `list` and `get`.
 *
 * `_startInstance` awaits `venom.create`; while that is pending venom fires
 * the QR and status callbacks, and then it either yields a client or
 * throws. The model takes that as the sequence of callbacks and the
 * `Launch` outcome. The QR value is `base64Qr || asciiQR || urlCode || null`.
 */
module VenomRegistry {
  import opened Common
  import opened VenomEntries

  const MissingId: string := "missing id"
  const NotConnected: string := "instance not found or not connected"

  /** One element of `list()`: `{ id, status, name, webhook }`. */
  datatype Summary = Summary(id: string, status: string, name: Option<string>, webhook: Option<string>)

  function SummaryOf(id: string, e: Entry): Summary
  {
    Summary(id, e.status, e.name, e.webhook)
  }

  /** The QR callback's value: `base64Qr || asciiQR || urlCode || null`. */
  function QrOf(base64Qr: Option<string>, asciiQR: Option<string>, urlCode: Option<string>): (qr: Option<string>)
    ensures qr.Some? <==> Truthy(base64Qr) || Truthy(asciiQR) || Truthy(urlCode)
    ensures Truthy(base64Qr) ==> qr == base64Qr
    ensures !Truthy(base64Qr) && Truthy(asciiQR) ==> qr == asciiQR
    ensures !Truthy(base64Qr) && !Truthy(asciiQR) ==> qr == OrNull(urlCode)
  {
    var candidates := [base64Qr, asciiQR, urlCode];
    assert candidates[0] == base64Qr && candidates[1] == asciiQR && candidates[2] == urlCode;
    FirstTruthy(candidates)
  }

  function EffectOf(cb: Callback): Effect
  {
    match cb
    case QrCallback(b, a, u) => SetQr(QrOf(b, a, u))
    case StatusCallback(s) => SetStatus(s)
  }

  function Effects(cbs: seq<Callback>): (es: seq<Effect>)
    ensures |es| == |cbs| && forall i :: 0 <= i < |cbs| ==> es[i] == EffectOf(cbs[i])
  {
    seq(|cbs|, i requires 0 <= i < |cbs| => EffectOf(cbs[i]))
  }

  /** The entry a successful start registers: status `connected`, the last QR captured, the connection state. */
  function Registered(id: string, opts: Options, client: Handle, qr: Option<string>, connectionState: Option<string>): Entry
  {
    Entry(Some(id), Some(OrElse(opts.name, id)), OrNull(opts.webhook), Some(client), "connected", qr, OrNull(connectionState))
  }

  /** The paths `delete` removes: `meta-<id>.json` and the session folder `<id>`. */
  function DeletedNames(id: string): seq<string>
  {
    [MetaFileName(id), id]
  }

  /**
   * Deleting `a` removes the metadata file of a different id `b` exactly
   * when `a` is itself spelled `meta-<b>.json`; no other id's metadata is
   * touched.
   */
  lemma DeleteReachesOtherMeta(a: string, b: string)
    requires a != b
    ensures MetaFileName(b) in DeletedNames(a) <==> a == MetaFileName(b)
  {
    MetaFileNameInjective(a, b);
  }

  class VenomManager {
    /** `instances`: id to entry. */
    var instances: map<string, Entry>
    /** The session directory. */
    var files: Directory
    /** The clients' `onMessage` handlers. */
    var listeners: map<Handle, Listener>
    /** The webhook deliveries dispatched so far. */
    var outbox: seq<Delivery<Event>>

    ghost predicate Valid()
      reads this
    {
      WellFiled(instances)
    }

    constructor (dir: Directory)
      ensures Valid()
      ensures instances == map[] && files == dir && listeners == map[] && outbox == []
    {
      instances := map[];
      files := dir;
      listeners := map[];
      outbox := [];
    }

    /**
     * `create`: an empty id is refused before anything is written;
     * otherwise the metadata file is written and the instance started. A
     * failed start leaves the metadata file in place.
     */
    method Create(id: string, opts: Options, now: int, callbacks: seq<Callback>, launch: Launch) returns (r: Result<Created>)
      requires Valid()
      modifies this
      ensures Valid()
      ensures id == "" ==> r == Err(MissingId) && instances == old(instances) && files == old(files) &&
                           listeners == old(listeners) && outbox == old(outbox)
      ensures id != "" && Live(old(instances), id) ==>
        r == Ok(Created(id, now, StartInfo(id, old(instances)[id].status))) && instances == old(instances) &&
        listeners == old(listeners) &&
        files == old(files)[MetaFileName(id) := MetaFile(StoredMeta(id, OrElse(opts.name, id), OrNull(opts.webhook), Some(now)))]
      ensures id != "" && !Live(old(instances), id) && launch.LaunchFailed? ==>
        r == Err(launch.message) && instances == ApplyAll(old(instances), id, Effects(callbacks)) &&
        listeners == old(listeners) &&
        files == old(files)[MetaFileName(id) := MetaFile(StoredMeta(id, OrElse(opts.name, id), OrNull(opts.webhook), Some(now)))]
      ensures id != "" && !Live(old(instances), id) && launch.Launched? ==>
        r == Ok(Created(id, now, StartInfo(id, "connected"))) &&
        instances == old(instances)[id := Registered(id, opts, launch.client, LastQr(Effects(callbacks)), launch.connectionState)] &&
        listeners == old(listeners)[launch.client := Listener(id, OrNull(opts.webhook))] &&
        files == old(files)[MetaFileName(id) := MetaFile(StoredMeta(id, OrElse(opts.name, id), OrNull(opts.webhook), None))]
      ensures outbox == old(outbox)
    {
      if id == "" {
        return Err(MissingId);
      }
      files := files[MetaFileName(id) := MetaFile(StoredMeta(id, OrElse(opts.name, id), OrNull(opts.webhook), Some(now)))];
      var started := StartInstance(id, opts, callbacks, launch);
      match started
      case Ok(info) => r := Ok(Created(id, now, info));
      case Err(msg) => r := Err(msg);
    }

    /** `list()`: one `{ id, status, name, webhook }` summary per registered id, each id once. */
    method List() returns (out: seq<Summary>)
      ensures |out| == |instances|
      ensures forall i :: 0 <= i < |out| ==> out[i].id in instances && out[i] == SummaryOf(out[i].id, instances[out[i].id])
      ensures forall id :: id in instances ==> exists i :: 0 <= i < |out| && out[i].id == id
      ensures forall i, j :: 0 <= i < j < |out| ==> out[i].id != out[j].id
    {
      out := [];
      var left := instances.Keys;
      while left != {}
        invariant left <= instances.Keys
        invariant |out| + |left| == |instances.Keys|
        invariant forall i :: 0 <= i < |out| ==>
          out[i].id in instances && out[i].id !in left && out[i] == SummaryOf(out[i].id, instances[out[i].id])
        invariant forall id :: id in instances ==> id in left || exists i :: 0 <= i < |out| && out[i].id == id
        invariant forall i, j :: 0 <= i < j < |out| ==> out[i].id != out[j].id
        decreases left
      {
        var id :| id in left;
        ghost var before := out;
        out := out + [SummaryOf(id, instances[id])];
        left := left - {id};
        assert out[|before|].id == id;
        assert forall i :: 0 <= i < |before| ==> out[i] == before[i];
      }
    }

    /** `get(id)`: the entry, or null. */
    function Get(id: string): (r: Option<Entry>)
      reads this
      ensures r.None? <==> id !in instances
      ensures r.Some? ==> r.value == instances[id]
      ensures Valid() && r.Some? && r.value.id.Some? ==> r.value.id.value == id
    {
      if id in instances then Some(instances[id]) else None
    }

    /**
     * `delete`: the entry leaves the registry, `meta-<id>.json` and `<id>`
     * leave the directory, and the answer is `true` whether or not anything
     * existed.
     */
    method Delete(id: string) returns (deleted: bool)
      requires Valid()
      modifies this
      ensures Valid()
      ensures deleted
      ensures instances == old(instances) - {id}
      ensures files == Without(old(files), DeletedNames(id))
      ensures listeners == old(listeners) && outbox == old(outbox)
    {
      // closing the client is an adapter call, outside the model
      instances := instances - {id};
      var names := DeletedNames(id);
      for i := 0 to |names|
        invariant files == Without(old(files), names[..i])
        invariant instances == old(instances) - {id}
        invariant listeners == old(listeners) && outbox == old(outbox)
      {
        if names[i] in files {
          files := files - {names[i]};
        }
        assert names[..i + 1] == names[..i] + [names[i]];
      }
      assert names[..|names|] == names;
      deleted := true;
    }

    /**
     * The QR callback: the QR value is computed, stored with status `qr` on
     * the id's entry (created if absent), and handed back to the start
     * closure.
     */
    method OnQr(id: string, base64Qr: Option<string>, asciiQR: Option<string>, urlCode: Option<string>) returns (lastQr: Option<string>)
      requires Valid()
      modifies this
      ensures Valid()
      ensures lastQr == QrOf(base64Qr, asciiQR, urlCode)
      ensures instances == WithQr(old(instances), id, lastQr)
      ensures files == old(files) && listeners == old(listeners) && outbox == old(outbox)
    {
      lastQr := QrOf(base64Qr, asciiQR, urlCode);
      var inst := if id in instances then instances[id] else Blank;
      inst := inst.(qr := lastQr);
      inst := inst.(status := "qr");
      instances := instances[id := inst];
    }

    /** The status callback: only `status` changes, on an entry created if absent. */
    method OnStatus(id: string, statusSession: string)
      requires Valid()
      modifies this
      ensures Valid()
      ensures instances == WithStatus(old(instances), id, statusSession)
      ensures files == old(files) && listeners == old(listeners) && outbox == old(outbox)
    {
      var inst := if id in instances then instances[id] else Blank;
      inst := inst.(status := statusSession);
      instances := instances[id := inst];
    }

    /**
     * The callbacks venom fires while `venom.create` is pending, in order;
     * the result is the start closure's `lastQr` afterwards.
     */
    method FireCallbacks(id: string, callbacks: seq<Callback>) returns (lastQr: Option<string>)
      requires Valid()
      modifies this
      ensures Valid()
      ensures instances == ApplyAll(old(instances), id, Effects(callbacks))
      ensures lastQr == LastQr(Effects(callbacks))
      ensures files == old(files) && listeners == old(listeners) && outbox == old(outbox)
    {
      lastQr := None;
      for i := 0 to |callbacks|
        invariant Valid()
        invariant instances == ApplyAll(old(instances), id, Effects(callbacks[..i]))
        invariant lastQr == LastQr(Effects(callbacks[..i]))
        invariant files == old(files) && listeners == old(listeners) && outbox == old(outbox)
      {
        assert Effects(callbacks[..i + 1]) == Effects(callbacks[..i]) + [EffectOf(callbacks[i])];
        assert Effects(callbacks[..i + 1])[..i] == Effects(callbacks[..i]);
        match callbacks[i]
        case QrCallback(b, a, u) =>
          lastQr := OnQr(id, b, a, u);
        case StatusCallback(s) =>
          OnStatus(id, s);
      }
      assert callbacks[..|callbacks|] == callbacks;
    }

    /**
     * `_startInstance`: an id whose entry holds a client is answered with its
     * current status and nothing changes. Otherwise the callbacks fire as
     * venom delivers them; a failed launch is rethrown and leaves the
     * entries the callbacks made; a successful one registers the entry
     * (status `connected`, the last QR captured), subscribes the client's
     * message handler and rewrites the metadata file.
     */
    method StartInstance(id: string, opts: Options, callbacks: seq<Callback>, launch: Launch) returns (r: Result<StartInfo>)
      requires Valid()
      modifies this
      ensures Valid()
      ensures Live(old(instances), id) ==>
        r == Ok(StartInfo(id, old(instances)[id].status)) &&
        instances == old(instances) && files == old(files) && listeners == old(listeners)
      ensures !Live(old(instances), id) && launch.LaunchFailed? ==>
        r == Err(launch.message) && instances == ApplyAll(old(instances), id, Effects(callbacks)) &&
        files == old(files) && listeners == old(listeners)
      ensures !Live(old(instances), id) && launch.Launched? ==>
        r == Ok(StartInfo(id, "connected")) &&
        instances == old(instances)[id := Registered(id, opts, launch.client, LastQr(Effects(callbacks)), launch.connectionState)] &&
        files == old(files)[MetaFileName(id) := MetaFile(StoredMeta(id, OrElse(opts.name, id), OrNull(opts.webhook), None))] &&
        listeners == old(listeners)[launch.client := Listener(id, OrNull(opts.webhook))]
      ensures outbox == old(outbox)
    {
      if id in instances && instances[id].client.Some? {
        return Ok(StartInfo(id, instances[id].status));
      }
      var webhook := OrNull(opts.webhook);
      var lastQr := FireCallbacks(id, callbacks);
      match launch
      case LaunchFailed(msg) =>
        r := Err(msg);
      case Launched(client, connectionState) =>
        var instance := Entry(Some(id), Some(OrElse(opts.name, id)), webhook, Some(client), "connected", lastQr, None);
        instance := instance.(info := OrNull(connectionState));
        listeners := listeners[client := Listener(id, instance.webhook)];
        files := files[MetaFileName(id) := MetaFile(StoredMeta(id, instance.name.value, instance.webhook, None))];
        ApplyAllFrame(old(instances), id, Effects(callbacks), instance);
        instances := instances[id := instance];
        r := Ok(StartInfo(id, instance.status));
    }

    /** A client's `onMessage` handler: the message is forwarded to the captured webhook, if set. */
    method OnMessage(client: Handle, message: string)
      requires client in listeners
      modifies this
      ensures instances == old(instances) && files == old(files) && listeners == old(listeners)
      ensures outbox == old(outbox) + Forward(listeners[client].webhook, listeners[client].id, MessageEvent(message))
    {
      var l := listeners[client];
      outbox := outbox + Forward(l.webhook, l.id, MessageEvent(message));
    }

    /**
     * `sendText`: fails unless the id's entry holds a client; the text goes
     * to that client, addressed to the normalised recipient.
     */
    function SendText(id: string, to: string, text: string): (r: Result<Outgoing>)
      reads this
      ensures r.Err? <==> !Live(instances, id)
      ensures r.Err? ==> r.message == NotConnected
      ensures r.Ok? ==> r.value == ClientSendText(instances[id].client.value, ToAddress(to, ContactSuffix), text)
      ensures r.Ok? ==> '@' in r.value.jid
    {
      if id !in instances || instances[id].client.None? then Err(NotConnected)
      else Ok(ClientSendText(instances[id].client.value, ToAddress(to, ContactSuffix), text))
    }

    /**
     * `sendMediaByUrl`: the same guard and normalisation; the client fetches
     * the URL itself, with an empty file name and the caption defaulting to "".
     */
    function SendMediaByUrl(id: string, to: string, url: string, caption: Option<string>): (r: Result<Outgoing>)
      reads this
      ensures r.Err? <==> !Live(instances, id)
      ensures r.Err? ==> r.message == NotConnected
      ensures r.Ok? ==>
        r.value == ClientSendFileFromUrl(instances[id].client.value, ToAddress(to, ContactSuffix), url, "", OrElse(caption, ""))
    {
      if id !in instances || instances[id].client.None? then Err(NotConnected)
      else Ok(ClientSendFileFromUrl(instances[id].client.value, ToAddress(to, ContactSuffix), url, "", OrElse(caption, "")))
    }
  }
}
