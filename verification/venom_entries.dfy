/**
 * What the two venom-based managers (src/venomManager.js and
 * src/sessionManager.js) have in common: the shape of a registry entry, the
 * callbacks `venom.create` fires, and the effect of those callbacks on the
 * registry. Both managers' callbacks look the id up, fall back to an empty
 * object when it is absent, set fields on it and put it back, so a callback
 * that arrives for an absent id creates an entry holding only `status` (and
 * `qr`). The two managers differ in how they compute the QR value; each
 * computes it in its own module and hands it here as an `Effect`.
 */
module VenomEntries {
  import opened Common

  /**
   * `{ id, name, webhook, client, status, qr, info }`; entries created by a
   * callback for an absent id have no id, name, webhook, client or info.
   */
  datatype Entry = Entry(
    id: Option<string>,
    name: Option<string>,
    webhook: Option<string>,
    client: Option<Handle>,
    status: string,
    qr: Option<string>,
    info: Option<string>)

  /** A callback venom fires: the QR callback's arguments, or a new `statusSession`. */
  datatype Callback =
    | QrCallback(base64Qr: Option<string>, asciiQR: Option<string>, urlCode: Option<string>)
    | StatusCallback(statusSession: string)

  /**
   * How `venom.create` settles: a client (with what the client's
   * `getConnectionState` then yields, `None` when it throws), or the error it
   * throws.
   */
  datatype Launch =
    | Launched(client: Handle, connectionState: Option<string>)
    | LaunchFailed(message: string)

  /** What `_startInstance` returns: `{ id, status }`. */
  datatype StartInfo = StartInfo(id: string, status: string)

  /** What `create` returns: `{ id, createdAt, info }`. */
  datatype Created = Created(id: string, createdAt: int, info: StartInfo)

  /** The call a send operation makes on the client. */
  datatype Outgoing =
    | ClientSendText(client: Handle, jid: string, text: string)
    | ClientSendFileFromUrl(client: Handle, jid: string, url: string, filename: string, caption: string)

  /** The webhook event both venom managers forward: `{ type: 'message', message }`. */
  datatype Event = MessageEvent(message: string)

  /** What a client's `onMessage` handler captured: the id and the webhook of its instance. */
  datatype Listener = Listener(id: string, webhook: Option<string>)

  /** A registry change made by one callback. */
  datatype Effect = SetQr(qr: Option<string>) | SetStatus(status: string)

  /** The id has an entry that holds a client: `_startInstance` returns early for it. */
  predicate Live(m: map<string, Entry>, id: string)
  {
    id in m && m[id].client.Some?
  }

  /** Registered entries carry their own id, and every entry with a client is a registered one. */
  predicate WellFiled(m: map<string, Entry>)
  {
    forall k :: k in m ==>
      (m[k].id.Some? ==> m[k].id.value == k) &&
      (m[k].client.Some? ==> m[k].id == Some(k) && m[k].name.Some?)
  }

  /** The empty object `{}` a callback starts from when the id is absent. */
  const Blank: Entry := Entry(None, None, None, None, "", None, None)

  /** The QR callback's registry change: set `qr` and status `qr` on the entry, creating it if absent. */
  function WithQr(m: map<string, Entry>, id: string, qr: Option<string>): (r: map<string, Entry>)
    ensures r.Keys == m.Keys + {id}
    ensures r[id].status == "qr" && r[id].qr == qr
    ensures id in m ==> r[id] == m[id].(status := "qr", qr := qr)
    ensures id !in m ==> r[id].id.None? && r[id].name.None? && r[id].webhook.None? && r[id].client.None? && r[id].info.None?
    ensures forall k :: k in m && k != id ==> r[k] == m[k]
    ensures WellFiled(m) ==> WellFiled(r)
  {
    var e := if id in m then m[id] else Blank;
    m[id := e.(qr := qr, status := "qr")]
  }

  /** The status callback's registry change: overwrite only `status`, creating the entry if absent. */
  function WithStatus(m: map<string, Entry>, id: string, status: string): (r: map<string, Entry>)
    ensures r.Keys == m.Keys + {id}
    ensures r[id].status == status
    ensures id in m ==> r[id] == m[id].(status := status)
    ensures id !in m ==> r[id].id.None? && r[id].name.None? && r[id].webhook.None? && r[id].client.None? &&
                         r[id].qr.None? && r[id].info.None?
    ensures forall k :: k in m && k != id ==> r[k] == m[k]
    ensures WellFiled(m) ==> WellFiled(r)
  {
    var e := if id in m then m[id] else Blank;
    m[id := e.(status := status)]
  }

  function Apply(m: map<string, Entry>, id: string, e: Effect): map<string, Entry>
  {
    match e
    case SetQr(qr) => WithQr(m, id, qr)
    case SetStatus(s) => WithStatus(m, id, s)
  }

  /** The registry after the callbacks' changes, in the order they fired. */
  function ApplyAll(m: map<string, Entry>, id: string, es: seq<Effect>): map<string, Entry>
    decreases |es|
  {
    if es == [] then m else Apply(ApplyAll(m, id, es[..|es| - 1]), id, es[|es| - 1])
  }

  /** The QR value the start closure last captured (`null` until the first QR callback). */
  function LastQr(es: seq<Effect>): Option<string>
    decreases |es|
  {
    if es == [] then None
    else if es[|es| - 1].SetQr? then es[|es| - 1].qr
    else LastQr(es[..|es| - 1])
  }

  /**
   * The callbacks touch only their own id: every other entry keeps its
   * value, so overwriting the id afterwards gives the same registry as
   * overwriting it before they fired. They also keep the registry well filed.
   */
  lemma {:induction false} ApplyAllFrame(m: map<string, Entry>, id: string, es: seq<Effect>, e: Entry)
    ensures forall k :: k != id ==> (k in ApplyAll(m, id, es) <==> k in m)
    ensures forall k :: k != id && k in m ==> ApplyAll(m, id, es)[k] == m[k]
    ensures es != [] ==> id in ApplyAll(m, id, es)
    ensures ApplyAll(m, id, es)[id := e] == m[id := e]
    ensures WellFiled(m) ==> WellFiled(ApplyAll(m, id, es))
    decreases |es|
  {
    if es != [] {
      ApplyAllFrame(m, id, es[..|es| - 1], e);
    }
  }

  /**
   * After the callbacks, the entry's QR is the one the closure captured
   * last, as soon as at least one QR callback fired.
   */
  lemma {:induction false} ApplyAllQr(m: map<string, Entry>, id: string, es: seq<Effect>, i: nat)
    requires i < |es| && es[i].SetQr?
    ensures id in ApplyAll(m, id, es) && ApplyAll(m, id, es)[id].qr == LastQr(es)
    decreases |es|
  {
    var n := |es| - 1;
    if !es[n].SetQr? {
      assert i < n;
      ApplyAllQr(m, id, es[..n], i);
    }
  }
}
