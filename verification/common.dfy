/**
 * Values and helpers shared by the three instance managers: JavaScript
 * truthiness of optional strings, recipient-address normalisation, the
 * names of the per-instance files in the session directory, and the
 * "forward only when a webhook is configured" decision.
 *
 * JavaScript `null` and `undefined` are both modelled as `None`.
 */
module Common {

  datatype Option<T> = None | Some(value: T)

  /** The outcome of an operation that may throw; `message` is the thrown error's message. */
  datatype Result<T> = Ok(value: T) | Err(message: string)

  /** Opaque handle to an adapter object owned by a foreign library (a venom client). */
  datatype Handle = Handle(token: nat)

  /** Opaque bytes, as fetched for a media message. */
  type Bytes = seq<bv8>

  /** The `{ name?, webhook? }` options object passed to `create` and `_startInstance`. */
  datatype Options = Options(name: Option<string>, webhook: Option<string>)

  // ---------------------------------------------------------------------------
  // JavaScript truthiness
  // ---------------------------------------------------------------------------

  /** A string-or-missing value is truthy when it is present and not empty. */
  predicate Truthy(s: Option<string>)
  {
    s.Some? && s.value != ""
  }

  /** `s || fallback` */
  function OrElse(s: Option<string>, fallback: string): string
  {
    if Truthy(s) then s.value else fallback
  }

  /** `s || null` */
  function OrNull(s: Option<string>): Option<string>
  {
    if Truthy(s) then s else None
  }

  /** `a || b || ... || null`: the first truthy candidate, or `None`. */
  function FirstTruthy(candidates: seq<Option<string>>): (r: Option<string>)
    ensures r.None? <==> forall i :: 0 <= i < |candidates| ==> !Truthy(candidates[i])
    ensures r.Some? ==> Truthy(r) && r in candidates
    ensures forall i :: 0 <= i < |candidates| && Truthy(candidates[i]) && (forall j :: 0 <= j < i ==> !Truthy(candidates[j])) ==>
      r == candidates[i]
  {
    if candidates == [] then None
    else if Truthy(candidates[0]) then candidates[0]
    else
      var r := FirstTruthy(candidates[1..]);
      assert forall i :: 1 <= i < |candidates| ==> candidates[i] == candidates[1..][i - 1];
      r
  }

  /** Applying `|| fallback` twice is the same as applying it once. */
  lemma OrElseStable(s: Option<string>, fallback: string)
    ensures OrElse(Some(OrElse(s, fallback)), fallback) == OrElse(s, fallback)
    ensures OrNull(OrNull(s)) == OrNull(s)
  {
  }

  // ---------------------------------------------------------------------------
  // Recipient addresses
  // ---------------------------------------------------------------------------

  /** Network suffix appended by the Baileys manager. */
  const UserSuffix: string := "@s.whatsapp.net"

  /** Network suffix appended by the two venom managers. */
  const ContactSuffix: string := "@c.us"

  /**
   * `to.includes('@') ? to : to + suffix`: a recipient that already holds an
   * `@` is an address and is kept; a bare number gets the network suffix.
   */
  function ToAddress(to: string, suffix: string): (jid: string)
    ensures '@' in to ==> jid == to
    ensures '@' !in to ==> |jid| == |to| + |suffix| && jid[..|to|] == to && jid[|to|..] == suffix
    ensures '@' in suffix ==> '@' in jid
  {
    if '@' in to then to else to + suffix
  }

  /** Normalising an address that is already normalised changes nothing. */
  lemma ToAddressIdempotent(to: string, suffix: string)
    requires '@' in suffix
    ensures ToAddress(ToAddress(to, suffix), suffix) == ToAddress(to, suffix)
  {
  }

  // ---------------------------------------------------------------------------
  // Webhook forwarding
  // ---------------------------------------------------------------------------

  /** One POST of `{ id, event }` to a webhook URL. */
  datatype Delivery<E> = Delivery(url: string, instanceId: string, event: E)

  /**
   * The deliveries caused by forwarding `event` for instance `id`: one POST
   * to the webhook when it is truthy, nothing otherwise.
   */
  function Forward<E>(webhook: Option<string>, id: string, event: E): (out: seq<Delivery<E>>)
    ensures |out| <= 1
    ensures out != [] <==> Truthy(webhook)
    ensures forall d :: d in out ==> Truthy(webhook) && d == Delivery(webhook.value, id, event)
  {
    if Truthy(webhook) then [Delivery(webhook.value, id, event)] else []
  }

  // ---------------------------------------------------------------------------
  // The session directory
  // ---------------------------------------------------------------------------

  /** What a `meta-<id>.json` file holds once parsed. */
  datatype StoredMeta = StoredMeta(id: string, name: string, webhook: Option<string>, createdAt: Option<int>)

  /**
   * An entry of the session directory: a metadata file, a folder, or any
   * other file (authentication state, or content that does not parse as
   * metadata).
   */
  datatype FileContent = MetaFile(meta: StoredMeta) | Folder | Opaque

  /** The session directory: entry name to content. */
  type Directory = map<string, FileContent>

  const MetaPrefix: string := "meta-"
  const JsonSuffix: string := ".json"

  predicate StartsWith(s: string, prefix: string)
  {
    |prefix| <= |s| && s[..|prefix|] == prefix
  }

  predicate EndsWith(s: string, suffix: string)
  {
    |suffix| <= |s| && s[|s| - |suffix|..] == suffix
  }

  /** `meta-<id>.json` */
  function MetaFileName(id: string): string
  {
    MetaPrefix + id + JsonSuffix
  }

  /** `auth-<id>.json` */
  function AuthFileName(id: string): string
  {
    "auth-" + id + JsonSuffix
  }

  /** The restore filter: names that start with `meta-` and end with `.json`. */
  predicate IsMetaFileName(f: string)
  {
    EndsWith(f, JsonSuffix) && StartsWith(f, MetaPrefix)
  }

  /** Every metadata file name passes the restore filter. */
  lemma MetaFileNameRecognised(id: string)
    ensures IsMetaFileName(MetaFileName(id))
  {
    var f := MetaFileName(id);
    assert f[..5] == MetaPrefix;
    assert f[|f| - 5..] == JsonSuffix;
  }

  /** Distinct ids have distinct metadata files. */
  lemma {:induction false} MetaFileNameInjective(a: string, b: string)
    ensures MetaFileName(a) == MetaFileName(b) ==> a == b
  {
    if MetaFileName(a) == MetaFileName(b) {
      var f := MetaFileName(a);
      assert a == f[5..|f| - 5];
      assert b == MetaFileName(b)[5..|f| - 5];
    }
  }

  /** Distinct ids have distinct authentication files. */
  lemma {:induction false} AuthFileNameInjective(a: string, b: string)
    ensures AuthFileName(a) == AuthFileName(b) ==> a == b
  {
    if AuthFileName(a) == AuthFileName(b) {
      var f := AuthFileName(a);
      assert a == f[5..|f| - 5];
      assert b == AuthFileName(b)[5..|f| - 5];
    }
  }

  /**
   * Every name the restore filter accepts is the metadata file of exactly one
   * id: the prefix and the suffix cannot overlap, so such a name has at
   * least ten characters and the id is what lies between them.
   */
  lemma MetaFileNameParsed(f: string)
    requires IsMetaFileName(f)
    ensures |f| >= 10 && f == MetaFileName(f[5..|f| - 5])
  {
    // the '-' ending the prefix is none of the suffix's characters
    assert f[4] == '-';
    assert forall k :: |f| - 5 <= k < |f| ==> f[k] == JsonSuffix[k - (|f| - 5)] != '-';
    var id := f[5..|f| - 5];
    assert f == f[..5] + id + f[|f| - 5..];
  }

  /** An authentication file never passes the restore filter. */
  lemma AuthFileNotRestored(id: string)
    ensures !IsMetaFileName(AuthFileName(id))
  {
    assert AuthFileName(id)[0] == 'a';
  }

  /** The directory after removing every entry named in `names`, if present. */
  function Without(files: Directory, names: seq<string>): (r: Directory)
    ensures forall f :: f in r <==> f in files && f !in names
    ensures forall f :: f in r ==> r[f] == files[f]
  {
    files - set n | n in names
  }

  /** Removing the same names twice is the same as removing them once. */
  lemma WithoutIdempotent(files: Directory, names: seq<string>)
    ensures Without(Without(files, names), names) == Without(files, names)
  {
  }

  /**
   * `readdirSync`: the names of the directory's entries, each once, in an
   * order the file system chooses.
   */
  method ReadDir(files: Directory) returns (names: seq<string>)
    ensures forall f :: f in names <==> f in files
    ensures forall i, j :: 0 <= i < j < |names| ==> names[i] != names[j]
  {
    names := [];
    var left := files.Keys;
    while left != {}
      invariant left <= files.Keys
      invariant forall f :: f in files ==> f in left || f in names
      invariant forall f :: f in names ==> f in files && f !in left
      invariant forall i, j :: 0 <= i < j < |names| ==> names[i] != names[j]
      decreases left
    {
      var f :| f in left;
      names := names + [f];
      left := left - {f};
    }
  }
}
