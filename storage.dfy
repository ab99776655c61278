/**
 * The object-store adapter: a MinIO client that connects lazily, makes
 * sure its bucket exists, stores images fetched from a URL or given as
 * bytes under `prefix/<uuid><extension>`, and signs stored paths.
 *
 * The MinIO server is the value `Store` (its buckets as a set, its objects
 * as a map); every call the SDK or the HTTP client would make is replaced
 * by an outcome parameter, and `uuid.uuid4()` by a supplied fresh id.
 */
module Storage {
  import opened Wrappers
  import opened Text

  newtype Byte = x: int | 0 <= x < 256

  /** The object kept for one `put_object`: its bytes, the declared length
      and the declared content type. */
  datatype StoredObject = StoredObject(data: seq<Byte>, length: nat, contentType: string)

  datatype ObjectKey = ObjectKey(bucket: string, name: string)

  /** The MinIO server's contents. */
  datatype Store = Store(buckets: set<string>, objects: map<ObjectKey, StoredObject>)

  /** How one SDK call ends: normally, raising `S3Error`, or raising anything
      else (connection refused, bad endpoint, ...). */
  datatype CallOutcome = Completes | RaisesS3Error | RaisesOther

  /** The outcomes of the calls `_initialize` makes: building the `Minio`
      object, `bucket_exists`, and `make_bucket` (asked only when the bucket
      is missing). */
  datatype InitOutcome = InitOutcome(built: bool, probe: CallOutcome, make: CallOutcome)

  /** How the HTTP download ends: an exception (timeout, connection error),
      or a response with its status, optional `content-type` header and body. */
  datatype FetchOutcome = FetchFails | Fetched(status: int, contentType: Option<string>, body: seq<Byte>)

  /** The adapter's own state (`client is not None`, `_initialized`) and the
      server it talks to. */
  datatype ClientState = ClientState(connected: bool, initialized: bool, store: Store)

  const DefaultPrefix: string := "images"
  const DefaultExtension: string := ".jpg"
  const FallbackContentType: string := "image/jpeg"

  /** `_get_extension_from_url`: sniff the extension from substrings of the
      URL, with ".jpg"/".jpeg" checked first and ".jpg" as the fallback. */
  function ExtensionFromUrl(url: string): (e: string)
    ensures e in {".jpg", ".png", ".gif", ".webp"}
    ensures Contains(url, ".jpg") || Contains(url, ".jpeg") ==> e == ".jpg"
    ensures e == ".png" <==> !Contains(url, ".jpg") && !Contains(url, ".jpeg") && Contains(url, ".png")
    ensures e == ".gif" <==>
      !Contains(url, ".jpg") && !Contains(url, ".jpeg") && !Contains(url, ".png") && Contains(url, ".gif")
    ensures e == ".webp" <==>
      !Contains(url, ".jpg") && !Contains(url, ".jpeg") && !Contains(url, ".png") && !Contains(url, ".gif")
      && Contains(url, ".webp")
  {
    if Contains(url, ".jpg") || Contains(url, ".jpeg") then ".jpg"
    else if Contains(url, ".png") then ".png"
    else if Contains(url, ".gif") then ".gif"
    else if Contains(url, ".webp") then ".webp"
    else ".jpg"
  }

  /** The table `_get_content_type` looks extensions up in. */
  const ContentTypes: map<string, string> := map[
    ".jpg" := "image/jpeg",
    ".jpeg" := "image/jpeg",
    ".png" := "image/png",
    ".gif" := "image/gif",
    ".webp" := "image/webp"
  ]

  /** `_get_content_type`: look the lower-cased extension up, falling back
      to "image/jpeg". */
  function ContentType(extension: string): (t: string)
    ensures StartsWith(t, "image/")
    ensures t in {"image/jpeg", "image/png", "image/gif", "image/webp"}
    ensures Lower(extension) in {".jpg", ".jpeg"} ==> t == "image/jpeg"
    ensures Lower(extension) !in ContentTypes ==> t == FallbackContentType
    ensures Lower(extension) in ContentTypes ==> t == ContentTypes[Lower(extension)]
  {
    var key := Lower(extension);
    if key in ContentTypes then ContentTypes[key] else FallbackContentType
  }

  /** Lower-casing twice changes nothing more. */
  lemma LowerIdempotent(s: string)
    ensures Lower(Lower(s)) == Lower(s)
  {
    assert forall i :: 0 <= i < |s| ==> Lower(Lower(s))[i] == Lower(s)[i];
  }

  /** The content type does not depend on the extension's letter case. */
  lemma ContentTypeIgnoresCase(extension: string)
    ensures ContentType(Lower(extension)) == ContentType(extension)
  {
    LowerIdempotent(extension);
  }

  /** The object name `f"{prefix}/{uuid}{extension}"`. */
  function ObjectName(prefix: string, freshId: string, extension: string): (name: string)
    ensures StartsWith(name, prefix + "/")
    ensures |name| == |prefix| + 1 + |freshId| + |extension|
    ensures name[|prefix| + 1..|prefix| + 1 + |freshId|] == freshId
    ensures name[|prefix| + 1 + |freshId|..] == extension
  {
    prefix + "/" + freshId + extension
  }

  /** Ids of one length (as `uuid4` strings are) never give the same object
      name twice under one prefix, unless id and extension both repeat. */
  lemma ObjectNamesDistinct(prefix: string, id1: string, e1: string, id2: string, e2: string)
    requires |id1| == |id2|
    requires id1 != id2 || e1 != e2
    ensures ObjectName(prefix, id1, e1) != ObjectName(prefix, id2, e2)
  {
  }

  /** `_ensure_bucket_exists`: with a client, create the bucket when the
      server says it is missing. `S3Error` is swallowed; any other exception
      is passed to the caller (the second component is true). */
  function EnsureBucketStep(bucket: string, s: ClientState, probe: CallOutcome, make: CallOutcome): (r: (ClientState, bool))
    ensures r.0.connected == s.connected && r.0.initialized == s.initialized
    ensures r.0.store.objects == s.store.objects
    ensures r.0.store.buckets ==
      if s.connected && probe == Completes && make == Completes then s.store.buckets + {bucket} else s.store.buckets
    ensures bucket in s.store.buckets ==> r.0 == s
    ensures !s.connected ==> r == (s, false)
    ensures s.connected && probe == Completes && make == Completes ==> bucket in r.0.store.buckets && !r.1
    ensures r.1 <==> s.connected && (probe == RaisesOther ||
                                     (probe == Completes && bucket !in s.store.buckets && make == RaisesOther))
  {
    if !s.connected then (s, false)
    else
      match probe
      case RaisesS3Error => (s, false)
      case RaisesOther => (s, true)
      case Completes =>
        if bucket in s.store.buckets then (s, false)
        else
          match make
          case Completes => (s.(store := s.store.(buckets := s.store.buckets + {bucket})), false)
          case RaisesS3Error => (s, false)
          case RaisesOther => (s, true)
  }

  /** The adapter's invariant: `_initialized` is set only with a client. */
  predicate Consistent(s: ClientState) {
    s.initialized ==> s.connected
  }

  /** `_initialize`: nothing once initialised; otherwise build the client,
      check the bucket, and record success only when both completed. */
  function InitializeStep(bucket: string, s: ClientState, init: InitOutcome): (r: ClientState)
    ensures s.initialized ==> r == s
    ensures r.store.objects == s.store.objects
    ensures Consistent(s) ==> Consistent(r)
    ensures s.connected ==> r.connected
    ensures !s.initialized && !init.built ==> r == s
    ensures !s.initialized && init.built ==> r.connected
    ensures !s.initialized ==>
      r.store.buckets == (if init.built && init.probe == Completes && init.make == Completes
                          then s.store.buckets + {bucket} else s.store.buckets)
    ensures !s.initialized ==>
      (r.initialized <==> init.built && !EnsureBucketStep(bucket, s.(connected := true), init.probe, init.make).1)
    ensures !s.initialized && init.built && init.probe == Completes && init.make == Completes ==>
      r.initialized && bucket in r.store.buckets
  {
    if s.initialized then s
    else if !init.built then s
    else
      var (s1, raised) := EnsureBucketStep(bucket, s.(connected := true), init.probe, init.make);
      if raised then s1 else s1.(initialized := true)
  }

  /** Once initialisation has succeeded, later calls change nothing.
      `{:induction false}`: the proof is direct, so Dafny is kept from
      trying induction on the bucket name. */
  lemma {:induction false} InitializeIdempotent(bucket: string, s: ClientState, first: InitOutcome, later: InitOutcome)
    requires InitializeStep(bucket, s, first).initialized
    ensures InitializeStep(bucket, InitializeStep(bucket, s, first), later) == InitializeStep(bucket, s, first)
  {
  }

  /** A failed initialisation is retried: the next call, with a reachable
      server, initialises the client and leaves the bucket in place. */
  lemma InitializeRetries(bucket: string, s: ClientState, first: InitOutcome)
    requires !InitializeStep(bucket, s, first).initialized
    ensures var r := InitializeStep(bucket, InitializeStep(bucket, s, first), InitOutcome(true, Completes, Completes));
      r.initialized && bucket in r.store.buckets
  {
  }

  /** The object stored by one successful `put_object`. */
  function Put(store: Store, bucket: string, name: string, obj: StoredObject): (r: Store)
    ensures r.buckets == store.buckets
    ensures ObjectKey(bucket, name) in r.objects && r.objects[ObjectKey(bucket, name)] == obj
    ensures forall k :: k in store.objects && k != ObjectKey(bucket, name) ==> k in r.objects && r.objects[k] == store.objects[k]
    ensures r.objects.Keys == store.objects.Keys + {ObjectKey(bucket, name)}
  {
    store.(objects := store.objects[ObjectKey(bucket, name) := obj])
  }

  /** The checks `upload_image_from_url` makes before it stores anything:
      a client exists, the download did not raise, the status is below 400
      and the content type starts with "image/". */
  predicate DownloadAccepted(connected: bool, fetch: FetchOutcome): (ok: bool)
    ensures ok ==> connected && fetch.Fetched? && fetch.status < 400
    ensures ok ==> Present(fetch.contentType) && StartsWith(fetch.contentType.value, "image/")
    ensures !connected || fetch.FetchFails? ==> !ok
  {
    && connected
    && fetch.Fetched?
    && fetch.status < 400
    && StartsWith(fetch.contentType.GetOr(""), "image/")
  }

  /** `upload_image_from_url`: initialise, download, check, then store one
      object named `prefix/<id><extension sniffed from the URL>` with the
      response's bytes and content type and return its name. Every failure
      returns `None` and stores nothing. */
  function UploadFromUrlStep(bucket: string, s: ClientState, url: string, prefix: string, init: InitOutcome,
                         fetch: FetchOutcome, freshId: string, putOk: bool): (r: (ClientState, Option<string>))
    ensures var s1 := InitializeStep(bucket, s, init);
      r.1.Some? <==> DownloadAccepted(s1.connected, fetch) && putOk
    ensures r.1.None? ==> r.0 == InitializeStep(bucket, s, init)
    ensures r.1.Some? ==>
      && r.1.value == ObjectName(prefix, freshId, ExtensionFromUrl(url))
      && r.0 == InitializeStep(bucket, s, init).(store := Put(InitializeStep(bucket, s, init).store, bucket, r.1.value,
                                                        StoredObject(fetch.body, |fetch.body|, fetch.contentType.value)))
  {
    var s1 := InitializeStep(bucket, s, init);
    if !s1.connected then (s1, None)
    else
      match fetch
      case FetchFails => (s1, None)
      case Fetched(status, header, body) =>
        if status >= 400 then (s1, None)
        else
          var contentType := header.GetOr("");
          if !StartsWith(contentType, "image/") then (s1, None)
          else
            var name := ObjectName(prefix, freshId, ExtensionFromUrl(url));
            if !putOk then (s1, None)
            else
              var stored := StoredObject(body, |body|, if contentType != "" then contentType else FallbackContentType);
              (s1.(store := Put(s1.store, bucket, name, stored)), Some(name))
  }

  /** A stored download is always kept under its prefix, and adds exactly one
      object to the server. */
  lemma UploadFromUrlAddsOne(bucket: string, s: ClientState, url: string, prefix: string, init: InitOutcome,
                             fetch: FetchOutcome, freshId: string, putOk: bool)
    ensures var r := UploadFromUrlStep(bucket, s, url, prefix, init, fetch, freshId, putOk);
      r.1.Some? ==>
        && StartsWith(r.1.value, prefix + "/")
        && r.0.store.objects.Keys == s.store.objects.Keys + {ObjectKey(bucket, r.1.value)}
        && StartsWith(r.0.store.objects[ObjectKey(bucket, r.1.value)].contentType, "image/")
    ensures var r := UploadFromUrlStep(bucket, s, url, prefix, init, fetch, freshId, putOk);
      r.1.None? ==> r.0.store.objects == s.store.objects
  {
  }

  /** `upload_image_from_bytes`: initialise, then store the bytes under
      `prefix/<id><extension>` with the extension's content type. */
  function UploadFromBytesStep(bucket: string, s: ClientState, data: seq<Byte>, prefix: string, extension: string,
                           init: InitOutcome, freshId: string, putOk: bool): (r: (ClientState, Option<string>))
    ensures var s1 := InitializeStep(bucket, s, init);
      r.1.Some? <==> s1.connected && putOk
    ensures r.1.None? ==> r.0 == InitializeStep(bucket, s, init)
    ensures r.1.Some? ==>
      && r.1.value == ObjectName(prefix, freshId, extension)
      && ObjectKey(bucket, r.1.value) in r.0.store.objects
      && var obj := r.0.store.objects[ObjectKey(bucket, r.1.value)];
         obj.data == data && obj.length == |data| && obj.contentType == ContentType(extension)
    ensures r.1.Some? ==>
      r.0 == InitializeStep(bucket, s, init).(store := Put(InitializeStep(bucket, s, init).store, bucket, r.1.value,
                                                          StoredObject(data, |data|, ContentType(extension))))
  {
    var s1 := InitializeStep(bucket, s, init);
    if !s1.connected || !putOk then (s1, None)
    else
      var name := ObjectName(prefix, freshId, extension);
      (s1.(store := Put(s1.store, bucket, name, StoredObject(data, |data|, ContentType(extension)))), Some(name))
  }

  /** `get_image_url`: initialise, then sign the path; with no client, or when
      signing raises (`signed` is `None`), the answer is `None`. */
  function ImageUrlStep(bucket: string, s: ClientState, init: InitOutcome, signed: Option<string>): (r: (ClientState, Option<string>))
    ensures r.0 == InitializeStep(bucket, s, init)
    ensures r.1.Some? <==> r.0.connected && signed.Some?
    ensures r.1.Some? ==> r.1 == signed
  {
    var s1 := InitializeStep(bucket, s, init);
    if !s1.connected then (s1, None) else (s1, signed)
  }

  /** `MinIOClient`: the lazily built client and its bucket. */
  class MinioClient {
    var connected: bool
    var initialized: bool
    /** The server this client talks to. */
    var store: Store
    const bucketName: string

    ghost predicate Valid()
      reads this
    {
      Consistent(State())
    }

    function State(): ClientState
      reads this
    {
      ClientState(connected, initialized, store)
    }

    /** `__init__`: no client yet, not initialised. */
    constructor (bucketName: string, server: Store)
      ensures Valid()
      ensures State() == ClientState(false, false, server) && this.bucketName == bucketName
    {
      this.bucketName := bucketName;
      connected := false;
      initialized := false;
      store := server;
    }

    method EnsureBucketExists(probe: CallOutcome, make: CallOutcome) returns (raised: bool)
      requires Valid()
      modifies this
      ensures Valid()
      ensures (State(), raised) == EnsureBucketStep(bucketName, old(State()), probe, make)
    {
      if !connected {
        return false;
      }
      raised := false;
      match probe {
        case RaisesS3Error =>
        case RaisesOther => raised := true;
        case Completes =>
          if bucketName !in store.buckets {
            match make {
              case Completes => store := store.(buckets := store.buckets + {bucketName});
              case RaisesS3Error =>
              case RaisesOther => raised := true;
            }
          }
      }
    }

    method Initialize(init: InitOutcome)
      requires Valid()
      modifies this
      ensures Valid()
      ensures State() == InitializeStep(bucketName, old(State()), init)
    {
      if initialized {
        return;
      }
      if !init.built {
        return;
      }
      connected := true;
      var raised := EnsureBucketExists(init.probe, init.make);
      if !raised {
        initialized := true;
      }
    }

    method UploadImageFromUrl(url: string, init: InitOutcome, fetch: FetchOutcome,
                              freshId: string, putOk: bool, prefix: string := DefaultPrefix) returns (path: Option<string>)
      requires Valid()
      modifies this
      ensures Valid()
      ensures (State(), path) == UploadFromUrlStep(bucketName, old(State()), url, prefix, init, fetch, freshId, putOk)
    {
      Initialize(init);
      if !connected {
        return None;
      }
      if fetch.FetchFails? || fetch.status >= 400 {
        return None;
      }
      var contentType := fetch.contentType.GetOr("");
      if !StartsWith(contentType, "image/") {
        return None;
      }
      var name := ObjectName(prefix, freshId, ExtensionFromUrl(url));
      if !putOk {
        return None;
      }
      var stored := StoredObject(fetch.body, |fetch.body|, if contentType != "" then contentType else FallbackContentType);
      store := Put(store, bucketName, name, stored);
      path := Some(name);
    }

    method UploadImageFromBytes(data: seq<Byte>, init: InitOutcome, freshId: string, putOk: bool,
                                prefix: string := DefaultPrefix, extension: string := DefaultExtension)
      returns (path: Option<string>)
      requires Valid()
      modifies this
      ensures Valid()
      ensures (State(), path) == UploadFromBytesStep(bucketName, old(State()), data, prefix, extension, init, freshId, putOk)
    {
      Initialize(init);
      if !connected || !putOk {
        return None;
      }
      var name := ObjectName(prefix, freshId, extension);
      store := Put(store, bucketName, name, StoredObject(data, |data|, ContentType(extension)));
      path := Some(name);
    }

    method GetImageUrl(objectName: string, init: InitOutcome, signed: Option<string>) returns (url: Option<string>)
      requires Valid()
      modifies this
      ensures Valid()
      ensures (State(), url) == ImageUrlStep(bucketName, old(State()), init, signed)
    {
      Initialize(init);
      if !connected {
        return None;
      }
      url := signed;
    }
  }
}
