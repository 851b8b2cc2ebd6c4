/**
 * The content-addressed source cache and the `fetch` protocol, as values.
 * The store is two parallel buckets under the same key: `ct` (content type)
 * and `files` (payload). An entry is usable only when both halves exist.
 * The origin is an oracle: `Exchange` is what it would answer to a GET of
 * the URL, and `storeFails` says whether the storage engine refuses the
 * fill transaction (which then writes neither half).
 */
module Cache {
  import opened Common
  import opened Text

  /** A SHA-1 digest of the URL (20 bytes); SHA-1 itself is not modelled. */
  type Digest = s: seq<byte> | |s| == 20 witness seq(20, _ => 0)

  datatype Store = Store(ct: map<Digest, string>, files: map<Digest, seq<byte>>)

  datatype Entry = Entry(contentType: string, payload: seq<byte>)

  /** The store's view of a key: a hit only when both buckets hold it. */
  function Lookup(s: Store, key: Digest): (r: Option<Entry>)
    ensures r.Some? <==> key in s.ct && key in s.files
    ensures r.Some? ==> r.value.contentType == s.ct[key] && r.value.payload == s.files[key]
  {
    if key !in s.ct then None
    else if key !in s.files then None
    else Some(Entry(s.ct[key], s.files[key]))
  }

  /** One transaction putting both halves of an entry. */
  function Fill(s: Store, key: Digest, contentType: string, payload: seq<byte>): (s': Store)
    ensures Lookup(s', key) == Some(Entry(contentType, payload))
    ensures s'.ct.Keys == s.ct.Keys + {key} && s'.files.Keys == s.files.Keys + {key}
    ensures forall k :: k in s.ct && k != key ==> s'.ct[k] == s.ct[k]
    ensures forall k :: k in s.files && k != key ==> s'.files[k] == s.files[k]
  {
    Store(s.ct[key := contentType], s.files[key := payload])
  }

  /** The origin's answer to one GET. With `bodyFails`, `body` is what was
   *  copied before the copy failed. */
  datatype Exchange =
    | MalformedRequest
    | TransportFailure
    | Response(status: int, header: string, body: seq<byte>, bodyFails: bool)

  /** What one `fetch` call does: the content type and error it returns, the
   *  bytes it appends to the caller's buffer, the store afterwards, and
   *  whether it sent a request to the origin. */
  datatype Fetched = Fetched(contentType: string, appended: seq<byte>, err: Option<Error>,
                             store: Store, requested: bool)

  const StatusOK := 200

  /**
   * `fetch` on store `s` for the URL whose digest is `key`, into a buffer
   * whose unread bytes are `pending`. A non-200 status returns the error of
   * the request, which is nil at that point, so it yields ("", no error).
   */
  function Fetch(s: Store, key: Digest, pending: seq<byte>, reply: Exchange, storeFails: bool): (f: Fetched)
    ensures f.err.Some? ==> IsFetchError(f.err.value)
    ensures f.err.Some? ==> f.contentType == "" && f.store == s
    ensures f.store == s || f.store == Fill(s, key, f.contentType, pending + f.appended)
  {
    match Lookup(s, key)
    case Some(e) => Fetched(e.contentType, e.payload, None, s, false)
    case None =>
      match reply
      case MalformedRequest => Fetched("", [], Some(InvalidRequest), s, false)
      case TransportFailure => Fetched("", [], Some(Transport), s, true)
      case Response(status, header, body, bodyFails) =>
        if status != StatusOK then Fetched("", [], None, s, true)
        else if bodyFails then Fetched("", body, Some(BodyCopy), s, true)
        else
          var contentType := ToLower(header);
          var s' := if storeFails then s else Fill(s, key, contentType, pending + body);
          Fetched(contentType, body, None, s', true)
  }

  /** Hit: the stored type and exactly the stored payload, no request, no write. */
  lemma HitSkipsOrigin(s: Store, key: Digest, pending: seq<byte>, reply: Exchange, storeFails: bool)
    requires key in s.ct && key in s.files
    ensures Fetch(s, key, pending, reply, storeFails) == Fetched(s.ct[key], s.files[key], None, s, false)
  {
  }

  /** A half-written entry is a miss: the origin is asked (unless the URL is malformed). */
  lemma PartialEntryIsMiss(s: Store, key: Digest, pending: seq<byte>, reply: Exchange, storeFails: bool)
    requires (key in s.ct) != (key in s.files)
    ensures Lookup(s, key) == None
    ensures Fetch(s, key, pending, reply, storeFails).requested <==> !reply.MalformedRequest?
  {
  }

  /** A 200 response on a miss: the lower-cased header is returned, the body
   *  appended, and, unless the store refuses, both buckets are set together. */
  lemma OkResponseFillsCache(s: Store, key: Digest, pending: seq<byte>, header: string, body: seq<byte>,
                             storeFails: bool)
    requires Lookup(s, key).None?
    ensures var f := Fetch(s, key, pending, Response(StatusOK, header, body, false), storeFails);
      && f.contentType == ToLower(header) && IsLower(f.contentType)
      && f.appended == body && f.err == None && f.requested
      && (!storeFails ==> f.store == Fill(s, key, ToLower(header), pending + body))
      && (storeFails ==> f.store == s)
  {
    ToLowerIsLower(header);
  }

  /** Every exit before the fill leaves both buckets as they were; only the
   *  non-200 exit returns no error. */
  lemma EarlyExitsKeepStore(s: Store, key: Digest, pending: seq<byte>, reply: Exchange, storeFails: bool)
    requires Lookup(s, key).None?
    requires !(reply.Response? && reply.status == StatusOK && !reply.bodyFails)
    ensures var f := Fetch(s, key, pending, reply, storeFails);
      && f.store == s
      && f.contentType == ""
      && (f.err == None <==> reply.Response? && reply.status != StatusOK)
  {
  }

  /** A non-200 status, e.g. 500, is not reported as an error and fills nothing. */
  lemma NonOkStatusIsNotAnError(s: Store, key: Digest, pending: seq<byte>, status: int, header: string,
                                body: seq<byte>, bodyFails: bool, storeFails: bool)
    requires Lookup(s, key).None? && status != StatusOK
    ensures Fetch(s, key, pending, Response(status, header, body, bodyFails), storeFails)
         == Fetched("", [], None, s, true)
  {
  }

  /** After a fill, the next fetch of the same key is a hit that returns what
   *  the first fetch returned, whatever the origin would answer now. */
  lemma {:induction false} FetchAfterFillHits(s: Store, key: Digest, reply: Exchange, storeFails: bool,
                                              pending2: seq<byte>, reply2: Exchange, storeFails2: bool)
    requires Lookup(Fetch(s, key, [], reply, storeFails).store, key).Some?
    ensures var f1 := Fetch(s, key, [], reply, storeFails);
      var f2 := Fetch(f1.store, key, pending2, reply2, storeFails2);
      && f2 == Fetched(f1.contentType, f1.appended, None, f1.store, false)
      && f1.err == None
  {
    var f1 := Fetch(s, key, [], reply, storeFails);
    if Lookup(s, key).None? {
      assert f1.store != s;
      assert [] + f1.appended == f1.appended;
    }
    HitSkipsOrigin(f1.store, key, pending2, reply2, storeFails2);
  }

  /** Complete entries are write-once: a fetch never changes an entry that was a hit. */
  lemma CompleteEntriesAreWriteOnce(s: Store, key: Digest, pending: seq<byte>, reply: Exchange,
                                    storeFails: bool, k: Digest)
    requires Lookup(s, k).Some?
    ensures Lookup(Fetch(s, key, pending, reply, storeFails).store, k) == Lookup(s, k)
  {
  }

  /** Keys are never removed from either bucket. */
  lemma FetchOnlyAddsKeys(s: Store, key: Digest, pending: seq<byte>, reply: Exchange, storeFails: bool)
    ensures var f := Fetch(s, key, pending, reply, storeFails);
      s.ct.Keys <= f.store.ct.Keys && s.files.Keys <= f.store.files.Keys
  {
  }

  predicate TypesLower(s: Store)
  {
    forall k :: k in s.ct ==> IsLower(s.ct[k])
  }

  /** If every stored content type is lower-case, fetching keeps it so. */
  lemma FetchKeepsTypesLower(s: Store, key: Digest, pending: seq<byte>, reply: Exchange, storeFails: bool)
    requires TypesLower(s)
    ensures TypesLower(Fetch(s, key, pending, reply, storeFails).store)
    ensures IsLower(Fetch(s, key, pending, reply, storeFails).contentType)
  {
    if reply.Response? {
      ToLowerIsLower(reply.header);
    }
  }
}
