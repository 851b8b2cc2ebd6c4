/**
 * The pipeline object: a store with the two buckets `ct` and `files`, a
 * pool of scratch buffers and the configured resizer. `FetchResize`
 * fetches a source (from the cache, else from the origin, filling the
 * cache), hands it to the resizer and returns the content type.
 *
 * Collaborators that are not modelled are parameters: `digest` stands for
 * SHA-1, `images` for the image library behind the JPEG strategy, the
 * per-call `reply` for the origin's answer and `storeFails` for the
 * storage engine refusing a write.
 */
module Domain {
  import opened Common
  import opened Buffers
  import opened Text
  import opened Strategies
  import opened Dispatch
  import opened Cache

  /** What one `FetchResize` call does: the content type and error it
   *  returns, the bytes it appends to the caller's buffer, the store
   *  afterwards, and whether it sent a request to the origin. */
  datatype Served = Served(contentType: string, output: seq<byte>, err: Option<Error>,
                           store: Store, requested: bool)

  /**
   * `FetchResize` on store `s` for the URL whose digest is `key`. The scratch
   * buffer is reset first, so the fetch starts from no pending bytes, and
   * whatever the pooled buffer held before plays no part.
   */
  function Serve(s: Store, key: Digest, reply: Exchange, storeFails: bool,
                 resizer: ContentTypeResizer, images: ImageCodec, w: int, h: int): (r: Served)
    ensures r.err.Some? ==> r.contentType == "" && !IsFetchError(r.err.value)
  {
    var f := Cache.Fetch(s, key, [], reply, storeFails);
    if f.err.Some? then
      Served("", [], Some(FetchImage), f.store, f.requested)
    else
      var t := resizer.Apply(images, f.contentType, f.appended, w, h);
      if t.err.Some? then Served("", t.output, t.err, f.store, f.requested)
      else Served(f.contentType, t.output, None, f.store, f.requested)
  }

  /** How one bucket looks when the store file is opened. `Unavailable`: the
   *  storage engine cannot create it (or it exists as a plain value). */
  datatype Slot<V> = Present(entries: map<Digest, V>) | Missing | Unavailable {
    function Contents(): (m: map<Digest, V>)
      ensures Present? ==> m == entries
      ensures !Present? ==> m == map[]
    {
      if Present? then entries else map[]
    }
  }

  /** The outcome of opening the store file. */
  datatype Opening = OpenFailed | Opened(files: Slot<seq<byte>>, ct: Slot<string>)

  class Domain {
    const resizer: ContentTypeResizer
    const images: ImageCodec
    const digest: string -> Digest
    const pool: BufferPool
    var ct: map<Digest, string>
    var files: map<Digest, seq<byte>>
    /** The number of requests sent to the origin so far. */
    ghost var requests: nat

    function Cached(): Store
      reads this
    {
      Store(ct, files)
    }

    constructor Init(resizer: ContentTypeResizer, images: ImageCodec, digest: string -> Digest,
                     ct: map<Digest, string>, files: map<Digest, seq<byte>>)
      ensures this.resizer == resizer && this.images == images && this.digest == digest
      ensures this.ct == ct && this.files == files && requests == 0
      ensures fresh(pool) && pool.idle == {}
    {
      this.resizer := resizer;
      this.images := images;
      this.digest := digest;
      this.pool := new BufferPool();
      this.ct := ct;
      this.files := files;
      this.requests := 0;
    }

    /**
     * `New`: open the store and make sure both buckets exist, creating the
     * missing ones (`files` first, then `ct`, in one transaction). Any
     * failure returns an error and no domain.
     */
    static method New(resizer: ContentTypeResizer, images: ImageCodec, digest: string -> Digest,
                      opening: Opening)
      returns (d: Domain?, err: Option<Error>)
      ensures (d == null) <==> err.Some?
      ensures opening.OpenFailed? ==> err == Some(OpenStore)
      ensures opening.Opened? ==>
        (err.Some? <==> opening.files.Unavailable? || opening.ct.Unavailable?)
      ensures err.Some? ==> err == Some(OpenStore) || err == Some(CreateBucket)
      ensures opening.Opened? && err.Some? ==> err == Some(CreateBucket)
      ensures d != null ==>
        && opening.Opened?
        && fresh(d) && fresh(d.pool) && d.pool.idle == {}
        && d.resizer == resizer && d.images == images && d.digest == digest
        && d.files == opening.files.Contents() && d.ct == opening.ct.Contents()
        && d.requests == 0
    {
      if opening.OpenFailed? {
        return null, Some(OpenStore);
      }
      if opening.files.Unavailable? {
        return null, Some(CreateBucket);
      }
      if opening.ct.Unavailable? {
        return null, Some(CreateBucket);
      }
      d := new Domain.Init(resizer, images, digest, opening.ct.Contents(), opening.files.Contents());
      err := None;
    }

    /**
     * `fetch`: look the URL's digest up in both buckets; on a miss, ask the
     * origin, append a 200 body to `buf` and store the lower-cased type and
     * the buffer's bytes together. A refused store write is only logged.
     */
    method Fetch(url: string, buf: Buffer, reply: Exchange, storeFails: bool)
      returns (contentType: string, err: Option<Error>)
      requires buf.Valid()
      modifies this, buf
      ensures buf.Valid()
      ensures var f := Cache.Fetch(old(Cached()), digest(url), old(buf.Unread()), reply, storeFails);
        && contentType == f.contentType && err == f.err
        && Cached() == f.store
        && buf.Unread() == old(buf.Unread()) + f.appended
        && requests == old(requests) + (if f.requested then 1 else 0)
    {
      var key := digest(url);
      if key in ct {
        if key in files {
          contentType := ct[key];
          buf.Write(files[key]);
          return contentType, None;
        }
      }
      if reply.MalformedRequest? {
        return "", Some(InvalidRequest);
      }
      requests := requests + 1;
      if reply.TransportFailure? {
        return "", Some(Transport);
      }
      if reply.status != StatusOK {
        // the error returned is the one from sending the request, which is nil here
        return "", None;
      }
      contentType := ToLower(reply.header);
      buf.Write(reply.body);
      if reply.bodyFails {
        return "", Some(BodyCopy);
      }
      if !storeFails {
        var stored := buf.Bytes();
        ct := ct[key := contentType];
        files := files[key := stored];
      }
      err := None;
    }

    /**
     * `FetchResize`: borrow and reset a scratch buffer, fetch into it, resize
     * into `buf`, and give the scratch buffer back on every path. Fetch
     * errors become `FetchImage`; resizer errors are returned unchanged.
     * The frame lets idle buffers other than the borrowed one change: what a
     * pooled buffer holds is unspecified and every borrower resets it first.
     */
    method FetchResize(buf: Buffer, url: string, w: int, h: int, reply: Exchange, storeFails: bool)
      returns (contentType: string, err: Option<Error>)
      requires buf.Valid() && buf !in pool.idle
      modifies this, pool, pool.idle, buf
      ensures buf.Valid() && buf !in pool.idle
      ensures var r := Serve(old(Cached()), digest(url), reply, storeFails, resizer, images, w, h);
        && contentType == r.contentType && err == r.err
        && Cached() == r.store
        && buf.Unread() == old(buf.Unread()) + r.output
        && requests == old(requests) + (if r.requested then 1 else 0)
      ensures old(pool.idle) != {} ==> pool.idle == old(pool.idle)
      ensures old(pool.idle) == {} ==> |pool.idle| == 1
      ensures fresh(pool.idle - old(pool.idle))
    {
      var bufSrc := pool.Get();
      bufSrc.Reset();
      contentType, err := FetchResizeWith(bufSrc, buf, url, w, h, reply, storeFails);
      // `defer d.pool.Put(bufSrc)` in Go: runs on every path
      pool.Put(bufSrc);
    }

    /** The part of `FetchResize` between borrowing the reset scratch buffer
     *  `bufSrc` and returning it. */
    method FetchResizeWith(bufSrc: Buffer, buf: Buffer, url: string, w: int, h: int, reply: Exchange, storeFails: bool)
      returns (contentType: string, err: Option<Error>)
      requires bufSrc.Valid() && bufSrc.Unread() == [] && buf.Valid() && bufSrc != buf
      modifies this, bufSrc, buf
      ensures buf.Valid()
      ensures var r := Serve(old(Cached()), digest(url), reply, storeFails, resizer, images, w, h);
        && contentType == r.contentType && err == r.err
        && Cached() == r.store
        && buf.Unread() == old(buf.Unread()) + r.output
        && requests == old(requests) + (if r.requested then 1 else 0)
    {
      ghost var s0 := Cached();
      ghost var f := Cache.Fetch(s0, digest(url), [], reply, storeFails);
      var fetchedType, fetchErr := Fetch(url, bufSrc, reply, storeFails);
      assert fetchedType == f.contentType && bufSrc.Unread() == f.appended;
      if fetchErr.Some? {
        contentType, err := "", Some(FetchImage);
      } else {
        var resizeErr := resizer.Resize(images, fetchedType, bufSrc, buf, w, h);
        if resizeErr.Some? {
          contentType, err := "", resizeErr;
        } else {
          contentType, err := fetchedType, None;
        }
      }
    }
  }

  /** No fetch error reaches the caller: each one becomes `FetchImage`, and
   *  the resizer is not called. */
  lemma FetchErrorsBecomeFetchImage(s: Store, key: Digest, reply: Exchange, storeFails: bool,
                                    resizer: ContentTypeResizer, images: ImageCodec, w: int, h: int)
    requires Cache.Fetch(s, key, [], reply, storeFails).err.Some?
    ensures Serve(s, key, reply, storeFails, resizer, images, w, h)
         == Served("", [], Some(FetchImage), s, Cache.Fetch(s, key, [], reply, storeFails).requested)
  {
  }

  /** A resizer error is returned as it is, after what the resizer wrote. */
  lemma ResizerErrorPassesThrough(s: Store, key: Digest, reply: Exchange, storeFails: bool,
                                  resizer: ContentTypeResizer, images: ImageCodec, w: int, h: int)
    requires Cache.Fetch(s, key, [], reply, storeFails).err.None?
    ensures var f := Cache.Fetch(s, key, [], reply, storeFails);
      var t := resizer.Apply(images, f.contentType, f.appended, w, h);
      var r := Serve(s, key, reply, storeFails, resizer, images, w, h);
      && r.output == t.output && r.err == t.err
      && (t.err.None? ==> r.contentType == f.contentType)
  {
  }

  /** On success the caller gets the fetched content type, the one the resizer dispatched on. */
  lemma SuccessReturnsFetchedType(s: Store, key: Digest, reply: Exchange, storeFails: bool,
                                  resizer: ContentTypeResizer, images: ImageCodec, w: int, h: int)
    requires Serve(s, key, reply, storeFails, resizer, images, w, h).err.None?
    ensures var f := Cache.Fetch(s, key, [], reply, storeFails);
      var r := Serve(s, key, reply, storeFails, resizer, images, w, h);
      && f.err.None?
      && r.contentType == f.contentType
      && r.output == resizer.Apply(images, f.contentType, f.appended, w, h).output
  {
  }

  /** The cache is keyed by the URL alone: the requested size changes neither
   *  the store nor whether the origin is asked. */
  lemma CacheEffectIgnoresSize(s: Store, key: Digest, reply: Exchange, storeFails: bool,
                               resizer: ContentTypeResizer, images: ImageCodec,
                               w1: int, h1: int, w2: int, h2: int)
    ensures var r1 := Serve(s, key, reply, storeFails, resizer, images, w1, h1);
      var r2 := Serve(s, key, reply, storeFails, resizer, images, w2, h2);
      r1.store == r2.store && r1.requested == r2.requested
  {
  }

  /**
   * Once a call has left a complete entry for its URL, a repeated call with
   * any size makes no request and changes nothing in the store; with the
   * same size it returns the same content type, bytes and error.
   */
  lemma {:induction false} RepeatIsServedFromCache(s: Store, key: Digest, reply: Exchange, storeFails: bool,
                                                   resizer: ContentTypeResizer, images: ImageCodec,
                                                   w: int, h: int, w2: int, h2: int,
                                                   reply2: Exchange, storeFails2: bool)
    requires Lookup(Serve(s, key, reply, storeFails, resizer, images, w, h).store, key).Some?
    ensures var r1 := Serve(s, key, reply, storeFails, resizer, images, w, h);
      var r2 := Serve(r1.store, key, reply2, storeFails2, resizer, images, w2, h2);
      && !r2.requested && r2.store == r1.store
      && (w2 == w && h2 == h ==> r2 == Served(r1.contentType, r1.output, r1.err, r1.store, false))
  {
    var f1 := Cache.Fetch(s, key, [], reply, storeFails);
    assert Lookup(f1.store, key).Some?;
    FetchAfterFillHits(s, key, reply, storeFails, [], reply2, storeFails2);
  }

  /**
   * With the standard wiring, an origin answering 500 to an uncached URL
   * produces a successful, empty result with an empty content type, and
   * nothing is cached.
   */
  lemma ServerErrorServesEmptyResult(s: Store, key: Digest, header: string, body: seq<byte>, bodyFails: bool,
                                     storeFails: bool, images: ImageCodec, w: int, h: int)
    requires Lookup(s, key).None?
    ensures Serve(s, key, Response(500, header, body, bodyFails), storeFails, StandardResizer(), images, w, h)
         == Served("", [], None, s, true)
  {
    assert "" !in StandardResizer().mapping;
  }

  /** On a miss answered with 200, the resizer dispatches on the lower-cased
   *  header and transforms exactly the response body. */
  lemma OkResponseDispatchesOnLoweredType(s: Store, key: Digest, header: string, body: seq<byte>,
                                          storeFails: bool, resizer: ContentTypeResizer,
                                          images: ImageCodec, w: int, h: int)
    requires Lookup(s, key).None?
    ensures var r := Serve(s, key, Response(StatusOK, header, body, false), storeFails, resizer, images, w, h);
      var t := resizer.Apply(images, ToLower(header), body, w, h);
      && r.output == t.output && r.err == t.err && r.requested
      && (t.err.None? ==> r.contentType == ToLower(header))
  {
    OkResponseFillsCache(s, key, [], header, body, storeFails);
  }

  /** A JPEG whose header is sent in capitals is still given to the JPEG
   *  strategy by the standard wiring. */
  lemma UpperCaseJpegHeaderUsesJpeg(s: Store, key: Digest, body: seq<byte>, storeFails: bool,
                                    images: ImageCodec, w: int, h: int)
    requires Lookup(s, key).None?
    ensures var r := Serve(s, key, Response(StatusOK, "IMAGE/JPEG", body, false), storeFails,
                           StandardResizer(), images, w, h);
      var t := Jpeg.Apply(images, "image/jpeg", body, w, h);
      r.output == t.output && r.err == t.err
  {
    UpperCaseJpegLowers();
    OkResponseDispatchesOnLoweredType(s, key, "IMAGE/JPEG", body, storeFails, StandardResizer(), images, w, h);
  }
}
