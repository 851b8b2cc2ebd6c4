# Resizer domain: cached fetch, content-type dispatch and identity strategy

This Dafny project models the core of go-media-resizer's `domain` package. The package serves one
request as follows. `Domain.FetchResize` borrows a scratch buffer from a pool and resets it. It then
fetches the source image for a URL. It hands the content type and the bytes to the configured
resizer, and returns the content type. The scratch buffer goes back to the pool on every path.

`fetch` first looks in a content-addressed store. The store holds two buckets, `ct` and `files`,
both keyed by the SHA-1 digest of the URL. The lookup is a hit only when both buckets hold the key.
On a miss, `fetch` sends a GET to the origin. A 200 response has its `Content-Type` lower-cased
(media types are case-insensitive, section 8.3.1 of RFC 9110), and its body is appended to the
buffer. Both buckets are then filled in one transaction. If that write fails, the failure is only
logged.

`ContentTypeResizer` picks a strategy by exact lookup of the content type, falling back to a
default. `Proxy` copies its input to its output.

Files:

- `common.dfy`: bytes, `Option` and the package's error kinds.
- `buffers.dfy`: `Buffer` (a byte buffer with a read offset, as `bytes.Buffer`) and `BufferPool` (as `sync.Pool`).
- `text.dfy`: lower-casing of the header value.
- `strategies.dfy`: the `Proxy` and `Jpeg` strategies behind the `Resizer` interface.
- `dispatch.dfy`: `ContentTypeResizer` and the program's standard wiring.
- `cache.dfy`: the store, its lookup and fill, and the semantics of `fetch` as a function.
- `domain.dfy`: the `Domain` class (`New`, `Fetch`, `FetchResize`) and the semantics of `FetchResize` as a function.

The class methods work on buffers and on the two map fields `ct` and `files`. Each one is proved
against a pure function of the old state: `Domain.Fetch` against `Cache.Fetch`, `Domain.FetchResize`
against `Serve`, and the strategies against `Apply`. The lemmas prove the cache and dispatch
properties about those functions. The ghost field `requests` counts the requests sent to the origin,
so that "a hit does not touch the network" can be stated.

Collaborators that are not modelled appear as parameters:

- `digest` is SHA-1.
- `images` (an `ImageCodec`) is the image library behind the JPEG strategy.
- `reply` (an `Exchange`) is the origin's answer to this call's request: a malformed request, a transport failure, or a status, header and body, possibly with a failed body copy.
- `storeFails` says whether the storage engine refuses the fill transaction.
- `Opening` says what `New` finds when it opens the store file.

## A non-200 answer is not an error

On a status other than 200, `fetch` returns `"", err` (resizer/domain/domain.go:130-131). At that
point `err` is the result of `Do` (resizer/domain/domain.go:121), which was already checked to be
nil. So `fetch` returns an empty content type and no error, and it fills nothing. `FetchResize`
then resizes an empty buffer under the content type `""`. With the program's wiring (`Proxy` as the
default), the caller gets a successful empty result. The model does the same: see
`Cache.NonOkStatusIsNotAnError` and `Domain.ServerErrorServesEmptyResult`.

Every error that `fetch` does return reaches the caller of `FetchResize` as `ErrFetchImage`
(`FetchImage` here); the underlying error is only logged. The fill stores the whole unread content
of the buffer (`buf.Bytes()`), not just the body. `FetchResize` resets the buffer first, so the two
are the same there.

## Model

| member | source | states |
|---|---|---|
| `Cache.Lookup` | resizer/domain/domain.go:95-110 | a hit exactly when both the `ct` and `files` buckets hold the key, returning the stored content type and payload; a half-written entry is a miss |
| `Cache.Fill` | resizer/domain/domain.go:141-151 | one transaction puts both halves under the key, so a lookup of that key then hits with exactly them; every other key keeps its entry |
| `Cache.Fetch` | resizer/domain/domain.go:88-157 | every error is a fetch-level error and comes with an empty content type and an unchanged store; the store after a call is either unchanged or the old store filled under the key with the returned type and the buffer's bytes |
| `Cache.HitSkipsOrigin` | resizer/domain/domain.go:95-114 | on a hit: the stored content type, exactly the stored payload appended, no error, no request, no write, whatever the origin would answer |
| `Cache.PartialEntryIsMiss` | resizer/domain/domain.go:95-104 | a key in only one bucket is a miss, and the origin is asked unless the request cannot be built |
| `Cache.OkResponseFillsCache` | resizer/domain/domain.go:130-156 | on a miss with status 200: the lower-cased header is returned, the body is appended, and both buckets are set together to that type and the buffer's bytes, or neither is set when the write fails, still with no error |
| `Cache.EarlyExitsKeepStore` | resizer/domain/domain.go:116-139 | request-build error, transport error, non-200 status and body-copy error leave both buckets unchanged and return `""`; only the non-200 exit has no error |
| `Cache.NonOkStatusIsNotAnError` | resizer/domain/domain.go:121-132 | a miss answered with any status other than 200 yields `("", no error)`, appends nothing and fills nothing |
| `Cache.FetchAfterFillHits` | resizer/domain/domain.go:95-156 | starting from an empty buffer, as `FetchResize` always does, after a fetch that leaves a complete entry the next fetch of the same key is a hit returning the same type and bytes, with no request, whatever the origin would answer now |
| `Cache.CompleteEntriesAreWriteOnce` | resizer/domain/domain.go:95-151 | a fetch never changes an entry that was already complete, under any key |
| `Cache.FetchOnlyAddsKeys` | resizer/domain/domain.go:141-151 | keys are never removed from either bucket |
| `Cache.FetchKeepsTypesLower` | resizer/domain/domain.go:135-151 | if every stored content type is lower-case, this stays true after a fetch, and so is the returned type |
| `Text.LowerChar` | resizer/domain/domain.go:135 | the result is never an upper-case letter; an upper-case letter maps to its lower-case form and every other character to itself |
| `Text.ToLower` | resizer/domain/domain.go:135 | same length, each character lower-cased in place |
| `Text.ToLowerIsLower` | resizer/domain/domain.go:135 | the lower-cased header contains no upper-case letter |
| `Text.ToLowerIdempotent` | resizer/domain/domain.go:135 | lower-casing an already lower-cased header changes nothing |
| `Text.ToLowerKeepsLower` | resizer/domain/domain.go:135 | lower-casing a header that has no upper-case letter returns it unchanged |
| `Text.ToLowerIgnoresCase` | resizer/domain/domain.go:135 | headers that differ only in letter case normalise to the same content type |
| `Text.UpperCaseJpegLowers` | resizer/domain/domain.go:135 | `IMAGE/JPEG` normalises to `image/jpeg` |
| `Domain.Serve` | resizer/domain/domain.go:70-86 | an error result always has an empty content type and is never a fetch-level error |
| `Domain.Slot.Contents` | resizer/domain/domain.go:47-57 | a bucket that already exists keeps its entries; a newly created one is empty |
| `Domain.Domain.Init` | resizer/domain/domain.go:62-67 | the domain holds the given resizer, digest, image library and bucket contents, with an empty buffer pool |
| `Domain.Domain.New` | resizer/domain/domain.go:35-68 | open failure gives `OpenStore`; a bucket that cannot be created gives `CreateBucket`; any error returns no domain; success returns a fresh domain whose two buckets exist (existing entries kept, missing ones empty) |
| `Domain.Domain.Fetch` | resizer/domain/domain.go:88-157 | the returned type, error, bytes appended to `buf`, new bucket contents and request count are exactly those of `Cache.Fetch` on the old buckets, the URL's digest and `buf`'s unread bytes |
| `Domain.Domain.FetchResize` | resizer/domain/domain.go:70-86 | the result, the bytes appended to `buf`, the new buckets and the request count are those of `Serve` on the old buckets; the scratch buffer is idle in the pool again on every path and the pool is otherwise unchanged (one new buffer if it was empty, and any buffer added is new, so a caller's own output buffers never become idle) |
| `Domain.Domain.FetchResizeWith` | resizer/domain/domain.go:75-85 | from a reset scratch buffer: fetch, then resize into `buf` only when the fetch succeeded, with results as `Serve` |
| `Domain.FetchErrorsBecomeFetchImage` | resizer/domain/domain.go:75-79 | any fetch error becomes `FetchImage` with an empty type and no output, and the resizer is not called |
| `Domain.ResizerErrorPassesThrough` | resizer/domain/domain.go:81-85 | after a successful fetch, the caller gets exactly the resizer's output and error |
| `Domain.SuccessReturnsFetchedType` | resizer/domain/domain.go:75-85 | on success the returned content type is the one `fetch` produced and the resizer dispatched on |
| `Domain.CacheEffectIgnoresSize` | resizer/domain/domain.go:70-93 | the store afterwards and whether the origin was asked do not depend on `w` or `h`: the key comes from the URL alone |
| `Domain.RepeatIsServedFromCache` | resizer/domain/domain.go:70-114 | once a call has left a complete entry for the URL, a repeated call with any size and any origin answer makes no request and changes nothing; with the same size it returns the same type, bytes and error |
| `Domain.ServerErrorServesEmptyResult` | resizer/domain/domain.go:116-132 | with the standard wiring, a miss answered with 500 gives a successful empty result with content type `""` and caches nothing |
| `Domain.OkResponseDispatchesOnLoweredType` | resizer/domain/domain.go:135-137 | on a miss answered with 200, the resizer gets the lower-cased header and exactly the body |
| `Domain.UpperCaseJpegHeaderUsesJpeg` | resizer/resizer.go:41-47 | with the standard wiring, an `IMAGE/JPEG` response is transformed by the JPEG strategy |
| `Dispatch.ContentTypeResizer.Select` | resizer/domain/resizer_ct.go:17-21 | a registered content type selects its registered strategy; any other selects `DefaultResizer` |
| `Dispatch.ContentTypeResizer.Apply` | resizer/domain/resizer_ct.go:17-24 | the selected strategy never reads more than the input holds |
| `Dispatch.ContentTypeResizer.Resize` | resizer/domain/resizer_ct.go:17-24 | the selected strategy runs on the unchanged `ct`, buffers, `w` and `h`, and its error is returned unchanged |
| `Dispatch.StandardResizer` | resizer/resizer.go:41-47 | `image/jpeg` and `image/jpg` are registered, and `Proxy` is the default |
| `Dispatch.RegisteredTypeUsesItsStrategy` | resizer/domain/resizer_ct.go:17-23 | a registered type has the effect of its registered strategy on the same arguments |
| `Dispatch.UnregisteredTypeUsesDefault` | resizer/domain/resizer_ct.go:17-23 | an unregistered type has the effect of the default strategy on the same arguments |
| `Dispatch.EmptyMappingIsDefault` | resizer/domain/resizer_ct.go:17-23 | a dispatcher with nothing registered behaves exactly as its default |
| `Dispatch.StandardRouting` | resizer/resizer.go:41-47 | JPEG types go to the JPEG strategy; `image/png` falls back to an identity copy |
| `Dispatch.SelectionIsExact` | resizer/domain/resizer_ct.go:18 | no case folding, parameter stripping or prefix match: `IMAGE/JPEG`, `image/jpeg; charset=binary` and `image/` all go to the default |
| `Strategies.Strategy.Apply` | resizer/domain/resizer.go:7-10 | a strategy reads at most its input; `Proxy` never fails; the only errors are decode and encode failures |
| `Strategies.Strategy.Resize` | resizer/domain/resizer.go:7-10 | running a strategy on two buffers appends its output, consumes what it read and returns its error |
| `Strategies.ProxyResize` | resizer/domain/resizer_proxy.go:16-22 | the output buffer gets its old contents followed by exactly the unread input; the input is drained; no error; from an empty output the output equals the input |
| `Strategies.JpegResize` | resizer/domain/resizer_jpg.go:19-34 | a decode failure writes nothing and returns `DecodeImage`; an encode failure returns `EncodeImage` after what was written; success appends the encoded image |
| `Strategies.ProxyCopiesInput` | resizer/domain/resizer_proxy.go:15-22 | the identity strategy outputs exactly its input, consumes all of it and never fails |
| `Strategies.StrategiesIgnoreContentType` | resizer/domain/resizer_proxy.go:16-17 | no strategy depends on `ct`, and `Proxy` does not depend on `w` or `h` either |
| `Buffers.Buffer.constructor` | resizer/domain/domain.go:36-40 | a new buffer is empty |
| `Buffers.Buffer.Unread` | resizer/domain/domain.go:146 | the unread part is what lies past the read offset |
| `Buffers.Buffer.Reset` | resizer/domain/domain.go:72 | a reset buffer is empty whatever it held |
| `Buffers.Buffer.Write` | resizer/domain/domain.go:107 | writing appends exactly the given bytes to the unread part |
| `Buffers.Buffer.Bytes` | resizer/domain/domain.go:146 | returns the unread bytes without consuming them |
| `Buffers.Buffer.Next` | resizer/domain/resizer_jpg.go:20 | consumes a prefix of at most the requested length |
| `Buffers.Buffer.WriteTo` | resizer/domain/resizer_proxy.go:17 | copies all unread bytes to the other buffer, drains this one and never fails |
| `Buffers.BufferPool.constructor` | resizer/domain/domain.go:36-40 | a new pool holds no idle buffer; buffers are made on demand by `Get` |
| `Buffers.BufferPool.Get` | resizer/domain/domain.go:71 | hands out an idle buffer and removes it from the pool, or a new buffer when none is idle |
| `Buffers.BufferPool.Put` | resizer/domain/domain.go:73 | the returned buffer is idle again |

## Left out

- The HTTP client, request contexts, cancellation and timeouts are left out: the origin is the per-call `Exchange`. Draining and closing the response body (resizer/domain/domain.go:125-128) is not modelled either.
- SHA-1 is left out. The key is `digest(url)` for an arbitrary deterministic function into 20-byte values. That function may map two URLs to the same key, as SHA-1 can; every property is stated per key, so such a collision makes two URLs share one cache entry and changes nothing else.
- The bbolt storage engine is left out: the open timeout, transactions beyond "both puts or neither", and the file handle that stays open when `New` fails. Its failures are the oracles `Opening` and `storeFails`.
- Image decoding, Lanczos resampling (floating point) and JPEG encoding are the opaque `ImageCodec`. Nothing is proved about the images they produce.
- Logging is left out (resizer/domain/domain.go:77, 152-154). The logged fill failure has no other effect.
- Concurrency is left out: concurrent requests, and `sync.Pool` being shared and dropping idle buffers at will. The model borrows one buffer per call from a sequential pool.
- Text.LowerChar: maps only the ASCII letters A-Z. Go's `unicode.ToLower` also maps non-ASCII letters, which the model leaves unchanged. This can change dispatch: Go lower-cases the header `İMAGE/JPEG` (U+0130 first) to `image/jpeg` and selects the JPEG strategy, while the model keeps `İ` and selects `Proxy`.
- Text.ToLower: inherits the ASCII-only mapping of `Text.LowerChar`, so it is weaker than Go's `strings.ToLower` on non-ASCII headers.
- Strategies.ProxyResize: the error branch of resizer/domain/resizer_proxy.go:17-19 is never taken. A copy from one in-memory buffer to another cannot report an error, and a buffer growing past memory (a panic) is not modelled.
- The strategies form the closed set `Proxy | Jpeg`, and `Domain` holds a `ContentTypeResizer`. The program wires it that way (resizer/resizer.go:41-47). A dispatcher nested inside a dispatcher is not modelled.
- The inbound server, query parsing and the `Cache-Control: max-age=3600` response header (section 5.2.2.1 of RFC 9111) are left out. So are flag parsing and process start-up. The facade and main packages are not part of this model.
