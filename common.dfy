/**
 * Values shared by every part of the resizer's domain package: bytes, the
 * optional-value wrapper used for Go's `error` results, and the error kinds
 * the package can return.
 */
module Common {

  /** One octet of a buffer, an HTTP body or a stored payload. */
  type byte = x: int | 0 <= x < 256

  datatype Option<+T> = None | Some(value: T)

  /**
   * The errors the package produces or passes through.
   * FetchImage is `ErrFetchImage`, the only fetch error a caller of
   * `FetchResize` ever sees. The cache-miss signal `ErrHasNoCache` never
   * leaves `fetch`; the model expresses it as `Cache.Lookup` returning None.
   */
  datatype Error =
    | FetchImage        // ErrFetchImage
    | InvalidRequest    // http.NewRequest rejects the URL
    | Transport         // the HTTP client's Do fails
    | BodyCopy          // copying the response body into the buffer fails
    | DecodeImage       // the image library cannot decode the source
    | EncodeImage       // the JPEG encoder fails
    | OpenStore         // the store file cannot be opened
    | CreateBucket      // a bucket cannot be created when the store is opened

  /** The errors that come out of `fetch` itself (before any resizing). */
  predicate IsFetchError(e: Error)
  {
    e.InvalidRequest? || e.Transport? || e.BodyCopy?
  }
}
