/**
 * The resize strategies behind the `Resizer` interface
 * `Resize(ct, inBuf, outBuf, w, h) error`: the identity strategy `Proxy`
 * and the JPEG strategy. JPEG decoding, resampling and encoding happen in
 * an image library that is not part of this model; it is the parameter
 * `codec`, an opaque deterministic function that may fail.
 */
module Strategies {
  import opened Common
  import opened Buffers

  /** What the image library does with one source: how many source bytes it
   *  read, and whether decoding or encoding failed. On an encoding failure
   *  the encoder may already have written part of its output. */
  datatype ImageRun =
    | DecodeFailed(consumed: nat)
    | EncodeFailed(consumed: nat, written: seq<byte>)
    | Encoded(consumed: nat, written: seq<byte>)

  /** decode, resize to exactly w x h, encode at quality 95 */
  type ImageCodec = (seq<byte>, int, int) -> ImageRun

  /** What one strategy call does to its two buffers: it reads `consumed`
   *  bytes of the input, appends `output` to the output, and returns `err`. */
  datatype Run = Run(consumed: nat, output: seq<byte>, err: Option<Error>)

  datatype Strategy = Proxy | Jpeg {

    /** The effect of `Resize` on an input buffer whose unread bytes are `input`. */
    function Apply(codec: ImageCodec, ct: string, input: seq<byte>, w: int, h: int): (r: Run)
      ensures r.consumed <= |input|
      ensures Proxy? ==> r.err == None
      ensures r.err == None || r.err == Some(DecodeImage) || r.err == Some(EncodeImage)
    {
      match this
      case Proxy => Run(|input|, input, None)
      case Jpeg =>
        var run := codec(input, w, h);
        var used := if run.consumed <= |input| then run.consumed else |input|;
        match run
        case DecodeFailed(_) => Run(used, [], Some(DecodeImage))
        case EncodeFailed(_, written) => Run(used, written, Some(EncodeImage))
        case Encoded(_, written) => Run(used, written, None)
    }

    /** Run the strategy on two distinct buffers. */
    method Resize(codec: ImageCodec, ct: string, inBuf: Buffer, outBuf: Buffer, w: int, h: int)
      returns (err: Option<Error>)
      requires inBuf.Valid() && outBuf.Valid() && inBuf != outBuf
      modifies inBuf, outBuf
      ensures inBuf.Valid() && outBuf.Valid()
      ensures var r := Apply(codec, ct, old(inBuf.Unread()), w, h);
        && err == r.err
        && outBuf.Unread() == old(outBuf.Unread()) + r.output
        && inBuf.Unread() == old(inBuf.Unread())[r.consumed..]
    {
      match this
      case Proxy => err := ProxyResize(ct, inBuf, outBuf, w, h);
      case Jpeg => err := JpegResize(codec, ct, inBuf, outBuf, w, h);
    }
  }

  /**
   * `Proxy.Resize`: copy the unread input to the output. The copy runs the
   * input buffer's `WriteTo`, which drains the input and, the output being
   * a buffer too, cannot fail; the error is returned as the copy reports it.
   */
  method ProxyResize(ct: string, inBuf: Buffer, outBuf: Buffer, w: int, h: int)
    returns (err: Option<Error>)
    requires inBuf.Valid() && outBuf.Valid() && inBuf != outBuf
    modifies inBuf, outBuf
    ensures inBuf.Valid() && outBuf.Valid()
    ensures outBuf.Unread() == old(outBuf.Unread()) + old(inBuf.Unread())
    ensures inBuf.Unread() == []
    ensures err == None
    ensures old(outBuf.Unread()) == [] ==> outBuf.Unread() == old(inBuf.Unread())
  {
    var _, copyErr := inBuf.WriteTo(outBuf);
    err := copyErr;
  }

  /** `JPEG.Resize`, with the image library as `codec`. */
  method JpegResize(codec: ImageCodec, ct: string, inBuf: Buffer, outBuf: Buffer, w: int, h: int)
    returns (err: Option<Error>)
    requires inBuf.Valid() && outBuf.Valid() && inBuf != outBuf
    modifies inBuf, outBuf
    ensures inBuf.Valid() && outBuf.Valid()
    ensures var r := Jpeg.Apply(codec, ct, old(inBuf.Unread()), w, h);
      && err == r.err
      && outBuf.Unread() == old(outBuf.Unread()) + r.output
      && inBuf.Unread() == old(inBuf.Unread())[r.consumed..]
  {
    var input := inBuf.Bytes();
    var run := codec(input, w, h);
    var _ := inBuf.Next(run.consumed);
    match run
    case DecodeFailed(_) =>
      err := Some(DecodeImage);
    case EncodeFailed(_, written) =>
      outBuf.Write(written);
      err := Some(EncodeImage);
    case Encoded(_, written) =>
      outBuf.Write(written);
      err := None;
  }

  /** The identity strategy hands back exactly its input, drains it, and never fails. */
  lemma ProxyCopiesInput(codec: ImageCodec, ct: string, input: seq<byte>, w: int, h: int)
    ensures Proxy.Apply(codec, ct, input, w, h) == Run(|input|, input, None)
  {
  }

  /** Neither strategy looks at the content type, and Proxy ignores the size too. */
  lemma StrategiesIgnoreContentType(s: Strategy, codec: ImageCodec, ct1: string, ct2: string,
                                    input: seq<byte>, w: int, h: int, w2: int, h2: int)
    ensures s.Apply(codec, ct1, input, w, h) == s.Apply(codec, ct2, input, w, h)
    ensures Proxy.Apply(codec, ct1, input, w, h) == Proxy.Apply(codec, ct2, input, w2, h2)
  {
  }
}
