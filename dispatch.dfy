/**
 * `ContentTypeResizer`: picks a strategy by exact lookup of the content
 * type in `mapping`, falls back to `defaultResizer`, and forwards the call.
 */
module Dispatch {
  import opened Common
  import opened Buffers
  import opened Strategies

  datatype ContentTypeResizer = ContentTypeResizer(mapping: map<string, Strategy>, defaultResizer: Strategy) {

    /** The strategy that handles `ct`: exact key match, else the default. */
    function Select(ct: string): (s: Strategy)
      ensures ct in mapping ==> s == mapping[ct]
      ensures ct !in mapping ==> s == defaultResizer
    {
      if ct in mapping then mapping[ct] else defaultResizer
    }

    /** The effect of `Resize`: that of the selected strategy on the same arguments. */
    function Apply(codec: ImageCodec, ct: string, input: seq<byte>, w: int, h: int): (r: Run)
      ensures r.consumed <= |input|
    {
      Select(ct).Apply(codec, ct, input, w, h)
    }

    /** Choose the strategy for `ct` and delegate to it; its error is returned as is. */
    method Resize(codec: ImageCodec, ct: string, inBuf: Buffer, outBuf: Buffer, w: int, h: int)
      returns (err: Option<Error>)
      requires inBuf.Valid() && outBuf.Valid() && inBuf != outBuf
      modifies inBuf, outBuf
      ensures inBuf.Valid() && outBuf.Valid()
      ensures var r := Select(ct).Apply(codec, ct, old(inBuf.Unread()), w, h);
        && err == r.err
        && outBuf.Unread() == old(outBuf.Unread()) + r.output
        && inBuf.Unread() == old(inBuf.Unread())[r.consumed..]
    {
      var resizer: Strategy;
      if ct in mapping {
        resizer := mapping[ct];
      } else {
        resizer := defaultResizer;
      }
      err := resizer.Resize(codec, ct, inBuf, outBuf, w, h);
    }
  }

  /** The wiring the program starts with: both JPEG spellings go to Jpeg, all else to Proxy. */
  function StandardResizer(): (c: ContentTypeResizer)
    ensures c.mapping.Keys == {"image/jpeg", "image/jpg"}
    ensures c.defaultResizer == Proxy
  {
    ContentTypeResizer(map["image/jpeg" := Jpeg, "image/jpg" := Jpeg], Proxy)
  }

  /** A registered content type is handled by its registered strategy, with unchanged arguments. */
  lemma RegisteredTypeUsesItsStrategy(c: ContentTypeResizer, codec: ImageCodec, ct: string,
                                      input: seq<byte>, w: int, h: int)
    requires ct in c.mapping
    ensures c.Apply(codec, ct, input, w, h) == c.mapping[ct].Apply(codec, ct, input, w, h)
  {
  }

  /** An unregistered content type is handled by the default strategy, with unchanged arguments. */
  lemma UnregisteredTypeUsesDefault(c: ContentTypeResizer, codec: ImageCodec, ct: string,
                                    input: seq<byte>, w: int, h: int)
    requires ct !in c.mapping
    ensures c.Apply(codec, ct, input, w, h) == c.defaultResizer.Apply(codec, ct, input, w, h)
  {
  }

  /** A dispatcher with nothing registered behaves exactly as its default strategy. */
  lemma EmptyMappingIsDefault(d: Strategy, codec: ImageCodec, ct: string, input: seq<byte>, w: int, h: int)
    ensures ContentTypeResizer(map[], d).Apply(codec, ct, input, w, h) == d.Apply(codec, ct, input, w, h)
  {
  }

  /** With the standard wiring, JPEG goes to Jpeg while PNG falls back to the identity copy. */
  lemma StandardRouting(codec: ImageCodec, input: seq<byte>, w: int, h: int)
    ensures StandardResizer().Select("image/jpeg") == Jpeg
    ensures StandardResizer().Select("image/jpg") == Jpeg
    ensures StandardResizer().Select("image/png") == Proxy
    ensures StandardResizer().Apply(codec, "image/png", input, w, h) == Run(|input|, input, None)
  {
    assert "image/png" !in StandardResizer().mapping;
  }

  /** Selection is exact: a different letter case or a parameter suffix is not a match. */
  lemma SelectionIsExact()
    ensures StandardResizer().Select("IMAGE/JPEG") == Proxy
    ensures StandardResizer().Select("image/jpeg; charset=binary") == Proxy
    ensures StandardResizer().Select("image/") == Proxy
  {
    assert "IMAGE/JPEG" !in StandardResizer().mapping by {
      assert "IMAGE/JPEG"[0] != "image/jpeg"[0];
      assert "IMAGE/JPEG"[0] != "image/jpg"[0];
    }
    assert "image/jpeg; charset=binary" !in StandardResizer().mapping by {
      assert |"image/jpeg; charset=binary"| != |"image/jpeg"|;
      assert |"image/jpeg; charset=binary"| != |"image/jpg"|;
    }
    assert "image/" !in StandardResizer().mapping by {
      assert |"image/"| != |"image/jpeg"|;
      assert |"image/"| != |"image/jpg"|;
    }
  }
}
