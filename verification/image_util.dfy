/**
 * `ImageUtil`: capping a picked image at 1024 pixels a side before it is
 * JPEG-compressed and Base64-encoded for the request. Dimensions are
 * computed in exact arithmetic; stream, decoder, compressor and encoder are
 * parameters.
 */
module ImageUtil {
  import opened Wrappers
  import opened Platform

  const MAX_DIMENSION: int := 1024

  type Pos = n: int | n >= 1 witness 1

  datatype Size = Size(width: int, height: int)

  /** The scale factor: the smaller of the two ratios that bring a side to 1024. */
  function Ratio(w: Pos, h: Pos): real {
    var rw := MAX_DIMENSION as real / w as real;
    var rh := MAX_DIMENSION as real / h as real;
    if rw <= rh then rw else rh
  }

  predicate NeedsScaling(w: Pos, h: Pos) {
    !(w <= MAX_DIMENSION && h <= MAX_DIMENSION)
  }

  /** `scaleBitmap`'s target size, each side scaled by the ratio and truncated. */
  function ScaledSize(w: Pos, h: Pos): Size {
    if !NeedsScaling(w, h) then Size(w, h)
    else
      var r := Ratio(w, h);
      Size((w as real * r).Floor, (h as real * r).Floor)
  }

  /** The same size in integer arithmetic: the longer side becomes 1024, the other is cut in proportion. */
  function ScaledSizeInt(w: Pos, h: Pos): Size {
    if !NeedsScaling(w, h) then Size(w, h)
    else if w >= h then Size(MAX_DIMENSION, h * MAX_DIMENSION / w)
    else Size(w * MAX_DIMENSION / h, MAX_DIMENSION)
  }

  /** `floor(a * (k / b))` is the integer quotient `a * k / b`. */
  lemma FloorOfScaled(a: nat, k: nat, b: Pos)
    ensures (a as real * (k as real / b as real)).Floor == a * k / b
  {
    var q := a * k / b;
    var m := a * k % b;
    assert a * k == q * b + m;
    var x := a as real * (k as real / b as real);
    assert x == (a * k) as real / b as real;
    assert x == q as real + m as real / b as real;
    assert 0.0 <= m as real / b as real < 1.0;
  }

  /** Dividing a positive amount by a larger divisor gives a smaller quotient. */
  lemma DivAntitone(k: real, a: real, b: real)
    requires k > 0.0 && a >= b > 0.0
    ensures k / a <= k / b
    ensures a > b ==> k / a < k / b
  {
    assert k / a * a == k == k / b * b;
    assert k / a * b <= k / a * a;
  }

  /** The ratio is the one that brings the longer side to 1024. */
  lemma RatioOfLongerSide(w: Pos, h: Pos)
    ensures w >= h ==> Ratio(w, h) == MAX_DIMENSION as real / w as real
    ensures w < h ==> Ratio(w, h) == MAX_DIMENSION as real / h as real
  {
    var k := MAX_DIMENSION as real;
    if w >= h {
      DivAntitone(k, w as real, h as real);
    } else {
      DivAntitone(k, h as real, w as real);
    }
  }

  /** Scaling a side `a` by `1024 / b`, truncated, is the quotient `a * 1024 / b`. */
  lemma {:induction false} ScaledSide(a: Pos, b: Pos)
    ensures (a as real * (MAX_DIMENSION as real / b as real)).Floor == a * MAX_DIMENSION / b
  {
    FloorOfScaled(a, MAX_DIMENSION, b);
  }

  /** The exact-arithmetic size and the integer formula agree on every input. */
  lemma ScaledSizeIsIntegerFormula(w: Pos, h: Pos)
    ensures ScaledSize(w, h) == ScaledSizeInt(w, h)
  {
    if NeedsScaling(w, h) {
      RatioOfLongerSide(w, h);
      ScaledSide(w, w);
      ScaledSide(h, h);
      ScaledSide(h, w);
      ScaledSide(w, h);
    }
  }

  /**
   * Both sides end at most 1024, neither grows, a small image is kept, and a
   * large one has its longer side at exactly 1024.
   */
  lemma ScaledSizeBounds(w: Pos, h: Pos)
    ensures var s := ScaledSize(w, h);
            && 0 <= s.width <= MAX_DIMENSION && 0 <= s.height <= MAX_DIMENSION
            && s.width <= w && s.height <= h
            && (!NeedsScaling(w, h) ==> s == Size(w, h))
            && (NeedsScaling(w, h) ==> (if w >= h then s.width else s.height) == MAX_DIMENSION)
  {
    ScaledSizeIsIntegerFormula(w, h);
    if NeedsScaling(w, h) {
      if w >= h {
        ShorterSideBound(h, w);
      } else {
        ShorterSideBound(w, h);
      }
    }
  }

  /** Cutting the shorter side `a` in the proportion `1024 / b` keeps it at most `a` and at most 1024. */
  lemma ShorterSideBound(a: Pos, b: Pos)
    requires a <= b && b > MAX_DIMENSION
    ensures 0 <= a * MAX_DIMENSION / b <= a
    ensures a * MAX_DIMENSION / b <= MAX_DIMENSION
  {
    var q := a * MAX_DIMENSION / b;
    assert q * b <= a * MAX_DIMENSION;
    MulMonotone(MAX_DIMENSION, b, a);
    if q > a {
      MulMonotone(a + 1, q, b);
      assert false;
    }
  }

  lemma MulMonotone(x: int, y: int, z: nat)
    requires x <= y
    ensures x * z <= y * z
    ensures x < y && z > 0 ==> x * z < y * z
  {
  }

  /** 2048 x 1024 becomes 1024 x 512, 800 x 600 is kept, and 3000 x 2 scales to a height of 0. */
  lemma ScaledSizeExamples()
    ensures ScaledSize(2048, 1024) == Size(1024, 512)
    ensures ScaledSize(800, 600) == Size(800, 600)
    ensures ScaledSize(3000, 2) == Size(1024, 0)
  {
    ScaledSizeIsIntegerFormula(2048, 1024);
    ScaledSizeIsIntegerFormula(3000, 2);
  }

  // ---------------------------------------------------------------------
  // uriToBase64

  /** `openInputStream`: a stream, a null return, or an exception. */
  datatype OpenResult<S> = Stream(stream: S) | NullStream | OpenThrew

  /** `decodeStream`: a bitmap of positive size, or null for undecodable data. */
  datatype Decoded = Image(width: Pos, height: Pos) | NotAnImage

  /** The two bitmaps the function can hold. */
  datatype Handle = Original | Scaled

  datatype Bitmap = Bitmap(handle: Handle, size: Size)

  /**
   * The platform calls `uriToBase64` makes. `compress` is `None` when it
   * throws; `closeThrows` says whether closing the stream throws.
   */
  datatype Io<!S> = Io(
    open: Uri -> OpenResult<S>,
    decode: S -> Decoded,
    closeThrows: S -> bool,
    compress: Bitmap -> Option<seq<bv8>>,
    base64: seq<bv8> -> string)

  /** The encoded image or null, and the bitmaps recycled, in order. */
  datatype Encoded = Encoded(result: Option<string>, recycled: seq<Handle>)

  /**
   * `uriToBase64`: every failure, including a scaled side of 0 pixels that
   * `createScaledBitmap` rejects, gives null; bitmaps are recycled only on
   * success, the scaled copy first when there is one.
   */
  function UriToBase64<S>(uri: Uri, io: Io<S>): (out: Encoded)
    ensures out.result.None? ==> out.recycled == []
  {
    match io.open(uri)
    case NullStream => Encoded(None, [])
    case OpenThrew => Encoded(None, [])
    case Stream(s) =>
      match io.decode(s)
      case NotAnImage => Encoded(None, [])
      case Image(w, h) =>
        if io.closeThrows(s) then Encoded(None, [])
        else
          var size := ScaledSize(w, h);
          if NeedsScaling(w, h) && (size.width <= 0 || size.height <= 0) then Encoded(None, [])
          else
            var target := if NeedsScaling(w, h) then Bitmap(Scaled, size) else Bitmap(Original, size);
            match io.compress(target)
            case None => Encoded(None, [])
            case Some(bytes) =>
              Encoded(Some(io.base64(bytes)), if NeedsScaling(w, h) then [Scaled, Original] else [Original])
  }

  /**
   * The result is the Base64 text of the JPEG of a bitmap at most 1024 a
   * side exactly when every step succeeds; any failed step gives null.
   */
  lemma EncodesCappedBitmap<S>(uri: Uri, io: Io<S>)
    ensures var out := UriToBase64(uri, io);
            out.result.Some? <==>
              && io.open(uri).Stream?
              && io.decode(io.open(uri).stream).Image?
              && !io.closeThrows(io.open(uri).stream)
              && var d := io.decode(io.open(uri).stream);
                 var size := ScaledSize(d.width, d.height);
                 && size.width > 0 && size.height > 0
                 && io.compress(Bitmap(if NeedsScaling(d.width, d.height) then Scaled else Original, size)).Some?
    ensures var out := UriToBase64(uri, io);
            out.result.Some? ==>
              var d := io.decode(io.open(uri).stream);
              var size := ScaledSize(d.width, d.height);
              && size.width <= MAX_DIMENSION && size.height <= MAX_DIMENSION
              && exists b :: Some(b) == io.compress(Bitmap(if NeedsScaling(d.width, d.height) then Scaled else Original, size))
                             && out.result == Some(io.base64(b))
  {
    if io.open(uri).Stream? && io.decode(io.open(uri).stream).Image? {
      var d := io.decode(io.open(uri).stream);
      ScaledSizeBounds(d.width, d.height);
    }
  }

  /**
   * On success the original is recycled exactly once and last, and the
   * scaled copy exactly once when it is a distinct bitmap.
   */
  lemma RecycledOnceEach<S>(uri: Uri, io: Io<S>)
    requires UriToBase64(uri, io).result.Some?
    ensures var out := UriToBase64(uri, io);
            var d := io.decode(io.open(uri).stream);
            && |out.recycled| >= 1 && out.recycled[|out.recycled| - 1] == Original
            && multiset(out.recycled)[Original] == 1
            && multiset(out.recycled)[Scaled] == (if NeedsScaling(d.width, d.height) then 1 else 0)
  {
  }
}
