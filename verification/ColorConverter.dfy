/**
 BGRA to NV12 on the CPU: BT.601 in fixed point, with chroma sampled from the top
 left pixel of every two by two block.

 Integers are unbounded; the model does not capture an overflow of the int that
 holds a buffer offset.
 */
module ColorConverter {
  import opened Sequences

  type byte = x: int | 0 <= x < 256

  // ------------------------------------------------------------------
  // One pixel
  // ------------------------------------------------------------------

  // An arithmetic shift right by eight is a division by 256 that rounds down.

  function YVal(b: byte, g: byte, r: byte): int {
    (66 * r as int + 129 * g as int + 25 * b as int + 128) / 256 + 16
  }

  function UVal(b: byte, g: byte, r: byte): int {
    (-38 * r as int - 74 * g as int + 112 * b as int + 128) / 256 + 128
  }

  function VVal(b: byte, g: byte, r: byte): int {
    (112 * r as int - 94 * g as int - 18 * b as int + 128) / 256 + 128
  }

  function Clamp(v: int): byte {
    if v < 0 then 0 else if v > 255 then 255 else v
  }

  function Luma(b: byte, g: byte, r: byte): (y: byte)
    ensures 16 <= y <= 235
  {
    Clamp(YVal(b, g, r))
  }

  function ChromaU(b: byte, g: byte, r: byte): (u: byte)
    ensures 16 <= u <= 240
  {
    Clamp(UVal(b, g, r))
  }

  function ChromaV(b: byte, g: byte, r: byte): (v: byte)
    ensures 16 <= v <= 240
  {
    Clamp(VVal(b, g, r))
  }

  /** Every value is in the nominal range of BT.601, so the clamps never act. */
  lemma ClampsNeverAct(b: byte, g: byte, r: byte)
    ensures Luma(b, g, r) == YVal(b, g, r)
    ensures ChromaU(b, g, r) == UVal(b, g, r)
    ensures ChromaV(b, g, r) == VVal(b, g, r)
  {}

  /** The ends of the range are reached. */
  lemma GreyHasNoChroma(v: byte)
    ensures ChromaU(v, v, v) == 128 && ChromaV(v, v, v) == 128
    ensures Luma(0, 0, 0) == 16 && Luma(255, 255, 255) == 235
  {}

  /** Each value is the integer nearest to its weighted sum of the channels, with halves rounded up. */
  lemma RoundedToNearest(b: byte, g: byte, r: byte)
    ensures -128 <= 66 * r as int + 129 * g as int + 25 * b as int - 256 * (Luma(b, g, r) as int - 16) < 128
    ensures -128 <= 112 * b as int - 38 * r as int - 74 * g as int - 256 * (ChromaU(b, g, r) as int - 128) < 128
    ensures -128 <= 112 * r as int - 94 * g as int - 18 * b as int - 256 * (ChromaV(b, g, r) as int - 128) < 128
  {}

  /** The luminance signal of BT.601, on the scale of the inputs. */
  function Luminance(b: byte, g: byte, r: byte): real {
    (299.0 * r as real + 587.0 * g as real + 114.0 * b as real) / 1000.0
  }

  predicate Near(n: int, x: real) {
    -1.0 < n as real - x < 1.0
  }

  /** Fixed point stays within one step of the exact conversion of BT.601. */
  lemma WithinOneStep(b: byte, g: byte, r: byte)
    ensures var e := Luminance(b, g, r);
            && Near(Luma(b, g, r), 16.0 + 219.0 * e / 255.0)
            && Near(ChromaU(b, g, r), 128.0 + 224.0 * (b as real - e) / (1.772 * 255.0))
            && Near(ChromaV(b, g, r), 128.0 + 224.0 * (r as real - e) / (1.402 * 255.0))
  {
    Floor(66 * r as int + 129 * g as int + 25 * b as int + 128);
    Floor(-38 * r as int - 74 * g as int + 112 * b as int + 128);
    Floor(112 * r as int - 94 * g as int - 18 * b as int + 128);
  }

  lemma Floor(n: int)
    ensures n as real / 256.0 - 1.0 < (n / 256) as real <= n as real / 256.0
  {
    assert n == n / 256 * 256 + n % 256;
  }

  // ------------------------------------------------------------------
  // The buffers
  // ------------------------------------------------------------------

  /** The size of n rows of w bytes; RowsIs says that it is the product. */
  function Rows(w: nat, n: nat): nat {
    if n == 0 then 0 else Rows(w, n - 1) + w
  }

  lemma {:induction false} RowsIs(w: nat, n: nat)
    ensures Rows(w, n) == n * w
  {
    if n > 0 {
      RowsIs(w, n - 1);
    }
  }

  lemma {:induction false} RowsRise(w: nat, m: nat, n: nat)
    requires m <= n
    ensures Rows(w, m) <= Rows(w, n)
    ensures m < n ==> Rows(w, m) + w <= Rows(w, n)
    decreases n
  {
    if m < n {
      RowsRise(w, m, n - 1);
    }
  }

  datatype Image = Image(bgra: seq<byte>, stride: nat, w: nat, h: nat)

  /** Even dimensions, possibly padded rows, and a buffer that reaches to the last byte read. */
  predicate Fits(im: Image) {
    && im.w > 0 && im.h > 0 && im.w % 2 == 0 && im.h % 2 == 0
    && im.stride >= 4 * im.w
    && |im.bgra| >= Rows(im.stride, im.h - 1) + 4 * im.w - 1
  }

  function SourceOffset(im: Image, y: nat, x: nat): (k: nat)
    requires Fits(im) && y < im.h && x < im.w
    ensures k + 2 < |im.bgra|
  {
    RowsRise(im.stride, y, im.h - 1);
    Rows(im.stride, y) + x * 4
  }

  function PixelLuma(im: Image, y: nat, x: nat): byte
    requires Fits(im) && y < im.h && x < im.w
  {
    var k := SourceOffset(im, y, x);
    Luma(im.bgra[k], im.bgra[k + 1], im.bgra[k + 2])
  }

  function PixelU(im: Image, y: nat, x: nat): byte
    requires Fits(im) && y < im.h && x < im.w
  {
    var k := SourceOffset(im, y, x);
    ChromaU(im.bgra[k], im.bgra[k + 1], im.bgra[k + 2])
  }

  function PixelV(im: Image, y: nat, x: nat): byte
    requires Fits(im) && y < im.h && x < im.w
  {
    var k := SourceOffset(im, y, x);
    ChromaV(im.bgra[k], im.bgra[k + 1], im.bgra[k + 2])
  }

  // ------------------------------------------------------------------
  // The planes
  // ------------------------------------------------------------------

  /** The first x bytes of a row of the luma plane. */
  function LumaRow(im: Image, y: nat, x: nat): (r: seq<byte>)
    requires Fits(im) && y < im.h && x <= im.w
    ensures |r| == x
  {
    if x == 0 then [] else LumaRow(im, y, x - 1) + [PixelLuma(im, y, x - 1)]
  }

  /** The first y rows of the luma plane. */
  function LumaRows(im: Image, y: nat): (r: seq<byte>)
    requires Fits(im) && y <= im.h
    ensures |r| == Rows(im.w, y)
  {
    if y == 0 then [] else LumaRows(im, y - 1) + LumaRow(im, y - 1, im.w)
  }

  /** The chroma bytes of the first x pixels of a row: U and V of every second pixel of every second row. */
  function ChromaRow(im: Image, y: nat, x: nat): (r: seq<byte>)
    requires Fits(im) && y < im.h && x <= im.w
    ensures |r| == if y % 2 == 0 then x + x % 2 else 0
  {
    if x == 0 || y % 2 != 0 then []
    else if x % 2 == 0 then ChromaRow(im, y, x - 1)
    else ChromaRow(im, y, x - 1) + [PixelU(im, y, x - 1), PixelV(im, y, x - 1)]
  }

  /** The chroma bytes of the first y rows of pixels. */
  function ChromaRows(im: Image, y: nat): (r: seq<byte>)
    requires Fits(im) && y <= im.h
    ensures |r| == Rows(im.w, (y + 1) / 2)
  {
    if y == 0 then [] else ChromaRows(im, y - 1) + ChromaRow(im, y - 1, im.w)
  }

  function Nv12(im: Image): seq<byte>
    requires Fits(im)
  {
    LumaRows(im, im.h) + ChromaRows(im, im.h)
  }

  lemma {:induction false} LumaRowAt(im: Image, y: nat, n: nat, x: nat)
    requires Fits(im) && y < im.h && x < n <= im.w
    ensures LumaRow(im, y, n)[x] == PixelLuma(im, y, x)
    decreases n
  {
    if x < n - 1 {
      LumaRowAt(im, y, n - 1, x);
    }
  }

  lemma {:induction false} LumaRowsAt(im: Image, n: nat, y: nat, x: nat)
    requires Fits(im) && y < n <= im.h && x < im.w
    ensures Rows(im.w, y) + x < Rows(im.w, n)
    ensures LumaRows(im, n)[Rows(im.w, y) + x] == PixelLuma(im, y, x)
    decreases n
  {
    RowsRise(im.w, y, n);
    if y < n - 1 {
      LumaRowsAt(im, n - 1, y, x);
    } else {
      LumaRowAt(im, y, im.w, x);
    }
  }

  lemma {:induction false} ChromaRowAt(im: Image, y: nat, n: nat, x: nat)
    requires Fits(im) && y < im.h && x < n <= im.w && y % 2 == 0 && x % 2 == 0
    ensures ChromaRow(im, y, n)[x] == PixelU(im, y, x) && ChromaRow(im, y, n)[x + 1] == PixelV(im, y, x)
    decreases n
  {
    var front := ChromaRow(im, y, n - 1);
    if x == n - 1 {
      assert |front| == x;
      assert ChromaRow(im, y, n) == front + [PixelU(im, y, x), PixelV(im, y, x)];
    } else {
      ChromaRowAt(im, y, n - 1, x);
      assert x + 1 < |front| && front <= ChromaRow(im, y, n);
    }
  }

  lemma {:induction false} ChromaRowsAt(im: Image, n: nat, y: nat, j: nat)
    requires Fits(im) && y < n <= im.h && j < im.w && y % 2 == 0
    ensures Rows(im.w, y / 2) + j < Rows(im.w, (n + 1) / 2)
    ensures ChromaRows(im, n)[Rows(im.w, y / 2) + j] == ChromaRow(im, y, im.w)[j]
    decreases n
  {
    RowsRise(im.w, y / 2, (n + 1) / 2);
    if y < n - 1 {
      RowsRise(im.w, y / 2, n / 2);
      ChromaRowsAt(im, n - 1, y, j);
    }
  }

  lemma PixelIs(im: Image, y: nat, x: nat)
    requires Fits(im) && y < im.h && x < im.w
    ensures var k := y * im.stride + 4 * x;
            && 0 <= k && k + 2 < |im.bgra|
            && PixelLuma(im, y, x) == Luma(im.bgra[k], im.bgra[k + 1], im.bgra[k + 2])
            && PixelU(im, y, x) == ChromaU(im.bgra[k], im.bgra[k + 1], im.bgra[k + 2])
            && PixelV(im, y, x) == ChromaV(im.bgra[k], im.bgra[k + 1], im.bgra[k + 2])
  {
    RowsIs(im.stride, y);
    assert y * im.stride + 4 * x == SourceOffset(im, y, x);
  }

  /** The layout of NV12, first part: byte y * w + x is the luma of pixel x of row y, its channels four bytes apart. */
  lemma Nv12Luma(im: Image, y: nat, x: nat)
    requires Fits(im) && y < im.h && x < im.w
    ensures |Nv12(im)| == Rows(im.w, im.h) + Rows(im.w, im.h / 2)
    ensures var k, p := y * im.w + x, y * im.stride + 4 * x;
            && 0 <= k < Rows(im.w, im.h) && 0 <= p && p + 2 < |im.bgra|
            && Nv12(im)[k] == Luma(im.bgra[p], im.bgra[p + 1], im.bgra[p + 2])
  {
    assert (im.h + 1) / 2 == im.h / 2;
    LumaRowsAt(im, im.h, y, x);
    RowsIs(im.w, y);
    PixelIs(im, y, x);
  }

  /** Second part: after it, U and V of the top left pixel of every two by two block, half as many rows of w bytes. */
  lemma Nv12Chroma(im: Image, y: nat, x: nat)
    requires Fits(im) && y < im.h && x < im.w && y % 2 == 0 && x % 2 == 0
    ensures var k, p := im.h * im.w + y / 2 * im.w + x, y * im.stride + 4 * x;
            && 0 <= k && k + 1 < |Nv12(im)| && 0 <= p && p + 2 < |im.bgra|
            && Nv12(im)[k] == ChromaU(im.bgra[p], im.bgra[p + 1], im.bgra[p + 2])
            && Nv12(im)[k + 1] == ChromaV(im.bgra[p], im.bgra[p + 1], im.bgra[p + 2])
  {
    ChromaIsAt(im, y, x);
    RowsIs(im.w, im.h);
    RowsIs(im.w, y / 2);
    PixelIs(im, y, x);
  }

  lemma ChromaIsAt(im: Image, y: nat, x: nat)
    requires Fits(im) && y < im.h && x < im.w && y % 2 == 0 && x % 2 == 0
    ensures var k := Rows(im.w, im.h) + Rows(im.w, y / 2) + x;
            && k + 1 < |Nv12(im)|
            && Nv12(im)[k] == PixelU(im, y, x)
            && Nv12(im)[k + 1] == PixelV(im, y, x)
  {
    ChromaRowsAt(im, im.h, y, x);
    ChromaRowsAt(im, im.h, y, x + 1);
    ChromaRowAt(im, y, im.w, x);
  }

  lemma PlaneSizes(w: nat, h: nat)
    requires h % 2 == 0
    ensures w * h * 3 / 2 == Rows(w, h) + Rows(w, h / 2)
  {
    var n := h / 2;
    RowsIs(w, h);
    RowsIs(w, n);
    assert w * h == 2 * (n * w);
  }

  // ------------------------------------------------------------------
  // The order of writing
  // ------------------------------------------------------------------

  /** A buffer with the first bytes of both planes in place, the second plane starting at offset plane. */
  function Overlay(before: seq<byte>, plane: nat, lumas: seq<byte>, chromas: seq<byte>): seq<byte>
    requires |lumas| <= plane && plane + |chromas| <= |before|
  {
    lumas + before[|lumas|..plane] + chromas + before[plane + |chromas|..]
  }

  lemma OverlayLuma(before: seq<byte>, plane: nat, lumas: seq<byte>, chromas: seq<byte>, v: byte)
    requires |lumas| < plane && plane + |chromas| <= |before|
    ensures Overlay(before, plane, lumas, chromas)[|lumas| := v] == Overlay(before, plane, lumas + [v], chromas)
  {}

  lemma OverlayChroma(before: seq<byte>, plane: nat, lumas: seq<byte>, chromas: seq<byte>, v: byte)
    requires |lumas| <= plane && plane + |chromas| < |before|
    ensures Overlay(before, plane, lumas, chromas)[plane + |chromas| := v]
         == Overlay(before, plane, lumas, chromas + [v])
  {}

  /** order lists each offset below luma, and each of the next chroma offsets from plane on, once. */
  ghost predicate Once(order: seq<nat>, plane: nat, luma: nat, chroma: nat) {
    && |order| == luma + chroma
    && (forall i :: 0 <= i < |order| ==> order[i] < luma || plane <= order[i] < plane + chroma)
    && (forall i, j :: 0 <= i < j < |order| ==> order[i] != order[j])
  }

  lemma OnceMore(order: seq<nat>, plane: nat, luma: nat, chroma: nat)
    requires Once(order, plane, luma, chroma) && luma <= plane
    ensures luma < plane ==> Once(order + [luma], plane, luma + 1, chroma)
    ensures Once(order + [plane + chroma], plane, luma, chroma + 1)
  {}

  predicate Inside(im: Image, y: nat, x: nat) {
    (y < im.h && x <= im.w) || (y == im.h && x == 0)
  }

  /** The luma and the chroma written when the loops reach row y and column x. */
  ghost function Lumas(im: Image, y: nat, x: nat): seq<byte>
    requires Fits(im) && Inside(im, y, x)
  {
    if x == 0 then LumaRows(im, y) else LumaRows(im, y) + LumaRow(im, y, x)
  }

  ghost function Chromas(im: Image, y: nat, x: nat): seq<byte>
    requires Fits(im) && Inside(im, y, x)
  {
    if x == 0 then ChromaRows(im, y) else ChromaRows(im, y) + ChromaRow(im, y, x)
  }

  lemma LumasStep(im: Image, y: nat, x: nat)
    requires Fits(im) && y < im.h && x < im.w
    ensures Lumas(im, y, x + 1) == Lumas(im, y, x) + [PixelLuma(im, y, x)]
  {
    AppendAssoc(LumaRows(im, y), LumaRow(im, y, x), [PixelLuma(im, y, x)]);
    assert LumaRows(im, y) + [] == LumaRows(im, y);
  }

  lemma ChromasStep(im: Image, y: nat, x: nat)
    requires Fits(im) && y < im.h && x < im.w
    ensures if y % 2 == 0 && x % 2 == 0 then
              Chromas(im, y, x + 1) == Chromas(im, y, x) + [PixelU(im, y, x), PixelV(im, y, x)]
            else Chromas(im, y, x + 1) == Chromas(im, y, x)
  {
    var done := ChromaRows(im, y);
    assert done + [] == done;
    if y % 2 == 0 && x % 2 == 0 {
      AppendAssoc(done, ChromaRow(im, y, x), [PixelU(im, y, x), PixelV(im, y, x)]);
    }
  }

  lemma LumaRoom(im: Image, y: nat, x: nat)
    requires Fits(im) && y < im.h && x < im.w
    ensures |Lumas(im, y, x)| == Rows(im.w, y) + x < Rows(im.w, im.h)
  {
    RowsRise(im.w, y, im.h);
  }

  lemma ChromaRoom(im: Image, y: nat, x: nat)
    requires Fits(im) && y < im.h && x < im.w && y % 2 == 0 && x % 2 == 0
    ensures |Chromas(im, y, x)| == Rows(im.w, y / 2) + x
    ensures |Chromas(im, y, x)| + 1 < Rows(im.w, im.h / 2)
  {
    var row, rows := y / 2, im.h / 2;
    assert row < rows;
    RowsRise(im.w, row, rows);
    assert (y + 1) / 2 == row;
  }

  lemma BufferSize(im: Image)
    requires Fits(im)
    ensures |Nv12(im)| == Rows(im.w, im.h) + Rows(im.w, im.h / 2)
  {
    assert (im.h + 1) / 2 == im.h / 2;
  }

  /** The buffer and the order of writing when the loops reach row y and column x. */
  ghost predicate Reached(im: Image, nv12: seq<byte>, before: seq<byte>, order: seq<nat>, y: nat, x: nat)
    requires Fits(im) && Inside(im, y, x)
  {
    var plane, lumas, chromas := Rows(im.w, im.h), Lumas(im, y, x), Chromas(im, y, x);
    && |lumas| <= plane && plane + |chromas| <= |before|
    && nv12 == Overlay(before, plane, lumas, chromas)
    && Once(order, plane, |lumas|, |chromas|)
  }

  /** What the loop body has to have done at row y and column x. */
  ghost predicate PixelAdded(im: Image, nv12: seq<byte>, before: seq<byte>, order: seq<nat>, y: nat, x: nat)
    requires Fits(im) && y < im.h && x < im.w
  {
    var plane := Rows(im.w, im.h);
    var lumas := Lumas(im, y, x) + [PixelLuma(im, y, x)];
    var chromas := if y % 2 == 0 && x % 2 == 0 then Chromas(im, y, x) + [PixelU(im, y, x), PixelV(im, y, x)]
                   else Chromas(im, y, x);
    && |lumas| <= plane && plane + |chromas| <= |before|
    && nv12 == Overlay(before, plane, lumas, chromas)
    && Once(order, plane, |lumas|, |chromas|)
  }

  lemma ReachedNext(im: Image, nv12: seq<byte>, before: seq<byte>, order: seq<nat>, y: nat, x: nat)
    requires Fits(im) && y < im.h && x < im.w && PixelAdded(im, nv12, before, order, y, x)
    ensures Reached(im, nv12, before, order, y, x + 1)
  {
    LumasStep(im, y, x);
    ChromasStep(im, y, x);
  }

  lemma ReachedRow(im: Image, nv12: seq<byte>, before: seq<byte>, order: seq<nat>, y: nat)
    requires Fits(im) && y < im.h && Reached(im, nv12, before, order, y, im.w)
    ensures Reached(im, nv12, before, order, y + 1, 0)
  {
  }

  lemma ReachedNone(im: Image, before: seq<byte>)
    requires Fits(im) && |before| >= |Nv12(im)|
    ensures Reached(im, before, before, [], 0, 0)
  {}

  lemma ReachedAll(im: Image, nv12: seq<byte>, before: seq<byte>, order: seq<nat>)
    requires Fits(im) && |before| >= |Nv12(im)| && Reached(im, nv12, before, order, im.h, 0)
    ensures nv12 == Nv12(im) + before[|Nv12(im)|..]
    ensures Once(order, |Nv12(im)|, |Nv12(im)|, 0)
  {}

  class CpuColorConverter {
    var width: int
    var height: int

    ghost predicate Ready()
      reads this
    {
      width > 0 && height > 0
    }

    /** Dimensions are zero, or positive and even. */
    ghost predicate Valid()
      reads this
    {
      (width == 0 && height == 0) || (width > 0 && height > 0 && width % 2 == 0 && height % 2 == 0)
    }

    constructor ()
      ensures Valid() && !Ready()
    {
      width, height := 0, 0;
    }

    method Initialize(w: int, h: int) returns (ok: bool)
      requires Valid()
      modifies this
      ensures Valid()
      ensures ok == (w > 0 && h > 0 && w % 2 == 0 && h % 2 == 0)
      ensures if ok then width == w && height == h else width == old(width) && height == old(height)
    {
      if w <= 0 || h <= 0 || w % 2 != 0 || h % 2 != 0 {
        return false;
      }
      width, height := w, h;
      ok := true;
    }

    method Shutdown()
      modifies this
      ensures Valid() && !Ready()
    {
      width, height := 0, 0;
    }

    method Nv12BufferSize() returns (size: nat)
      requires Valid()
      ensures size == width * height * 3 / 2 == Rows(width, height) + Rows(width, height / 2)
    {
      assert width * height >= 0;
      PlaneSizes(width, height);
      size := width * height * 3 / 2;
    }

    /** order lists the offsets in the order of writing: each of the buffer's bytes once. */
    method Convert(bgra: array?<byte>, stride: nat, nv12: array?<byte>) returns (ok: bool, ghost order: seq<nat>)
      requires Valid() && (bgra != null ==> bgra != nv12)
      requires Ready() && bgra != null && nv12 != null ==>
                 var im := Image(bgra[..], stride, width, height);
                 Fits(im) && nv12.Length >= |Nv12(im)|
      modifies nv12
      ensures ok == (bgra != null && nv12 != null && Ready())
      ensures !ok && nv12 != null ==> nv12[..] == old(nv12[..])
      ensures ok ==>
                var bytes := Nv12(Image(bgra[..], stride, width, height));
                && nv12[..] == bytes + old(nv12[..])[|bytes|..]
                && Once(order, |bytes|, |bytes|, 0)
    {
      order := [];
      if bgra == null || nv12 == null || width <= 0 || height <= 0 {
        return false, [];
      }
      order := ConvertFrame(Image(bgra[..], stride, width, height), bgra, stride, nv12);
      ok := true;
    }

    method ConvertFrame(ghost im: Image, bgra: array<byte>, stride: nat, nv12: array<byte>) returns (ghost order: seq<nat>)
      requires width > 0 && height > 0 && bgra != nv12
      requires im == Image(bgra[..], stride, width, height) && Fits(im) && nv12.Length >= |Nv12(im)|
      modifies nv12
      ensures nv12[..] == Nv12(im) + old(nv12[..])[|Nv12(im)|..]
      ensures Once(order, |Nv12(im)|, |Nv12(im)|, 0)
    {
      ghost var before := nv12[..];
      ReachedNone(im, before);
      order := ConvertRows(im, bgra, stride, nv12, before);
      ReachedAll(im, nv12[..], before, order);
    }

    method ConvertRows(ghost im: Image, bgra: array<byte>, stride: nat, nv12: array<byte>, ghost before: seq<byte>)
      returns (ghost order: seq<nat>)
      requires width > 0 && height > 0 && bgra != nv12
      requires im == Image(bgra[..], stride, width, height) && Fits(im) && |before| >= |Nv12(im)|
      requires Reached(im, nv12[..], before, [], 0, 0)
      modifies nv12
      ensures Reached(im, nv12[..], before, order, im.h, 0)
    {
      order := [];
      var y := 0;
      while y < height
        invariant 0 <= y <= height && Reached(im, nv12[..], before, order, y, 0)
      {
        order := ConvertRow(im, bgra, stride, nv12, y, before, order);
        y := y + 1;
      }
    }

    method ConvertRow(ghost im: Image, bgra: array<byte>, stride: nat, nv12: array<byte>, y: nat,
                      ghost before: seq<byte>, ghost order: seq<nat>)
      returns (ghost order': seq<nat>)
      requires y < height && width >= 0 && bgra != nv12
      requires im == Image(bgra[..], stride, width, height) && Fits(im) && |before| >= |Nv12(im)|
      requires Reached(im, nv12[..], before, order, y, 0)
      modifies nv12
      ensures Reached(im, nv12[..], before, order', y + 1, 0)
    {
      order' := order;
      var x := 0;
      while x < width
        invariant 0 <= x <= width && Reached(im, nv12[..], before, order', y, x)
      {
        order' := ConvertPixel(im, bgra, stride, nv12, y, x, before, order');
        x := x + 1;
      }
      ReachedRow(im, nv12[..], before, order', y);
    }

    /** The body of the inner loop: one luma byte, and two chroma bytes at the top left of a block. */
    method ConvertPixel(ghost im: Image, bgra: array<byte>, stride: nat, nv12: array<byte>, y: nat, x: nat,
                        ghost before: seq<byte>, ghost order: seq<nat>)
      returns (ghost order': seq<nat>)
      requires y < height && x < width && bgra != nv12
      requires im == Image(bgra[..], stride, width, height) && Fits(im) && |before| >= |Nv12(im)|
      requires Reached(im, nv12[..], before, order, y, x)
      modifies nv12
      ensures Reached(im, nv12[..], before, order', y, x + 1)
    {
      ghost var plane, lumas, chromas := Rows(width, height), Lumas(im, y, x), Chromas(im, y, x);
      var b, g, r := Pixel(im, bgra, stride, y, x);
      LumaRoom(im, y, x);
      BufferSize(im);
      var at := Product(width, y) + x;
      order' := PutLuma(nv12, at, Luma(b, g, r), before, plane, lumas, chromas, order);
      if x % 2 == 0 && y % 2 == 0 {
        ChromaRoom(im, y, x);
        var uv := Product(width, height) + (Product(width, y / 2) + x);
        order' := PutChroma(nv12, uv, ChromaU(b, g, r), ChromaV(b, g, r), before, plane,
                            lumas + [Luma(b, g, r)], chromas, order');
      }
      ReachedNext(im, nv12[..], before, order', y, x);
    }
  }

  /** The pixel layout is B, G, R, A. */
  method Pixel(ghost im: Image, bgra: array<byte>, stride: nat, y: nat, x: nat) returns (b: byte, g: byte, r: byte)
    requires im.bgra == bgra[..] && im.stride == stride && Fits(im) && y < im.h && x < im.w
    ensures PixelLuma(im, y, x) == Luma(b, g, r)
    ensures PixelU(im, y, x) == ChromaU(b, g, r) && PixelV(im, y, x) == ChromaV(b, g, r)
  {
    ghost var source := SourceOffset(im, y, x);
    var row := Product(stride, y);
    b, g, r := bgra[row + x * 4 + 0], bgra[row + x * 4 + 1], bgra[row + x * 4 + 2];
  }

  function Product(w: nat, n: nat): (p: nat)
    ensures p == Rows(w, n)
  {
    RowsIs(w, n);
    n * w
  }

  method PutLuma(nv12: array<byte>, at: nat, v: byte, ghost before: seq<byte>, ghost plane: nat,
                 ghost lumas: seq<byte>, ghost chromas: seq<byte>, ghost order: seq<nat>)
    returns (ghost order': seq<nat>)
    requires at == |lumas| < plane && plane + |chromas| <= |before|
    requires nv12[..] == Overlay(before, plane, lumas, chromas) && Once(order, plane, |lumas|, |chromas|)
    modifies nv12
    ensures nv12[..] == Overlay(before, plane, lumas + [v], chromas) && Once(order', plane, |lumas| + 1, |chromas|)
  {
    OverlayLuma(before, plane, lumas, chromas, v);
    OnceMore(order, plane, |lumas|, |chromas|);
    Put(nv12, at, v);
    order' := order + [at];
  }

  method PutChroma(nv12: array<byte>, at: nat, u: byte, v: byte, ghost before: seq<byte>, ghost plane: nat,
                   ghost lumas: seq<byte>, ghost chromas: seq<byte>, ghost order: seq<nat>)
    returns (ghost order': seq<nat>)
    requires |lumas| <= plane && at == plane + |chromas| && at + 1 < |before|
    requires nv12[..] == Overlay(before, plane, lumas, chromas) && Once(order, plane, |lumas|, |chromas|)
    modifies nv12
    ensures nv12[..] == Overlay(before, plane, lumas, chromas + [u, v])
    ensures Once(order', plane, |lumas|, |chromas| + 2)
  {
    OverlayChroma(before, plane, lumas, chromas, u);
    OverlayChroma(before, plane, lumas, chromas + [u], v);
    OnceMore(order, plane, |lumas|, |chromas|);
    OnceMore(order + [at], plane, |lumas|, |chromas| + 1);
    Put(nv12, at + 0, u);
    Put(nv12, at + 1, v);
    order' := order + [at] + [at + 1];
    assert chromas + [u] + [v] == chromas + [u, v];
  }

  method Put(buffer: array<byte>, at: nat, v: byte)
    requires at < buffer.Length
    modifies buffer
    ensures buffer[..] == old(buffer[..])[at := v]
  {
    buffer[at] := v;
  }
}
