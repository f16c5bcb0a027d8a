/**
 * The target dimensions of `resize_for_sticker`: the longer side becomes
 * `maxSize` and the shorter side is scaled by the same factor and truncated.
 *
 * The program computes `int((h / w) * max_size)` in binary floating point. The
 * model uses the exact quotient `h * maxSize / w` instead; the two agree when
 * `maxSize` is a power of two (the program only ever passes 512) and both sides
 * are below 2^44, since the rounded ratio then never crosses a multiple of
 * 1/maxSize.
 *
 * The solver's nonlinear arithmetic finds some of these facts unaided on some
 * random seeds and not on others; the small cancellation and bracketing lemmas
 * below make each proof go through the same steps every time.
 */
module Resize {

  /** The maximum side length used for Telegram stickers. */
  const StickerSize: nat := 512

  /** New (width, height) for an image of `w` by `h` pixels. Only an image with
      both sides zero would divide by zero. */
  function ResizeForSticker(w: nat, h: nat, maxSize: nat := StickerSize): (r: (nat, nat))
    requires w > 0 || h > 0
  {
    if w >= h then (maxSize, h * maxSize / w)
    else (w * maxSize / h, maxSize)
  }

  /** The side that was longer (width on a tie) becomes exactly `maxSize`, and the
      other side never exceeds it, so the longest output side is `maxSize`. */
  lemma ResizeLongestSide(w: nat, h: nat, maxSize: nat)
    requires w > 0 || h > 0
    ensures var r := ResizeForSticker(w, h, maxSize);
      (w >= h ==> r.0 == maxSize && r.1 <= maxSize) &&
      (w < h ==> r.1 == maxSize && r.0 <= maxSize)
  {
    var r := ResizeForSticker(w, h, maxSize);
    if w >= h {
      MulDivBound(h, w, maxSize);
    } else {
      MulDivBound(w, h, maxSize);
    }
  }

  /** `short * m / long` never exceeds `m` when `short <= long`, and stays strictly
      below it when `short < long` and `m > 0`. */
  lemma MulDivBound(short: nat, long: nat, m: nat)
    requires 0 < long && short <= long
    ensures short * m / long <= m
    ensures short < long && m > 0 ==> short * m / long < m
  {
    var q := short * m / long;
    DivBracket(short * m, long);
    assert short * m <= m * long;
    MulCancel(q, m, long);
    if short < long && m > 0 {
      assert short * m < m * long;
      MulCancelStrict(q, m, long);
    }
  }

  /** A positive factor can be cancelled from both sides of `<=`. */
  lemma MulCancel(a: int, b: int, c: int)
    requires c > 0 && a * c <= b * c
    ensures a <= b
  {
  }

  /** A positive factor can be cancelled from both sides of `<`. */
  lemma MulCancelStrict(a: int, b: int, c: int)
    requires c > 0 && a * c < b * c
    ensures a < b
  {
  }

  /** The shorter side is truncated, never rounded:
      new_short * long <= short * maxSize < (new_short + 1) * long. */
  lemma ResizeTruncates(w: nat, h: nat, maxSize: nat)
    requires w > 0 || h > 0
    ensures var r := ResizeForSticker(w, h, maxSize);
      (w >= h ==> r.1 * w <= h * maxSize < (r.1 + 1) * w) &&
      (w < h ==> r.0 * h <= w * maxSize < (r.0 + 1) * h)
  {
    if w >= h {
      DivBracket(h * maxSize, w);
    } else {
      DivBracket(w * maxSize, h);
    }
  }

  /** Floor division brackets its dividend. */
  lemma DivBracket(a: nat, b: nat)
    requires b > 0
    ensures (a / b) * b <= a < (a / b + 1) * b
  {
  }

  /** The aspect ratio is kept up to the truncation of one pixel on the short side:
      the cross products `new_w * h` and `new_h * w` differ by less than the long side. */
  lemma ResizeKeepsAspect(w: nat, h: nat, maxSize: nat)
    requires w > 0 || h > 0
    ensures var r := ResizeForSticker(w, h, maxSize);
      (w >= h ==> 0 <= r.0 * h - r.1 * w < w) &&
      (w < h ==> 0 <= r.1 * w - r.0 * h < h)
  {
    var r := ResizeForSticker(w, h, maxSize);
    ResizeTruncates(w, h, maxSize);
    if w >= h {
      assert r.0 * h == h * maxSize;
      assert (r.1 + 1) * w == r.1 * w + w;
    } else {
      assert r.1 * w == w * maxSize;
      assert (r.0 + 1) * h == r.0 * h + h;
    }
  }

  /** With a positive target, the output is landscape-or-square exactly when the input is. */
  lemma ResizeKeepsOrientation(w: nat, h: nat, maxSize: nat)
    requires w > 0 || h > 0
    requires maxSize > 0
    ensures var r := ResizeForSticker(w, h, maxSize); r.0 >= r.1 <==> w >= h
  {
    if w >= h {
      MulDivBound(h, w, maxSize);
    } else {
      MulDivBound(w, h, maxSize);
    }
  }

  /** A square input becomes a `maxSize` square. */
  lemma ResizeSquare(side: nat, maxSize: nat)
    requires side > 0
    ensures ResizeForSticker(side, side, maxSize) == (maxSize, maxSize)
  {
    var q := side * maxSize / side;
    DivBracket(side * maxSize, side);
    MulCancel(q, maxSize, side);
    MulCancelStrict(maxSize, q + 1, side);
  }

  /** Nothing guards against a zero side: the short side becomes 0 exactly when
      `short * maxSize` is less than the long side. */
  lemma ResizeCanVanish(w: nat, h: nat, maxSize: nat)
    requires w > 0 || h > 0
    ensures var r := ResizeForSticker(w, h, maxSize);
      (w >= h ==> (r.1 == 0 <==> h * maxSize < w)) &&
      (w < h ==> (r.0 == 0 <==> w * maxSize < h))
  {
    ResizeTruncates(w, h, maxSize);
  }

  /** The sizes a sticker of 1000x500, 500x1000, 300x300 and 1025x1 pixels gets. */
  lemma ResizeExamples()
    ensures ResizeForSticker(1000, 500) == (512, 256)
    ensures ResizeForSticker(500, 1000) == (256, 512)
    ensures ResizeForSticker(300, 300) == (512, 512)
    ensures ResizeForSticker(1025, 1) == (512, 0)
  {
  }
}
