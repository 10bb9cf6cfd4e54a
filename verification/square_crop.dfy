/** The crop box used to make square thumbnails: the largest square that
    fits in a `w` by `h` image, placed in the middle. A box is
    (left, top, right, bottom) with right and bottom exclusive, the way the
    imaging library's `crop` reads it. */
module SquareCrop {

  datatype Box = Box(left: nat, top: nat, right: nat, bottom: nat)

  /** The side of the square: the shorter image dimension. */
  function ShorterSide(w: nat, h: nat): (side: nat)
    ensures side <= w && side <= h
    ensures side == w || side == h
  {
    if w <= h then w else h
  }

  /** Offset that splits the leftover `extent - side` into two margins, the
      far one equal to the near one or one pixel wider (floor division). */
  function CentreOffset(extent: nat, side: nat): (offset: nat)
    requires side <= extent
    ensures 2 * offset <= extent - side <= 2 * offset + 1
  {
    (extent - side) / 2
  }

  /** `b` is a square inside the image, as large as the image allows, with
      the near and far margins equal or the far one a pixel wider, on both
      axes. */
  predicate IsCentredSquare(w: nat, h: nat, b: Box) {
    && b.left <= b.right <= w
    && b.top <= b.bottom <= h
    && b.right - b.left == b.bottom - b.top
    && (b.right - b.left == w || b.bottom - b.top == h)
    && 0 <= (w - b.right) - b.left <= 1
    && 0 <= (h - b.bottom) - b.top <= 1
  }

  /** The thumbnail crop box for a `w` by `h` image. */
  function CropBox(w: nat, h: nat): (b: Box)
    ensures b.right - b.left == b.bottom - b.top == ShorterSide(w, h)
    ensures b.right <= w && b.bottom <= h
    ensures (w - b.right) - b.left in {0, 1}
    ensures (h - b.bottom) - b.top in {0, 1}
    ensures w <= h ==> b.left == 0 && b.right == w
    ensures h <= w ==> b.top == 0 && b.bottom == h
  {
    var side := ShorterSide(w, h);
    var left := CentreOffset(w, side);
    var top := CentreOffset(h, side);
    Box(left, top, left + side, top + side)
  }

  /** The crop box is the one and only centred largest square. */
  lemma CropBoxIsTheCentredSquare(w: nat, h: nat, b: Box)
    ensures IsCentredSquare(w, h, b) <==> b == CropBox(w, h)
  {
  }

  /** No square inside the image is larger than the crop box. */
  lemma CropBoxIsLargest(w: nat, h: nat, b: Box)
    requires b.left <= b.right <= w && b.top <= b.bottom <= h
    requires b.right - b.left == b.bottom - b.top
    ensures b.right - b.left <= CropBox(w, h).right - CropBox(w, h).left
  {
  }

  /** A square image is kept whole. */
  lemma SquareImageUncropped(n: nat)
    ensures CropBox(n, n) == Box(0, 0, n, n)
  {
  }
}
