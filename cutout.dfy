/**
 * The Cutout augmentation: an `h x w` mask of ones is zeroed on a rectangle
 * around a centre `(y, x)`, and every channel of the image is multiplied by
 * the mask. The random centre is a parameter here.
 */
module Augmentation {

  /** The rectangle `[y1, y2) x [x1, x2)` as the four Python expressions give it,
      before slicing normalises the indices. */
  datatype Box = Box(y1: int, y2: int, x1: int, x2: int)

  /** Half the side length, `length // 2`. Python's `//` floors; for the
      positive divisor 2 Dafny's Euclidean `/` agrees with it on every int. */
  function HalfLength(length: int): (half: int)
    ensures 2 * half <= length < 2 * half + 2
    ensures length >= 0 ==> 0 <= half && 2 * half <= length
    ensures length >= 0 && length % 2 == 1 ==> 2 * half == length - 1
    ensures length >= 2 ==> half >= 1
  {
    length / 2
  }

  /** The clamped rectangle around the centre `(y, x)` of an `h x w` image. */
  function Bounds(h: nat, w: nat, y: int, x: int, length: int): (b: Box)
    ensures length >= 0 && 0 <= y < h ==> 0 <= b.y1 <= y <= b.y2 <= h
    ensures length >= 0 && 0 <= x < w ==> 0 <= b.x1 <= x <= b.x2 <= w
    ensures length >= 0 ==> b.y2 - b.y1 <= 2 * (length / 2) <= length
    ensures length >= 0 ==> b.x2 - b.x1 <= 2 * (length / 2) <= length
    ensures length >= 0 && length % 2 == 1 ==> b.y2 - b.y1 <= length - 1 && b.x2 - b.x1 <= length - 1
    ensures length >= 2 && 0 <= y < h && 0 <= x < w ==> b.y1 <= y < b.y2 && b.x1 <= x < b.x2
  {
    var half := HalfLength(length);
    Box(Max(0, y - half), Min(h, y + half), Max(0, x - half), Min(w, x + half))
  }

  function Max(a: int, b: int): int { if a < b then b else a }
  function Min(a: int, b: int): int { if a < b then a else b }

  /** Python's normalisation of a slice bound `i` on an axis of length `n`
      (step 1): a negative bound counts from the end, then the result is
      clamped to `[0, n]`. */
  function SliceIndex(i: int, n: nat): (r: nat)
    ensures r <= n
    ensures 0 <= i <= n ==> r == i
    ensures i > n ==> r == n
    ensures i < 0 && 0 <= i + n ==> r == i + n
    ensures i + n < 0 ==> r == 0
  {
    if i < 0 then Max(0, i + n) else Min(i, n)
  }

  /** Pixel `(i, j)` of an `h x w` mask lies in the slice `mask[b.y1:b.y2, b.x1:b.x2]`. */
  predicate InSlice(b: Box, h: nat, w: nat, i: int, j: int)
  {
    SliceIndex(b.y1, h) <= i < SliceIndex(b.y2, h) &&
    SliceIndex(b.x1, w) <= j < SliceIndex(b.x2, w)
  }

  /** Pixel `(i, j)` is zeroed by Cutout with centre `(y, x)`. */
  predicate Occluded(h: nat, w: nat, y: int, x: int, length: int, i: int, j: int)
  {
    InSlice(Bounds(h, w, y, x, length), h, w, i, j)
  }

  /** For a non-negative length the slice is exactly the rectangle of `Bounds`:
      Python's index normalisation changes nothing, and the occluded pixels
      are exactly the pixels of the image within `length / 2` rows and
      columns of the centre (the window `[y - length/2, y + length/2)` by
      `[x - length/2, x + length/2)` clipped to the image). */
  lemma OccludedIsRectangle(h: nat, w: nat, y: int, x: int, length: int, i: int, j: int)
    requires 0 <= y < h && 0 <= x < w && length >= 0
    ensures Occluded(h, w, y, x, length, i, j) <==>
              (Bounds(h, w, y, x, length).y1 <= i < Bounds(h, w, y, x, length).y2 &&
               Bounds(h, w, y, x, length).x1 <= j < Bounds(h, w, y, x, length).x2)
    ensures Occluded(h, w, y, x, length, i, j) <==>
              0 <= i < h && 0 <= j < w &&
              y - length / 2 <= i < y + length / 2 && x - length / 2 <= j < x + length / 2
  {
    var b := Bounds(h, w, y, x, length);
    assert SliceIndex(b.y1, h) == b.y1 && SliceIndex(b.y2, h) == b.y2;
    assert SliceIndex(b.x1, w) == b.x1 && SliceIndex(b.x2, w) == b.x2;
  }

  /** With `length >= 2` the centre pixel is always occluded. */
  lemma CentreOccluded(h: nat, w: nat, y: int, x: int, length: int)
    requires 0 <= y < h && 0 <= x < w && length >= 2
    ensures Occluded(h, w, y, x, length, y, x)
  {
    OccludedIsRectangle(h, w, y, x, length, y, x);
  }

  /** A negative length is not rejected: with `length = -4`, centre row 0 of a
      32-row image, `y1 = 2` and `y2 = -2`, and Python reads the stop `-2` as
      row 30, so rows 2 to 29 are zeroed. */
  lemma NegativeLengthRows(j: int)
    requires 0 <= j < 32
    ensures Bounds(32, 32, 0, 0, -4) == Box(2, -2, 2, -2)
    ensures forall i :: 0 <= i < 32 ==> (Occluded(32, 32, 0, 0, -4, i, j) <==> 2 <= i < 30 && 2 <= j < 30)
  {
    assert SliceIndex(-2, 32) == 30;
  }

  class Cutout {
    const length: int

    constructor (length: int)
      ensures this.length == length
    {
      this.length := length;
    }

    /** `mask = torch.ones(h, w)`. */
    static method Ones(h: nat, w: nat) returns (mask: array2<real>)
      ensures fresh(mask)
      ensures mask.Length0 == h && mask.Length1 == w
      ensures forall i, j :: 0 <= i < h && 0 <= j < w ==> mask[i, j] == 1.0
    {
      mask := new real[h, w];
      var i := 0;
      while i < h
        invariant 0 <= i <= h
        invariant forall r, c :: 0 <= r < i && 0 <= c < w ==> mask[r, c] == 1.0
      {
        var j := 0;
        while j < w
          invariant 0 <= j <= w
          invariant forall r, c :: 0 <= r < i && 0 <= c < w ==> mask[r, c] == 1.0
          invariant forall c :: 0 <= c < j ==> mask[i, c] == 1.0
        {
          mask[i, j] := 1.0;
          j := j + 1;
        }
        i := i + 1;
      }
    }

    /** `mask[b.y1:b.y2, b.x1:b.x2] = 0`, in place. */
    static method ZeroSlice(mask: array2<real>, b: Box)
      modifies mask
      ensures forall i, j :: 0 <= i < mask.Length0 && 0 <= j < mask.Length1 ==>
                mask[i, j] == if InSlice(b, mask.Length0, mask.Length1, i, j) then 0.0 else old(mask[i, j])
    {
      var h, w := mask.Length0, mask.Length1;
      // an empty slice (stop before start) zeroes nothing
      var top, left := SliceIndex(b.y1, h), SliceIndex(b.x1, w);
      var bottom, right := Max(top, SliceIndex(b.y2, h)), Max(left, SliceIndex(b.x2, w));
      var i := top;
      while i < bottom
        invariant top <= i <= bottom
        invariant forall r, c :: 0 <= r < h && 0 <= c < w ==>
                    mask[r, c] == if top <= r < i && left <= c < right then 0.0 else old(mask[r, c])
      {
        var j := left;
        while j < right
          invariant left <= j <= right
          invariant forall r, c :: 0 <= r < h && 0 <= c < w ==>
                      mask[r, c] == if (top <= r < i && left <= c < right) || (r == i && left <= c < j)
                                    then 0.0 else old(mask[r, c])
        {
          mask[i, j] := 0.0;
          j := j + 1;
        }
        i := i + 1;
      }
    }

    /** `img * mask.unsqueeze(0)`: every channel multiplied by the mask. */
    static method MaskChannels(img: array3<real>, mask: array2<real>) returns (out: array3<real>)
      requires mask.Length0 == img.Length1 && mask.Length1 == img.Length2
      ensures fresh(out)
      ensures out.Length0 == img.Length0 && out.Length1 == img.Length1 && out.Length2 == img.Length2
      ensures forall c, i, j :: 0 <= c < img.Length0 && 0 <= i < img.Length1 && 0 <= j < img.Length2 ==>
                out[c, i, j] == img[c, i, j] * mask[i, j]
    {
      var n, h, w := img.Length0, img.Length1, img.Length2;
      out := new real[n, h, w];
      var c := 0;
      while c < n
        invariant 0 <= c <= n
        invariant forall k, i, j :: 0 <= k < c && 0 <= i < h && 0 <= j < w ==> out[k, i, j] == img[k, i, j] * mask[i, j]
      {
        var i := 0;
        while i < h
          invariant 0 <= i <= h
          invariant forall k, r, j :: 0 <= k < c && 0 <= r < h && 0 <= j < w ==> out[k, r, j] == img[k, r, j] * mask[r, j]
          invariant forall r, j :: 0 <= r < i && 0 <= j < w ==> out[c, r, j] == img[c, r, j] * mask[r, j]
        {
          var j := 0;
          while j < w
            invariant 0 <= j <= w
            invariant forall k, r, q :: 0 <= k < c && 0 <= r < h && 0 <= q < w ==> out[k, r, q] == img[k, r, q] * mask[r, q]
            invariant forall r, q :: 0 <= r < i && 0 <= q < w ==> out[c, r, q] == img[c, r, q] * mask[r, q]
            invariant forall q :: 0 <= q < j ==> out[c, i, q] == img[c, i, q] * mask[i, q]
          {
            out[c, i, j] := img[c, i, j] * mask[i, j];
            j := j + 1;
          }
          i := i + 1;
        }
        c := c + 1;
      }
    }

    /** `Cutout.__call__` on a `C x h x w` image with the centre drawn as `(y, x)`:
        the result has the image's shape, is zero on the occluded rectangle
        and equals the image everywhere else. */
    method Apply(img: array3<real>, y: int, x: int) returns (out: array3<real>)
      requires 0 <= y < img.Length1 && 0 <= x < img.Length2
      ensures fresh(out)
      ensures out.Length0 == img.Length0 && out.Length1 == img.Length1 && out.Length2 == img.Length2
      ensures forall c, i, j :: 0 <= c < img.Length0 && 0 <= i < img.Length1 && 0 <= j < img.Length2 ==>
                out[c, i, j] == if Occluded(img.Length1, img.Length2, y, x, length, i, j) then 0.0 else img[c, i, j]
    {
      var h, w := img.Length1, img.Length2;
      var mask := Ones(h, w);
      ZeroSlice(mask, Bounds(h, w, y, x, length));
      out := MaskChannels(img, mask);
    }
  }
}
