/** The seeding buffer of the simulation: a flat, row-major array of
    `width * height` pixels of `pixSize` channels each, filled with one value
    and then overwritten rectangle by rectangle. Channel values are opaque. */
module PixelBuffer {

  /** Position in the flat array of channel `k` of pixel `(px, py)`: for a
      channel below `pixSize`, dividing by `pixSize` gives back the pixel
      number `py * width + px` and the remainder is the channel. */
  function Index(width: nat, pixSize: nat, px: nat, py: nat, k: nat): (r: nat)
    ensures k < pixSize ==> r / pixSize == py * width + px && r % pixSize == k
  {
    var r := (py * width + px) * pixSize + k;
    if k < pixSize then DivModUnique(r, pixSize, py * width + px, k); r else r
  }

  /** The channel, column and row that flat position `n` belongs to. */
  function Chan(n: nat, pixSize: nat): nat
    requires pixSize > 0
  {
    n % pixSize
  }

  function Col(n: nat, width: nat, pixSize: nat): nat
    requires width > 0 && pixSize > 0
  {
    (n / pixSize) % width
  }

  function Row(n: nat, width: nat, pixSize: nat): nat
    requires width > 0 && pixSize > 0
  {
    (n / pixSize) / width
  }

  /** Flat position `n` lies in a pixel of the rectangle with corner `(x, y)`,
      `w` pixels wide and `h` pixels high. */
  predicate InRect(n: nat, width: nat, pixSize: nat, x: nat, y: nat, w: nat, h: nat)
  {
    width > 0 && pixSize > 0 &&
    x <= Col(n, width, pixSize) < x + w && y <= Row(n, width, pixSize) < y + h
  }

  /** Position `n` is one of the first `k` channels of pixel `(px, py)`. */
  predicate InPixel(n: nat, width: nat, pixSize: nat, px: nat, py: nat, k: nat)
  {
    width > 0 && pixSize > 0 &&
    Col(n, width, pixSize) == px && Row(n, width, pixSize) == py && Chan(n, pixSize) < k
  }

  /** The contents of the buffer `s` after the rectangle has been painted with
      the pixel `val`: every channel of every pixel inside takes the matching
      channel of `val`, every other element keeps its value. */
  function RectImage<P>(s: seq<P>, width: nat, pixSize: nat, x: nat, y: nat, w: nat, h: nat, val: seq<P>): (r: seq<P>)
    requires |val| >= pixSize
    ensures |r| == |s|
  {
    seq(|s|, n requires 0 <= n < |s| =>
      if InRect(n, width, pixSize, x, y, w, h) then val[Chan(n, pixSize)] else s[n])
  }

  // ---------------------------------------------------------------------------
  // Arithmetic of the index formula

  lemma MulMonotone(a: nat, b: nat, c: nat)
    requires a <= b
    ensures a * c <= b * c
  {
  }

  /** Euclidean division of `q * d + r` by `d` gives back `q` and `r`. */
  lemma DivModUnique(a: nat, d: nat, q: nat, r: nat)
    requires d > 0 && r < d && a == q * d + r
    ensures a / d == q && a % d == r
  {
    var q', r' := a / d, a % d;
    assert a == q' * d + r';
    if q' < q {
      MulMonotone(q' + 1, q, d);
      assert false;
    } else if q < q' {
      MulMonotone(q + 1, q', d);
      assert false;
    }
  }

  /** The index formula is one-to-one: channel, column and row of the flat
      position of `(px, py, k)` are `k`, `px` and `py`. */
  lemma DecomposeIndex(width: nat, pixSize: nat, px: nat, py: nat, k: nat)
    requires px < width && k < pixSize
    ensures Chan(Index(width, pixSize, px, py, k), pixSize) == k
    ensures Col(Index(width, pixSize, px, py, k), width, pixSize) == px
    ensures Row(Index(width, pixSize, px, py, k), width, pixSize) == py
  {
    var n := Index(width, pixSize, px, py, k);
    DivModUnique(n, pixSize, py * width + px, k);
    DivModUnique(py * width + px, width, py, px);
  }

  /** Every flat position is the index of its own channel, column and row. */
  lemma RecomposeIndex(n: nat, width: nat, pixSize: nat)
    requires width > 0 && pixSize > 0
    ensures n == Index(width, pixSize, Col(n, width, pixSize), Row(n, width, pixSize), Chan(n, pixSize))
  {
    var p := n / pixSize;
    assert n == p * pixSize + n % pixSize;
    assert p == (p / width) * width + p % width;
  }

  /** A pixel inside the `width` by `height` grid has all its channels inside
      the flat array. */
  lemma IndexBound(width: nat, height: nat, pixSize: nat, px: nat, py: nat, k: nat)
    requires px < width && py < height && k < pixSize
    ensures Index(width, pixSize, px, py, k) < width * height * pixSize
  {
    MulMonotone(py + 1, height, width);
    assert py * width + px < height * width;
    MulMonotone(py * width + px + 1, height * width, pixSize);
    assert height * width * pixSize == width * height * pixSize;
  }

  /** Every position of a `width * height * pixSize` array lies in a row
      below `height`. */
  lemma RowBound(n: nat, width: nat, height: nat, pixSize: nat)
    requires width > 0 && pixSize > 0 && n < width * height * pixSize
    ensures Row(n, width, pixSize) < height
  {
    RecomposeIndex(n, width, pixSize);
    var px, py := Col(n, width, pixSize), Row(n, width, pixSize);
    assert width * height * pixSize == height * width * pixSize;
    if py >= height {
      MulMonotone(height, py, width);
      MulMonotone(height * width, py * width + px, pixSize);
      assert false;
    }
  }

  // ---------------------------------------------------------------------------
  // Properties of painting a rectangle

  /** Painting writes `val[k]` at channel `k` of every pixel of the
      rectangle, and each of those positions lies inside the buffer. */
  lemma RectWritten<P>(s: seq<P>, width: nat, height: nat, pixSize: nat,
                       x: nat, y: nat, w: nat, h: nat, val: seq<P>, px: nat, py: nat, k: nat)
    requires |s| == width * height * pixSize && |val| >= pixSize
    requires x + w <= width && y + h <= height
    requires x <= px < x + w && y <= py < y + h && k < pixSize
    ensures Index(width, pixSize, px, py, k) < |s|
    ensures RectImage(s, width, pixSize, x, y, w, h, val)[Index(width, pixSize, px, py, k)] == val[k]
  {
    IndexBound(width, height, pixSize, px, py, k);
    DecomposeIndex(width, pixSize, px, py, k);
  }

  /** A position is painted exactly when it is the index of some channel of
      some pixel of the rectangle. */
  lemma RectCovers(n: nat, width: nat, pixSize: nat, x: nat, y: nat, w: nat, h: nat)
    requires width > 0 && pixSize > 0
    requires x + w <= width
    ensures InRect(n, width, pixSize, x, y, w, h) <==>
            exists px: nat, py: nat, k: nat :: x <= px < x + w && y <= py < y + h && k < pixSize &&
                                              n == Index(width, pixSize, px, py, k)
  {
    RecomposeIndex(n, width, pixSize);
    if exists px: nat, py: nat, k: nat :: x <= px < x + w && y <= py < y + h && k < pixSize &&
                                         n == Index(width, pixSize, px, py, k) {
      var px: nat, py: nat, k: nat :| x <= px < x + w && y <= py < y + h && k < pixSize &&
                                      n == Index(width, pixSize, px, py, k);
      DecomposeIndex(width, pixSize, px, py, k);
    }
  }

  /** Painting leaves every position that is not the index of a channel of a
      pixel of the rectangle unchanged. */
  lemma RectUnchangedOutside<P>(s: seq<P>, width: nat, pixSize: nat,
                                x: nat, y: nat, w: nat, h: nat, val: seq<P>, n: nat)
    requires |val| >= pixSize && n < |s| && x + w <= width
    requires forall px: nat, py: nat, k: nat :: x <= px < x + w && y <= py < y + h && k < pixSize ==>
                                                 n != Index(width, pixSize, px, py, k)
    ensures RectImage(s, width, pixSize, x, y, w, h, val)[n] == s[n]
  {
    if width > 0 && pixSize > 0 {
      RectCovers(n, width, pixSize, x, y, w, h);
    }
  }

  /** An empty rectangle changes nothing. */
  lemma RectEmpty<P>(s: seq<P>, width: nat, pixSize: nat, x: nat, y: nat, w: nat, h: nat, val: seq<P>)
    requires |val| >= pixSize && (w == 0 || h == 0)
    ensures RectImage(s, width, pixSize, x, y, w, h, val) == s
  {
  }

  /** Painting the same rectangle twice is the same as painting it once. */
  lemma RectIdempotent<P>(s: seq<P>, width: nat, pixSize: nat, x: nat, y: nat, w: nat, h: nat, val: seq<P>)
    requires |val| >= pixSize
    ensures var once := RectImage(s, width, pixSize, x, y, w, h, val);
            RectImage(once, width, pixSize, x, y, w, h, val) == once
  {
  }

  // ---------------------------------------------------------------------------
  // The buffer object

  class PixelArray<P(0)> {
    var width: nat
    var height: nat
    var pixSize: nat
    var data: array<P>

    ghost predicate Valid()
      reads this
    {
      data.Length == width * height * pixSize
    }

    /** Allocates `sizeX * sizeY * pixSize` elements and fills each with `val`. */
    constructor (val: P, sizeX: nat, sizeY: nat, pixSize: nat)
      ensures Valid() && fresh(data)
      ensures width == sizeX && height == sizeY && this.pixSize == pixSize
      ensures data.Length == sizeX * sizeY * pixSize
      ensures forall i :: 0 <= i < data.Length ==> data[i] == val
    {
      width := sizeX;
      height := sizeY;
      this.pixSize := pixSize;
      data := new P[sizeX * sizeY * pixSize];
      new;
      var i := 0;
      while i < data.Length
        modifies data
        invariant 0 <= i <= data.Length
        invariant forall j :: 0 <= j < i ==> data[j] == val
      {
        data[i] := val;
        i := i + 1;
      }
    }

    /** Overwrites every pixel of the rectangle with corner `(x, y)`, `w`
        pixels wide and `h` high, with the pixel `val`, in place. */
    method Rect(x: nat, y: nat, w: nat, h: nat, val: seq<P>)
      requires Valid()
      requires x + w <= width && y + h <= height && |val| >= pixSize
      modifies data
      ensures data[..] == RectImage(old(data[..]), width, pixSize, x, y, w, h, val)
      ensures forall px: nat, py: nat, k: nat :: x <= px < x + w && y <= py < y + h && k < pixSize ==>
                Index(width, pixSize, px, py, k) < data.Length && data[Index(width, pixSize, px, py, k)] == val[k]
    {
      var i := 0;
      while i < w
        invariant 0 <= i <= w
        invariant forall n :: 0 <= n < data.Length ==>
                    data[n] == if InRect(n, width, pixSize, x, y, i, h) then val[Chan(n, pixSize)] else old(data[n])
      {
        var j := 0;
        while j < h
          invariant 0 <= j <= h
          invariant forall n :: 0 <= n < data.Length ==>
                      data[n] == if InRect(n, width, pixSize, x, y, i, h) || InRect(n, width, pixSize, x + i, y, 1, j)
                                 then val[Chan(n, pixSize)] else old(data[n])
        {
          var index := ((y + j) * width + (x + i)) * pixSize;
          var k := 0;
          while k < pixSize
            invariant 0 <= k <= pixSize
            invariant forall n :: 0 <= n < data.Length ==>
                        data[n] == if InRect(n, width, pixSize, x, y, i, h) || InRect(n, width, pixSize, x + i, y, 1, j) ||
                                      InPixel(n, width, pixSize, x + i, y + j, k)
                                   then val[Chan(n, pixSize)] else old(data[n])
          {
            WriteStep(x + i, y + j, k);
            data[index + k] := val[k];
            k := k + 1;
          }
          j := j + 1;
        }
        i := i + 1;
      }
      ghost var was := old(data[..]);
      forall n | 0 <= n < data.Length
        ensures data[..][n] == RectImage(was, width, pixSize, x, y, w, h, val)[n]
      {
      }
      forall px: nat, py: nat, k: nat | x <= px < x + w && y <= py < y + h && k < pixSize
        ensures Index(width, pixSize, px, py, k) < data.Length && data[Index(width, pixSize, px, py, k)] == val[k]
      {
        RectWritten(was, width, height, pixSize, x, y, w, h, val, px, py, k);
      }
    }

    /** Writing channel `k` of pixel `(px, py)` lands inside the array, and
        that position is the only one with this channel, column and row. */
    lemma WriteStep(px: nat, py: nat, k: nat)
      requires Valid() && px < width && py < height && k < pixSize
      ensures Index(width, pixSize, px, py, k) < data.Length
      ensures Chan(Index(width, pixSize, px, py, k), pixSize) == k
      ensures Col(Index(width, pixSize, px, py, k), width, pixSize) == px
      ensures Row(Index(width, pixSize, px, py, k), width, pixSize) == py
      ensures forall n: nat :: InPixel(n, width, pixSize, px, py, k + 1) && !InPixel(n, width, pixSize, px, py, k) ==>
                n == Index(width, pixSize, px, py, k)
    {
      IndexBound(width, height, pixSize, px, py, k);
      DecomposeIndex(width, pixSize, px, py, k);
      forall n: nat | InPixel(n, width, pixSize, px, py, k + 1) && !InPixel(n, width, pixSize, px, py, k)
        ensures n == Index(width, pixSize, px, py, k)
      {
        RecomposeIndex(n, width, pixSize);
      }
    }
  }
}
