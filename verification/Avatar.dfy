/** `resizeSquare`: centre crop and box filter down to a fixed square. Side and scale keep every
    product exact, so the boxes are given by integer division. */
module Avatar {
  import opened Common

  newtype byte = x: int | 0 <= x < 0x100
  newtype uint32 = x: int | 0 <= x < 0x1_0000_0000

  datatype Pixel = Pixel(r: byte, g: byte, b: byte)

  const SIZE := 256
  const MIN_SIDE := 32
  const MAX_SIDE := 4096

  // ---------- The boxes along one axis ----------

  function Low(k: nat, side: nat): nat {
    k * side / SIZE
  }

  /** A box is never empty and never passes the edge. */
  function High(k: nat, side: nat): nat {
    var h := (k + 1) * side / SIZE;
    var h' := if h <= Low(k, side) then Low(k, side) + 1 else h;
    if h' > side then side else h'
  }

  lemma Floor(n: nat)
    ensures n / SIZE * SIZE <= n < n / SIZE * SIZE + SIZE
  {
  }

  lemma FloorMonotone(m: nat, n: nat)
    requires m <= n
    ensures m / SIZE <= n / SIZE
  {
  }

  lemma FloorBelow(n: nat, q: nat)
    requires n < q * SIZE
    ensures n / SIZE < q
  {
  }

  lemma FloorAtLeast(n: nat, q: nat)
    requires n >= q * SIZE
    ensures n / SIZE >= q
  {
  }

  /** For every side there is, every box is non-empty and inside the image, so no average divides by zero. */
  lemma BoxInside(k: nat, side: nat)
    requires k < SIZE && side >= 1
    ensures Low(k, side) < High(k, side) <= side
  {
    assert k * side < side * SIZE;
    FloorBelow(k * side, side);
  }

  lemma BoxWidth(k: nat, side: nat)
    requires k < SIZE && 1 <= side <= MAX_SIDE
    ensures High(k, side) - Low(k, side) <= 17
  {
    assert (k + 1) * side == k * side + side;
    Floor(k * side);
    Floor((k + 1) * side);
  }

  /** From 256 pixels up, each box ends where the next begins. */
  lemma BoxesMeet(k: nat, side: nat)
    requires k < SIZE && side >= SIZE
    ensures High(k, side) == Low(k + 1, side)
  {
    assert (k + 1) * side == k * side + side;
    Floor(k * side);
    FloorAtLeast((k + 1) * side, Low(k, side) + 1);
    FloorMonotone((k + 1) * side, side * SIZE);
  }

  lemma LowMonotone(j: nat, k: nat, side: nat)
    requires j <= k
    ensures Low(j, side) <= Low(k, side)
  {
    assert j * side <= k * side;
    FloorMonotone(j * side, k * side);
  }

  predicate InBox(p: nat, k: nat, side: nat) {
    Low(k, side) <= p < High(k, side)
  }

  lemma {:induction false} SomeBoxBelow(p: nat, n: nat, side: nat) returns (k: nat)
    requires 0 < n <= SIZE && side >= SIZE && p < Low(n, side)
    ensures k < n && InBox(p, k, side)
  {
    BoxesMeet(n - 1, side);
    if p >= Low(n - 1, side) {
      k := n - 1;
    } else {
      k := SomeBoxBelow(p, n - 1, side);
    }
  }

  lemma BoxesApart(p: nat, j: nat, k: nat, side: nat)
    requires side >= SIZE && j < k < SIZE
    ensures !(InBox(p, j, side) && InBox(p, k, side))
  {
    BoxesMeet(j, side);
    LowMonotone(j + 1, k, side);
  }

  lemma OneBox(p: nat, j: nat, k: nat, side: nat)
    requires side >= SIZE && j < SIZE && k < SIZE
    ensures InBox(p, j, side) && InBox(p, k, side) ==> j == k
  {
    if j < k {
      BoxesApart(p, j, k, side);
    } else if k < j {
      BoxesApart(p, k, j, side);
    }
  }

  /** The boxes tile an image of 256 pixels or more: every source pixel lies in exactly one of them. */
  lemma BoxesTile(py: nat, px: nat, side: nat) returns (y: nat, x: nat)
    requires side >= SIZE && py < side && px < side
    ensures y < SIZE && x < SIZE && InBox(py, y, side) && InBox(px, x, side)
    ensures forall v: nat, u: nat | v < SIZE && u < SIZE && InBox(py, v, side) && InBox(px, u, side) :: v == y && u == x
  {
    assert Low(SIZE, side) == side;
    y := SomeBoxBelow(py, SIZE, side);
    x := SomeBoxBelow(px, SIZE, side);
    forall v: nat, u: nat | v < SIZE && u < SIZE && InBox(py, v, side) && InBox(px, u, side) ensures v == y && u == x {
      OneBox(py, v, y, side);
      OneBox(px, u, x, side);
    }
  }

  /** Below 256 pixels every box is a single source pixel. */
  lemma SmallBoxesAreSinglePixels(k: nat, side: nat)
    requires k < SIZE && 1 <= side <= SIZE
    ensures High(k, side) == Low(k, side) + 1
  {
    BoxInside(k, side);
    assert (k + 1) * side == k * side + side;
    Floor(k * side);
    FloorBelow((k + 1) * side, Low(k, side) + 2);
  }

  // ---------- Sums over a box ----------

  datatype Channel = Red | Green | Blue

  function Part(p: Pixel, c: Channel): nat {
    match c
    case Red => p.r as int
    case Green => p.g as int
    case Blue => p.b as int
  }

  ghost function RowSum(a: array2<Pixel>, c: Channel, y: nat, x0: nat, x1: nat): nat
    requires y < a.Length0 && x1 <= a.Length1
    reads a
  {
    if x1 <= x0 then 0 else RowSum(a, c, y, x0, x1 - 1) + Part(a[y, x1 - 1], c)
  }

  ghost function BoxSum(a: array2<Pixel>, c: Channel, y0: nat, y1: nat, x0: nat, x1: nat): nat
    requires y1 <= a.Length0 && x1 <= a.Length1
    reads a
  {
    if y1 <= y0 then 0 else BoxSum(a, c, y0, y1 - 1, x0, x1) + RowSum(a, c, y1 - 1, x0, x1)
  }

  ghost predicate RowWithin(a: array2<Pixel>, c: Channel, y: nat, x0: nat, x1: nat, lo: nat, hi: nat)
    requires y < a.Length0 && x1 <= a.Length1
    reads a
  {
    forall x | x0 <= x < x1 :: lo <= Part(a[y, x], c) <= hi
  }

  lemma {:induction false} RowSumBounds(a: array2<Pixel>, c: Channel, y: nat, x0: nat, x1: nat, lo: nat, hi: nat)
    requires y < a.Length0 && x0 <= x1 <= a.Length1 && RowWithin(a, c, y, x0, x1, lo, hi)
    ensures (x1 - x0) * lo <= RowSum(a, c, y, x0, x1) <= (x1 - x0) * hi
  {
    if x0 < x1 {
      RowSumBounds(a, c, y, x0, x1 - 1, lo, hi);
      assert (x1 - x0) * lo == (x1 - 1 - x0) * lo + lo;
      assert (x1 - x0) * hi == (x1 - 1 - x0) * hi + hi;
    }
  }

  lemma {:induction false} BoxSumBounds(a: array2<Pixel>, c: Channel, y0: nat, y1: nat, x0: nat, x1: nat, lo: nat,
                                        hi: nat)
    requires y0 <= y1 <= a.Length0 && x0 <= x1 <= a.Length1
    requires forall y | y0 <= y < y1 :: RowWithin(a, c, y, x0, x1, lo, hi)
    ensures (y1 - y0) * ((x1 - x0) * lo) <= BoxSum(a, c, y0, y1, x0, x1) <= (y1 - y0) * ((x1 - x0) * hi)
  {
    if y0 < y1 {
      BoxSumBounds(a, c, y0, y1 - 1, x0, x1, lo, hi);
      RowSumBounds(a, c, y1 - 1, x0, x1, lo, hi);
      assert (y1 - y0) * ((x1 - x0) * lo) == (y1 - 1 - y0) * ((x1 - x0) * lo) + (x1 - x0) * lo;
      assert (y1 - y0) * ((x1 - x0) * hi) == (y1 - 1 - y0) * ((x1 - x0) * hi) + (x1 - x0) * hi;
    }
  }

  /** The average of one channel over a box. */
  ghost function BoxAverage(a: array2<Pixel>, c: Channel, y0: nat, y1: nat, x0: nat, x1: nat): nat
    requires y0 < y1 <= a.Length0 && x0 < x1 <= a.Length1
    reads a
  {
    BoxSum(a, c, y0, y1, x0, x1) / ((y1 - y0) * (x1 - x0))
  }

  lemma Quotient(sum: nat, n: nat)
    requires n > 0
    ensures n * (sum / n) <= sum < n * (sum / n + 1)
  {
  }

  lemma QuotientBounds(sum: nat, n: nat, lo: nat, hi: nat)
    requires n > 0 && n * lo <= sum <= n * hi
    ensures lo <= sum / n <= hi
  {
    var q := sum / n;
    Quotient(sum, n);
    SmallerFactor(lo, q + 1, n);
    assert n * hi < n * (hi + 1);
    SmallerFactor(q, hi + 1, n);
  }

  lemma Area(h: nat, w: nat, v: nat)
    ensures h * (w * v) == (h * w) * v
  {
  }

  /** An average lies between any bounds of its box: between its minimum and its maximum. */
  lemma AverageWithinBox(a: array2<Pixel>, c: Channel, y0: nat, y1: nat, x0: nat, x1: nat, lo: nat, hi: nat)
    requires y0 < y1 <= a.Length0 && x0 < x1 <= a.Length1
    requires forall y | y0 <= y < y1 :: RowWithin(a, c, y, x0, x1, lo, hi)
    ensures lo <= BoxAverage(a, c, y0, y1, x0, x1) <= hi
  {
    BoxSumBounds(a, c, y0, y1, x0, x1, lo, hi);
    var h, w := y1 - y0, x1 - x0;
    Area(h, w, lo);
    Area(h, w, hi);
    assert h * w > 0;
    QuotientBounds(BoxSum(a, c, y0, y1, x0, x1), h * w, lo, hi);
  }

  // ---------- The filter ----------

  const ROW_BOUND := 17 * 255

  lemma RowSmall(a: array2<Pixel>, c: Channel, y: nat, x0: nat, x: nat)
    requires y < a.Length0 && x0 <= x <= a.Length1 && x - x0 <= 17
    ensures RowSum(a, c, y, x0, x) <= ROW_BOUND
  {
    RowSumBounds(a, c, y, x0, x, 0, 255);
  }

  /** What a row adds to the totals of a box. */
  method AddRow(a: array2<Pixel>, y: nat, x0: nat, x1: nat, r0: uint32, g0: uint32, b0: uint32, n0: uint32)
    returns (r: uint32, g: uint32, b: uint32, n: uint32)
    requires y < a.Length0 && x0 <= x1 <= a.Length1 && x1 - x0 <= 17
    requires r0 as int + ROW_BOUND < 0x1_0000_0000 && g0 as int + ROW_BOUND < 0x1_0000_0000
    requires b0 as int + ROW_BOUND < 0x1_0000_0000 && n0 as int + 17 < 0x1_0000_0000
    ensures r as int == r0 as int + RowSum(a, Red, y, x0, x1)
    ensures g as int == g0 as int + RowSum(a, Green, y, x0, x1)
    ensures b as int == b0 as int + RowSum(a, Blue, y, x0, x1)
    ensures n as int == n0 as int + (x1 - x0)
  {
    r, g, b, n := r0, g0, b0, n0;
    var x := x0;
    while x < x1
      invariant x0 <= x <= x1
      invariant r as int == r0 as int + RowSum(a, Red, y, x0, x)
      invariant g as int == g0 as int + RowSum(a, Green, y, x0, x)
      invariant b as int == b0 as int + RowSum(a, Blue, y, x0, x)
      invariant n as int == n0 as int + (x - x0)
    {
      RowSmall(a, Red, y, x0, x + 1);
      RowSmall(a, Green, y, x0, x + 1);
      RowSmall(a, Blue, y, x0, x + 1);
      var p := a[y, x];
      r := r + p.r as uint32;
      g := g + p.g as uint32;
      b := b + p.b as uint32;
      n := n + 1;
      x := x + 1;
    }
  }

  lemma {:induction false} BoxSmall(a: array2<Pixel>, c: Channel, y0: nat, y: nat, x0: nat, x1: nat)
    requires y0 <= y <= a.Length0 && x0 <= x1 <= a.Length1 && x1 - x0 <= 17
    ensures BoxSum(a, c, y0, y, x0, x1) <= (y - y0) * ROW_BOUND
  {
    if y0 < y {
      BoxSmall(a, c, y0, y - 1, x0, x1);
      RowSmall(a, c, y - 1, x0, x1);
    }
  }

  lemma CountSmall(h: nat, w: nat)
    requires h < 17 && w <= 17
    ensures h * w <= 16 * 17
  {
    assert h * w <= 16 * w;
  }

  lemma CountNext(h: nat, w: nat)
    ensures (h + 1) * w == h * w + w
  {
  }

  lemma CountPositive(h: nat, w: nat)
    requires h > 0 && w > 0
    ensures h * w > 0
  {
  }

  method BoxTotals(a: array2<Pixel>, y0: nat, y1: nat, x0: nat, x1: nat)
    returns (r: uint32, g: uint32, b: uint32, n: uint32)
    requires y0 < y1 <= a.Length0 && x0 < x1 <= a.Length1 && y1 - y0 <= 17 && x1 - x0 <= 17
    ensures r as int == BoxSum(a, Red, y0, y1, x0, x1)
    ensures g as int == BoxSum(a, Green, y0, y1, x0, x1)
    ensures b as int == BoxSum(a, Blue, y0, y1, x0, x1)
    ensures n as int == (y1 - y0) * (x1 - x0)
  {
    r, g, b, n := 0, 0, 0, 0;
    var y := y0;
    while y < y1
      invariant y0 <= y <= y1
      invariant r as int == BoxSum(a, Red, y0, y, x0, x1)
      invariant g as int == BoxSum(a, Green, y0, y, x0, x1)
      invariant b as int == BoxSum(a, Blue, y0, y, x0, x1)
      invariant n as int == (y - y0) * (x1 - x0)
    {
      BoxSmall(a, Red, y0, y, x0, x1);
      BoxSmall(a, Green, y0, y, x0, x1);
      BoxSmall(a, Blue, y0, y, x0, x1);
      CountSmall(y - y0, x1 - x0);
      CountNext(y - y0, x1 - x0);
      r, g, b, n := AddRow(a, y, x0, x1, r, g, b, n);
      y := y + 1;
    }
  }

  /** The pixel whose channels are the averages over a box. No total overflows and no box is empty. */
  method AverageBox(a: array2<Pixel>, y0: nat, y1: nat, x0: nat, x1: nat) returns (p: Pixel)
    requires y0 < y1 <= a.Length0 && x0 < x1 <= a.Length1 && y1 - y0 <= 17 && x1 - x0 <= 17
    ensures forall c :: Part(p, c) == BoxAverage(a, c, y0, y1, x0, x1)
  {
    var r, g, b, n := BoxTotals(a, y0, y1, x0, x1);
    CountPositive(y1 - y0, x1 - x0);
    AverageWithinBox(a, Red, y0, y1, x0, x1, 0, 255);
    AverageWithinBox(a, Green, y0, y1, x0, x1, 0, 255);
    AverageWithinBox(a, Blue, y0, y1, x0, x1, 0, 255);
    p := Pixel((r / n) as byte, (g / n) as byte, (b / n) as byte);
    forall c ensures Part(p, c) == BoxAverage(a, c, y0, y1, x0, x1) {
      match c case Red => case Green => case Blue =>
    }
  }

  /** The destination pixel (y, x): each channel is the average over its box. */
  ghost predicate Averages(p: Pixel, flat: array2<Pixel>, y: nat, x: nat)
    requires flat.Length0 == flat.Length1 >= 1 && y < SIZE && x < SIZE
    reads flat
  {
    var side := flat.Length0;
    BoxInside(y, side);
    BoxInside(x, side);
    forall c :: Part(p, c) == BoxAverage(flat, c, Low(y, side), High(y, side), Low(x, side), High(x, side))
  }

  method BoxPixel(flat: array2<Pixel>, y: nat, x: nat, sy0: nat, sy1: nat) returns (p: Pixel)
    requires flat.Length0 == flat.Length1 && MIN_SIDE <= flat.Length0 <= MAX_SIDE && y < SIZE && x < SIZE
    requires sy0 == Low(y, flat.Length0) && sy1 == High(y, flat.Length0)
    ensures Averages(p, flat, y, x)
  {
    var side := flat.Length0;
    var sx0, sx1 := x * side / SIZE, (x + 1) * side / SIZE;
    if sx1 <= sx0 {
      sx1 := sx0 + 1;
    }
    if sx1 > side {
      sx1 := side;
    }
    BoxInside(y, side);
    BoxWidth(y, side);
    BoxInside(x, side);
    BoxWidth(x, side);
    p := AverageBox(flat, sy0, sy1, sx0, sx1);
  }

  method ResizeRow(flat: array2<Pixel>, dst: array2<Pixel>, y: nat)
    requires flat.Length0 == flat.Length1 && MIN_SIDE <= flat.Length0 <= MAX_SIDE && flat != dst
    requires dst.Length0 == dst.Length1 == SIZE && y < SIZE
    modifies dst
    ensures forall v, u | 0 <= v < SIZE && 0 <= u < SIZE && v != y :: dst[v, u] == old(dst[v, u])
    ensures forall u: nat | u < SIZE :: Averages(dst[y, u], flat, y, u)
  {
    var side := flat.Length0;
    var sy0, sy1 := y * side / SIZE, (y + 1) * side / SIZE;
    if sy1 <= sy0 {
      sy1 := sy0 + 1;
    }
    if sy1 > side {
      sy1 := side;
    }
    var x := 0;
    while x < SIZE
      invariant 0 <= x <= SIZE
      invariant forall v, u | 0 <= v < SIZE && 0 <= u < SIZE && v != y :: dst[v, u] == old(dst[v, u])
      invariant forall u: nat | u < x :: Averages(dst[y, u], flat, y, u)
    {
      dst[y, x] := BoxPixel(flat, y, x, sy0, sy1);
      x := x + 1;
    }
  }

  method Resize(flat: array2<Pixel>) returns (dst: array2<Pixel>)
    requires flat.Length0 == flat.Length1 && MIN_SIDE <= flat.Length0 <= MAX_SIDE
    ensures fresh(dst) && dst.Length0 == dst.Length1 == SIZE
    ensures forall y: nat, x: nat | y < SIZE && x < SIZE :: Averages(dst[y, x], flat, y, x)
  {
    dst := new Pixel[SIZE, SIZE]((_, _) => Pixel(0, 0, 0));
    var y := 0;
    while y < SIZE
      invariant 0 <= y <= SIZE
      invariant forall v: nat, u: nat | v < y && u < SIZE :: Averages(dst[v, u], flat, v, u)
    {
      ResizeRow(flat, dst, y);
      y := y + 1;
    }
  }

  /** An image of one colour stays that colour. */
  lemma ConstantStaysConstant(q: Pixel, flat: array2<Pixel>, p: Pixel, y: nat, x: nat)
    requires flat.Length0 == flat.Length1 >= 1 && y < SIZE && x < SIZE
    requires forall v, u | 0 <= v < flat.Length0 && 0 <= u < flat.Length0 :: flat[v, u] == p
    requires Averages(q, flat, y, x)
    ensures q == p
  {
    var side := flat.Length0;
    BoxInside(y, side);
    BoxInside(x, side);
    var y0, y1, x0, x1 := Low(y, side), High(y, side), Low(x, side), High(x, side);
    AverageWithinBox(flat, Red, y0, y1, x0, x1, Part(p, Red), Part(p, Red));
    AverageWithinBox(flat, Green, y0, y1, x0, x1, Part(p, Green), Part(p, Green));
    AverageWithinBox(flat, Blue, y0, y1, x0, x1, Part(p, Blue), Part(p, Blue));
    assert Part(q, Red) == Part(p, Red) && Part(q, Green) == Part(p, Green) && Part(q, Blue) == Part(p, Blue);
  }

  /** Every destination channel lies between any bounds that hold of its box. */
  lemma PixelWithinBox(q: Pixel, flat: array2<Pixel>, c: Channel, y: nat, x: nat, lo: nat, hi: nat)
    requires flat.Length0 == flat.Length1 >= 1 && y < SIZE && x < SIZE && Averages(q, flat, y, x)
    requires forall v: nat, u: nat |
               v < flat.Length0 && u < flat.Length0 && InBox(v, y, flat.Length0) && InBox(u, x, flat.Length0) ::
               lo <= Part(flat[v, u], c) <= hi
    ensures lo <= Part(q, c) <= hi
  {
    var side := flat.Length0;
    BoxInside(y, side);
    BoxInside(x, side);
    forall v: nat | Low(y, side) <= v < High(y, side)
      ensures RowWithin(flat, c, v, Low(x, side), High(x, side), lo, hi)
    {
      assert InBox(v, y, side);
      forall u | Low(x, side) <= u < High(x, side) ensures lo <= Part(flat[v, u], c) <= hi {
        assert InBox(u, x, side);
      }
    }
    AverageWithinBox(flat, c, Low(y, side), High(y, side), Low(x, side), High(x, side), lo, hi);
  }

  /** Below 256 pixels nothing is averaged: each destination pixel is a source pixel. */
  lemma SmallImagesAreSampled(q: Pixel, flat: array2<Pixel>, y: nat, x: nat)
    requires 1 <= flat.Length0 == flat.Length1 <= SIZE && y < SIZE && x < SIZE && Averages(q, flat, y, x)
    ensures Low(y, flat.Length0) < flat.Length0 && Low(x, flat.Length0) < flat.Length0
    ensures q == flat[Low(y, flat.Length0), Low(x, flat.Length0)]
  {
    var side := flat.Length0;
    BoxInside(y, side);
    BoxInside(x, side);
    SmallBoxesAreSinglePixels(y, side);
    SmallBoxesAreSinglePixels(x, side);
    var p := flat[Low(y, side), Low(x, side)];
    forall c ensures Part(q, c) == Part(p, c) {
      PixelWithinBox(q, flat, c, y, x, Part(p, c), Part(p, c));
    }
    assert Part(q, Red) == Part(p, Red) && Part(q, Green) == Part(p, Green) && Part(q, Blue) == Part(p, Blue);
  }

  // ---------- The crop ----------

  /** The largest centred square: it lies inside the image, touches both edges of the shorter side,
      and is off centre by at most one pixel. */
  method CropSquare(src: array2<Pixel>) returns (flat: array2<Pixel>, y0: nat, x0: nat)
    requires MIN_SIDE <= src.Length0 <= MAX_SIDE && MIN_SIDE <= src.Length1 <= MAX_SIDE
    ensures fresh(flat) && flat.Length0 == flat.Length1
    ensures flat.Length0 == if src.Length0 < src.Length1 then src.Length0 else src.Length1
    ensures y0 + flat.Length0 <= src.Length0 && x0 + flat.Length0 <= src.Length1
    ensures 0 <= (src.Length0 - y0 - flat.Length0) - y0 <= 1 && 0 <= (src.Length1 - x0 - flat.Length0) - x0 <= 1
    ensures forall v, u | 0 <= v < flat.Length0 && 0 <= u < flat.Length0 :: flat[v, u] == src[y0 + v, x0 + u]
  {
    var side := src.Length1;
    if src.Length0 < side {
      side := src.Length0;
    }
    x0 := (src.Length1 - side) / 2;
    y0 := (src.Length0 - side) / 2;
    flat := new Pixel[side, side]((v, u) requires 0 <= v < side && 0 <= u < side reads src => src[y0 + v, x0 + u]);
  }

  method ResizeSquare(src: array2<Pixel>) returns (dst: array2<Pixel>, ghost flat: array2<Pixel>, y0: nat, x0: nat)
    requires MIN_SIDE <= src.Length0 <= MAX_SIDE && MIN_SIDE <= src.Length1 <= MAX_SIDE
    ensures fresh(dst) && dst.Length0 == dst.Length1 == SIZE
    ensures flat.Length0 == flat.Length1 <= src.Length0 && flat.Length0 <= src.Length1 && flat.Length0 >= MIN_SIDE
    ensures y0 == (src.Length0 - flat.Length0) / 2 && x0 == (src.Length1 - flat.Length0) / 2
    ensures forall v, u | 0 <= v < flat.Length0 && 0 <= u < flat.Length0 :: flat[v, u] == src[y0 + v, x0 + u]
    ensures forall y: nat, x: nat | y < SIZE && x < SIZE :: Averages(dst[y, x], flat, y, x)
  {
    var square: array2<Pixel>;
    square, y0, x0 := CropSquare(src);
    dst := Resize(square);
    flat := square;
  }
}
