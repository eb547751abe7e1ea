/**
 The size of a filtered PNG raster, from `assertExactImageData` in scripts/feature-docs.ts. The passes
 are those of section 8.2 of the PNG specification.
 */
module Interlace {

  datatype Pass = Pass(x: nat, y: nat, dx: nat, dy: nat)

  function Passes(interlace: bool): seq<Pass> {
    if interlace then
      [Pass(0, 0, 8, 8), Pass(4, 0, 8, 8), Pass(0, 4, 4, 8), Pass(2, 0, 4, 4),
       Pass(0, 2, 2, 4), Pass(1, 0, 2, 2), Pass(0, 1, 1, 2)]
    else [Pass(0, 0, 1, 1)]
  }

  /** The steps of the grid are powers of two up to eight, and a pass starts inside its first step. */
  predicate Regular(start: nat, step: nat) { step in {1, 2, 4, 8} && start < step }

  predicate RegularPass(p: Pass) { Regular(p.x, p.dx) && Regular(p.y, p.dy) }

  /** The pixel is one of those that the pass carries. */
  predicate InPass(p: Pass, i: nat, j: nat)
    requires RegularPass(p)
  {
    i % p.dx == p.x && j % p.dy == p.y
  }

  /** `max(0, ceil((size - start) / step))` */
  function Lines(size: nat, start: nat, step: nat): nat
    requires step > 0
  {
    if size <= start then 0 else (size - start + step - 1) / step
  }

  // ---- Every pixel belongs to exactly one pass ----

  function Hits(ps: seq<Pass>, i: nat, j: nat): nat
    requires forall p | p in ps :: RegularPass(p)
  {
    if ps == [] then 0 else (if InPass(ps[0], i, j) then 1 else 0) + Hits(ps[1..], i, j)
  }

  lemma AllRegular(interlace: bool)
    ensures forall p | p in Passes(interlace) :: RegularPass(p)
  {
  }

  lemma HitsMore(p: Pass, rest: seq<Pass>, i: nat, j: nat)
    requires RegularPass(p) && forall q | q in rest :: RegularPass(q)
    ensures forall q | q in [p] + rest :: RegularPass(q)
    ensures Hits([p] + rest, i, j) == (if InPass(p, i, j) then 1 else 0) + Hits(rest, i, j)
  {
    assert ([p] + rest)[1..] == rest;
  }

  /** Quotient and remainder are what they look like, for the steps of the grid. */
  lemma Divides(q: int, r: int, step: nat)
    requires step in {1, 2, 4, 8} && 0 <= r < step
    ensures (step * q + r) / step == q && (step * q + r) % step == r
  {
    if step == 1 {
    } else if step == 2 {
    } else if step == 4 {
    } else {
      assert step == 8;
    }
  }

  lemma Halves(i: nat)
    ensures i % 4 == (i % 8) % 4 && i % 2 == (i % 8) % 2
  {
    var q, r := i / 8, i % 8;
    Divides(2 * q + r / 4, r % 4, 4);
    Divides(4 * q + r / 2, r % 2, 2);
  }

  /** A pixel is in a pass according to its place in the eight by eight grid. */
  lemma OnePass(i: nat, j: nat)
    ensures (forall p | p in Passes(true) :: RegularPass(p)) && Hits(Passes(true), i, j) == 1
  {
    Halves(i);
    Halves(j);
    HitsMore(Pass(0, 1, 1, 2), [], i, j);
    HitsMore(Pass(1, 0, 2, 2), [Pass(0, 1, 1, 2)], i, j);
    var three := [Pass(0, 2, 2, 4)] + ([Pass(1, 0, 2, 2)] + [Pass(0, 1, 1, 2)]);
    HitsMore(Pass(0, 2, 2, 4), [Pass(1, 0, 2, 2)] + [Pass(0, 1, 1, 2)], i, j);
    HitsMore(Pass(2, 0, 4, 4), three, i, j);
    HitsMore(Pass(0, 4, 4, 8), [Pass(2, 0, 4, 4)] + three, i, j);
    HitsMore(Pass(4, 0, 8, 8), [Pass(0, 4, 4, 8)] + ([Pass(2, 0, 4, 4)] + three), i, j);
    HitsMore(Pass(0, 0, 8, 8), [Pass(4, 0, 8, 8)] + ([Pass(0, 4, 4, 8)] + ([Pass(2, 0, 4, 4)] + three)), i, j);
    assert Passes(true) == [Pass(0, 0, 8, 8)] + ([Pass(4, 0, 8, 8)] + ([Pass(0, 4, 4, 8)] + ([Pass(2, 0, 4, 4)] + three)));
    GridCases(i % 8, j % 8);
  }

  /** In each of the grid's places exactly one of the seven conditions holds. */
  lemma GridCases(r: nat, s: nat)
    requires r < 8 && s < 8
    ensures (if s % 2 == 1 then 1 else 0) + (if r % 2 == 1 && s % 2 == 0 then 1 else 0)
            + (if r % 2 == 0 && s % 4 == 2 then 1 else 0) + (if r % 4 == 2 && s % 4 == 0 then 1 else 0)
            + (if r % 4 == 0 && s == 4 then 1 else 0) + (if r == 4 && s == 0 then 1 else 0)
            + (if r == 0 && s == 0 then 1 else 0) == 1
  {
  }

  /** The pass numbers of the eight by eight pattern in section 8.2 of the PNG specification. */
  const PATTERN: seq<seq<nat>> :=
    [[1, 6, 4, 6, 2, 6, 4, 6], [7, 7, 7, 7, 7, 7, 7, 7], [5, 6, 5, 6, 5, 6, 5, 6], [7, 7, 7, 7, 7, 7, 7, 7],
     [3, 6, 4, 6, 3, 6, 4, 6], [7, 7, 7, 7, 7, 7, 7, 7], [5, 6, 5, 6, 5, 6, 5, 6], [7, 7, 7, 7, 7, 7, 7, 7]]

  /** A pixel is in exactly the pass whose number the pattern has at its place. */
  lemma PatternPass(i: nat, j: nat, k: nat)
    requires k < 7
    ensures RegularPass(Passes(true)[k])
    ensures |PATTERN| == 8 && |PATTERN[j % 8]| == 8
    ensures InPass(Passes(true)[k], i, j) <==> PATTERN[j % 8][i % 8] == k + 1
  {
    Halves(i);
    Halves(j);
    PatternCases(i % 8, j % 8);
  }

  lemma PatternCases(r: nat, s: nat)
    requires r < 8 && s < 8
    ensures |PATTERN| == 8 && |PATTERN[s]| == 8
    ensures PATTERN[s][r] == if s % 2 == 1 then 7 else if r % 2 == 1 then 6 else if s % 4 == 2 then 5
                             else if r % 4 == 2 then 4 else if s == 4 then 3 else if r == 4 then 2 else 1
  {
    assert r in {0, 1, 2, 3, 4, 5, 6, 7};
    assert s in {0, 1, 2, 3, 4, 5, 6, 7};
  }

  // ---- Counting pixels ----

  /** How many of the first `size` columns (or rows) the pass uses, one by one. */
  function Count(size: nat, start: nat, step: nat): nat
    requires step > 0
  {
    if size == 0 then 0 else Count(size - 1, start, step) + if (size - 1) % step == start then 1 else 0
  }

  /** One for every full step, and one more once the remainder has passed the start. */
  lemma LinesAt(q: nat, r: nat, start: nat, step: nat)
    requires Regular(start, step) && r <= step
    ensures step * q + r >= 0
    ensures Lines(step * q + r, start, step) == q + if r > start then 1 else 0
  {
    if step * q + r > start {
      var over := r - start + step - 1;
      assert step * q + r - start + step - 1 == step * q + over;
      if over < step {
        Divides(q, over, step);
      } else {
        assert step * q + over == step * (q + 1) + (over - step);
        Divides(q + 1, over - step, step);
      }
    } else {
      assert step * q >= 0;
      assert q > 0 ==> step * q >= step;
    }
  }

  lemma LinesStep(n: nat, start: nat, step: nat)
    requires Regular(start, step)
    ensures Lines(n + 1, start, step) == Lines(n, start, step) + if n % step == start then 1 else 0
  {
    var q, r := n / step, n % step;
    assert n == step * q + r;
    LinesAt(q, r, start, step);
    LinesAt(q, r + 1, start, step);
  }

  /** The formula counts exactly the columns of the pass. */
  lemma {:induction false} LinesCount(size: nat, start: nat, step: nat)
    requires Regular(start, step)
    ensures Lines(size, start, step) == Count(size, start, step)
  {
    if size > 0 {
      LinesCount(size - 1, start, step);
      LinesStep(size - 1, start, step);
    }
  }

  /** The pass's pixels in the first `width` places of row `j`. */
  function RowPixels(p: Pass, width: nat, j: nat): nat
    requires RegularPass(p)
  {
    if width == 0 then 0 else RowPixels(p, width - 1, j) + if InPass(p, width - 1, j) then 1 else 0
  }

  lemma {:induction false} RowCount(p: Pass, width: nat, j: nat)
    requires RegularPass(p)
    ensures RowPixels(p, width, j) == if j % p.dy == p.y then Count(width, p.x, p.dx) else 0
  {
    if width > 0 {
      RowCount(p, width - 1, j);
    }
  }

  function Pixels(p: Pass, width: nat, height: nat): nat
    requires RegularPass(p)
  {
    if height == 0 then 0 else Pixels(p, width, height - 1) + RowPixels(p, width, height - 1)
  }

  lemma OneMore(each: nat, n: nat)
    ensures each * (n + 1) == each * n + each && (n + 1) * each == n * each + each
  {
  }

  lemma {:induction false} PixelsCount(p: Pass, width: nat, height: nat)
    requires RegularPass(p)
    ensures Pixels(p, width, height) == Count(width, p.x, p.dx) * Count(height, p.y, p.dy)
  {
    if height > 0 {
      var columns, rows := Count(width, p.x, p.dx), Count(height - 1, p.y, p.dy);
      PixelsCount(p, width, height - 1);
      RowCount(p, width, height - 1);
      OneMore(columns, rows);
      assert Count(height, p.y, p.dy) == rows + if (height - 1) % p.dy == p.y then 1 else 0;
    } else {
      assert Count(0, p.y, p.dy) == 0;
    }
  }

  function Areas(ps: seq<Pass>, width: nat, height: nat): nat
    requires forall p | p in ps :: RegularPass(p)
  {
    if ps == [] then 0
    else assert RegularPass(ps[0]); Lines(width, ps[0].x, ps[0].dx) * Lines(height, ps[0].y, ps[0].dy) + Areas(ps[1..], width, height)
  }

  function AllRow(ps: seq<Pass>, width: nat, j: nat): nat
    requires forall p | p in ps :: RegularPass(p)
  {
    if ps == [] then 0 else RowPixels(ps[0], width, j) + AllRow(ps[1..], width, j)
  }

  function AllPixels(ps: seq<Pass>, width: nat, height: nat): nat
    requires forall p | p in ps :: RegularPass(p)
  {
    if ps == [] then 0 else Pixels(ps[0], width, height) + AllPixels(ps[1..], width, height)
  }

  lemma {:induction false} AreasArePixels(ps: seq<Pass>, width: nat, height: nat)
    requires forall p | p in ps :: RegularPass(p)
    ensures Areas(ps, width, height) == AllPixels(ps, width, height)
  {
    if ps != [] {
      var p := ps[0];
      assert RegularPass(p);
      AreasArePixels(ps[1..], width, height);
      LinesCount(width, p.x, p.dx);
      LinesCount(height, p.y, p.dy);
      PixelsCount(p, width, height);
    }
  }

  lemma {:induction false} RowStep(ps: seq<Pass>, width: nat, j: nat)
    requires forall p | p in ps :: RegularPass(p)
    ensures AllRow(ps, width + 1, j) == AllRow(ps, width, j) + Hits(ps, width, j)
  {
    if ps != [] {
      RowStep(ps[1..], width, j);
    }
  }

  lemma {:induction false} ColumnStep(ps: seq<Pass>, width: nat, height: nat)
    requires forall p | p in ps :: RegularPass(p)
    ensures AllPixels(ps, width, height + 1) == AllPixels(ps, width, height) + AllRow(ps, width, height)
  {
    if ps != [] {
      ColumnStep(ps[1..], width, height);
    }
  }

  lemma {:induction false} NoColumns(ps: seq<Pass>, width: nat, j: nat)
    requires forall p | p in ps :: RegularPass(p)
    ensures AllRow(ps, 0, j) == 0 && AllPixels(ps, width, 0) == 0
  {
    if ps != [] {
      NoColumns(ps[1..], width, j);
    }
  }

  lemma {:induction false} RowFull(width: nat, j: nat)
    ensures forall p | p in Passes(true) :: RegularPass(p)
    ensures AllRow(Passes(true), width, j) == width
  {
    if width == 0 {
      NoColumns(Passes(true), width, j);
    } else {
      RowFull(width - 1, j);
      RowStep(Passes(true), width - 1, j);
      OnePass(width - 1, j);
    }
  }

  lemma {:induction false} GridFull(width: nat, height: nat)
    ensures forall p | p in Passes(true) :: RegularPass(p)
    ensures AllPixels(Passes(true), width, height) == width * height
  {
    if height == 0 {
      NoColumns(Passes(true), width, 0);
    } else {
      GridFull(width, height - 1);
      OneMore(width, height - 1);
      ColumnStep(Passes(true), width, height - 1);
      RowFull(width, height - 1);
    }
  }

  /** The columns times rows of the passes add up to the picture, interlaced or not. */
  lemma PassesCover(interlace: bool, width: nat, height: nat)
    ensures forall p | p in Passes(interlace) :: RegularPass(p)
    ensures Areas(Passes(interlace), width, height) == width * height
  {
    if interlace {
      GridFull(width, height);
      AreasArePixels(Passes(true), width, height);
    } else {
      assert Passes(false)[1..] == [];
    }
  }

  // ---- The raster, scan line by scan line ----

  function RowBytes(columns: nat, bits: nat): nat { 1 + (columns * bits + 7) / 8 }

  /** One filter byte and the packed pixels of one scan line; a line without pixels is not there. */
  function ScanLine(p: Pass, width: nat, j: nat, bits: nat): nat
    requires RegularPass(p)
  {
    if RowPixels(p, width, j) == 0 then 0 else RowBytes(RowPixels(p, width, j), bits)
  }

  function PassBytes(p: Pass, width: nat, height: nat, bits: nat): nat
    requires RegularPass(p)
  {
    if height == 0 then 0 else PassBytes(p, width, height - 1, bits) + ScanLine(p, width, height - 1, bits)
  }

  function RasterBytes(ps: seq<Pass>, width: nat, height: nat, bits: nat): nat
    requires forall p | p in ps :: RegularPass(p)
  {
    if ps == [] then 0
    else RasterBytes(ps[..|ps| - 1], width, height, bits) + PassBytes(ps[|ps| - 1], width, height, bits)
  }

  lemma {:induction false} PassBytesIs(p: Pass, width: nat, height: nat, bits: nat)
    requires RegularPass(p)
    ensures var columns := Count(width, p.x, p.dx);
            PassBytes(p, width, height, bits)
            == if columns == 0 then 0 else Count(height, p.y, p.dy) * RowBytes(columns, bits)
  {
    if height > 0 {
      PassBytesIs(p, width, height - 1, bits);
      RowCount(p, width, height - 1);
      OneMore(RowBytes(Count(width, p.x, p.dx), bits), Count(height - 1, p.y, p.dy));
    }
  }

  function Channels(colorType: nat): nat {
    if colorType == 2 then 3 else if colorType == 4 then 2 else if colorType == 6 then 4 else 1
  }

  /** The bits of a colour type: a palette index, or grey or colour samples, and an alpha sample. */
  lemma ChannelsOfType(palette: bool, colour: bool, alpha: bool)
    requires palette ==> colour && !alpha
    ensures Channels((if palette then 1 else 0) + (if colour then 2 else 0) + (if alpha then 4 else 0))
         == if palette then 1 else (if colour then 3 else 1) + if alpha then 1 else 0
  {
  }

  /** The length the inflated image data must have. */
  method Expected(bitDepth: nat, colorType: nat, interlace: bool, width: nat, height: nat) returns (expected: nat)
    ensures forall p | p in Passes(interlace) :: RegularPass(p)
    ensures expected == RasterBytes(Passes(interlace), width, height, bitDepth * Channels(colorType))
  {
    AllRegular(interlace);
    var bits := bitDepth * Channels(colorType);
    var ps := Passes(interlace);
    expected := 0;
    for k := 0 to |ps|
      invariant expected == RasterBytes(ps[..k], width, height, bits)
    {
      var p := ps[k];
      var columns := Lines(width, p.x, p.dx);
      var rows := Lines(height, p.y, p.dy);
      LinesCount(width, p.x, p.dx);
      LinesCount(height, p.y, p.dy);
      PassBytesIs(p, width, height, bits);
      if columns != 0 && rows != 0 { expected := expected + rows * RowBytes(columns, bits); }
      assert ps[..k + 1][..k] == ps[..k];
    }
    assert ps[..|ps|] == ps;
  }
}
