/**
 * The canvas export pipeline: the export palette, the dot-grid and card layout,
 * the two renderers (a display list stands for the pixels), the footer-name
 * font fitting, the export filename and the print page.
 */
module DotExport {
  import opened Wrappers
  import opened Text
  import opened Themes
  import opened LifeDotsData

  // ---------------------------------------------------------------- palette

  const RAINBOW_HEX: seq<string> := [
    "#f87171", "#fb923c", "#fbbf24", "#facc15",
    "#a3e635", "#4ade80", "#34d399", "#2dd4bf",
    "#22d3ee", "#38bdf8", "#60a5fa", "#818cf8",
    "#a78bfa", "#e879f9", "#f472b6", "#fb7185"
  ]

  const CLASSIC_FILLED: string := "#111827"
  const CLASSIC_EMPTY: string := "#e5e7eb"
  const CARD_BORDER: string := "#e5e7eb"
  const CARD_TEXT_MUTED: string := "#6b7280"
  const CARD_TEXT: string := "#374151"
  const CLASSIC_BACKGROUND: string := "#ffffff"

  datatype ExportPalette = ExportPalette(
    filled: string, empty: string, border: string, text: string, muted: string,
    background: string, rainbow: seq<string>)

  /** `getExportPalette(theme)`: the fixed classic colours without a theme, else the
      theme's own tokens (surface becomes the background). */
  function GetExportPalette(theme: Option<Theme>): (p: ExportPalette)
    ensures theme.None? ==>
      (p.filled == CLASSIC_FILLED && p.empty == CLASSIC_EMPTY &&
       p.border == CARD_BORDER && p.text == CARD_TEXT && p.muted == CARD_TEXT_MUTED &&
       p.background == CLASSIC_BACKGROUND && p.rainbow == RAINBOW_HEX)
    ensures theme.Some? ==>
      (var tp := theme.value.palette;
       p.filled == tp.dotFilled && p.empty == tp.dotEmpty && p.border == tp.border &&
       p.text == tp.text && p.muted == tp.muted && p.background == tp.surface &&
       p.rainbow == tp.rainbow)
  {
    match theme
    case None =>
      ExportPalette(CLASSIC_FILLED, CLASSIC_EMPTY, CARD_BORDER, CARD_TEXT, CARD_TEXT_MUTED,
                    CLASSIC_BACKGROUND, RAINBOW_HEX)
    case Some(t) =>
      ExportPalette(t.palette.dotFilled, t.palette.dotEmpty, t.palette.border, t.palette.text,
                    t.palette.muted, t.palette.surface, t.palette.rainbow)
  }

  /** Without a theme, and with any theme of the table, the rainbow cycle has sixteen
      colours, so the modulo in the colour choice is never taken by zero. */
  lemma ExportRainbowHasSixteen(theme: Option<Theme>)
    requires theme.Some? ==> theme.value.palette == ThemePalette(theme.value.id)
    ensures |GetExportPalette(theme).rainbow| == 16
  {
    match theme
    case None =>
    case Some(t) =>
      match t.id
      case Classic =>
      case Aurora =>
      case Sunset =>
      case Ocean =>
      case Citrus =>
      case Rose =>
      case Slate =>
      case Desert =>
  }

  // --------------------------------------------------------------- geometry

  /** `Math.ceil(x)`. */
  function Ceil(x: real): (r: int)
    ensures x <= r as real < x + 1.0
  {
    -((-x).Floor)
  }

  /** `Math.ceil(total / perRow)`: the fewest rows of `perRow` cells that hold `total`. */
  function Rows(total: nat, perRow: nat): nat
    requires perRow > 0
  {
    (total + perRow - 1) / perRow
  }

  /** `Rows` is the ceiling of `total / perRow`: enough rows, and no row to spare. */
  lemma RowsIsCeiling(total: nat, perRow: nat)
    requires perRow > 0
    ensures total <= Rows(total, perRow) * perRow
    ensures Rows(total, perRow) > 0 ==> (Rows(total, perRow) - 1) * perRow < total
  {}

  /** Width of `count` cells of size `dotSize` with `gap` between neighbours. */
  function Span(count: int, dotSize: real, gap: real): real {
    count as real * dotSize + (count - 1) as real * gap
  }

  /** Top-left corner of cell `index` relative to the grid origin: column
      `index mod perRow`, row `index div perRow`. */
  function CellOrigin(index: nat, perRow: nat, dotSize: real, gap: real): (real, real)
    requires perRow > 0
  {
    ((index % perRow) as real * (dotSize + gap), (index / perRow) as real * (dotSize + gap))
  }

  /** Every cell of the grid lies inside the grid's width and height. */
  lemma CellInsideGrid(index: nat, total: nat, perRow: nat, dotSize: real, gap: real)
    requires perRow > 0 && index < total && dotSize >= 0.0 && gap >= 0.0
    ensures var (x, y) := CellOrigin(index, perRow, dotSize, gap);
      0.0 <= x && x + dotSize <= Span(perRow, dotSize, gap) &&
      0.0 <= y && y + dotSize <= Span(Rows(total, perRow), dotSize, gap)
  {
    var rows := Rows(total, perRow);
    var col, row := index % perRow, index / perRow;
    var origin := CellOrigin(index, perRow, dotSize, gap);
    assert origin.0 == col as real * (dotSize + gap) && origin.1 == row as real * (dotSize + gap);
    RowInRange(index, total, perRow);
    SpanStep(col, perRow, dotSize, gap);
    SpanStep(row, rows, dotSize, gap);
  }

  /** The row of a cell of the grid is one of its `Rows`. */
  lemma RowInRange(index: nat, total: nat, perRow: nat)
    requires perRow > 0 && index < total
    ensures index / perRow < Rows(total, perRow)
  {
    var rows := Rows(total, perRow);
    RowsIsCeiling(total, perRow);
    var row := index / perRow;
    assert row * perRow <= index by {
      assert index == row * perRow + index % perRow;
    }
    MulLessCancel(row, rows, perRow);
  }

  lemma MulLessCancel(a: nat, b: nat, c: nat)
    requires a * c < b * c
    ensures a < b
  {
    if b < a {
      MulMonotone(b, a, c);
    }
  }

  lemma MulMonotone(a: nat, b: nat, c: nat)
    requires a <= b
    ensures a * c <= b * c
  {}

  /** Cell `k` of a line of `n` ends inside the line's span. */
  lemma SpanStep(k: nat, n: nat, dotSize: real, gap: real)
    requires k < n && dotSize >= 0.0 && gap >= 0.0
    ensures 0.0 <= k as real * (dotSize + gap)
    ensures k as real * (dotSize + gap) + dotSize <= Span(n, dotSize, gap)
  {
    var d := (n - 1 - k) as real;
    assert Span(n, dotSize, gap) - (k as real * (dotSize + gap) + dotSize) == d * (dotSize + gap);
  }

  /** Distinct cells never share an origin while cells have positive pitch. */
  lemma CellOriginsDistinct(i: nat, j: nat, perRow: nat, dotSize: real, gap: real)
    requires perRow > 0 && dotSize + gap > 0.0
    ensures i != j ==> CellOrigin(i, perRow, dotSize, gap) != CellOrigin(j, perRow, dotSize, gap)
  {
    var p := dotSize + gap;
    var oi, oj := CellOrigin(i, perRow, dotSize, gap), CellOrigin(j, perRow, dotSize, gap);
    if oi == oj {
      assert oi.0 == oj.0 && oi.1 == oj.1;
      RealCancel((i % perRow) as real, (j % perRow) as real, p);
      RealCancel((i / perRow) as real, (j / perRow) as real, p);
      assert i == (i / perRow) * perRow + i % perRow;
      assert j == (j / perRow) * perRow + j % perRow;
    }
  }

  lemma RealCancel(a: real, b: real, p: real)
    requires p > 0.0 && a * p == b * p
    ensures a == b
  {
    assert (a - b) * p == 0.0;
  }

  /** Which cells count as passed: exactly those with index below `filled`. */
  predicate IsPassed(index: nat, filled: int) {
    index < filled
  }

  /** Number of passed cells among the first `n`. */
  function PassedCount(n: nat, filled: int): nat {
    if n == 0 then 0 else PassedCount(n - 1, filled) + (if IsPassed(n - 1, filled) then 1 else 0)
  }

  /** Of `total` cells exactly `filled` are passed, once `filled` is clamped to `[0, total]`. */
  lemma {:induction false} PassedCountIsClampedFilled(n: nat, filled: int)
    ensures PassedCount(n, filled) == if filled <= 0 then 0 else if filled >= n then n else filled
  {
    if n > 0 {
      PassedCountIsClampedFilled(n - 1, filled);
    }
  }

  /** The fill colour of cell `index`. */
  function CellColour(style: DotStyle, palette: ExportPalette, filled: int, index: nat): (c: string)
    requires style == RainbowBox && IsPassed(index, filled) ==> |palette.rainbow| > 0
    ensures !IsPassed(index, filled) ==> c == palette.empty
    ensures IsPassed(index, filled) && style == ClassicDots ==> c == palette.filled
    ensures IsPassed(index, filled) && style == RainbowBox ==>
      c == palette.rainbow[index % |palette.rainbow|]
  {
    if style == ClassicDots then
      (if IsPassed(index, filled) then palette.filled else palette.empty)
    else
      (if IsPassed(index, filled) then palette.rainbow[index % |palette.rainbow|] else palette.empty)
  }

  /** Passed rainbow cells repeat their colour every `|rainbow|` cells. */
  lemma {:induction false} RainbowCycle(palette: ExportPalette, filled: int, index: nat, k: nat)
    requires |palette.rainbow| > 0 && IsPassed(index + k * |palette.rainbow|, filled)
    ensures CellColour(RainbowBox, palette, filled, index) ==
            CellColour(RainbowBox, palette, filled, index + k * |palette.rainbow|)
  {
    var n := |palette.rainbow|;
    if k > 0 {
      RainbowCycle(palette, filled, index, k - 1);
      assert index + k * n == (index + (k - 1) * n) + n;
      ModShift(index + (k - 1) * n, n);
    }
  }

  lemma ModShift(i: nat, n: nat)
    requires n > 0
    ensures (i + n) % n == i % n
  {
    var q, r := i / n, i % n;
    assert i + n == (q + 1) * n + r;
    ModOfDecomposition(i + n, n, q + 1, r);
  }

  /** Euclidean division is unique. */
  lemma ModOfDecomposition(a: nat, n: nat, q: nat, r: nat)
    requires n > 0 && r < n && a == q * n + r
    ensures a % n == r
  {
    var q', r' := a / n, a % n;
    assert (q' - q) * n == r - r';
    SmallMultiple(q' - q, n);
  }

  lemma SmallMultiple(x: int, n: nat)
    requires n > 0 && -(n as int) < x * n < n
    ensures x == 0
  {
    if x >= 1 {
      MulMonotone(1, x, n);
    }
  }

  // ---------------------------------------------------------------- canvas

  datatype Align = AlignStart | AlignLeft | AlignRight | AlignCenter

  /** A CSS font shorthand: weight, pixel size and family. */
  datatype Font = Font(weight: nat, size: real, family: string)

  /** A loaded image element; only its source is of interest here. */
  datatype FlagImage = FlagImage(src: string)

  /** One painting instruction issued to the 2D context, in user-space units. */
  datatype DrawOp =
    | FillRect(x: real, y: real, w: real, h: real, colour: string)
    | FillCircle(cx: real, cy: real, r: real, colour: string)
    | FillRoundedRect(x: real, y: real, w: real, h: real, radius: real, colour: string)
    | StrokeRoundedRect(x: real, y: real, w: real, h: real, radius: real, colour: string, lineWidth: real)
    | FillText(text: string, x: real, y: real, font: Font, colour: string, align: Align)
    | DrawImage(image: FlagImage, x: real, y: real, w: real, h: real)

  /** The bounding box `(x, y, w, h)` a cell's painting instruction covers. */
  function CellBox(op: DrawOp): (real, real, real, real) {
    match op
    case FillCircle(cx, cy, r, _) => (cx - r, cy - r, 2.0 * r, 2.0 * r)
    case FillRoundedRect(x, y, w, h, _, _) => (x, y, w, h)
    case _ => (0.0, 0.0, 0.0, 0.0)
  }

  function CellFill(op: DrawOp): string {
    match op
    case FillCircle(_, _, _, c) => c
    case FillRoundedRect(_, _, _, _, _, c) => c
    case _ => ""
  }

  /** The size of a new canvas element, in pixels. */
  const DEFAULT_CANVAS_WIDTH: nat := 300
  const DEFAULT_CANVAS_HEIGHT: nat := 150

  /**
   * Assigning the integer `v` to a canvas's `width` or `height`: the value is
   * taken modulo 2^32 as an `unsigned long`, and one above 2147483647 leaves
   * the attribute at its default (HTML Living Standard, reflection of
   * non-negative integer attributes).
   */
  function CanvasDimension(v: int, default: nat): (r: nat)
    ensures r <= 2147483647 || r == default
    ensures 0 <= v <= 2147483647 ==> r == v
    ensures -2147483648 <= v < 0 ==> r == default
  {
    var u := v % 0x1_0000_0000;
    if u <= 2147483647 then u else default
  }

  /** A canvas element with its 2D context: backing-store size, the context's scale
      transform and the instructions painted so far. */
  class Canvas {
    var width: int
    var height: int
    var scale: real
    var ops: seq<DrawOp>

    /** `document.createElement("canvas")`. */
    constructor()
      ensures width == DEFAULT_CANVAS_WIDTH && height == DEFAULT_CANVAS_HEIGHT
      ensures scale == 1.0 && ops == []
    {
      width := DEFAULT_CANVAS_WIDTH;
      height := DEFAULT_CANVAS_HEIGHT;
      scale := 1.0;
      ops := [];
    }

    /** `canvas.width = v`. */
    method SetWidth(v: int)
      modifies this`width
      ensures width == CanvasDimension(v, DEFAULT_CANVAS_WIDTH)
    {
      width := CanvasDimension(v, DEFAULT_CANVAS_WIDTH);
    }

    /** `canvas.height = v`. */
    method SetHeight(v: int)
      modifies this`height
      ensures height == CanvasDimension(v, DEFAULT_CANVAS_HEIGHT)
    {
      height := CanvasDimension(v, DEFAULT_CANVAS_HEIGHT);
    }

    /** `ctx.scale(s, s)`. */
    method Scale(s: real)
      modifies this`scale
      ensures scale == old(scale) * s
    {
      scale := scale * s;
    }

    method Draw(op: DrawOp)
      modifies this`ops
      ensures ops == old(ops) + [op]
    {
      ops := ops + [op];
    }
  }

  function Max(a: real, b: real): real { if a >= b then a else b }
  function Min(a: real, b: real): real { if a <= b then a else b }

  /** The corner radius `drawRoundedRect` actually uses. */
  function SafeRadius(radius: real, w: real, h: real): real {
    Min(radius, Min(w / 2.0, h / 2.0))
  }

  // ------------------------------------------------------------- dot grid

  datatype DotExportOptions = DotExportOptions(
    total: nat, filled: int, perRow: nat, dotStyle: DotStyle, dotSize: real, gap: real,
    scale: Option<real>, background: Option<string>, theme: Option<Theme>)

  function ScaleOf(o: DotExportOptions): real { o.scale.GetOr(3.0) }

  /** Colours are defined for every cell the options paint. */
  predicate ColoursDefined(o: DotExportOptions) {
    o.dotStyle == RainbowBox && o.filled > 0 && o.total > 0 ==>
      |GetExportPalette(o.theme).rainbow| > 0
  }

  function GridWidth(o: DotExportOptions): real {
    Span(o.perRow, o.dotSize, o.gap)
  }

  function GridHeight(o: DotExportOptions): real
    requires o.perRow > 0
  {
    Span(Rows(o.total, o.perRow), o.dotSize, o.gap)
  }

  /** An empty grid has no rows, and the height formula then gives minus one gap, not zero. */
  lemma EmptyGridHeight(o: DotExportOptions)
    requires o.perRow > 0 && o.total == 0
    ensures Rows(o.total, o.perRow) == 0
    ensures GridHeight(o) == -o.gap
  {
  }

  /**
   * The negative height of an empty grid does not reach the canvas: once the
   * scaled gap is at least one pixel, the assignment is ignored and the canvas
   * keeps its default height; a scaled gap under one pixel rounds up to zero.
   */
  lemma EmptyGridCanvasHeight(o: DotExportOptions)
    requires o.perRow > 0 && o.total == 0 && o.gap >= 0.0 && ScaleOf(o) >= 0.0
    requires o.gap * ScaleOf(o) <= 2147483648.0
    ensures o.gap * ScaleOf(o) >= 1.0 ==>
      CanvasDimension(Ceil(GridHeight(o) * ScaleOf(o)), DEFAULT_CANVAS_HEIGHT) == DEFAULT_CANVAS_HEIGHT
    ensures o.gap * ScaleOf(o) < 1.0 ==>
      CanvasDimension(Ceil(GridHeight(o) * ScaleOf(o)), DEFAULT_CANVAS_HEIGHT) == 0
  {
    var g := o.gap * ScaleOf(o);
    EmptyGridHeight(o);
    assert (-o.gap) * ScaleOf(o) == -g;
    var h := Ceil(-g);
    assert -g <= h as real < -g + 1.0;
  }

  /** The instruction painting cell `index` with the grid's origin at `(ox, oy)`. */
  function CellOp(o: DotExportOptions, ox: real, oy: real, index: nat): DrawOp
    requires o.perRow > 0 && ColoursDefined(o) && index < o.total
  {
    var palette := GetExportPalette(o.theme);
    var origin := CellOrigin(index, o.perRow, o.dotSize, o.gap);
    CellShape(o.dotStyle, ox + origin.0, oy + origin.1, o.dotSize,
              CellColour(o.dotStyle, palette, o.filled, index))
  }

  /** A classic cell is a disc inscribed in its square; a rainbow cell a rounded square. */
  function CellShape(style: DotStyle, x: real, y: real, dotSize: real, colour: string): (op: DrawOp)
    ensures CellBox(op) == (x, y, dotSize, dotSize) && CellFill(op) == colour
  {
    if style == ClassicDots then
      FillCircle(x + dotSize / 2.0, y + dotSize / 2.0, dotSize / 2.0, colour)
    else
      FillRoundedRect(x, y, dotSize, dotSize, SafeRadius(Max(1.0, dotSize * 0.22), dotSize, dotSize), colour)
  }

  /** The instructions for cells `0 .. n-1`, in index order. */
  function CellOps(o: DotExportOptions, ox: real, oy: real, n: nat): seq<DrawOp>
    requires o.perRow > 0 && ColoursDefined(o) && n <= o.total
  {
    if n == 0 then [] else CellOps(o, ox, oy, n - 1) + [CellOp(o, ox, oy, n - 1)]
  }

  /** One instruction per cell, the `i`-th painting cell `i`. */
  lemma {:induction false} CellOpsIndexed(o: DotExportOptions, ox: real, oy: real, n: nat)
    requires o.perRow > 0 && ColoursDefined(o) && n <= o.total
    ensures |CellOps(o, ox, oy, n)| == n
    ensures forall i :: 0 <= i < n ==> CellOps(o, ox, oy, n)[i] == CellOp(o, ox, oy, i)
  {
    if n > 0 {
      CellOpsIndexed(o, ox, oy, n - 1);
    }
  }

  /** Cell `index` covers the `dotSize` square at column `index mod perRow`, row
      `index div perRow` of the grid placed at `(ox, oy)`, and is painted with the
      filled colour exactly when it is passed. */
  lemma CellOpPlacement(o: DotExportOptions, ox: real, oy: real, index: nat)
    requires o.perRow > 0 && ColoursDefined(o) && index < o.total
    ensures CellBox(CellOp(o, ox, oy, index)) ==
      (ox + (index % o.perRow) as real * (o.dotSize + o.gap),
       oy + (index / o.perRow) as real * (o.dotSize + o.gap), o.dotSize, o.dotSize)
  {
    var origin := CellOrigin(index, o.perRow, o.dotSize, o.gap);
    assert origin.0 == (index % o.perRow) as real * (o.dotSize + o.gap);
    assert origin.1 == (index / o.perRow) as real * (o.dotSize + o.gap);
  }

  lemma CellOpColour(o: DotExportOptions, ox: real, oy: real, index: nat)
    requires o.perRow > 0 && ColoursDefined(o) && index < o.total
    ensures !IsPassed(index, o.filled) ==>
      CellFill(CellOp(o, ox, oy, index)) == GetExportPalette(o.theme).empty
    ensures IsPassed(index, o.filled) && o.dotStyle == ClassicDots ==>
      CellFill(CellOp(o, ox, oy, index)) == GetExportPalette(o.theme).filled
    ensures IsPassed(index, o.filled) && o.dotStyle == RainbowBox ==>
      var rainbow := GetExportPalette(o.theme).rainbow;
      CellFill(CellOp(o, ox, oy, index)) == rainbow[index % |rainbow|]
  {}

  /** The instructions `renderDotsToCanvas` paints on a canvas with a context. */
  function DotsOps(o: DotExportOptions): seq<DrawOp>
    requires o.perRow > 0 && ColoursDefined(o)
  {
    [FillRect(0.0, 0.0, GridWidth(o), GridHeight(o), o.background.GetOr(GetExportPalette(o.theme).background))]
      + CellOps(o, 0.0, 0.0, o.total)
  }

  /** `renderDotsToCanvas`. */
  method RenderDotsToCanvas(o: DotExportOptions, hasContext: bool) returns (canvas: Canvas)
    requires o.perRow > 0 && ColoursDefined(o)
    ensures fresh(canvas)
    ensures canvas.width == CanvasDimension(Ceil(GridWidth(o) * ScaleOf(o)), DEFAULT_CANVAS_WIDTH)
    ensures canvas.height == CanvasDimension(Ceil(GridHeight(o) * ScaleOf(o)), DEFAULT_CANVAS_HEIGHT)
    ensures canvas.scale == if hasContext then ScaleOf(o) else 1.0
    ensures canvas.ops == if hasContext then DotsOps(o) else []
  {
    var scale := o.scale.GetOr(3.0);
    var palette := GetExportPalette(o.theme);
    var canvasBackground := o.background.GetOr(palette.background);
    var width := GridWidth(o);
    var height := GridHeight(o);

    var pixelWidth, pixelHeight := Ceil(width * scale), Ceil(height * scale);
    assert pixelWidth == Ceil(GridWidth(o) * ScaleOf(o)) && pixelHeight == Ceil(GridHeight(o) * ScaleOf(o));
    canvas := new Canvas();
    canvas.SetWidth(pixelWidth);
    canvas.SetHeight(pixelHeight);
    if !hasContext {
      return;
    }
    canvas.Scale(scale);
    canvas.Draw(FillRect(0.0, 0.0, width, height, canvasBackground));

    DrawCells(canvas, o, 0.0, 0.0);
  }

  /** The loop's instruction for cell `index` is the one `CellOps` lists next. */
  lemma CellOpAt(o: DotExportOptions, ox: real, oy: real, index: nat, col: nat, row: nat, colour: string)
    requires o.perRow > 0 && ColoursDefined(o) && index < o.total
    requires col == index % o.perRow && row == index / o.perRow
    requires colour == CellColour(o.dotStyle, GetExportPalette(o.theme), o.filled, index)
    ensures CellOp(o, ox, oy, index) ==
      CellShape(o.dotStyle, ox + col as real * (o.dotSize + o.gap), oy + row as real * (o.dotSize + o.gap), o.dotSize, colour)
  {
    CellOriginAt(index, o.perRow, o.dotSize, o.gap, col, row);
  }

  /** The loop's column and row give the cell's origin. */
  lemma CellOriginAt(index: nat, perRow: nat, dotSize: real, gap: real, col: nat, row: nat)
    requires perRow > 0 && col == index % perRow && row == index / perRow
    ensures CellOrigin(index, perRow, dotSize, gap).0 == col as real * (dotSize + gap)
    ensures CellOrigin(index, perRow, dotSize, gap).1 == row as real * (dotSize + gap)
  {
  }

  lemma CellOpsStep(o: DotExportOptions, ox: real, oy: real, n: nat)
    requires o.perRow > 0 && ColoursDefined(o) && n < o.total
    ensures CellOps(o, ox, oy, n + 1) == CellOps(o, ox, oy, n) + [CellOp(o, ox, oy, n)]
  {
  }

  /** The cell loop both renderers run, with the grid's origin at `(ox, oy)`. */
  method DrawCells(canvas: Canvas, o: DotExportOptions, ox: real, oy: real)
    requires o.perRow > 0 && ColoursDefined(o)
    modifies canvas`ops
    ensures canvas.ops == old(canvas.ops) + CellOps(o, ox, oy, o.total)
  {
    var palette := GetExportPalette(o.theme);
    ghost var before := canvas.ops;
    var index := 0;
    while index < o.total
      invariant 0 <= index <= o.total
      invariant canvas.ops == before + CellOps(o, ox, oy, index)
    {
      var row := index / o.perRow;
      var col := index % o.perRow;
      var cx := col as real * (o.dotSize + o.gap);
      var cy := row as real * (o.dotSize + o.gap);
      var isFilled := index < o.filled;
      var colour;
      if o.dotStyle == ClassicDots {
        colour := if isFilled then palette.filled else palette.empty;
      } else {
        colour := if isFilled then palette.rainbow[index % |palette.rainbow|] else palette.empty;
      }
      CellOpAt(o, ox, oy, index, col, row, colour);
      var op := CellShape(o.dotStyle, ox + cx, oy + cy, o.dotSize, colour);
      CellOpsStep(o, ox, oy, index);
      canvas.Draw(op);
      index := index + 1;
    }
  }

  // ---------------------------------------------------------- name fitting

  const DEFAULT_FONT_FAMILY: string := "Arial, sans-serif"
  const FOOTER_NAME_FONT_SIZE: int := 24
  const MIN_NAME_FONT_SIZE: int := 14

  /** A font `800 <size>px <family>` as the name loop sets it: the first measurement
      uses the default family, every reduced size the card's family. */
  function NameFont(size: int, family: string): Font {
    Font(800, size as real, if size == FOOTER_NAME_FONT_SIZE then DEFAULT_FONT_FAMILY else family)
  }

  predicate NameOverflows(name: string, size: int, family: string, available: real,
                          measure: (string, Font) -> real) {
    measure(name, NameFont(size, family)) > available
  }

  /** The size the shrink loop stops at when started from `size`. */
  function FitNameSize(name: string, family: string, available: real,
                       measure: (string, Font) -> real, size: int): (r: int)
    requires MIN_NAME_FONT_SIZE <= size <= FOOTER_NAME_FONT_SIZE
    ensures MIN_NAME_FONT_SIZE <= r <= size
    ensures r == MIN_NAME_FONT_SIZE || !NameOverflows(name, r, family, available, measure)
    decreases size
  {
    if NameOverflows(name, size, family, available, measure) && size > MIN_NAME_FONT_SIZE then
      FitNameSize(name, family, available, measure, size - 1)
    else
      size
  }

  /** The fitted size is the largest that fits: every larger size up to the start overflowed. */
  lemma {:induction false} FitNameSizeIsLargest(name: string, family: string, available: real,
                                                measure: (string, Font) -> real, size: int, s: int)
    requires MIN_NAME_FONT_SIZE <= size <= FOOTER_NAME_FONT_SIZE
    requires FitNameSize(name, family, available, measure, size) < s <= size
    ensures NameOverflows(name, s, family, available, measure)
    decreases size
  {
    if s < size {
      FitNameSizeIsLargest(name, family, available, measure, size - 1, s);
    }
  }

  /** More room never gives a smaller name. */
  lemma {:induction false} FitNameSizeMonotone(name: string, family: string, a1: real, a2: real,
                                               measure: (string, Font) -> real, size: int)
    requires MIN_NAME_FONT_SIZE <= size <= FOOTER_NAME_FONT_SIZE && a1 <= a2
    ensures FitNameSize(name, family, a1, measure, size) <= FitNameSize(name, family, a2, measure, size)
    decreases size
  {
    if NameOverflows(name, size, family, a2, measure) && size > MIN_NAME_FONT_SIZE {
      FitNameSizeMonotone(name, family, a1, a2, measure, size - 1);
    }
  }

  /** The footer-name shrink loop: from 24px in the default family, one pixel at a
      time in the card's family while the name is wider than `available`, never
      below 14px. */
  method ShrinkNameFont(name: string, family: string, available: real,
                        measure: (string, Font) -> real)
    returns (size: int, font: Font)
    ensures size == FitNameSize(name, family, available, measure, FOOTER_NAME_FONT_SIZE)
    ensures font == NameFont(size, family)
  {
    size := FOOTER_NAME_FONT_SIZE;
    font := Font(800, size as real, DEFAULT_FONT_FAMILY);
    while measure(name, font) > available && size > MIN_NAME_FONT_SIZE
      invariant MIN_NAME_FONT_SIZE <= size <= FOOTER_NAME_FONT_SIZE
      invariant font == NameFont(size, family)
      invariant FitNameSize(name, family, available, measure, size) ==
                FitNameSize(name, family, available, measure, FOOTER_NAME_FONT_SIZE)
      decreases size
    {
      size := size - 1;
      font := Font(800, size as real, family);
    }
  }
}
