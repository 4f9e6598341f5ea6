/**
 * The card export of the dot grid: a rounded card with a header line, the grid,
 * an optional footer line with a flag and an optional fitted name.
 */
module CardExport {
  import opened Wrappers
  import opened Text
  import opened Themes
  import opened LifeDotsData
  import opened DotExport

  const TITLE_FONT_SIZE: real := 12.0
  const STATS_FONT_SIZE: real := 12.0
  const FOOTER_FONT_SIZE: real := 11.0
  const STATS_GAP: real := 12.0
  const FLAG_ICON_GAP: real := 6.0
  const NAME_AFTER_TEXT_GAP: real := 10.0

  datatype CardExportOptions = CardExportOptions(
    grid: DotExportOptions,
    title: string, weeksText: string, percentText: string,
    footerText: Option<string>, footerName: Option<string>,
    footerFlagUrl: Option<string>, footerFlagSize: Option<real>,
    fontFamily: Option<string>, textColor: Option<string>, mutedColor: Option<string>,
    padding: Option<real>, headerGap: Option<real>, footerGap: Option<real>,
    radius: Option<real>, borderColor: Option<string>)

  function Padding(c: CardExportOptions): real { c.padding.GetOr(24.0) }
  function HeaderGap(c: CardExportOptions): real { c.headerGap.GetOr(16.0) }
  function FooterGap(c: CardExportOptions): real { c.footerGap.GetOr(16.0) }
  function Radius(c: CardExportOptions): real { c.radius.GetOr(16.0) }
  function Family(c: CardExportOptions): string { c.fontFamily.GetOr(DEFAULT_FONT_FAMILY) }

  /** `footerName?.trim()`, absent when no name is given. */
  function CleanedName(c: CardExportOptions): Option<string> {
    match c.footerName
    case None => None
    case Some(n) => Some(Trim(n))
  }

  predicate HasFooterText(c: CardExportOptions) {
    c.footerText.Some? && c.footerText.value != []
  }

  predicate HasFooterName(c: CardExportOptions) {
    CleanedName(c).Some? && CleanedName(c).value != []
  }

  /** The card's vertical and horizontal measures. */
  datatype CardLayout = CardLayout(
    gridWidth: real, gridHeight: real, headerHeight: real,
    footerTextHeight: real, footerNameHeight: real, footerHeight: real,
    cardWidth: real, cardHeight: real, gridTop: real)

  function LayoutCard(c: CardExportOptions): (l: CardLayout)
    requires c.grid.perRow > 0
    ensures l.cardWidth == l.gridWidth + 2.0 * Padding(c)
    ensures l.cardHeight == 2.0 * Padding(c) + 12.0 + HeaderGap(c) + l.gridHeight + l.footerHeight
    ensures l.gridTop == Padding(c) + 12.0 + HeaderGap(c)
    ensures l.footerHeight == l.footerTextHeight + l.footerNameHeight
  {
    var headerHeight := Max(TITLE_FONT_SIZE, STATS_FONT_SIZE);
    var footerTextHeight := if HasFooterText(c) then FooterGap(c) + FOOTER_FONT_SIZE else 0.0;
    var footerNameHeight :=
      if HasFooterName(c) then
        (if HasFooterText(c) then NAME_AFTER_TEXT_GAP else FooterGap(c)) + FOOTER_NAME_FONT_SIZE as real
      else 0.0;
    var gridWidth := GridWidth(c.grid);
    var gridHeight := GridHeight(c.grid);
    var footerHeight := footerTextHeight + footerNameHeight;
    CardLayout(gridWidth, gridHeight, headerHeight, footerTextHeight, footerNameHeight, footerHeight,
               gridWidth + Padding(c) * 2.0,
               Padding(c) * 2.0 + headerHeight + HeaderGap(c) + gridHeight + footerHeight,
               Padding(c) + headerHeight + HeaderGap(c))
  }

  /** With a non-negative footer gap, the footer takes no height exactly when there is
      no footer text and the name is absent or blank. */
  lemma FooterHeightZero(c: CardExportOptions)
    requires c.grid.perRow > 0 && FooterGap(c) >= 0.0
    ensures LayoutCard(c).footerHeight == 0.0 <==>
      !HasFooterText(c) && (c.footerName.None? || AllWhitespace(c.footerName.value))
  {}

  function CardBackground(c: CardExportOptions): string {
    c.grid.background.GetOr(GetExportPalette(c.grid.theme).background)
  }
  function CardBorder(c: CardExportOptions): string {
    c.borderColor.GetOr(GetExportPalette(c.grid.theme).border)
  }
  function PrimaryText(c: CardExportOptions): string {
    c.textColor.GetOr(GetExportPalette(c.grid.theme).text)
  }
  function SecondaryText(c: CardExportOptions): string {
    c.mutedColor.GetOr(GetExportPalette(c.grid.theme).muted)
  }

  /** Card body, border, title and the two right-aligned stats. */
  function HeaderOps(c: CardExportOptions, measure: (string, Font) -> real): seq<DrawOp>
    requires c.grid.perRow > 0
  {
    var l := LayoutCard(c);
    var pad := Padding(c);
    var statsFont := Font(600, STATS_FONT_SIZE, Family(c));
    [FillRoundedRect(0.0, 0.0, l.cardWidth, l.cardHeight,
                     SafeRadius(Radius(c), l.cardWidth, l.cardHeight), CardBackground(c)),
     StrokeRoundedRect(0.5, 0.5, l.cardWidth - 1.0, l.cardHeight - 1.0,
                       SafeRadius(Radius(c), l.cardWidth - 1.0, l.cardHeight - 1.0), CardBorder(c), 1.0),
     FillText(c.title, pad, pad, Font(600, TITLE_FONT_SIZE, Family(c)), SecondaryText(c), AlignStart),
     FillText(c.percentText, l.cardWidth - pad, pad, statsFont, PrimaryText(c), AlignRight),
     FillText(c.weeksText, l.cardWidth - pad - measure(c.percentText, statsFont) - STATS_GAP, pad,
              statsFont, PrimaryText(c), AlignRight)]
  }

  /** The flag shown beside the footer text: the loaded image of a non-empty URL. */
  function FooterFlag(c: CardExportOptions, loadImage: string -> Option<FlagImage>): Option<FlagImage> {
    if c.footerFlagUrl.Some? && c.footerFlagUrl.value != [] then loadImage(c.footerFlagUrl.value) else None
  }

  function FooterTextY(c: CardExportOptions): real
    requires c.grid.perRow > 0
  {
    LayoutCard(c).gridTop + LayoutCard(c).gridHeight + FooterGap(c)
  }

  function IconSize(c: CardExportOptions): real {
    c.footerFlagSize.GetOr(FOOTER_FONT_SIZE + 2.0)
  }

  /** Width taken by the flag and its gap before the footer text. */
  function FlagLead(c: CardExportOptions, flag: Option<FlagImage>): real {
    if flag.Some? then IconSize(c) + FLAG_ICON_GAP else 0.0
  }

  /** The footer line: an optional flag then the text, centred as a group. */
  function FooterTextOps(c: CardExportOptions, measure: (string, Font) -> real,
                         loadImage: string -> Option<FlagImage>): seq<DrawOp>
    requires c.grid.perRow > 0
  {
    if !HasFooterText(c) then []
    else
      var text := c.footerText.value;
      var font := Font(600, FOOTER_FONT_SIZE, Family(c));
      var footerY := FooterTextY(c);
      var flag := FooterFlag(c, loadImage);
      var lead := FlagLead(c, flag);
      var startX := (LayoutCard(c).cardWidth - (measure(text, font) + lead)) / 2.0;
      (if flag.Some? then
         [DrawImage(flag.value, startX, footerY + (FOOTER_FONT_SIZE - IconSize(c)) / 2.0, IconSize(c), IconSize(c))]
       else [])
      + [FillText(text, startX + lead, footerY, font, SecondaryText(c), AlignLeft)]
  }

  /** Where the footer text leaves the cursor: below the text, or at the grid's bottom without text. */
  function NameCursor(c: CardExportOptions): real
    requires c.grid.perRow > 0
  {
    if HasFooterText(c) then FooterTextY(c) + FOOTER_FONT_SIZE
    else LayoutCard(c).gridTop + LayoutCard(c).gridHeight
  }

  /** The space above the name: a small gap after footer text, else the footer gap. */
  function NameGap(c: CardExportOptions): real {
    if HasFooterText(c) then NAME_AFTER_TEXT_GAP else FooterGap(c)
  }

  /** Top of the footer name: below the footer text, or the footer gap below the grid. */
  function NameY(c: CardExportOptions): real
    requires c.grid.perRow > 0
  {
    NameCursor(c) + NameGap(c)
  }

  /** The size of `name` on a card `cardWidth` wide: fitted to the width inside the side padding. */
  function FittedNameSize(c: CardExportOptions, measure: (string, Font) -> real, name: string, cardWidth: real): int {
    FitNameSize(name, Family(c), cardWidth - Padding(c) * 2.0, measure, FOOTER_NAME_FONT_SIZE)
  }

  /** The trimmed name, upper-cased, on a card `cardWidth` wide, centred, in its fitted
      size, one name gap below `cursor`; nothing for an absent or empty name. */
  function NameOpsBelow(c: CardExportOptions, measure: (string, Font) -> real, cleanedName: Option<string>,
                        cardWidth: real, cursor: real): seq<DrawOp>
  {
    if cleanedName.None? || cleanedName.value == [] then []
    else
      [FillText(ToUpper(cleanedName.value), cardWidth / 2.0, cursor + NameGap(c),
                NameFont(FittedNameSize(c, measure, cleanedName.value, cardWidth), Family(c)),
                PrimaryText(c), AlignCenter)]
  }

  /** The name below the footer text, or below the grid when there is no text. */
  function FooterNameOps(c: CardExportOptions, measure: (string, Font) -> real): seq<DrawOp>
    requires c.grid.perRow > 0
  {
    NameOpsBelow(c, measure, CleanedName(c), LayoutCard(c).cardWidth, NameCursor(c))
  }

  /** Everything `renderCardToCanvas` paints on a canvas with a context. */
  function CardOps(c: CardExportOptions, measure: (string, Font) -> real,
                   loadImage: string -> Option<FlagImage>): seq<DrawOp>
    requires c.grid.perRow > 0 && ColoursDefined(c.grid)
  {
    HeaderOps(c, measure)
      + CellOps(c.grid, Padding(c), LayoutCard(c).gridTop, c.grid.total)
      + FooterTextOps(c, measure, loadImage)
      + FooterNameOps(c, measure)
  }

  /** The height reserved for the footer is exactly what it draws: the lowest line
      painted ends at the bottom padding. */
  lemma FooterEndsAtBottomPadding(c: CardExportOptions)
    requires c.grid.perRow > 0
    ensures var l := LayoutCard(c);
      (HasFooterName(c) ==> NameY(c) + FOOTER_NAME_FONT_SIZE as real == l.cardHeight - Padding(c)) &&
      (HasFooterText(c) && !HasFooterName(c) ==>
         FooterTextY(c) + FOOTER_FONT_SIZE == l.cardHeight - Padding(c)) &&
      (!HasFooterText(c) && !HasFooterName(c) ==> l.gridTop + l.gridHeight == l.cardHeight - Padding(c))
  {}

  /** The flag, its gap and the footer text form one group centred on the card. */
  lemma FooterLineCentred(c: CardExportOptions, measure: (string, Font) -> real,
                          loadImage: string -> Option<FlagImage>)
    requires c.grid.perRow > 0 && HasFooterText(c)
    ensures var ops := FooterTextOps(c, measure, loadImage);
      var text := ops[|ops| - 1];
      text.FillText? &&
      (ops[0].DrawImage? || ops[0].FillText?) &&
      ops[0].x + (text.x + measure(text.text, text.font)) == LayoutCard(c).cardWidth
  {}

  /** The footer name is drawn between 14 and 24 pixels high, and the name as measured,
      before it is upper-cased for drawing, fits the card's inner width unless the size
      is the minimum. */
  lemma FooterNameFits(c: CardExportOptions, measure: (string, Font) -> real)
    requires c.grid.perRow > 0 && HasFooterName(c)
    ensures var op := FooterNameOps(c, measure)[0];
      var size := FittedNameSize(c, measure, CleanedName(c).value, LayoutCard(c).cardWidth);
      op.FillText? && op.font == NameFont(size, Family(c)) &&
      MIN_NAME_FONT_SIZE <= size <= FOOTER_NAME_FONT_SIZE &&
      (size == MIN_NAME_FONT_SIZE ||
       measure(CleanedName(c).value, op.font) <= LayoutCard(c).cardWidth - 2.0 * Padding(c))
  {}

  /** The footer-line step of `renderCardToCanvas`: paints the optional flag and the
      footer text and returns the advanced vertical cursor. */
  method DrawFooterText(canvas: Canvas, c: CardExportOptions, measure: (string, Font) -> real,
                        loadImage: string -> Option<FlagImage>, cursor: real)
    returns (next: real)
    requires c.grid.perRow > 0 && cursor == LayoutCard(c).gridTop + LayoutCard(c).gridHeight
    modifies canvas`ops
    ensures canvas.ops == old(canvas.ops) + FooterTextOps(c, measure, loadImage)
    ensures next == if HasFooterText(c) then FooterTextY(c) + FOOTER_FONT_SIZE else cursor
  {
    next := cursor;
    if c.footerText.Some? && c.footerText.value != [] {
      var text := c.footerText.value;
      var font := Font(600, FOOTER_FONT_SIZE, Family(c));
      var footerY := cursor + FooterGap(c);
      var textWidth := measure(text, font);
      var flagImage: Option<FlagImage> := None;
      if c.footerFlagUrl.Some? && c.footerFlagUrl.value != [] {
        flagImage := loadImage(c.footerFlagUrl.value);
      }
      var iconSize := c.footerFlagSize.GetOr(FOOTER_FONT_SIZE + 2.0);
      var iconGap := if flagImage.Some? then FLAG_ICON_GAP else 0.0;
      var totalWidth := textWidth + (if flagImage.Some? then iconSize + iconGap else 0.0);
      var startX := (LayoutCard(c).cardWidth - totalWidth) / 2.0;
      if flagImage.Some? {
        var iconY := footerY + (FOOTER_FONT_SIZE - iconSize) / 2.0;
        canvas.Draw(DrawImage(flagImage.value, startX, iconY, iconSize, iconSize));
      }
      canvas.Draw(FillText(text, startX + (if flagImage.Some? then iconSize + iconGap else 0.0), footerY,
                           font, SecondaryText(c), AlignLeft));
      next := footerY + FOOTER_FONT_SIZE;
    }
  }

  /** The footer-name step of `renderCardToCanvas`: fits and paints the trimmed,
      upper-cased name below the cursor. */
  method DrawFooterName(canvas: Canvas, c: CardExportOptions, measure: (string, Font) -> real,
                        cleanedName: Option<string>, cardWidth: real, cursor: real)
    modifies canvas`ops
    ensures canvas.ops == old(canvas.ops) + NameOpsBelow(c, measure, cleanedName, cardWidth, cursor)
  {
    if cleanedName.Some? && cleanedName.value != [] {
      var nameFontSize, font :=
        ShrinkNameFont(cleanedName.value, Family(c), cardWidth - Padding(c) * 2.0, measure);
      var nameY := cursor + NameGap(c);
      canvas.Draw(FillText(ToUpper(cleanedName.value), cardWidth / 2.0, nameY, font, PrimaryText(c), AlignCenter));
    }
  }



  /** The header step of `renderCardToCanvas`: the card body and border, the title
      and the two right-aligned stats, the weeks text 12px left of the percentage. */
  method DrawHeader(canvas: Canvas, c: CardExportOptions, measure: (string, Font) -> real)
    requires c.grid.perRow > 0
    modifies canvas`ops
    ensures canvas.ops == old(canvas.ops) + HeaderOps(c, measure)
  {
    var padding := c.padding.GetOr(24.0);
    var cardWidth := LayoutCard(c).cardWidth;
    var cardHeight := LayoutCard(c).cardHeight;
    var radius := c.radius.GetOr(16.0);
    canvas.Draw(FillRoundedRect(0.0, 0.0, cardWidth, cardHeight,
                                SafeRadius(radius, cardWidth, cardHeight), CardBackground(c)));
    canvas.Draw(StrokeRoundedRect(0.5, 0.5, cardWidth - 1.0, cardHeight - 1.0,
                                  SafeRadius(radius, cardWidth - 1.0, cardHeight - 1.0), CardBorder(c), 1.0));
    var primary := PrimaryText(c);
    var secondary := SecondaryText(c);
    canvas.Draw(FillText(c.title, padding, padding, Font(600, TITLE_FONT_SIZE, Family(c)), secondary, AlignStart));
    var statsFont := Font(600, STATS_FONT_SIZE, Family(c));
    var percentWidth := measure(c.percentText, statsFont);
    canvas.Draw(FillText(c.percentText, cardWidth - padding, padding, statsFont, primary, AlignRight));
    canvas.Draw(FillText(c.weeksText, cardWidth - padding - percentWidth - STATS_GAP, padding,
                         statsFont, primary, AlignRight));
  }

  /** Everything `renderCardToCanvas` does once it has a context: scale, then paint. */
  method PaintCard(canvas: Canvas, c: CardExportOptions, measure: (string, Font) -> real,
                   loadImage: string -> Option<FlagImage>)
    requires c.grid.perRow > 0 && ColoursDefined(c.grid)
    modifies canvas`ops
    ensures canvas.ops == old(canvas.ops) + CardOps(c, measure, loadImage)
  {
    var l := LayoutCard(c);
    ghost var before := canvas.ops;
    DrawHeader(canvas, c, measure);
    DrawCells(canvas, c.grid, Padding(c), l.gridTop);
    var footerYCursor := DrawFooterText(canvas, c, measure, loadImage, l.gridTop + l.gridHeight);
    assert footerYCursor == NameCursor(c);
    DrawFooterName(canvas, c, measure, CleanedName(c), l.cardWidth, footerYCursor);
    AppendFour(before, HeaderOps(c, measure), CellOps(c.grid, Padding(c), l.gridTop, c.grid.total),
               FooterTextOps(c, measure, loadImage), FooterNameOps(c, measure));
  }

  lemma AppendFour<T>(s: seq<T>, a: seq<T>, b: seq<T>, c: seq<T>, d: seq<T>)
    ensures s + a + b + c + d == s + (a + b + c + d)
  {
  }

  /** `renderCardToCanvas`, with text measurement and image loading as inputs. */
  method RenderCardToCanvas(c: CardExportOptions, measure: (string, Font) -> real,
                            loadImage: string -> Option<FlagImage>, hasContext: bool)
    returns (canvas: Canvas)
    requires c.grid.perRow > 0 && ColoursDefined(c.grid)
    ensures fresh(canvas)
    ensures canvas.width == CanvasDimension(Ceil(LayoutCard(c).cardWidth * ScaleOf(c.grid)), DEFAULT_CANVAS_WIDTH)
    ensures canvas.height == CanvasDimension(Ceil(LayoutCard(c).cardHeight * ScaleOf(c.grid)), DEFAULT_CANVAS_HEIGHT)
    ensures canvas.scale == if hasContext then ScaleOf(c.grid) else 1.0
    ensures canvas.ops == if hasContext then CardOps(c, measure, loadImage) else []
  {
    var scale := c.grid.scale.GetOr(3.0);
    var l := LayoutCard(c);
    var pixelWidth, pixelHeight := Ceil(l.cardWidth * scale), Ceil(l.cardHeight * scale);
    assert pixelWidth == Ceil(LayoutCard(c).cardWidth * ScaleOf(c.grid));
    assert pixelHeight == Ceil(LayoutCard(c).cardHeight * ScaleOf(c.grid));
    canvas := new Canvas();
    canvas.SetWidth(pixelWidth);
    canvas.SetHeight(pixelHeight);
    if !hasContext {
      return;
    }
    canvas.Scale(scale);
    PaintCard(canvas, c, measure, loadImage);
  }
}
