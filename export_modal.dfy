/**
 * The export preview controller: the modal's state (mode, print settings,
 * preview zoom, preview image, busy flags, error) and the handlers that
 * update it. Rendering itself is the card renderer of `CardExport`; here a
 * render is a request (the card options) and an outcome handed back later.
 */
module ExportModal {
  import opened Wrappers
  import opened Themes
  import opened LifeDotsData
  import opened DotExport
  import opened CardExport
  import opened ExportNaming

  const MIN_PREVIEW_ZOOM: real := 0.5
  const MAX_PREVIEW_ZOOM: real := 3.0
  const PREVIEW_ZOOM_STEP: real := 0.1

  /** The render scales of the preview, the image download and the print image. */
  const PREVIEW_RENDER_SCALE: real := 2.0
  const DOWNLOAD_RENDER_SCALE: real := 3.0
  const PRINT_RENDER_SCALE: real := 4.0

  const DEFAULT_FONT: string := "Arial, sans-serif"
  const FALLBACK_BACKGROUND: string := "#ffffff"
  const FALLBACK_TEXT: string := "#111827"
  const FALLBACK_MUTED: string := "#6b7280"

  const DOWNLOAD_ERROR: string := "Could not generate download file."
  const PRINT_ERROR: string := "Could not generate print file."
  const PREVIEW_ERROR: string := "Failed to generate preview."

  datatype Mode = DownloadMode | PrintMode
  datatype ImageFormat = PngImage | JpgImage

  /** What the page hands the modal. */
  datatype ExportProps = ExportProps(
    hasAccess: bool, name: Option<string>,
    total: nat, filled: int, perRow: nat, dotStyle: DotStyle, theme: Theme,
    dotSize: real, gap: real,
    title: string, weeksText: string, percentText: string,
    footerText: Option<string>, footerFlagUrl: Option<string>)

  /** A preview render that has been started and not yet reported back. */
  datatype PreviewRun = PreviewRun(token: nat, request: CardExportOptions)

  /** An export that has been started: what to render and what to do with the image. */
  datatype ExportJob =
    | DownloadJob(format: ImageFormat, name: Option<string>, request: CardExportOptions)
    | PrintJob(paper: PrintSize, name: Option<string>, request: CardExportOptions)

  /** What a finished export hands to the browser. */
  datatype ExportAction =
    | SaveImage(filename: string, format: ImageFormat)
    | OpenPrint(imageUrl: string, title: string, paper: PrintSize)

  /** `Math.min(Math.max(value, lo), hi)`. */
  function Clamp(value: real, lo: real, hi: real): (r: real)
    ensures lo <= hi ==> lo <= r <= hi
    ensures lo <= value <= hi ==> r == value
    ensures lo <= hi && value < lo ==> r == lo
    ensures hi < value ==> r == hi
  {
    Min(Max(value, lo), hi)
  }

  predicate InZoomRange(z: real) {
    MIN_PREVIEW_ZOOM <= z <= MAX_PREVIEW_ZOOM
  }

  /** One zoom step in `direction` (+1 in, -1 out), kept inside the zoom range. */
  function ZoomStep(z: real, direction: int): (r: real)
    requires direction == 1 || direction == -1
    ensures InZoomRange(r)
  {
    Clamp(z + direction as real * PREVIEW_ZOOM_STEP, MIN_PREVIEW_ZOOM, MAX_PREVIEW_ZOOM)
  }

  /** Scrolling up zooms in; any other wheel movement zooms out. */
  function WheelDirection(deltaY: real): (d: int)
    ensures d == 1 <==> deltaY < 0.0
    ensures d == 1 || d == -1
  {
    if deltaY < 0.0 then 1 else -1
  }

  /** The double-click toggle between the natural size and twice it. */
  function DoubleClickZoom(z: real): (r: real)
    ensures r == 1.0 || r == 2.0
    ensures r == 1.0 <==> z >= 1.9
  {
    if z >= 1.9 then 1.0 else 2.0
  }

  /** `Math.round(z * 100)`: halves round up. */
  function ZoomPercent(z: real): (r: int)
    ensures r as real <= z * 100.0 + 0.5 < r as real + 1.0
  {
    (z * 100.0 + 0.5).Floor
  }

  /** Inside the zoom range, a step in and a step out undo each other. */
  lemma ZoomInOutInverse(z: real)
    requires MIN_PREVIEW_ZOOM <= z <= MAX_PREVIEW_ZOOM - PREVIEW_ZOOM_STEP
    ensures ZoomStep(z, 1) == z + PREVIEW_ZOOM_STEP
    ensures ZoomStep(ZoomStep(z, 1), -1) == z
  {
  }

  /** Two double clicks never land on the same zoom. */
  lemma DoubleClickToggles(z: real)
    ensures DoubleClickZoom(DoubleClickZoom(z)) != DoubleClickZoom(z)
    ensures InZoomRange(DoubleClickZoom(z))
  {
  }

  /** The zoom label of any zoom in range reads between 50% and 300%. */
  lemma ZoomPercentInRange(z: real)
    requires InZoomRange(z)
    ensures 50 <= ZoomPercent(z) <= 300
  {
  }

  /** A theme colour, or the fallback when the theme leaves it empty. */
  function OrFallback(colour: string, fallback: string): (r: string)
    ensures colour != [] ==> r == colour
    ensures colour == [] ==> r == fallback
  {
    if colour == "" then fallback else colour
  }

  /** The heading above the preview. */
  function PanelTitle(mode: Mode): (r: string)
    ensures mode == DownloadMode <==> r == "Download Preview"
  {
    if mode == DownloadMode then "Download Preview" else "Ready for print"
  }

  function ExtensionOf(format: ImageFormat): (e: ExportExtension)
    ensures e != Pdf
  {
    if format == PngImage then ExportExtension.Png else ExportExtension.Jpg
  }

  class Modal {
    var isOpen: bool
    var mode: Mode
    var paperSize: PrintSize
    var sizeScale: real
    var background: string
    var fontColor: string
    var mutedColor: string
    var fontFamily: string
    var previewZoom: real
    var previewUrl: Option<string>
    var isGenerating: bool
    var isExporting: bool
    var error: Option<string>
    /** The token of the most recently started preview. */
    var renderToken: nat
    /** The preview run whose effect has not been cleaned up yet, if any. */
    var liveRun: Option<nat>

    /** The zoom stays in range, and only the latest started run can be live. */
    predicate Valid()
      reads this
    {
      InZoomRange(previewZoom) &&
      (liveRun.Some? ==> liveRun.value == renderToken)
    }

    /** The editor as a freshly opened modal shows it: download mode, letter paper, unit scale and zoom, the theme's colours. */
    predicate EditorReset(theme: Theme)
      reads this
    {
      mode == DownloadMode && paperSize == Letter && sizeScale == 1.0 &&
      background == OrFallback(theme.palette.surface, FALLBACK_BACKGROUND) &&
      fontColor == OrFallback(theme.palette.text, FALLBACK_TEXT) &&
      mutedColor == OrFallback(theme.palette.muted, FALLBACK_MUTED) &&
      fontFamily == DEFAULT_FONT && previewZoom == 1.0 && error.None?
    }

    /** The print editor is shown only to users with access who chose print. */
    predicate CanShowPrintEditor(hasAccess: bool)
      reads this
    {
      hasAccess && mode == PrintMode
    }

    /** The options `createCanvas` hands to the card renderer. */
    function CanvasOptions(p: ExportProps, renderScale: real): (c: CardExportOptions)
      reads this
      ensures 2.0 <= c.grid.dotSize <= 20.0 && 0.5 <= c.grid.gap <= 12.0
      ensures c.grid.dotSize == Clamp(p.dotSize * sizeScale, 2.0, 20.0)
      ensures c.grid.gap == Clamp(p.gap * sizeScale, 0.5, 12.0)
      ensures c.grid.scale == Some(renderScale) && c.grid.theme == Some(p.theme)
      ensures c.grid.total == p.total && c.grid.filled == p.filled && c.grid.perRow == p.perRow
      ensures c.grid.background == Some(background) && c.fontFamily == Some(fontFamily)
      ensures c.textColor == Some(fontColor) && c.mutedColor == Some(mutedColor)
      ensures c.footerName == p.name
    {
      var grid := DotExportOptions(
        p.total, p.filled, p.perRow, p.dotStyle,
        Clamp(p.dotSize * sizeScale, 2.0, 20.0), Clamp(p.gap * sizeScale, 0.5, 12.0),
        Some(renderScale), Some(background), Some(p.theme));
      CardExportOptions(
        grid, p.title, p.weeksText, p.percentText, p.footerText, p.name, p.footerFlagUrl,
        None, Some(fontFamily), Some(fontColor), Some(mutedColor), None, None, None, None, None)
    }

    /** The initial state of a freshly mounted modal. */
    constructor(theme: Theme)
      ensures Valid() && !isOpen && EditorReset(theme)
      ensures previewUrl.None? && !isGenerating && !isExporting
      ensures renderToken == 0 && liveRun.None?
    {
      isOpen := false;
      mode := DownloadMode;
      paperSize := Letter;
      sizeScale := 1.0;
      background := OrFallback(theme.palette.surface, FALLBACK_BACKGROUND);
      fontColor := OrFallback(theme.palette.text, FALLBACK_TEXT);
      mutedColor := OrFallback(theme.palette.muted, FALLBACK_MUTED);
      fontFamily := DEFAULT_FONT;
      previewZoom := 1.0;
      previewUrl := None;
      isGenerating := false;
      isExporting := false;
      error := None;
      renderToken := 0;
      liveRun := None;
    }

    /** Opening the modal resets the editor and the zoom; the preview and the busy flags are kept. */
    method Open(theme: Theme)
      requires Valid()
      modifies this`isOpen, this`mode, this`paperSize, this`sizeScale, this`background, this`fontColor,
               this`mutedColor, this`fontFamily, this`previewZoom, this`error
      ensures Valid() && isOpen && EditorReset(theme)
    {
      isOpen := true;
      mode := DownloadMode;
      paperSize := Letter;
      sizeScale := 1.0;
      background := OrFallback(theme.palette.surface, FALLBACK_BACKGROUND);
      fontColor := OrFallback(theme.palette.text, FALLBACK_TEXT);
      mutedColor := OrFallback(theme.palette.muted, FALLBACK_MUTED);
      fontFamily := DEFAULT_FONT;
      previewZoom := 1.0;
      error := None;
    }

    /** Closing cleans up the preview effect: the run in flight is cancelled. */
    method Close()
      requires Valid()
      modifies this`isOpen, this`liveRun
      ensures Valid() && !isOpen && liveRun.None?
    {
      isOpen := false;
      liveRun := None;
    }

    method SelectDownloadMode()
      requires Valid()
      modifies this`mode
      ensures Valid() && mode == DownloadMode
      ensures CanShowPrintEditor(true) == false
    {
      mode := DownloadMode;
    }

    /** The print tab only switches for users with access. */
    method SelectPrintMode(hasAccess: bool)
      requires Valid()
      modifies this`mode
      ensures Valid()
      ensures mode == if hasAccess then PrintMode else old(mode)
      ensures CanShowPrintEditor(hasAccess) <==> hasAccess
    {
      if hasAccess {
        mode := PrintMode;
      }
    }

    method ZoomIn()
      requires Valid()
      modifies this`previewZoom
      ensures Valid() && previewZoom == ZoomStep(old(previewZoom), 1)
      ensures old(previewZoom) <= previewZoom
    {
      previewZoom := Clamp(previewZoom + PREVIEW_ZOOM_STEP, MIN_PREVIEW_ZOOM, MAX_PREVIEW_ZOOM);
    }

    method ZoomOut()
      requires Valid()
      modifies this`previewZoom
      ensures Valid() && previewZoom == ZoomStep(old(previewZoom), -1)
      ensures previewZoom <= old(previewZoom)
    {
      previewZoom := Clamp(previewZoom - PREVIEW_ZOOM_STEP, MIN_PREVIEW_ZOOM, MAX_PREVIEW_ZOOM);
    }

    method WheelZoom(deltaY: real)
      requires Valid()
      modifies this`previewZoom
      ensures Valid() && previewZoom == ZoomStep(old(previewZoom), WheelDirection(deltaY))
      ensures deltaY < 0.0 ==> old(previewZoom) <= previewZoom
      ensures deltaY >= 0.0 ==> previewZoom <= old(previewZoom)
    {
      var direction := if deltaY < 0.0 then 1 else -1;
      previewZoom := Clamp(previewZoom + direction as real * PREVIEW_ZOOM_STEP, MIN_PREVIEW_ZOOM, MAX_PREVIEW_ZOOM);
    }

    method ZoomReset()
      requires Valid()
      modifies this`previewZoom
      ensures Valid() && previewZoom == 1.0
    {
      previewZoom := 1.0;
    }

    /** The zoom slider only produces values inside its own range. */
    method ZoomFromSlider(value: real)
      requires Valid() && InZoomRange(value)
      modifies this`previewZoom
      ensures Valid() && previewZoom == value
    {
      previewZoom := value;
    }

    method ImageDoubleClick()
      requires Valid()
      modifies this`previewZoom
      ensures Valid() && previewZoom == DoubleClickZoom(old(previewZoom))
    {
      previewZoom := if previewZoom >= 1.9 then 1.0 else 2.0;
    }

    method SetPaperSize(paper: PrintSize)
      requires Valid()
      modifies this`paperSize
      ensures Valid() && paperSize == paper
    {
      paperSize := paper;
    }

    /** The print editor's size buttons: small, medium and large. */
    method SetSizeScale(scale: real)
      requires Valid() && (scale == 0.85 || scale == 1.0 || scale == 1.2)
      modifies this`sizeScale
      ensures Valid() && sizeScale == scale
    {
      sizeScale := scale;
    }

    /**
     * Starts a preview render of the current settings when the modal is open.
     * The previous run's effect is cleaned up first, so it is cancelled.
     */
    method StartPreview(p: ExportProps) returns (run: Option<PreviewRun>)
      requires Valid()
      modifies this`renderToken, this`liveRun, this`isGenerating, this`error
      ensures Valid()
      ensures !old(isOpen) ==> run.None? && renderToken == old(renderToken) && liveRun == old(liveRun)
      ensures !old(isOpen) ==> isGenerating == old(isGenerating) && error == old(error)
      ensures old(isOpen) ==> run == Some(PreviewRun(old(renderToken) + 1, CanvasOptions(p, PREVIEW_RENDER_SCALE)))
      ensures old(isOpen) ==> renderToken == old(renderToken) + 1 && liveRun == Some(renderToken)
      ensures old(isOpen) ==> isGenerating && error.None?
    {
      if !isOpen {
        return None;
      }
      var token := renderToken + 1;
      renderToken := token;
      liveRun := Some(token);
      isGenerating := true;
      error := None;
      run := Some(PreviewRun(token, CanvasOptions(p, PREVIEW_RENDER_SCALE)));
    }

    /**
     * A preview render reports back: `rendered` is the image, or `None` when
     * rendering threw. A cancelled run changes nothing; a run that is live
     * but no longer the latest only clears the busy flag.
     */
    method CompletePreview(token: nat, rendered: Option<string>)
      requires Valid()
      modifies this`previewUrl, this`error, this`isGenerating
      ensures Valid()
      ensures liveRun != Some(token) ==>
        previewUrl == old(previewUrl) && error == old(error) && isGenerating == old(isGenerating)
      ensures liveRun == Some(token) ==> !isGenerating
      ensures liveRun == Some(token) && rendered.Some? ==> previewUrl == rendered && error == old(error)
      ensures liveRun == Some(token) && rendered.None? ==>
        previewUrl == old(previewUrl) && error == Some(PREVIEW_ERROR)
      ensures token != renderToken ==> previewUrl == old(previewUrl)
    {
      var cancelled := liveRun != Some(token);
      if rendered.Some? {
        if !cancelled && renderToken == token {
          previewUrl := rendered;
        }
      } else if !cancelled {
        error := Some(PREVIEW_ERROR);
      }
      if !cancelled {
        isGenerating := false;
      }
    }

    /** `handleDownload` up to the render: a no-op while another export runs. */
    method BeginDownload(p: ExportProps, format: ImageFormat) returns (job: Option<ExportJob>)
      requires Valid()
      modifies this`isExporting, this`error
      ensures Valid()
      ensures old(isExporting) ==> job.None? && error == old(error)
      ensures !old(isExporting) ==> job == Some(DownloadJob(format, p.name, CanvasOptions(p, DOWNLOAD_RENDER_SCALE)))
      ensures !old(isExporting) ==> error.None?
      ensures isExporting
    {
      if isExporting {
        return None;
      }
      isExporting := true;
      error := None;
      job := Some(DownloadJob(format, p.name, CanvasOptions(p, DOWNLOAD_RENDER_SCALE)));
    }

    /** `handlePrint` up to the render: a no-op without access or while another export runs. */
    method BeginPrint(p: ExportProps) returns (job: Option<ExportJob>)
      requires Valid()
      modifies this`isExporting, this`error
      ensures Valid()
      ensures !p.hasAccess || old(isExporting) ==>
        job.None? && error == old(error) && isExporting == old(isExporting)
      ensures p.hasAccess && !old(isExporting) ==>
        job == Some(PrintJob(paperSize, p.name, CanvasOptions(p, PRINT_RENDER_SCALE))) && error.None? && isExporting
    {
      if !p.hasAccess || isExporting {
        return None;
      }
      isExporting := true;
      error := None;
      job := Some(PrintJob(paperSize, p.name, CanvasOptions(p, PRINT_RENDER_SCALE)));
    }

    /**
     * An export's render reports back (`None` when anything in the try block
     * threw). The busy flag is cleared either way; a success names the file
     * with the given random bytes and date.
     */
    method FinishExport(job: ExportJob, rendered: Option<string>, randomBytes: seq<byte>, today: LocalDate)
      returns (action: Option<ExportAction>)
      requires Valid() && |randomBytes| == 6 && ValidDate(today)
      modifies this`isExporting, this`error
      ensures Valid() && !isExporting
      ensures rendered.None? ==> action.None?
      ensures rendered.None? && job.DownloadJob? ==> error == Some(DOWNLOAD_ERROR)
      ensures rendered.None? && job.PrintJob? ==> error == Some(PRINT_ERROR)
      ensures rendered.Some? ==> error == old(error)
      ensures rendered.Some? && job.DownloadJob? ==> action == Some(SaveImage(
        BuildExportFilename(job.name, ExtensionOf(job.format), randomBytes, today), job.format))
      ensures rendered.Some? && job.PrintJob? ==> action == Some(OpenPrint(
        rendered.value, BuildExportFilename(job.name, Pdf, randomBytes, today), job.paper))
    {
      if rendered.None? {
        error := Some(if job.DownloadJob? then DOWNLOAD_ERROR else PRINT_ERROR);
        action := None;
      } else if job.DownloadJob? {
        var filename := BuildExportFilename(job.name, ExtensionOf(job.format), randomBytes, today);
        action := Some(SaveImage(filename, job.format));
      } else {
        action := Some(OpenPrint(rendered.value, BuildExportFilename(job.name, Pdf, randomBytes, today), job.paper));
      }
      isExporting := false;
    }
  }

  /**
   * Two previews started one after the other, finishing in the opposite
   * order: the earlier run's late image never replaces the later one's.
   */
  method LatestPreviewWins(m: Modal, p: ExportProps, first: string, second: string)
    returns (url: Option<string>)
    requires m.Valid() && m.isOpen
    modifies m
    ensures m.Valid() && url == Some(second) && m.previewUrl == Some(second) && !m.isGenerating
  {
    var older := m.StartPreview(p);
    var newer := m.StartPreview(p);
    m.CompletePreview(newer.value.token, Some(second));
    m.CompletePreview(older.value.token, Some(first));
    url := m.previewUrl;
  }

  /** A second download started while the first is still rendering is ignored. */
  method DownloadIsNotReentrant(m: Modal, p: ExportProps) returns (first: Option<ExportJob>, second: Option<ExportJob>)
    requires m.Valid() && !m.isExporting
    modifies m
    ensures first.Some? && second.None? && m.isExporting
  {
    first := m.BeginDownload(p, PngImage);
    second := m.BeginDownload(p, JpgImage);
  }
}
