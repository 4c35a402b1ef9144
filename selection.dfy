/**
 * The part of `PDFRenamerApp` with logic of its own: the selection
 * rectangle that canvas clicks and drags overwrite in place, the checks
 * `start_renaming` makes before a batch starts, and the mapping of the
 * rectangle from preview pixels to page units.
 */
module Selection {
  import opened Wrappers
  import opened Strings
  import opened Extraction
  import opened Renamer

  /** The width, in pixels, the sample page is resized to for the preview. */
  const PreviewWidth: int := 600

  /** Python's `int(v)` on a float: truncation toward zero. */
  function Trunc(v: real): (n: int)
    ensures v >= 0.0 ==> 0 <= n && n as real <= v < n as real + 1.0
    ensures v < 0.0 ==> n <= 0 && n as real - 1.0 < v <= n as real
  {
    if v >= 0.0 then v.Floor else -((-v).Floor)
  }

  /** Truncation keeps the order of its arguments. */
  lemma TruncMonotone(u: real, v: real)
    requires u <= v
    ensures Trunc(u) <= Trunc(v)
  {
  }

  /**
   * Python's `not any(self.rect)`: no element of the list is truthy, that is,
   * every value it holds is 0.
   */
  predicate NoArea(rect: seq<int>)
    ensures NoArea(rect) <==> forall x :: x in rect ==> x == 0
  {
    assert forall i :: 0 <= i < |rect| ==> rect[i] in rect;
    forall i :: 0 <= i < |rect| ==> rect[i] == 0
  }

  /**
   * The comprehension `[int(x * scale_x) if i % 2 == 0 else int(x * scale_y)
   * for i, x in enumerate(self.rect)]`: each coordinate is scaled by the
   * factor of its own axis (x at even, y at odd positions) and truncated,
   * so it lies within one unit of the exact scaled value, on the side of 0.
   */
  function ScaleRect(rect: Rect, scaleX: real, scaleY: real): (r: Rect)
    ensures |r| == |rect|
    ensures forall i :: 0 <= i < |rect| && i % 2 == 0 ==> r[i] == Scale(rect[i], scaleX)
    ensures forall i :: 0 <= i < |rect| && i % 2 == 1 ==> r[i] == Scale(rect[i], scaleY)
  {
    seq(|rect|, i requires 0 <= i < |rect| => if i % 2 == 0 then Scale(rect[i], scaleX) else Scale(rect[i], scaleY))
  }

  /** One coordinate scaled by its axis factor and truncated. */
  function Scale(x: int, factor: real): int
  {
    Trunc(x as real * factor)
  }

  /** A scaled coordinate is within one page unit of the exact product, never further from 0. */
  lemma ScaleCloseToExact(x: int, factor: real)
    ensures -1.0 < Scale(x, factor) as real - x as real * factor < 1.0
    ensures x as real * factor >= 0.0 ==> 0 <= Scale(x, factor) && Scale(x, factor) as real <= x as real * factor
    ensures x as real * factor < 0.0 ==> Scale(x, factor) <= 0 && x as real * factor <= Scale(x, factor) as real
  {
  }

  /** A rectangle of zeros maps to a rectangle of zeros, whatever the factors. */
  lemma ZeroRectScalesToZero(rect: Rect, scaleX: real, scaleY: real)
    requires NoArea(rect)
    ensures NoArea(ScaleRect(rect, scaleX, scaleY))
  {
  }

  /**
   * Each axis is scaled independently: the x coordinates of the result
   * depend only on the x coordinates and the x factor, the y coordinates
   * only on the y coordinates and the y factor.
   */
  lemma ScaleAxesIndependent(r1: Rect, r2: Rect, sx1: real, sy1: real, sx2: real, sy2: real)
    requires |r1| == |r2|
    ensures (sx1 == sx2 && forall i :: 0 <= i < |r1| && i % 2 == 0 ==> r1[i] == r2[i]) ==>
      forall i :: 0 <= i < |r1| && i % 2 == 0 ==> ScaleRect(r1, sx1, sy1)[i] == ScaleRect(r2, sx2, sy2)[i]
    ensures (sy1 == sy2 && forall i :: 0 <= i < |r1| && i % 2 == 1 ==> r1[i] == r2[i]) ==>
      forall i :: 0 <= i < |r1| && i % 2 == 1 ==> ScaleRect(r1, sx1, sy1)[i] == ScaleRect(r2, sx2, sy2)[i]
  {
  }

  /**
   * Non-negative factors keep a drawn rectangle's orientation: if the first
   * corner is left of (above) the second on the preview, it still is in
   * page units.
   */
  lemma ScaleKeepsOrder(rect: Rect, scaleX: real, scaleY: real)
    requires |rect| == 4 && scaleX >= 0.0 && scaleY >= 0.0
    ensures rect[0] <= rect[2] ==> ScaleRect(rect, scaleX, scaleY)[0] <= ScaleRect(rect, scaleX, scaleY)[2]
    ensures rect[1] <= rect[3] ==> ScaleRect(rect, scaleX, scaleY)[1] <= ScaleRect(rect, scaleX, scaleY)[3]
  {
    if rect[0] <= rect[2] {
      ScaleMonotone(rect[0], rect[2], scaleX);
    }
    if rect[1] <= rect[3] {
      ScaleMonotone(rect[1], rect[3], scaleY);
    }
  }

  lemma ScaleMonotone(a: int, b: int, factor: real)
    requires a <= b && factor >= 0.0
    ensures Scale(a, factor) <= Scale(b, factor)
  {
    assert b as real * factor - a as real * factor == (b - a) as real * factor;
    TruncMonotone(a as real * factor, b as real * factor);
  }

  /**
   * The horizontal factor of `start_renaming`: one preview pixel in page
   * units, since the preview is `PreviewWidth` pixels wide.
   */
  function ScaleX(page: Page): (f: real)
    ensures f * PreviewWidth as real == page.width
    ensures page.width >= 0.0 ==> f >= 0.0
  {
    page.width / PreviewWidth as real
  }

  /** The vertical factor: the page height spread over `displayHeight` pixels. */
  function ScaleY(page: Page, displayHeight: int): (f: real)
    requires displayHeight > 0
    ensures f * displayHeight as real == page.height
    ensures page.height >= 0.0 ==> f >= 0.0
  {
    page.height / displayHeight as real
  }

  /** What pressing "Start Renaming" leads to. */
  datatype Start =
    | NoFolder                          // "Please select a folder with PDFs."
    | AreaNotSelected                   // "Please select an area on the sample PDF."
    | SampleFailed(msg: string)         // opening the sample or `doc[0]` raised
    | Started(folder: string, job: Job) // the worker runs `rename_pdfs` with these arguments

  /** The application's own state: the chosen folder and the selection rectangle. */
  class App {
    /** `self.folder_path`; the empty string stands for `None` (both are falsy). */
    var folderPath: string
    /** `self.rect`, the list `[x0, y0, x1, y1]` in preview pixels. */
    const rect: array<int>

    ghost predicate Valid()
      reads this
    {
      rect.Length == 4
    }

    /** `__init__`: no folder, and the rectangle `[0, 0, 0, 0]`. */
    constructor ()
      ensures Valid() && fresh(rect)
      ensures folderPath == ""
      ensures rect[..] == [0, 0, 0, 0]
    {
      folderPath := "";
      rect := new int[4](_ => 0);
    }

    /** `select_folder`: a cancelled dialog (empty path) keeps the previous folder. */
    method SelectFolder(path: string)
      modifies this
      ensures folderPath == if path != "" then path else old(folderPath)
    {
      if path != "" {
        folderPath := path;
      }
    }

    /** `on_canvas_click`: the press point becomes the first corner. */
    method OnCanvasClick(x: int, y: int)
      requires Valid()
      modifies rect
      ensures rect[..] == [x, y, old(rect[2]), old(rect[3])]
    {
      rect[0] := x;
      rect[1] := y;
    }

    /** `on_canvas_drag`: the pointer position becomes the second corner. */
    method OnCanvasDrag(x: int, y: int)
      requires Valid()
      modifies rect
      ensures rect[..] == [old(rect[0]), old(rect[1]), x, y]
    {
      rect[2] := x;
      rect[3] := y;
    }

    /**
     * `start_renaming`, up to launching the worker. It refuses without a
     * folder, refuses area mode exactly when all four coordinates are 0,
     * fails when the sample cannot be opened or has no first page (the
     * sample is opened in both modes), and otherwise starts the batch with
     * the stripped prefix and suffix and the rectangle scaled to page units.
     * `sample` is the result of `fitz.open(selected_pdf_path)` and
     * `displayHeight` the divisor of the vertical factor (the canvas's
     * current height, `winfo_height()`, which is at least 1).
     */
    method StartRenaming(prefixEntry: string, suffixEntry: string, preview: bool, useArea: bool,
                         sample: Result<Document>, displayHeight: int) returns (r: Start)
      requires Valid()
      requires displayHeight > 0
      ensures r == NoFolder <==> folderPath == ""
      ensures r == AreaNotSelected <==> folderPath != "" && useArea && NoArea(rect[..])
      ensures r.SampleFailed? <==>
        folderPath != "" && !(useArea && NoArea(rect[..])) && (sample.Err? || |sample.value.pages| == 0)
      ensures r.SampleFailed? && sample.Err? ==> r.msg == sample.msg
      ensures r.SampleFailed? && sample.Ok? ==> r.msg == NoFirstPage
      ensures r.Started? ==>
        && r.folder == folderPath
        && r.job.prefix == Strip(prefixEntry) && r.job.suffix == Strip(suffixEntry)
        && r.job.previewOnly == preview && r.job.useArea == useArea
        && r.job.rect == ScaleRect(rect[..], ScaleX(sample.value.pages[0]), ScaleY(sample.value.pages[0], displayHeight))
    {
      if folderPath == "" {
        return NoFolder;
      }
      var prefix := Strip(prefixEntry);
      var suffix := Strip(suffixEntry);
      if useArea && NoArea(rect[..]) {
        return AreaNotSelected;
      }
      if sample.Err? {
        return SampleFailed(sample.msg);
      }
      if |sample.value.pages| == 0 {
        return SampleFailed(NoFirstPage);
      }
      var page := sample.value.pages[0];
      var scaled := ScaleRect(rect[..], ScaleX(page), ScaleY(page, displayHeight));
      r := Started(folderPath, Job(prefix, suffix, preview, useArea, scaled));
    }
  }
}
