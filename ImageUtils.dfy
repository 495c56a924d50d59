/** The compositor of utils/imageUtils.ts: lays the panel images out on one canvas
    and writes each panel's dialogue lines in a text band under its image.
    Images are reduced to their pixel sizes and the canvas to the calls drawn on it. */
module ImageUtils {

  import opened Types

  /** Pixel height of the dialogue band reserved under every image. */
  const TextBand: nat := 250
  /** Distance from the bottom of an image to the first dialogue baseline. */
  const TextTop: nat := 40
  /** Distance between consecutive dialogue baselines. */
  const LinePitch: nat := 35

  datatype Layout = Grid2x2 | Horizontal | Vertical

  /** The literal the layout has in the source ('2x2', 'horizontal', 'vertical'). */
  function LayoutName(l: Layout): string
  {
    match l
    case Grid2x2 => "2x2"
    case Horizontal => "horizontal"
    case Vertical => "vertical"
  }

  /** A decoded image, reduced to its natural size. */
  datatype Size = Size(width: nat, height: nat)

  /** One `fillText` call; `cx` is the centre of the line (text-align: center). */
  datatype TextLine = TextLine(text: string, cx: real, y: int)

  /** One `drawImage(images[image], x, y, w, h)` call followed by its dialogue lines. */
  datatype Cell = Cell(image: nat, x: int, y: int, w: nat, h: nat, lines: seq<TextLine>)

  /** The finished canvas: its size, the full white fill implied, and the cells in drawing order. */
  datatype Canvas = Canvas(width: nat, height: nat, cells: seq<Cell>)

  /** The individual calls issued on the 2D context, in order. */
  datatype DrawCall =
    | FillRect(x: int, y: int, w: nat, h: nat, color: string)
    | DrawImage(image: nat, x: int, y: int, w: nat, h: nat)
    | FillText(text: string, cx: real, y: int)

  /** The canvas is one to four images wide. */
  function CanvasWidth(layout: Layout, w: nat): (r: nat)
    ensures w <= r <= 4 * w
  {
    match layout
    case Grid2x2 => w * 2
    case Horizontal => w * 4
    case Vertical => w
  }

  /** The canvas is one to four image-and-band rows tall. */
  function CanvasHeight(layout: Layout, h: nat): (r: nat)
    ensures h + TextBand <= r <= 4 * (h + TextBand)
  {
    match layout
    case Grid2x2 => (h + TextBand) * 2
    case Horizontal => h + TextBand
    case Vertical => (h + TextBand) * 4
  }

  /** Left edge of the i-th image for a cell of w pixels: never left of the canvas and
      never further right than i image widths. */
  function OriginX(layout: Layout, w: nat, i: nat): (r: int)
    ensures 0 <= r <= i * w
  {
    match layout
    case Grid2x2 => (i % 2) * w
    case Horizontal => i * w
    case Vertical => 0
  }

  /** Top edge of the i-th image for a cell of h pixels: never above the canvas and never
      further down than i image-and-band rows. */
  function OriginY(layout: Layout, h: nat, i: nat): (r: int)
    ensures 0 <= r <= i * (h + TextBand)
  {
    match layout
    case Grid2x2 => (i / 2) * (h + TextBand)
    case Horizontal => 0
    case Vertical => i * (h + TextBand)
  }

  /** Every layout's canvas has the area of exactly four image-and-band cells. */
  lemma CanvasHoldsFourCells(layout: Layout, w: nat, h: nat)
    ensures CanvasWidth(layout, w) * CanvasHeight(layout, h) == 4 * (w * (h + TextBand))
  {
  }

  /** The text drawn for one dialogue entry. */
  function LineText(d: Dialogue): string
  {
    d.speaker + ": " + d.text
  }

  /** The dialogue lines of a cell whose image sits at (x, y) with size w by h. */
  function DialogueLines(x: int, y: int, w: nat, h: nat, ds: seq<Dialogue>): (r: seq<TextLine>)
    ensures |r| == |ds|
    ensures forall k :: 0 <= k < |r| ==>
      r[k].text == LineText(ds[k]) && r[k].y == y + h + TextTop + LinePitch * k
      && 2.0 * r[k].cx == 2.0 * (x as real) + w as real
  {
    seq(|ds|, k requires 0 <= k < |ds| => TextLine(LineText(ds[k]), x as real + (w as real) / 2.0,
                                                   y + h + TextTop + LinePitch * k))
  }

  /** What the draw loop does for the i-th image, given the first image's size. */
  function CellAt(layout: Layout, w: nat, h: nat, i: nat, p: Panel): Cell
  {
    var x := OriginX(layout, w, i);
    var y := OriginY(layout, h, i);
    Cell(i, x, y, w, h, DialogueLines(x, y, w, h, p.dialogues))
  }

  /** `Promise.all` over the image loads: every size, or failure if any one load fails. */
  function LoadAll(urls: seq<string>, load: string -> Option<Size>): (r: Option<seq<Size>>)
    ensures r.Some? <==> forall i :: 0 <= i < |urls| ==> load(urls[i]).Some?
    ensures r.Some? ==> |r.value| == |urls|
    ensures r.Some? ==> forall i :: 0 <= i < |urls| ==> r.value[i] == load(urls[i]).value
  {
    if urls == [] then Some([])
    else match (load(urls[0]), LoadAll(urls[1..], load))
      case (Some(s), Some(rest)) => Some([s] + rest)
      case _ => None
  }

  /** The canvas the compositor draws from decoded image sizes and panel records. */
  function Composite(sizes: seq<Size>, layout: Layout, panels: seq<Panel>): (r: Result<Canvas, Error>)
    ensures sizes == [] <==> r == Failure(NoImages)
    ensures sizes != [] && |panels| < |sizes| <==> r == Failure(MissingPanel)
    ensures r.Success? ==>
      && r.value.width == CanvasWidth(layout, sizes[0].width)
      && r.value.height == CanvasHeight(layout, sizes[0].height)
      && |r.value.cells| == |sizes|
      && forall i :: 0 <= i < |sizes| ==>
           r.value.cells[i] == CellAt(layout, sizes[0].width, sizes[0].height, i, panels[i])
  {
    if sizes == [] then Failure(NoImages)
    else if |panels| < |sizes| then Failure(MissingPanel)
    else
      var w, h := sizes[0].width, sizes[0].height;
      Success(Canvas(CanvasWidth(layout, w), CanvasHeight(layout, h),
                     seq(|sizes|, i requires 0 <= i < |sizes| => CellAt(layout, w, h, i, panels[i]))))
  }

  /** `createCombinedImage(images, layout, panels)`: load every image, then compose. A
      failed load wins over every other error; an empty list, then a missing panel, come
      next; otherwise the canvas is sized from the first image. */
  function CombinedImage(urls: seq<string>, layout: Layout, panels: seq<Panel>,
                         load: string -> Option<Size>): (r: Result<Canvas, Error>)
    ensures r == Failure(ImageLoadFailed) <==> exists i :: 0 <= i < |urls| && load(urls[i]).None?
    ensures r == Failure(NoImages) <==> urls == []
    ensures r == Failure(MissingPanel) <==>
      urls != [] && |panels| < |urls| && forall i :: 0 <= i < |urls| ==> load(urls[i]).Some?
    ensures r.Success? ==>
      && urls != [] && |panels| >= |urls|
      && r.value.width == CanvasWidth(layout, load(urls[0]).value.width)
      && r.value.height == CanvasHeight(layout, load(urls[0]).value.height)
  {
    match LoadAll(urls, load)
    case None => Failure(ImageLoadFailed)
    case Some(sizes) => Composite(sizes, layout, panels)
  }

  /** The draw loop of createCombinedImage, over the decoded sizes: sets the canvas size
      from the first image, then for each image in order computes its origin, draws it at
      the uniform size and steps down the dialogue band one line at a time. */
  method CreateCombinedImage(urls: seq<string>, layout: Layout, panels: seq<Panel>,
                             load: string -> Option<Size>) returns (r: Result<Canvas, Error>)
    ensures r == CombinedImage(urls, layout, panels, load)
    ensures r.Success? ==> |r.value.cells| == |urls|
    ensures r.Success? ==> forall i :: 0 <= i < |urls| ==> r.value.cells[i].image == i
  {
    var loaded := LoadAll(urls, load);
    if loaded.None? {
      return Failure(ImageLoadFailed);
    }
    var sizes := loaded.value;
    if |sizes| == 0 {
      return Failure(NoImages);
    }
    var baseWidth, baseHeight := sizes[0].width, sizes[0].height;
    var panelTotalHeight := baseHeight + TextBand;
    var width, height;
    if layout == Grid2x2 {
      width, height := baseWidth * 2, panelTotalHeight * 2;
    } else if layout == Horizontal {
      width, height := baseWidth * 4, panelTotalHeight;
    } else {
      width, height := baseWidth, panelTotalHeight * 4;
    }
    var cells: seq<Cell> := [];
    var i := 0;
    while i < |sizes|
      invariant 0 <= i <= |sizes|
      invariant i <= |panels|
      invariant |cells| == i
      invariant forall j :: 0 <= j < i ==> cells[j] == CellAt(layout, baseWidth, baseHeight, j, panels[j])
    {
      var x, y := 0, 0;
      if layout == Grid2x2 {
        x, y := (i % 2) * baseWidth, (i / 2) * panelTotalHeight;
      } else if layout == Horizontal {
        x, y := i * baseWidth, 0;
      } else {
        x, y := 0, i * panelTotalHeight;
      }
      if i >= |panels| {
        // `panels[i].dialogues` on a missing panel throws
        return Failure(MissingPanel);
      }
      var ds := panels[i].dialogues;
      var lines: seq<TextLine> := [];
      var currentTextY := y + baseHeight + TextTop;
      var k := 0;
      while k < |ds|
        invariant 0 <= k <= |ds|
        invariant currentTextY == y + baseHeight + TextTop + LinePitch * k
        invariant lines == DialogueLines(x, y, baseWidth, baseHeight, ds[..k])
      {
        lines := lines + [TextLine(LineText(ds[k]), x as real + (baseWidth as real) / 2.0, currentTextY)];
        currentTextY := currentTextY + LinePitch;
        k := k + 1;
      }
      assert ds[..k] == ds;
      cells := cells + [Cell(i, x, y, baseWidth, baseHeight, lines)];
      i := i + 1;
    }
    r := Success(Canvas(width, height, cells));
    assert r.value.cells == Composite(sizes, layout, panels).value.cells;
  }

  /** The calls a canvas stands for: a white fill of the whole canvas, then per cell the
      image and its dialogue lines. */
  function DrawCalls(c: Canvas): seq<DrawCall>
  {
    [FillRect(0, 0, c.width, c.height, "#ffffff")] + CellCalls(c.cells)
  }

  function CellCalls(cells: seq<Cell>): seq<DrawCall>
  {
    if cells == [] then []
    else
      var c := cells[0];
      [DrawImage(c.image, c.x, c.y, c.w, c.h)]
        + seq(|c.lines|, k requires 0 <= k < |c.lines| => FillText(c.lines[k].text, c.lines[k].cx, c.lines[k].y))
        + CellCalls(cells[1..])
  }

  /** The images are drawn in input order, each once: the image calls of a canvas, read
      in order, name images 0, 1, 2, ... */
  function ImageOrder(calls: seq<DrawCall>): seq<nat>
  {
    if calls == [] then [] else (if calls[0].DrawImage? then [calls[0].image] else []) + ImageOrder(calls[1..])
  }

  lemma {:induction false} ImageOrderAppend(a: seq<DrawCall>, b: seq<DrawCall>)
    ensures ImageOrder(a + b) == ImageOrder(a) + ImageOrder(b)
  {
    if a == [] {
      assert a + b == b;
    } else {
      assert (a + b)[0] == a[0];
      assert (a + b)[1..] == a[1..] + b;
      ImageOrderAppend(a[1..], b);
    }
  }

  lemma {:induction false} ImageOrderOfTexts(c: Cell)
    ensures ImageOrder(seq(|c.lines|, k requires 0 <= k < |c.lines| => FillText(c.lines[k].text, c.lines[k].cx, c.lines[k].y))) == []
  {
    var t := seq(|c.lines|, k requires 0 <= k < |c.lines| => FillText(c.lines[k].text, c.lines[k].cx, c.lines[k].y));
    TextsHaveNoImage(t);
  }

  lemma {:induction false} TextsHaveNoImage(t: seq<DrawCall>)
    requires forall k :: 0 <= k < |t| ==> t[k].FillText?
    ensures ImageOrder(t) == []
  {
    if t != [] {
      TextsHaveNoImage(t[1..]);
    }
  }

  lemma {:induction false} CellCallsImageOrder(cells: seq<Cell>)
    ensures ImageOrder(CellCalls(cells)) == seq(|cells|, i requires 0 <= i < |cells| => cells[i].image)
  {
    if cells != [] {
      var c := cells[0];
      var texts := seq(|c.lines|, k requires 0 <= k < |c.lines| => FillText(c.lines[k].text, c.lines[k].cx, c.lines[k].y));
      ImageOrderAppend([DrawImage(c.image, c.x, c.y, c.w, c.h)] + texts, CellCalls(cells[1..]));
      ImageOrderAppend([DrawImage(c.image, c.x, c.y, c.w, c.h)], texts);
      ImageOrderOfTexts(c);
      CellCallsImageOrder(cells[1..]);
    }
  }

  /** Every composed canvas starts with one white fill of the whole canvas and then draws
      the images exactly once each, in input order. */
  lemma ImagesDrawnInOrder(sizes: seq<Size>, layout: Layout, panels: seq<Panel>)
    requires Composite(sizes, layout, panels).Success?
    ensures var c := Composite(sizes, layout, panels).value;
      DrawCalls(c)[0] == FillRect(0, 0, c.width, c.height, "#ffffff")
      && ImageOrder(DrawCalls(c)) == seq(|sizes|, i => i)
  {
    var c := Composite(sizes, layout, panels).value;
    ImageOrderAppend([FillRect(0, 0, c.width, c.height, "#ffffff")], CellCalls(c.cells));
    CellCallsImageOrder(c.cells);
  }

  /** For the first four images, the image and its whole text band lie on the canvas,
      in every layout. */
  lemma CellInsideCanvas(layout: Layout, w: nat, h: nat, i: nat)
    requires i < 4
    ensures 0 <= OriginX(layout, w, i) && OriginX(layout, w, i) + w <= CanvasWidth(layout, w)
    ensures 0 <= OriginY(layout, h, i) && OriginY(layout, h, i) + h + TextBand <= CanvasHeight(layout, h)
  {
    match layout
    case Grid2x2 =>
      if i % 2 == 0 { assert OriginX(layout, w, i) == 0; } else { assert OriginX(layout, w, i) == w; }
      if i / 2 == 0 { assert OriginY(layout, h, i) == 0; } else { assert OriginY(layout, h, i) == h + TextBand; }
    case Horizontal =>
      assert i * w <= 3 * w by { MulLeq(i, 3, w); }
    case Vertical =>
      assert i * (h + TextBand) <= 3 * (h + TextBand) by { MulLeq(i, 3, h + TextBand); }
  }

  lemma MulLeq(a: nat, b: nat, c: nat)
    requires a <= b
    ensures a * c <= b * c
  {
  }

  /** The layouts have room for four images only: a fifth image's cell starts at or beyond
      the canvas edge (below it for 2x2 and vertical, right of it for horizontal). */
  lemma FifthCellOffCanvas(layout: Layout, w: nat, h: nat)
    ensures OriginX(layout, w, 4) >= CanvasWidth(layout, w) || OriginY(layout, h, 4) >= CanvasHeight(layout, h)
  {
  }

  /** With at most six dialogue lines every baseline falls inside the panel's own text
      band; a seventh baseline lands on the band's lower edge. */
  lemma DialogueFitsBand(x: int, y: int, w: nat, h: nat, ds: seq<Dialogue>)
    ensures var lines := DialogueLines(x, y, w, h, ds);
      forall k :: 0 <= k < |lines| ==> (lines[k].y < y + h + TextBand <==> k < 6)
  {
  }

  /** A single image composed in the vertical layout (as the individual download does)
      still gets the four-cell vertical canvas: w by 4(h + 250). */
  lemma SingleVerticalCanvas(s: Size, p: Panel)
    ensures Composite([s], Vertical, [p]).Success?
    ensures Composite([s], Vertical, [p]).value.width == s.width
    ensures Composite([s], Vertical, [p]).value.height == 4 * (s.height + TextBand)
    ensures Composite([s], Vertical, [p]).value.cells[0].x == 0
    ensures Composite([s], Vertical, [p]).value.cells[0].y == 0
  {
  }
}
