/** The last wizard screen (components/Step4Comic.tsx): which panels are exported, as
    which files, in which layout, and the two visibility rules of the screen. */
module Step4 {

  import opened Types
  import opened Strings
  import opened ImageUtils

  /** The four save buttons: a combined sheet in one of the three layouts, or one file
      per panel. */
  datatype DownloadKind = Combined(layout: Layout) | Individual

  /** A file handed to the browser: its name and the canvas it was rendered from. */
  datatype Download = Download(filename: string, canvas: Canvas)

  /** `panels.filter(p => p.imageUrl)`: the panels with an image, in their order. */
  function ValidPanels(ps: seq<Panel>): (r: seq<Panel>)
    ensures |r| <= |ps|
    ensures forall i :: 0 <= i < |r| ==> HasImage(r[i].imageUrl) && r[i] in ps
    ensures forall i :: 0 <= i < |ps| && HasImage(ps[i].imageUrl) ==> ps[i] in r
  {
    if ps == [] then []
    else (if HasImage(ps[0].imageUrl) then [ps[0]] else []) + ValidPanels(ps[1..])
  }

  /** Filtering a concatenation filters each part and keeps them in order. */
  lemma {:induction false} ValidPanelsAppend(a: seq<Panel>, b: seq<Panel>)
    ensures ValidPanels(a + b) == ValidPanels(a) + ValidPanels(b)
  {
    if a == [] {
      assert a + b == b;
    } else {
      assert (a + b)[0] == a[0];
      assert (a + b)[1..] == a[1..] + b;
      ValidPanelsAppend(a[1..], b);
    }
  }

  /** `panels.every(p => p.imageUrl)`: the condition for showing the save bar; an empty
      comic shows it, and one panel without an image hides it. */
  predicate SaveBarVisible(ps: seq<Panel>): (r: bool)
    ensures r <==> forall p :: p in ps ==> HasImage(p.imageUrl)
    ensures ps == [] ==> r
  {
    forall i :: 0 <= i < |ps| ==> HasImage(ps[i].imageUrl)
  }

  /** The save bar is shown exactly when filtering keeps every panel, so every button
      of the bar exports the whole comic. */
  lemma {:induction false} SaveBarMeansAllPanels(ps: seq<Panel>)
    ensures SaveBarVisible(ps) <==> ValidPanels(ps) == ps
  {
    if ps != [] {
      SaveBarMeansAllPanels(ps[1..]);
      if ValidPanels(ps) == ps {
        forall i | 0 <= i < |ps|
          ensures HasImage(ps[i].imageUrl)
        {
          assert ps[i] == ValidPanels(ps)[i];
        }
      }
    }
  }

  /** The label of the regenerate-all button follows `panels.some(p => p.imageUrl)`: it
      offers to regenerate exactly when a save has panels to export. */
  function RegenerateAllLabel(ps: seq<Panel>): (r: string)
    ensures r == "모든 이미지 다시 생성" <==> ValidPanels(ps) != []
    ensures r == "모든 이미지 한번에 생성" <==> ValidPanels(ps) == []
  {
    if exists i :: 0 <= i < |ps| && HasImage(ps[i].imageUrl) then "모든 이미지 다시 생성"
    else NothingToSelect(ps); "모든 이미지 한번에 생성"
  }

  /** `p.imageUrl as string`, read on panels the filter has kept. */
  function UrlOf(p: Panel): string
  {
    if p.imageUrl.Some? then p.imageUrl.value else ""
  }

  /** `validPanels.map(p => p.imageUrl as string)`. */
  function ImagesOf(vps: seq<Panel>): (r: seq<string>)
    ensures |r| == |vps|
    ensures forall i :: 0 <= i < |vps| ==> r[i] == UrlOf(vps[i])
  {
    if vps == [] then [] else [UrlOf(vps[0])] + ImagesOf(vps[1..])
  }

  /** On the selected panels the image list is exactly their URLs, position by position. */
  lemma SelectedUrls(ps: seq<Panel>)
    ensures var vps := ValidPanels(ps);
      |ImagesOf(vps)| == |vps| && forall i :: 0 <= i < |vps| ==> Some(ImagesOf(vps)[i]) == vps[i].imageUrl
  {
  }

  /** `comic_{layout}.png`; a combined file never takes the name of a per-panel file. */
  function ComicFileName(l: Layout): (r: string)
    ensures |r| == 6 + |LayoutName(l)| + 4
    ensures r[..6] == "comic_" && r[6..|r| - 4] == LayoutName(l) && r[|r| - 4..] == ".png"
    ensures forall m: nat :: r != PanelFileName(m)
  {
    var r := "comic_" + LayoutName(l) + ".png";
    assert forall m: nat :: PanelFileName(m)[0] == 'p';
    r
  }

  /** `panel_{m}.png`, with the position readable back from the name. */
  function PanelFileName(m: nat): (r: string)
    ensures |r| == 6 + |NatToString(m)| + 4
    ensures r[..6] == "panel_" && r[6..|r| - 4] == NatToString(m) && r[|r| - 4..] == ".png"
  {
    "panel_" + NatToString(m) + ".png"
  }

  /** Different positions give different individual file names. */
  lemma PanelFileNameInjective(m: nat, n: nat)
    requires PanelFileName(m) == PanelFileName(n)
    ensures m == n
  {
    var a, b := NatToString(m), NatToString(n);
    assert |a| == |b|;
    assert PanelFileName(m)[6..6 + |a|] == a;
    assert PanelFileName(n)[6..6 + |b|] == b;
    NatToStringInjective(m, n);
  }

  /** The file for the m-th selected panel, if its single-image composite renders. */
  function PanelDownload(p: Panel, m: nat, load: string -> Option<Size>): seq<Download>
  {
    match CombinedImage([UrlOf(p)], Vertical, [p], load)
    case Success(c) => [Download(PanelFileName(m), c)]
    case Failure(_) => []
  }

  /** The individual downloads, the i-th selected panel as `panel_{i+1}.png`. */
  function IndividualDownloads(vps: seq<Panel>, load: string -> Option<Size>): (r: seq<Download>)
    ensures |r| <= |vps|
    ensures forall d :: d in r ==> exists m :: 1 <= m <= |vps| && d.filename == PanelFileName(m)
    decreases |vps|
  {
    if vps == [] then []
    else IndividualDownloads(vps[..|vps| - 1], load) + PanelDownload(vps[|vps| - 1], |vps|, load)
  }

  predicate DistinctNames(ds: seq<Download>)
  {
    forall i, j :: 0 <= i < j < |ds| ==> ds[i].filename != ds[j].filename
  }

  /** No two individual downloads share a file name. */
  lemma {:induction false} IndividualNamesDistinct(vps: seq<Panel>, load: string -> Option<Size>)
    ensures DistinctNames(IndividualDownloads(vps, load))
    decreases |vps|
  {
    if vps != [] {
      var n := |vps|;
      var front := vps[..n - 1];
      IndividualNamesDistinct(front, load);
      var rf := IndividualDownloads(front, load);
      var last := PanelDownload(vps[n - 1], n, load);
      assert IndividualDownloads(vps, load) == rf + last;
      if last != [] {
        forall i | 0 <= i < |rf|
          ensures rf[i].filename != PanelFileName(n)
        {
          assert rf[i] in rf;
          var m :| 1 <= m <= n - 1 && rf[i].filename == PanelFileName(m);
          if rf[i].filename == PanelFileName(n) {
            PanelFileNameInjective(m, n);
          }
        }
        assert last[0].filename == PanelFileName(n);
      }
      var r := rf + last;
      forall i, j | 0 <= i < j < |r|
        ensures r[i].filename != r[j].filename
      {
        if j < |rf| {
          assert r[i] == rf[i] && r[j] == rf[j];
        } else {
          assert |last| <= 1 && j == |rf| && last != [];
          assert r[j] == last[0] && r[i] == rf[i];
        }
      }
    }
  }

  /** `d` is the file of panel `p` at position `m`, rendered alone from an image of size
      `s` on the vertical layout's w by 4(h + 250) canvas. */
  predicate IsPanelFile(d: Download, p: Panel, m: nat, s: Size)
  {
    && d.filename == PanelFileName(m)
    && Composite([s], Vertical, [p]).Success?
    && d.canvas == Composite([s], Vertical, [p]).value
    && d.canvas.width == s.width && d.canvas.height == 4 * (s.height + TextBand)
  }

  /** When every image loads there is one file per selected panel, the i-th named after
      position i + 1 (not the panel id) and holding that panel alone. */
  lemma {:induction false} IndividualDownloadsComplete(vps: seq<Panel>, load: string -> Option<Size>)
    requires forall i :: 0 <= i < |vps| ==> load(UrlOf(vps[i])).Some?
    ensures |IndividualDownloads(vps, load)| == |vps|
    ensures forall i :: 0 <= i < |vps| ==>
      IsPanelFile(IndividualDownloads(vps, load)[i], vps[i], i + 1, load(UrlOf(vps[i])).value)
    decreases |vps|
  {
    if vps != [] {
      var n := |vps|;
      var front := vps[..n - 1];
      var p := vps[n - 1];
      assert forall i :: 0 <= i < |front| ==> front[i] == vps[i];
      IndividualDownloadsComplete(front, load);
      assert load(UrlOf(vps[n - 1])).Some?;
      var s := load(UrlOf(p)).value;
      var one := LoadAll([UrlOf(p)], load);
      assert [UrlOf(p)][0] == UrlOf(p);
      assert one.Some? && |one.value| == 1 && one.value[0] == s;
      assert one.value == [s];
      SingleVerticalCanvas(s, p);
      var d := Download(PanelFileName(n), Composite([s], Vertical, [p]).value);
      assert PanelDownload(p, n, load) == [d];
      assert IsPanelFile(d, p, n, s);
      var rf := IndividualDownloads(front, load);
      var r := IndividualDownloads(vps, load);
      assert r == rf + [d];
      forall i | 0 <= i < n
        ensures IsPanelFile(r[i], vps[i], i + 1, load(UrlOf(vps[i])).value)
      {
        if i < n - 1 {
          assert r[i] == rf[i];
        }
      }
    }
  }

  /** The files one save button press produces: nothing when no panel has an image; for
      a combined kind one sheet of all selected images and panels, if it renders; for
      individual, one file per selected panel that renders. */
  function PlannedDownloads(kind: DownloadKind, ps: seq<Panel>, load: string -> Option<Size>): (r: seq<Download>)
    ensures ValidPanels(ps) == [] ==> r == []
    ensures kind.Combined? ==> |r| <= 1 && forall d :: d in r ==> d.filename == ComicFileName(kind.layout)
    ensures kind.Individual? ==>
      && |r| <= |ValidPanels(ps)|
      && forall d :: d in r ==> exists m :: 1 <= m <= |ValidPanels(ps)| && d.filename == PanelFileName(m)
  {
    var vps := ValidPanels(ps);
    if vps == [] then []
    else match kind
      case Individual => IndividualDownloads(vps, load)
      case Combined(l) => CombinedDownloads(l, vps, load)
  }

  /** The combined sheet of the selected panels, as a list of at most one file. */
  function CombinedDownloads(l: Layout, vps: seq<Panel>, load: string -> Option<Size>): (r: seq<Download>)
    ensures |r| <= 1
    ensures |r| == 1 <==> vps != [] && forall i :: 0 <= i < |vps| ==> load(UrlOf(vps[i])).Some?
    ensures |r| == 1 ==> r[0].filename == ComicFileName(l) && |r[0].canvas.cells| == |vps|
  {
    match CombinedImage(ImagesOf(vps), l, vps, load)
    case Success(c) => [Download(ComicFileName(l), c)]
    case Failure(_) => []
  }

  /** A comic without a single image produces no file at all. */
  lemma NoImagesNoDownloads(kind: DownloadKind, ps: seq<Panel>, load: string -> Option<Size>)
    requires forall i :: 0 <= i < |ps| ==> !HasImage(ps[i].imageUrl)
    ensures PlannedDownloads(kind, ps, load) == []
  {
    NothingToSelect(ps);
  }

  /** The button reads "generate all" only when a save of any kind would produce no file. */
  lemma GenerateLabelMeansNothingToSave(kind: DownloadKind, ps: seq<Panel>, load: string -> Option<Size>)
    ensures RegenerateAllLabel(ps) == "모든 이미지 한번에 생성" ==> PlannedDownloads(kind, ps, load) == []
  {
  }

  lemma {:induction false} NothingToSelect(ps: seq<Panel>)
    requires forall i :: 0 <= i < |ps| ==> !HasImage(ps[i].imageUrl)
    ensures ValidPanels(ps) == []
  {
    if ps != [] {
      NothingToSelect(ps[1..]);
    }
  }

  /** A combined save produces at most one file, `comic_{layout}.png`. Because the images
      and the panels come from the same filtered list, the sheet can only fail to load,
      never lack a panel: it is produced exactly when every selected image loads, and its
      i-th cell shows the i-th selected image with that panel's dialogue. */
  lemma CombinedDownloadSpec(l: Layout, ps: seq<Panel>, load: string -> Option<Size>)
    requires ValidPanels(ps) != []
    ensures var d := PlannedDownloads(Combined(l), ps, load);
      |d| <= 1 && (|d| == 1 <==> forall i :: 0 <= i < |ValidPanels(ps)| ==>
                                    load(UrlOf(ValidPanels(ps)[i])).Some?)
    ensures var d := PlannedDownloads(Combined(l), ps, load);
      var vps := ValidPanels(ps);
      |d| == 1 ==>
        var s := load(UrlOf(vps[0])).value;
        && d[0].filename == ComicFileName(l)
        && d[0].canvas.width == CanvasWidth(l, s.width)
        && d[0].canvas.height == CanvasHeight(l, s.height)
        && |d[0].canvas.cells| == |vps|
        && forall i :: 0 <= i < |vps| ==> d[0].canvas.cells[i] == CellAt(l, s.width, s.height, i, vps[i])
  {
    var vps := ValidPanels(ps);
    var urls := ImagesOf(vps);
    assert forall i :: 0 <= i < |vps| ==> urls[i] == UrlOf(vps[i]);
  }

  /** The `forEach` of the individual download: one single-image vertical composite per
      selected panel, named after its position. */
  method RenderIndividual(vps: seq<Panel>, load: string -> Option<Size>) returns (files: seq<Download>)
    ensures files == IndividualDownloads(vps, load)
  {
    files := [];
    var i := 0;
    while i < |vps|
      invariant 0 <= i <= |vps|
      invariant files == IndividualDownloads(vps[..i], load)
    {
      var p := vps[i];
      var canvas := CreateCombinedImage([UrlOf(p)], Vertical, [p], load);
      assert vps[..i + 1][..i] == vps[..i];
      if canvas.Success? {
        files := files + [Download(PanelFileName(i + 1), canvas.value)];
      }
      i := i + 1;
    }
    assert vps[..i] == vps;
  }

  /** The combined download: one sheet of every selected image over its own panel. */
  method RenderCombined(l: Layout, vps: seq<Panel>, load: string -> Option<Size>) returns (files: seq<Download>)
    ensures files == CombinedDownloads(l, vps, load)
  {
    var canvas := CreateCombinedImage(ImagesOf(vps), l, vps, load);
    files := [];
    if canvas.Success? {
      files := [Download(ComicFileName(l), canvas.value)];
    }
  }

  /** The screen's own state and the files it has handed to the browser so far. */
  class Step4Comic {
    var isSaving: bool
    var downloads: seq<Download>

    constructor ()
      ensures !isSaving && downloads == []
    {
      isSaving := false;
      downloads := [];
    }

    /** handleDownload: the saving flag is up while the files are produced and down
        again on every path, the empty early return included. */
    method HandleDownload(kind: DownloadKind, panels: seq<Panel>, load: string -> Option<Size>)
      modifies this
      ensures downloads == old(downloads) + PlannedDownloads(kind, panels, load)
      ensures !isSaving
    {
      isSaving := true;
      var validPanels := ValidPanels(panels);
      var images := ImagesOf(validPanels);
      if |images| == 0 {
        isSaving := false;
        return;
      }
      var files;
      if kind.Individual? {
        files := RenderIndividual(validPanels, load);
      } else {
        files := RenderCombined(kind.layout, validPanels, load);
      }
      downloads := downloads + files;
      isSaving := false;
    }
  }
}
