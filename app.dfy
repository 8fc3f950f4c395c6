/**
 * `PDFViewerApp`: the page the user is on, the chosen scale, the list of marked
 * texts, and the toolbar state that `updateUI` keeps in step with them. What
 * the browser supplies (the selection, the parsed inputs, the container size,
 * the clock) arrives as parameters.
 */
module App {
  import opened Wrappers
  import opened Chars
  import opened Selection
  import opened Zoom
  import opened TextLayer
  import opened PageView
  import opened Viewer

  /** `MarkedText`; `Date.now().toString()` and `new Date()` are passed in as `id` and `timestamp`. */
  datatype MarkedText = MarkedText(id: string, content: string, pageNumber: int, timestamp: int)

  /** The zoom select's value: 'auto', 'page-fit', or any other text, with `parseFloat`'s result (`None` for NaN). */
  datatype ZoomChoice = AutoFit | PageFit | ScaleText(parsed: Option<real>)

  /** Observable state: the app's own fields, the toolbar, and the viewer's page number and scale when the viewer exists. */
  datatype AppState = AppState(
    document: Option<DocumentHandle>,
    page: int,
    scale: real,
    marks: seq<MarkedText>,
    pageInput: int,
    totalPages: int,
    prevDisabled: bool,
    nextDisabled: bool,
    viewerPage: Option<int>,
    viewerScale: Option<real>)

  function PageCount(doc: Option<DocumentHandle>): nat {
    if doc.Some? then |doc.value.pages| else 0
  }

  /** `this.pdfDocument?.numPages || 1`: one when there is no document or it has no pages. */
  function TotalPagesShown(doc: Option<DocumentHandle>): (r: int)
    ensures r >= 1
    ensures r == 1 || r == PageCount(doc)
    ensures PageCount(doc) >= 1 ==> r == PageCount(doc)
  {
    if PageCount(doc) == 0 then 1 else PageCount(doc)
  }

  /** The page number lies between 1 and the number of pages shown, which is 1 without a document. */
  ghost predicate PageInRange(s: AppState) {
    1 <= s.page <= TotalPagesShown(s.document)
  }

  /** The toolbar shows what `updateUI` would show now. */
  ghost predicate ToolbarInStep(s: AppState) {
    && s.pageInput == s.page
    && s.totalPages == TotalPagesShown(s.document)
    && s.prevDisabled == (s.page <= 1)
    && s.nextDisabled == (s.document.None? || s.page >= PageCount(s.document))
  }

  ghost function UpdateUIModel(s: AppState): AppState {
    s.(pageInput := s.page, totalPages := TotalPagesShown(s.document),
       prevDisabled := s.page <= 1,
       nextDisabled := s.document.None? || s.page >= PageCount(s.document))
  }

  /** `goToPage(n)`: only with a viewer; it sets the viewer's and the app's page and refreshes the toolbar, and draws nothing. */
  ghost function GoToModel(s: AppState, n: int): AppState {
    if s.viewerPage.None? then s
    else UpdateUIModel(s.(viewerPage := Some(n), page := n))
  }

  ghost function PreviousModel(s: AppState): AppState {
    if s.page > 1 then GoToModel(s.(page := s.page - 1), s.page - 1) else s
  }

  ghost function NextModel(s: AppState): AppState {
    if s.document.Some? && s.page < PageCount(s.document) then GoToModel(s.(page := s.page + 1), s.page + 1) else s
  }

  /** `handlePageInput` with `parseInt`'s result (`None` for NaN). */
  ghost function PageInputModel(s: AppState, parsed: Option<int>): AppState {
    if s.document.Some? && parsed.Some? && 1 <= parsed.value <= PageCount(s.document)
    then GoToModel(s, parsed.value)
    else s.(pageInput := s.page)
  }

  ghost function SetZoomModel(s: AppState, scale: real): AppState {
    s.(scale := scale, viewerScale := if s.viewerScale.Some? then Some(scale) else None)
  }

  /** `fitToWidth` and `fitToPage` do nothing without a viewer and a document. */
  ghost function FitModel(s: AppState, scale: real): AppState {
    if s.viewerScale.None? || s.document.None? then s else SetZoomModel(s, scale)
  }

  ghost function ZoomSelectModel(s: AppState, choice: ZoomChoice, clientWidth: int, clientHeight: int): AppState {
    match choice
    case AutoFit => FitModel(s, FitToWidthScale(clientWidth))
    case PageFit => FitModel(s, FitToPageScale(clientWidth, clientHeight))
    case ScaleText(parsed) => if parsed.Some? then SetZoomModel(s, parsed.value) else s
  }

  /** The scale a zoom-select choice hands the viewer; `None` when the choice does nothing. */
  ghost function SelectedScale(s: AppState, choice: ZoomChoice, clientWidth: int, clientHeight: int): Option<real> {
    match choice
    case AutoFit => if s.viewerScale.None? || s.document.None? then None else Some(FitToWidthScale(clientWidth))
    case PageFit => if s.viewerScale.None? || s.document.None? then None else Some(FitToPageScale(clientWidth, clientHeight))
    case ScaleText(parsed) => parsed
  }

  /**
   * `loadPDF` once the file is parsed: the document is kept; with a viewer the app
   * goes back to page 1 and refreshes the toolbar, but the viewer's own page
   * number is left as it was.
   */
  ghost function LoadModel(s: AppState, doc: DocumentHandle): AppState {
    var s1 := s.(document := Some(doc));
    if s.viewerPage.None? then s1 else UpdateUIModel(s1.(page := 1))
  }

  /** As `LoadModel`, and the viewer goes back to page 1 as well. */
  ghost function LoadFromFirstPageModel(s: AppState, doc: DocumentHandle): AppState {
    var s1 := s.(document := Some(doc));
    if s.viewerPage.None? then s1 else UpdateUIModel(s1.(page := 1, viewerPage := Some(1)))
  }

  /** The first marked text with this id, as `Array.prototype.find`; -1 when there is none. */
  function FirstWithId(marks: seq<MarkedText>, id: string): (i: int)
    ensures -1 <= i < |marks|
    ensures i == -1 <==> forall k :: 0 <= k < |marks| ==> marks[k].id != id
    ensures 0 <= i ==> marks[i].id == id && forall j :: 0 <= j < i ==> marks[j].id != id
  {
    if marks == [] then -1
    else if marks[0].id == id then 0
    else
      var i := FirstWithId(marks[1..], id);
      if i == -1 then -1 else i + 1
  }

  // Properties of the navigation, zoom and marking models.

  /** Every navigation step keeps the page number between 1 and the page count. */
  lemma NavigationKeepsRange(s: AppState, parsed: Option<int>)
    requires PageInRange(s)
    ensures PageInRange(PreviousModel(s))
    ensures PageInRange(NextModel(s))
    ensures PageInRange(PageInputModel(s, parsed))
  {
  }

  /** With a viewer, every navigation step leaves the toolbar in step and the viewer on the app's page. */
  lemma NavigationKeepsToolbar(s: AppState, parsed: Option<int>)
    requires s.viewerPage.Some? && ToolbarInStep(s) && s.viewerPage == Some(s.page)
    ensures var p := PreviousModel(s); ToolbarInStep(p) && p.viewerPage == Some(p.page)
    ensures var n := NextModel(s); ToolbarInStep(n) && n.viewerPage == Some(n.page)
    ensures var q := PageInputModel(s, parsed); ToolbarInStep(q) && q.viewerPage == Some(q.page)
  {
  }

  /** The toolbar's buttons are disabled exactly where the matching step would do nothing. */
  lemma DisabledButtonsAreNoOps(s: AppState)
    requires ToolbarInStep(s) && s.viewerPage.Some?
    ensures s.prevDisabled <==> PreviousModel(s) == s
    ensures s.nextDisabled <==> NextModel(s).page == s.page
  {
  }

  /** Going back and then forward, or forward and then back, returns to the same page. */
  lemma {:induction false} PreviousNextRoundTrip(s: AppState)
    requires PageInRange(s) && s.document.Some? && s.viewerPage.Some?
    ensures s.page > 1 ==> NextModel(PreviousModel(s)).page == s.page
    ensures s.page < PageCount(s.document) ==> PreviousModel(NextModel(s)).page == s.page
  {
    if s.page > 1 {
      var p := PreviousModel(s);
      assert p.page == s.page - 1 && p.document == s.document && p.viewerPage.Some?;
    }
    if s.page < PageCount(s.document) {
      var n := NextModel(s);
      assert n.page == s.page + 1 && n.page > 1;
    }
  }

  /** A typed page number moves to that page exactly when it is a page of the loaded document and a viewer exists. */
  lemma PageInputMovesIff(s: AppState, parsed: Option<int>)
    ensures var q := PageInputModel(s, parsed);
            && (q.page != s.page ==> s.viewerPage.Some? && parsed == Some(q.page) && 1 <= q.page <= PageCount(s.document))
            && ((s.viewerPage.Some? && s.document.Some? && parsed.Some? && 1 <= parsed.value <= PageCount(s.document))
                  ==> q.page == parsed.value && q.pageInput == parsed.value)
            && (!(s.document.Some? && parsed.Some? && 1 <= parsed.value <= PageCount(s.document)) ==>
                  q == s.(pageInput := s.page))
  {
  }

  /** Zooming in, zooming out and fitting keep a scale in range, and the viewer follows the app's scale. */
  lemma ZoomKeepsRange(s: AppState, choice: ZoomChoice, clientWidth: int, clientHeight: int)
    requires InRange(s.scale) && (s.viewerScale.Some? ==> s.viewerScale == Some(s.scale))
    requires choice.ScaleText? ==> choice.parsed.None? || InRange(choice.parsed.value)
    ensures var z := SetZoomModel(s, ZoomInScale(s.scale)); InRange(z.scale) && (z.viewerScale.Some? ==> z.viewerScale == Some(z.scale))
    ensures var z := SetZoomModel(s, ZoomOutScale(s.scale)); InRange(z.scale) && (z.viewerScale.Some? ==> z.viewerScale == Some(z.scale))
    ensures var z := ZoomSelectModel(s, choice, clientWidth, clientHeight);
            InRange(z.scale) && (z.viewerScale.Some? ==> z.viewerScale == Some(z.scale))
    ensures choice == ScaleText(None) ==> ZoomSelectModel(s, choice, clientWidth, clientHeight) == s
  {
  }

  /** A zoom-select choice hands the viewer a scale exactly when it changes the app's scale, and then it is that scale. */
  lemma ZoomSelectFollowsScale(s: AppState, choice: ZoomChoice, clientWidth: int, clientHeight: int)
    ensures SelectedScale(s, choice, clientWidth, clientHeight).None? ==> ZoomSelectModel(s, choice, clientWidth, clientHeight) == s
    ensures SelectedScale(s, choice, clientWidth, clientHeight).Some? ==>
              ZoomSelectModel(s, choice, clientWidth, clientHeight) ==
                SetZoomModel(s, SelectedScale(s, choice, clientWidth, clientHeight).value)
  {
  }

  /** A text marked with an id no earlier mark has is what copying that id finds. */
  lemma FindAfterAdd(marks: seq<MarkedText>, m: MarkedText)
    requires forall k :: 0 <= k < |marks| ==> marks[k].id != m.id
    ensures FirstWithId(marks + [m], m.id) == |marks|
  {
    var ms := marks + [m];
    assert ms[|marks|].id == m.id;
  }

  /** Adding a mark never changes which mark an id already present finds. */
  lemma FindStableUnderAdd(marks: seq<MarkedText>, m: MarkedText, id: string)
    requires FirstWithId(marks, id) >= 0
    ensures FirstWithId(marks + [m], id) == FirstWithId(marks, id)
  {
    var i := FirstWithId(marks, id);
    var j := FirstWithId(marks + [m], id);
    assert (marks + [m])[i] == marks[i];
  }

  /** After loading, the app shows page 1 and its toolbar is in step, with or without a viewer's help. */
  lemma LoadResetsPage(s: AppState, doc: DocumentHandle)
    requires s.viewerPage.Some?
    ensures var l := LoadModel(s, doc); l.page == 1 && ToolbarInStep(l) && PageInRange(l)
    ensures var l := LoadFromFirstPageModel(s, doc); l.page == 1 && ToolbarInStep(l) && l.viewerPage == Some(1)
  {
  }

  /**
   * As written, page 5 of a first document followed by loading a three-page one
   * shows page 1 in the toolbar while the viewer is still on page 5, so the page
   * views `setDocument` leaves (from the viewer's own page number, as `LoadDocument`
   * ensures) are all undrawn.
   */
  lemma StaleViewerPageOnLoad(s: AppState, doc: DocumentHandle, ps: seq<PDFPageView>, R: set<object>,
                              scale: real, rotation: int, hasFactory: bool, flags: DisplayFlags)
    requires s.viewerPage == Some(5) && s.page == 5 && |doc.pages| == 3
    requires PagesValid(ps, R) && |ps| == |doc.pages|
    requires SetUpFrom(ps, R, doc, scale, rotation, hasFactory, s.viewerPage.value, flags)
    ensures LoadModel(s, doc).page == 1 && LoadModel(s, doc).viewerPage == Some(5)
    ensures forall k :: 0 <= k < |ps| ==> ps[k].State().renderingState == NOT_RENDERED
  {
    SetUpDrawsOnlyCurrent(ps, R, doc, scale, rotation, hasFactory, s.viewerPage.value, flags);
  }

  /**
   * With the viewer reset as well, loading a non-empty document draws page 1, the
   * page the toolbar shows, and no other; it finishes exactly when that page renders
   * and, with a factory, yields its text.
   */
  lemma LoadFromFirstPageDrawsFirst(s: AppState, doc: DocumentHandle, ps: seq<PDFPageView>, R: set<object>,
                                    scale: real, rotation: int, hasFactory: bool, flags: DisplayFlags)
    requires s.viewerPage.Some? && |doc.pages| >= 1
    requires PagesValid(ps, R) && |ps| == |doc.pages|
    requires SetUpFrom(ps, R, doc, scale, rotation, hasFactory, LoadFromFirstPageModel(s, doc).viewerPage.value, flags)
    ensures LoadFromFirstPageModel(s, doc).page == 1 && LoadFromFirstPageModel(s, doc).viewerPage == Some(1)
    ensures ps[0].State().renderingState != NOT_RENDERED
    ensures ps[0].State().renderingState == FINISHED <==>
              doc.pages[0].renders && (hasFactory ==> doc.pages[0].textContent.Some?)
    ensures forall k :: 1 <= k < |ps| ==> ps[k].State().renderingState == NOT_RENDERED
  {
    SetUpDrawsOnlyCurrent(ps, R, doc, scale, rotation, hasFactory, 1, flags);
    SetupPageDrawn(1, scale, rotation, hasFactory, doc.pages[0], flags);
  }

  class PDFViewerApp {
    var pdfDocument: Option<DocumentHandle>
    /** The viewer, created once at start-up when `SimplePDFViewer` is available. */
    const pdfViewer: SimplePDFViewer?
    var currentPageNumber: int
    var currentScale: real
    var markedTexts: seq<MarkedText>
    /** The toolbar: `pageInput.value`, `totalPages.textContent`, and the two buttons' `disabled`. */
    var pageInputValue: int
    var totalPagesShown: int
    var prevDisabled: bool
    var nextDisabled: bool

    /** The objects the viewer owns: itself, its page views and their text layers. */
    ghost function ViewerRepr(): set<object>
      reads pdfViewer
    {
      if pdfViewer == null then {} else pdfViewer.Repr
    }

    ghost predicate Valid()
      reads this, pdfViewer, ViewerRepr()
    {
      && 1 <= currentPageNumber
      && (pdfViewer != null ==>
            && this !in pdfViewer.Repr && pdfViewer.Valid() && pdfViewer.pdfDocument == pdfDocument)
    }

    ghost function State(): AppState
      reads this, pdfViewer
    {
      AppState(pdfDocument, currentPageNumber, currentScale, markedTexts,
               pageInputValue, totalPagesShown, prevDisabled, nextDisabled,
               if pdfViewer == null then None else Some(pdfViewer.currentPageNumber),
               if pdfViewer == null then None else Some(pdfViewer.currentScale))
    }

    /** The app as the constructor leaves it; without `SimplePDFViewer` loaded there is no viewer. */
    constructor(viewerAvailable: bool)
      ensures Valid() && fresh(ViewerRepr())
      ensures (pdfViewer != null) == viewerAvailable
      ensures var s := State();
              && s.document.None? && s.page == 1 && s.scale == 1.0 && s.marks == []
              && ToolbarInStep(s) && PageInRange(s)
              && (viewerAvailable ==> s.viewerPage == Some(1) && s.viewerScale == Some(1.0))
    {
      pdfDocument := None;
      currentPageNumber := 1;
      currentScale := 1.0;
      markedTexts := [];
      if viewerAvailable {
        var factory := new TextLayerFactory();
        pdfViewer := new SimplePDFViewer(factory);
      } else {
        pdfViewer := null;
      }
      pageInputValue := 1;
      totalPagesShown := 1;
      prevDisabled := true;
      nextDisabled := true;
    }

    method UpdateUI()
      modifies this
      ensures old(Valid()) ==> Valid()
      ensures State() == UpdateUIModel(old(State()))
      ensures ToolbarInStep(State())
    {
      pageInputValue := currentPageNumber;
      totalPagesShown := TotalPagesShown(pdfDocument);
      prevDisabled := currentPageNumber <= 1;
      nextDisabled := pdfDocument.None? || currentPageNumber >= PageCount(pdfDocument);
    }

    /**
     * `handleTextSelection`. The outcome is the gate's verdict on the trimmed text,
     * `clearing` says when the selection is removed, and a marked text is appended
     * with the current page number.
     */
    method HandleTextSelection(collapsed: bool, rawText: string, inTextLayer: bool, containersDiffer: bool,
                               id: string, timestamp: int) returns (outcome: SelectionOutcome, clearing: Clearing)
      requires Valid()
      modifies this
      ensures Valid()
      ensures outcome == GateSelection(collapsed, Trim(rawText), inTextLayer, currentScale, containersDiffer)
      ensures clearing == ClearingOf(outcome)
      ensures State() == old(State()).(marks := old(markedTexts)
                + if outcome == Marked then [MarkedText(id, Trim(rawText), currentPageNumber, timestamp)] else [])
    {
      if collapsed {
        return NoSelection, KeepSelection;
      }
      var text := Trim(rawText);
      outcome := GateSelection(false, text, inTextLayer, currentScale, containersDiffer);
      clearing := ClearingOf(outcome);
      if outcome == Marked {
        AddMarkedText(text, id, timestamp);
      }
    }

    method AddMarkedText(content: string, id: string, timestamp: int)
      requires Valid()
      modifies this
      ensures Valid()
      ensures State() == old(State()).(marks := old(markedTexts) + [MarkedText(id, content, currentPageNumber, timestamp)])
    {
      markedTexts := markedTexts + [MarkedText(id, content, currentPageNumber, timestamp)];
    }

    /** `copyText(id)`: the content of the first mark with that id, which is what goes to the clipboard. */
    method CopyText(id: string) returns (copied: Option<string>)
      ensures copied.None? <==> forall k :: 0 <= k < |markedTexts| ==> markedTexts[k].id != id
      ensures copied.Some? ==> copied.value == markedTexts[FirstWithId(markedTexts, id)].content
    {
      var k := 0;
      while k < |markedTexts|
        invariant 0 <= k <= |markedTexts|
        invariant forall j :: 0 <= j < k ==> markedTexts[j].id != id
      {
        if markedTexts[k].id == id {
          return Some(markedTexts[k].content);
        }
        k := k + 1;
      }
      return None;
    }

    method ClearMarkedTexts()
      requires Valid()
      modifies this
      ensures Valid()
      ensures State() == old(State()).(marks := [])
    {
      markedTexts := [];
    }

    method GoToPage(n: int)
      requires Valid() && n >= 1
      modifies this, pdfViewer
      ensures Valid()
      ensures State() == GoToModel(old(State()), n)
      ensures pdfViewer != null ==>
                && pdfViewer.pages == old(pdfViewer.pages) && pdfViewer.Repr == old(pdfViewer.Repr)
                && pdfViewer.currentScale == old(pdfViewer.currentScale) && pdfViewer.pagesRotation == old(pdfViewer.pagesRotation)
                && pdfViewer.PageStates() == old(pdfViewer.PageStates())
    {
      if pdfViewer != null {
        pdfViewer.currentPageNumber := n;
        currentPageNumber := n;
        UpdateUI();
      }
    }

    method PreviousPage()
      requires Valid()
      modifies this, pdfViewer
      ensures Valid()
      ensures State() == PreviousModel(old(State()))
      ensures pdfViewer != null ==>
                && pdfViewer.pages == old(pdfViewer.pages) && pdfViewer.Repr == old(pdfViewer.Repr)
                && pdfViewer.currentScale == old(pdfViewer.currentScale) && pdfViewer.pagesRotation == old(pdfViewer.pagesRotation)
                && pdfViewer.PageStates() == old(pdfViewer.PageStates())
    {
      if currentPageNumber > 1 {
        currentPageNumber := currentPageNumber - 1;
        GoToPage(currentPageNumber);
      }
    }

    method NextPage()
      requires Valid()
      modifies this, pdfViewer
      ensures Valid()
      ensures State() == NextModel(old(State()))
      ensures pdfViewer != null ==>
                && pdfViewer.pages == old(pdfViewer.pages) && pdfViewer.Repr == old(pdfViewer.Repr)
                && pdfViewer.currentScale == old(pdfViewer.currentScale) && pdfViewer.pagesRotation == old(pdfViewer.pagesRotation)
                && pdfViewer.PageStates() == old(pdfViewer.PageStates())
    {
      if pdfDocument.Some? && currentPageNumber < PageCount(pdfDocument) {
        currentPageNumber := currentPageNumber + 1;
        GoToPage(currentPageNumber);
      }
    }

    method HandlePageInput(parsed: Option<int>)
      requires Valid()
      modifies this, pdfViewer
      ensures Valid()
      ensures State() == PageInputModel(old(State()), parsed)
      ensures pdfViewer != null ==>
                && pdfViewer.pages == old(pdfViewer.pages) && pdfViewer.Repr == old(pdfViewer.Repr)
                && pdfViewer.currentScale == old(pdfViewer.currentScale) && pdfViewer.pagesRotation == old(pdfViewer.pagesRotation)
                && pdfViewer.PageStates() == old(pdfViewer.PageStates())
    {
      if pdfDocument.Some? && parsed.Some? && 1 <= parsed.value <= PageCount(pdfDocument) {
        GoToPage(parsed.value);
      } else {
        pageInputValue := currentPageNumber;
      }
    }

    /** `setZoom`: the app takes the scale and hands it to the viewer, which redraws its pages in order. */
    method SetZoom(scale: real, clientWidth: int, flags: DisplayFlags) returns (ghost failedAt: Option<nat>)
      requires Valid()
      modifies this, ViewerRepr()
      ensures Valid() && fresh(ViewerRepr() - old(ViewerRepr()))
      ensures State() == SetZoomModel(old(State()), scale)
      ensures pdfViewer != null ==>
                RedrawnFrom(old(pdfViewer.PageStates()), pdfViewer.PageStates(), scale, pdfViewer.pagesRotation, flags, failedAt)
    {
      failedAt := None;
      currentScale := scale;
      if pdfViewer != null {
        failedAt := pdfViewer.SetCurrentScaleValue(NumberValue(scale), clientWidth, flags);
      }
    }

    method ZoomIn(clientWidth: int, flags: DisplayFlags) returns (ghost failedAt: Option<nat>)
      requires Valid()
      modifies this, ViewerRepr()
      ensures Valid() && fresh(ViewerRepr() - old(ViewerRepr()))
      ensures State() == SetZoomModel(old(State()), ZoomInScale(old(currentScale)))
      ensures pdfViewer != null ==>
                RedrawnFrom(old(pdfViewer.PageStates()), pdfViewer.PageStates(), ZoomInScale(old(currentScale)), pdfViewer.pagesRotation, flags, failedAt)
    {
      failedAt := SetZoom(ZoomInScale(currentScale), clientWidth, flags);
    }

    method ZoomOut(clientWidth: int, flags: DisplayFlags) returns (ghost failedAt: Option<nat>)
      requires Valid()
      modifies this, ViewerRepr()
      ensures Valid() && fresh(ViewerRepr() - old(ViewerRepr()))
      ensures State() == SetZoomModel(old(State()), ZoomOutScale(old(currentScale)))
      ensures pdfViewer != null ==>
                RedrawnFrom(old(pdfViewer.PageStates()), pdfViewer.PageStates(), ZoomOutScale(old(currentScale)), pdfViewer.pagesRotation, flags, failedAt)
    {
      failedAt := SetZoom(ZoomOutScale(currentScale), clientWidth, flags);
    }

    method FitToWidth(clientWidth: int, flags: DisplayFlags) returns (ghost failedAt: Option<nat>)
      requires Valid()
      modifies this, ViewerRepr()
      ensures Valid() && fresh(ViewerRepr() - old(ViewerRepr()))
      ensures State() == FitModel(old(State()), FitToWidthScale(clientWidth))
      ensures pdfViewer != null && pdfDocument.Some? ==>
                RedrawnFrom(old(pdfViewer.PageStates()), pdfViewer.PageStates(), FitToWidthScale(clientWidth), pdfViewer.pagesRotation, flags, failedAt)
      ensures pdfViewer != null && pdfDocument.None? ==> pdfViewer.PageStates() == old(pdfViewer.PageStates())
    {
      if pdfViewer == null || pdfDocument.None? {
        return None;
      }
      failedAt := SetZoom(FitToWidthScale(clientWidth), clientWidth, flags);
    }

    method FitToPage(clientWidth: int, clientHeight: int, flags: DisplayFlags) returns (ghost failedAt: Option<nat>)
      requires Valid()
      modifies this, ViewerRepr()
      ensures Valid() && fresh(ViewerRepr() - old(ViewerRepr()))
      ensures State() == FitModel(old(State()), FitToPageScale(clientWidth, clientHeight))
      ensures pdfViewer != null && pdfDocument.Some? ==>
                RedrawnFrom(old(pdfViewer.PageStates()), pdfViewer.PageStates(), FitToPageScale(clientWidth, clientHeight), pdfViewer.pagesRotation, flags, failedAt)
      ensures pdfViewer != null && pdfDocument.None? ==> pdfViewer.PageStates() == old(pdfViewer.PageStates())
    {
      if pdfViewer == null || pdfDocument.None? {
        return None;
      }
      failedAt := SetZoom(FitToPageScale(clientWidth, clientHeight), clientWidth, flags);
    }

    method HandleZoomSelect(choice: ZoomChoice, clientWidth: int, clientHeight: int, flags: DisplayFlags)
      returns (ghost failedAt: Option<nat>)
      requires Valid()
      modifies this, ViewerRepr()
      ensures Valid() && fresh(ViewerRepr() - old(ViewerRepr()))
      ensures State() == ZoomSelectModel(old(State()), choice, clientWidth, clientHeight)
      ensures pdfViewer != null ==>
                var z := SelectedScale(old(State()), choice, clientWidth, clientHeight);
                if z.Some? then RedrawnFrom(old(pdfViewer.PageStates()), pdfViewer.PageStates(), z.value, pdfViewer.pagesRotation, flags, failedAt)
                else pdfViewer.PageStates() == old(pdfViewer.PageStates())
    {
      match choice {
        case AutoFit =>
          failedAt := FitToWidth(clientWidth, flags);
        case PageFit =>
          failedAt := FitToPage(clientWidth, clientHeight, flags);
        case ScaleText(parsed) =>
          if parsed.Some? {
            failedAt := SetZoom(parsed.value, clientWidth, flags);
          } else {
            failedAt := None;
          }
      }
    }

    /** `recalculateTextLayer`: with a viewer and a document, the viewer takes the current scale again and redraws. */
    method RecalculateTextLayer(clientWidth: int, flags: DisplayFlags) returns (recalculated: bool, ghost failedAt: Option<nat>)
      requires Valid()
      modifies ViewerRepr()
      ensures Valid() && fresh(ViewerRepr() - old(ViewerRepr()))
      ensures recalculated == (pdfViewer != null && pdfDocument.Some?)
      ensures State() == old(State()).(viewerScale := if recalculated then Some(currentScale) else old(State()).viewerScale)
      ensures recalculated ==>
                RedrawnFrom(old(pdfViewer.PageStates()), pdfViewer.PageStates(), currentScale, pdfViewer.pagesRotation, flags, failedAt)
      ensures !recalculated && pdfViewer != null ==>
                pdfViewer.pages == old(pdfViewer.pages) && pdfViewer.PageStates() == old(pdfViewer.PageStates())
    {
      if pdfViewer != null && pdfDocument.Some? {
        failedAt := pdfViewer.SetCurrentScaleValue(NumberValue(currentScale), clientWidth, flags);
        recalculated := true;
      } else {
        recalculated, failedAt := false, None;
      }
    }

    /**
     * `loadPDF` once the file has been read: `None` when parsing fails (only an error
     * is shown). With a viewer, `setDocument` sets every page up, drawing the page the
     * viewer was on, and the app goes back to page 1.
     */
    method LoadDocument(parsed: Option<DocumentHandle>, flags: DisplayFlags)
      requires Valid()
      modifies this, ViewerRepr()
      ensures Valid() && fresh(ViewerRepr() - old(ViewerRepr()))
      ensures parsed.None? ==> State() == old(State())
      ensures parsed.None? && pdfViewer != null ==>
                pdfViewer.pages == old(pdfViewer.pages) && pdfViewer.PageStates() == old(pdfViewer.PageStates())
      ensures parsed.Some? ==> State() == LoadModel(old(State()), parsed.value)
      ensures parsed.Some? && pdfViewer != null ==>
                SetUpFrom(pdfViewer.pages, pdfViewer.Repr - {pdfViewer}, parsed.value, pdfViewer.currentScale, pdfViewer.pagesRotation,
                          pdfViewer.textLayerFactory != null, old(pdfViewer.currentPageNumber), flags)
      ensures parsed.Some? && pdfViewer != null ==>
                && |pdfViewer.pages| == |parsed.value.pages|
                && forall k :: 0 <= k < |pdfViewer.pages| ==>
                     (pdfViewer.pages[k].State().renderingState != NOT_RENDERED <==> k + 1 == old(pdfViewer.currentPageNumber))
    {
      if parsed.None? {
        return;
      }
      var doc := parsed.value;
      pdfDocument := Some(doc);
      if pdfViewer != null {
        // The viewer sets its pages up only after each `getPage` settles, so the app has
        // reset its own page number and toolbar before any page is drawn; none of that is
        // read by the viewer, which draws the page its own page number names.
        currentPageNumber := 1;
        UpdateUI();
        pdfViewer.SetDocument(doc, flags);
        SetUpDrawsOnlyCurrent(pdfViewer.pages, pdfViewer.Repr - {pdfViewer}, doc, pdfViewer.currentScale, pdfViewer.pagesRotation,
                              pdfViewer.textLayerFactory != null, pdfViewer.currentPageNumber, flags);
      }
    }

    /** `loadPDF` with the viewer also set back to page 1 before `setDocument`, so that page 1 is the page drawn. */
    method LoadDocumentFromFirstPage(parsed: Option<DocumentHandle>, flags: DisplayFlags)
      requires Valid()
      modifies this, ViewerRepr()
      ensures Valid() && fresh(ViewerRepr() - old(ViewerRepr()))
      ensures parsed.None? ==> State() == old(State())
      ensures parsed.None? && pdfViewer != null ==>
                pdfViewer.pages == old(pdfViewer.pages) && pdfViewer.PageStates() == old(pdfViewer.PageStates())
      ensures parsed.Some? ==> State() == LoadFromFirstPageModel(old(State()), parsed.value)
      ensures parsed.Some? && pdfViewer != null ==>
                SetUpFrom(pdfViewer.pages, pdfViewer.Repr - {pdfViewer}, parsed.value, pdfViewer.currentScale, pdfViewer.pagesRotation,
                          pdfViewer.textLayerFactory != null, 1, flags)
      ensures parsed.Some? && pdfViewer != null ==>
                && |pdfViewer.pages| == |parsed.value.pages|
                && forall k :: 0 <= k < |pdfViewer.pages| ==> (pdfViewer.pages[k].State().renderingState != NOT_RENDERED <==> k == 0)
    {
      if parsed.None? {
        return;
      }
      var doc := parsed.value;
      pdfDocument := Some(doc);
      if pdfViewer != null {
        currentPageNumber := 1;
        UpdateUI();
        pdfViewer.currentPageNumber := 1;
        pdfViewer.SetDocument(doc, flags);
        SetUpDrawsOnlyCurrent(pdfViewer.pages, pdfViewer.Repr - {pdfViewer}, doc, pdfViewer.currentScale, pdfViewer.pagesRotation,
                              pdfViewer.textLayerFactory != null, 1, flags);
      }
    }
  }
}
