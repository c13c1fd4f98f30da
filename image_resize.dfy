/**
 * Click-to-select image resizing: an overlay with eight drag handles and a
 * toolbar (alignment, remove, caption) shown around the active image.
 */
module ImageResize {
  import opened Wrappers
  import opened Text
  import opened Document

  const MIN_SIZE: real := 48.0
  const HANDLE_OFFSET: real := 6.0
  const TOOLBAR_OFFSET: real := 8.0

  /** Identity of an image element in the editor's DOM. */
  type ImageId = nat

  datatype Direction = N | S | E | W | NE | NW | SE | SW

  /** The handles, in the order they are created. */
  const HANDLE_DIRECTIONS: seq<Direction> := [NW, N, NE, E, SE, S, SW, W]

  /** `direction.includes('e')` and its three companions. */
  predicate NamesEast(d: Direction) { d == E || d == NE || d == SE }
  predicate NamesWest(d: Direction) { d == W || d == NW || d == SW }
  predicate NamesSouth(d: Direction) { d == S || d == SE || d == SW }
  predicate NamesNorth(d: Direction) { d == N || d == NE || d == NW }

  // ---------------------------------------------------------------------
  // Resize arithmetic
  // ---------------------------------------------------------------------

  /** The size of one axis before limits: grown by the drag, shrunk by it, or kept. */
  function AxisSize(start: real, delta: real, grows: bool, shrinks: bool): real {
    if grows then start + delta else if shrinks then start - delta else start
  }

  /**
   * The size a drag produces: each named axis follows the mouse, both are
   * floored at 48, then the width is capped at the editor width when that is
   * positive.
   */
  function ResizedSize(d: Direction, startWidth: real, startHeight: real, dx: real, dy: real, editorWidth: real): (real, real) {
    var w := MaxR(MIN_SIZE, AxisSize(startWidth, dx, NamesEast(d), NamesWest(d)));
    var h := MaxR(MIN_SIZE, AxisSize(startHeight, dy, NamesSouth(d), NamesNorth(d)));
    (if editorWidth > 0.0 then MinR(w, editorWidth) else w, h)
  }

  /**
   * The limits every drag respects; a named axis follows the mouse (east and
   * south grow with it, west and north shrink) while that stays within the
   * limits, and an axis the handle does not name keeps its size.
   */
  lemma ResizeBounds(d: Direction, startWidth: real, startHeight: real, dx: real, dy: real, editorWidth: real)
    ensures var (w, h) := ResizedSize(d, startWidth, startHeight, dx, dy, editorWidth);
      && h >= MIN_SIZE
      && (editorWidth > 0.0 ==> w <= editorWidth)
      && (editorWidth <= 0.0 || editorWidth >= MIN_SIZE ==> w >= MIN_SIZE)
      && (w < MIN_SIZE ==> w == editorWidth)
      && (!NamesEast(d) && !NamesWest(d) && startWidth >= MIN_SIZE && (editorWidth <= 0.0 || startWidth <= editorWidth) ==> w == startWidth)
      && (!NamesNorth(d) && !NamesSouth(d) && startHeight >= MIN_SIZE ==> h == startHeight)
      && (NamesEast(d) && MIN_SIZE <= startWidth + dx && (editorWidth <= 0.0 || startWidth + dx <= editorWidth) ==> w == startWidth + dx)
      && (NamesWest(d) && MIN_SIZE <= startWidth - dx && (editorWidth <= 0.0 || startWidth - dx <= editorWidth) ==> w == startWidth - dx)
      && (NamesEast(d) && startWidth + dx < MIN_SIZE && (editorWidth <= 0.0 || editorWidth >= MIN_SIZE) ==> w == MIN_SIZE)
      && (NamesWest(d) && startWidth - dx < MIN_SIZE && (editorWidth <= 0.0 || editorWidth >= MIN_SIZE) ==> w == MIN_SIZE)
      && (NamesEast(d) && editorWidth > 0.0 && startWidth + dx > editorWidth ==> w == editorWidth)
      && (NamesWest(d) && editorWidth > 0.0 && startWidth - dx > editorWidth ==> w == editorWidth)
      && (NamesSouth(d) && MIN_SIZE <= startHeight + dy ==> h == startHeight + dy)
      && (NamesNorth(d) && MIN_SIZE <= startHeight - dy ==> h == startHeight - dy)
      && (NamesSouth(d) && startHeight + dy < MIN_SIZE ==> h == MIN_SIZE)
      && (NamesNorth(d) && startHeight - dy < MIN_SIZE ==> h == MIN_SIZE)
  {
  }

  /** Dragging the south-east handle by (+40, +20) turns 120 x 80 into 160 x 100. */
  lemma ResizeSouthEastExample(editorWidth: real)
    requires editorWidth <= 0.0 || editorWidth >= 160.0
    ensures ResizedSize(SE, 120.0, 80.0, 40.0, 20.0, editorWidth) == (160.0, 100.0)
  {
  }

  /** `Math.round` */
  function Round(x: real): int {
    (x + 0.5).Floor
  }

  lemma RoundIsNearest(x: real)
    ensures x - 0.5 < Round(x) as real <= x + 0.5
  {
  }

  // ---------------------------------------------------------------------
  // Toolbar alignment
  // ---------------------------------------------------------------------

  datatype ToolbarAction = LeftAction | CenterAction | RightAction | RemoveAction

  /** The `data-align` value of an alignment action. */
  function ActionName(a: ToolbarAction): string {
    match a
    case LeftAction => "left"
    case CenterAction => "center"
    case RightAction => "right"
    case RemoveAction => "remove"
  }

  /**
   * The left and right margins an alignment leaves: an automatic margin on
   * the side the image moves away from, both automatic to centre it.
   */
  function Margins(a: ToolbarAction): (m: (string, string))
    ensures a == LeftAction ==> m.0 == "0" && m.1 == "auto"
    ensures a == RightAction ==> m.0 == "auto" && m.1 == "0"
    ensures a == CenterAction ==> m.0 == "auto" && m.1 == "auto"
  {
    match a
    case LeftAction => ("0", "auto")
    case RightAction => ("auto", "0")
    case CenterAction => ("auto", "auto")
    case RemoveAction => ("0", "0")
  }

  /** The inline style properties the toolbar writes. */
  datatype StyleProperty = Float | MarginTop | MarginBottom | VerticalAlign | Display | MarginLeft | MarginRight

  /** The image attributes the module reads and writes. */
  datatype ImageAttribute = Alt | Width | Height | DataAlign

  /** The inline style an alignment leaves on the image: a block, unfloated, with the alignment's margins. */
  function AlignedStyle(style: map<StyleProperty, string>, a: ToolbarAction): map<StyleProperty, string> {
    style[Float := "none"][MarginTop := "0"][MarginBottom := "0"][VerticalAlign := ""]
      [Display := "block"][MarginLeft := Margins(a).0][MarginRight := Margins(a).1]
  }

  // ---------------------------------------------------------------------
  // Overlay and toolbar layout
  // ---------------------------------------------------------------------

  /** The measurements `positionUI` reads from the page. */
  datatype Geometry = Geometry(
    containerTop: real, containerLeft: real, containerWidth: real,
    imageTop: real, imageLeft: real, imageWidth: real, imageHeight: real,
    scrollTop: real, scrollLeft: real, toolbarWidth: real)

  /** The positions `positionUI` writes. */
  datatype Layout = Layout(
    overlayTop: real, overlayLeft: real, overlayWidth: real, overlayHeight: real,
    toolbarTop: real, toolbarLeft: real)

  /** The image's offset inside the container, scroll included. */
  function ImageTop(g: Geometry): real { g.imageTop - g.containerTop + g.scrollTop }
  function ImageLeft(g: Geometry): real { g.imageLeft - g.containerLeft + g.scrollLeft }

  /** The arithmetic of `positionUI`; `None` when it returns without writing. */
  function UILayout(g: Geometry): Option<Layout> {
    if g.imageWidth == 0.0 || g.imageHeight == 0.0 then None
    else
      var top := ImageTop(g);
      var left := ImageLeft(g);
      var centeredLeft := left + g.imageWidth / 2.0 - g.toolbarWidth / 2.0;
      var maxLeft := MaxR(HANDLE_OFFSET, g.containerWidth - g.toolbarWidth - HANDLE_OFFSET);
      Some(Layout(
        top - HANDLE_OFFSET, left - HANDLE_OFFSET,
        g.imageWidth + HANDLE_OFFSET * 2.0, g.imageHeight + HANDLE_OFFSET * 2.0,
        top + g.imageHeight + TOOLBAR_OFFSET,
        MinR(MaxR(centeredLeft, HANDLE_OFFSET), maxLeft)))
  }

  /**
   * The overlay surrounds the image with the handle offset on every side;
   * the toolbar sits 8 px under it, centred on the image but kept inside the
   * container with the handle offset as margin. Nothing is laid out for an
   * image without width or height.
   */
  lemma UILayoutSpec(g: Geometry)
    ensures var r := UILayout(g);
      && (r.None? <==> g.imageWidth == 0.0 || g.imageHeight == 0.0)
      && (r.Some? ==>
        && r.value.overlayTop + HANDLE_OFFSET == ImageTop(g)
        && r.value.overlayLeft + HANDLE_OFFSET == ImageLeft(g)
        && r.value.overlayWidth == g.imageWidth + 2.0 * HANDLE_OFFSET
        && r.value.overlayHeight == g.imageHeight + 2.0 * HANDLE_OFFSET
        && r.value.toolbarTop == ImageTop(g) + g.imageHeight + TOOLBAR_OFFSET
        && HANDLE_OFFSET <= r.value.toolbarLeft <= MaxR(HANDLE_OFFSET, g.containerWidth - g.toolbarWidth - HANDLE_OFFSET)
        && (var centered := ImageLeft(g) + g.imageWidth / 2.0 - g.toolbarWidth / 2.0;
            HANDLE_OFFSET <= centered <= g.containerWidth - g.toolbarWidth - HANDLE_OFFSET ==> r.value.toolbarLeft == centered))
  {
  }

  // ---------------------------------------------------------------------
  // The image load listener
  // ---------------------------------------------------------------------

  /** The load-listener bookkeeping: the active image, the flag, and the images that actually hold the listener. */
  datatype ListenerState = ListenerState(active: Option<ImageId>, flag: bool, holders: set<ImageId>)

  /** The listener is on the active image exactly when the flag is set, and on no other image. */
  predicate ListenerInvariant(s: ListenerState) {
    && (s.flag ==> s.active.Some?)
    && s.holders == (if s.flag then {s.active.value} else {})
  }

  /** `attachImageLoadListener` */
  function AttachListener(s: ListenerState): ListenerState {
    if s.active.None? || s.flag then s
    else s.(flag := true, holders := s.holders + {s.active.value})
  }

  /** `detachImageLoadListener` */
  function DetachListener(s: ListenerState): ListenerState {
    if s.active.None? || !s.flag then s
    else s.(flag := false, holders := s.holders - {s.active.value})
  }

  /** The listener part of `hideUI`: detach, then forget the active image. */
  function HideListener(s: ListenerState): ListenerState {
    DetachListener(s).(active := None)
  }

  /** Activating an image as the mouse-down handler is written: the active image is replaced, then attach runs. */
  function ActivateAsWritten(s: ListenerState, image: ImageId): ListenerState {
    AttachListener(s.(active := Some(image)))
  }

  /** The active image replaced, with the previous image's listener removed first. */
  function SwitchedListener(s: ListenerState, image: ImageId): ListenerState {
    var left := if s.active.Some? && s.active.value != image then DetachListener(s) else s;
    left.(active := Some(image))
  }

  /** Activating an image with the previous image's listener removed first. */
  function Activate(s: ListenerState, image: ImageId): ListenerState {
    AttachListener(SwitchedListener(s, image))
  }

  lemma ActivateKeepsInvariant(s: ListenerState, image: ImageId)
    requires ListenerInvariant(s)
    ensures ListenerInvariant(Activate(s, image))
    ensures Activate(s, image).holders == {image} && Activate(s, image).active == Some(image)
  {
  }

  /**
   * The two activations differ only when another image is already active:
   * from a hidden state, or on a second click on the same image, the
   * mouse-down handler as written does what the corrected one does.
   */
  lemma ActivateAsWrittenAgrees(s: ListenerState, image: ImageId)
    requires ListenerInvariant(s)
    ensures s.active.None? || s.active == Some(image) ==> ActivateAsWritten(s, image) == Activate(s, image)
    ensures s.active.Some? && s.active != Some(image) && s.flag ==>
      ActivateAsWritten(s, image).holders == {s.active.value} && Activate(s, image).holders == {image}
  {
  }

  lemma HideKeepsInvariant(s: ListenerState)
    requires ListenerInvariant(s)
    ensures ListenerInvariant(HideListener(s))
    ensures HideListener(s).holders == {} && HideListener(s).active.None?
  {
  }

  /**
   * Clicking image `b` while image `a` is active, as written: the flag is
   * already set, so `b` never receives the listener, and hiding afterwards
   * removes it from `b` (where it is not) and leaves it on `a` for good.
   */
  lemma AsWrittenLeaksListener(a: ImageId, b: ImageId)
    requires a != b
    ensures var start := ListenerState(None, false, {});
      var afterB := ActivateAsWritten(ActivateAsWritten(start, a), b);
      && afterB.active == Some(b) && afterB.holders == {a}
      && !ListenerInvariant(afterB)
      && HideListener(afterB).holders == {a}
    ensures var start := ListenerState(None, false, {});
      HideListener(Activate(Activate(start, a), b)).holders == {}
  {
  }

  // ---------------------------------------------------------------------
  // The module instance
  // ---------------------------------------------------------------------

  /** An image element: its attributes and its inline style. */
  datatype ImageElement = ImageElement(attributes: map<ImageAttribute, string>, style: map<StyleProperty, string>)

  /** The target of a mouse-down inside the editor. */
  datatype RootTarget = NoTarget | OtherElement | ImageTarget(image: ImageId)

  /** Where a document-level click landed, relative to the image UI. */
  datatype ClickTarget = NoClickTarget | OnActiveImage | InsideOverlay | InsideToolbar | Elsewhere

  /** A drag in progress: its handle, where it started, and whether its document listeners are attached. */
  datatype DragState = DragState(
    isResizing: bool, direction: Option<Direction>,
    startX: real, startY: real, startWidth: real, startHeight: real,
    listening: bool)

  /** The flags that make the selection-change handler ignore an event, and the pending timer that clears one. */
  datatype Guards = Guards(isHandlingClick: bool, suppressSelectionChange: bool, suppressTimerPending: bool)

  /** The overlay and toolbar: shown or hidden, a layout frame pending, the caption input, the last layout written. */
  datatype UiState = UiState(visible: bool, framePending: bool, caption: string, layout: Option<Layout>)

  /** The layout after `positionUI` with an active image: the new layout when there is one, else the old. */
  function Relaid(l: Option<Layout>, g: Geometry): Option<Layout> {
    if UILayout(g).Some? then UILayout(g) else l
  }

  class ImageResizer {
    const quill: Editor
    var images: map<ImageId, ImageElement>
    var activeImage: Option<ImageId>
    var activeIndex: Option<int>
    var isResizing: bool
    var direction: Option<Direction>
    var startX: real
    var startY: real
    var startWidth: real
    var startHeight: real
    var hasImageLoadListener: bool
    /** The images holding the load listener. */
    var loadListeners: set<ImageId>
    var isHandlingClick: bool
    var suppressSelectionChange: bool
    var suppressTimerPending: bool
    /** Overlay and toolbar shown, and the editor root marked as having a selected image. */
    var uiVisible: bool
    var positionFramePending: bool
    /** The caption input's value. */
    var captionValue: string
    /** The last positions written to the overlay and the toolbar. */
    var layout: Option<Layout>
    /** The document mouse-move and mouse-up listeners of a drag are attached. */
    var dragListeners: bool
    /** The editor, root, document and window listeners are attached and the UI is in the container. */
    var attached: bool

    ghost function Listeners(): ListenerState
      reads this
    {
      ListenerState(activeImage, hasImageLoadListener, loadListeners)
    }

    ghost function Drag(): DragState
      reads this
    {
      DragState(isResizing, direction, startX, startY, startWidth, startHeight, dragListeners)
    }

    ghost function Gates(): Guards
      reads this
    {
      Guards(isHandlingClick, suppressSelectionChange, suppressTimerPending)
    }

    ghost function Ui(): UiState
      reads this
    {
      UiState(uiVisible, positionFramePending, captionValue, layout)
    }

    ghost predicate Valid()
      reads this
    {
      && (activeImage.Some? <==> activeIndex.Some?)
      && (activeImage.Some? ==> activeImage.value in images)
      && ListenerInvariant(Listeners())
      && (isResizing <==> direction.Some?)
    }

    /** The effect of `hideUI`: UI hidden, listener detached, no active image; nothing else changes. */
    twostate predicate HidUI()
      reads this
    {
      && Listeners() == HideListener(old(Listeners())) && activeIndex.None?
      && Ui() == old(Ui()).(visible := false)
      && Drag() == old(Drag()) && Gates() == old(Gates()) && images == old(images) && attached == old(attached)
    }

    constructor (quill: Editor, images: map<ImageId, ImageElement>)
      ensures Valid()
      ensures this.quill == quill && this.images == images
      ensures Listeners() == ListenerState(None, false, {}) && activeIndex.None?
      ensures Drag() == DragState(false, None, 0.0, 0.0, 0.0, 0.0, false)
      ensures Gates() == Guards(false, false, false)
      ensures Ui() == UiState(false, false, "", None)
      ensures attached
    {
      this.quill := quill;
      this.images := images;
      activeImage := None;
      activeIndex := None;
      isResizing := false;
      direction := None;
      startX, startY, startWidth, startHeight := 0.0, 0.0, 0.0, 0.0;
      hasImageLoadListener := false;
      loadListeners := {};
      isHandlingClick := false;
      suppressSelectionChange := false;
      suppressTimerPending := false;
      uiVisible := false;
      positionFramePending := false;
      captionValue := "";
      layout := None;
      dragListeners := false;
      attached := true;
    }

    method AttachImageLoadListener()
      requires Valid()
      modifies this
      ensures Valid()
      ensures Listeners() == AttachListener(old(Listeners()))
      ensures Drag() == old(Drag())
      ensures Gates() == old(Gates())
      ensures activeIndex == old(activeIndex)
      ensures Ui() == old(Ui())
      ensures images == old(images) && attached == old(attached)
    {
      if activeImage.None? || hasImageLoadListener {
        return;
      }
      loadListeners := loadListeners + {activeImage.value};
      hasImageLoadListener := true;
    }

    method DetachImageLoadListener()
      requires Valid()
      modifies this
      ensures Valid()
      ensures Listeners() == DetachListener(old(Listeners()))
      ensures Drag() == old(Drag())
      ensures Gates() == old(Gates())
      ensures activeIndex == old(activeIndex)
      ensures Ui() == old(Ui())
      ensures images == old(images) && attached == old(attached)
    {
      if activeImage.None? || !hasImageLoadListener {
        return;
      }
      loadListeners := loadListeners - {activeImage.value};
      hasImageLoadListener := false;
    }

    /** Hide the overlay and toolbar, drop the load listener and forget the active image. */
    method HideUI()
      requires Valid()
      modifies this
      ensures Valid()
      ensures HidUI()
      ensures loadListeners == {}
    {
      uiVisible := false;
      DetachImageLoadListener();
      activeImage := None;
      activeIndex := None;
    }

    /** Show the overlay and toolbar, attach the load listener and schedule a layout. */
    method ShowUI()
      requires Valid() && activeImage.Some?
      modifies this
      ensures Valid()
      ensures Listeners() == AttachListener(old(Listeners()))
      ensures loadListeners == {activeImage.value}
      ensures Ui() == old(Ui()).(visible := true, framePending := true)
      ensures Drag() == old(Drag())
      ensures Gates() == old(Gates())
      ensures activeIndex == old(activeIndex)
      ensures images == old(images) && attached == old(attached)
    {
      uiVisible := true;
      AttachImageLoadListener();
      positionFramePending := true;
    }

    /** Lay the overlay and toolbar out around the active image. */
    method PositionUI(g: Geometry)
      requires Valid()
      modifies this
      ensures Valid()
      ensures Ui() == old(Ui()).(layout := if old(activeImage).Some? then Relaid(old(layout), g) else old(layout))
      ensures Listeners() == old(Listeners())
      ensures activeIndex == old(activeIndex)
      ensures Drag() == old(Drag())
      ensures Gates() == old(Gates())
      ensures images == old(images) && attached == old(attached)
    {
      if activeImage.None? {
        return;
      }
      var l := UILayout(g);
      if l.None? {
        return;
      }
      layout := l;
    }

    /** Write the rounded size to the active image and to the document. */
    method ApplySize(width: real, height: real)
      requires Valid()
      modifies this, quill
      ensures Valid()
      ensures old(activeImage).None? ==> unchanged(this) && unchanged(quill)
      ensures old(activeImage).Some? ==>
        var id, w, h := old(activeImage).value, IntToString(Round(width)), IntToString(Round(height));
        var changes := map["width" := Some(FStr(w)), "height" := Some(FStr(h))];
        && images == old(images)[id := old(images)[id].(attributes := old(images)[id].attributes[Width := w][Height := h])]
        && quill.log == old(quill.log) + [FormatTextCall(old(activeIndex).value, 1, changes, User)]
        && quill.content == FormatAt(old(quill.content), old(activeIndex).value, 1, changes)
      ensures Listeners() == old(Listeners())
      ensures activeIndex == old(activeIndex)
      ensures Drag() == old(Drag())
      ensures Gates() == old(Gates())
      ensures Ui() == old(Ui())
      ensures attached == old(attached)
      ensures quill.selection == old(quill.selection)
    {
      if activeImage.None? || activeIndex.None? {
        return;
      }
      var formattedWidth := IntToString(Round(width));
      var formattedHeight := IntToString(Round(height));
      var id := activeImage.value;
      var img := images[id];
      images := images[id := img.(attributes := img.attributes[Width := formattedWidth][Height := formattedHeight])];
      quill.FormatText(activeIndex.value, 1, map["width" := Some(FStr(formattedWidth)), "height" := Some(FStr(formattedHeight))], User);
    }

    /** Align or remove the active image. */
    method HandleToolbarAction(action: ToolbarAction, g: Geometry)
      requires Valid()
      modifies this, quill
      ensures Valid()
      ensures old(activeImage).None? ==> unchanged(this) && unchanged(quill)
      ensures old(activeImage).Some? && action == RemoveAction ==>
        && HidUI()
        && quill.log == old(quill.log) + [DeleteTextCall(old(activeIndex).value, 1, User)]
        && quill.content == DeleteAt(old(quill.content), old(activeIndex).value, 1)
      ensures old(activeImage).Some? && action != RemoveAction ==>
        var id := old(activeImage).value;
        var img := old(images)[id];
        && images == old(images)[id := ImageElement(img.attributes[DataAlign := ActionName(action)], AlignedStyle(img.style, action))]
        && Ui() == old(Ui()).(layout := Relaid(old(layout), g))
        && Listeners() == old(Listeners()) && activeIndex == old(activeIndex)
        && Drag() == old(Drag()) && Gates() == old(Gates()) && attached == old(attached)
        && quill.log == old(quill.log) + [UpdateCall(User)]
        && quill.content == old(quill.content)
    {
      if activeImage.None? || activeIndex.None? {
        return;
      }
      if action == RemoveAction {
        quill.DeleteText(activeIndex.value, 1, User);
        HideUI();
        return;
      }
      var id := activeImage.value;
      var style := images[id].style;
      style := style[Float := "none"];
      style := style[MarginTop := "0"];
      style := style[MarginBottom := "0"];
      style := style[VerticalAlign := ""];
      style := style[Display := "block"];
      style := style[Float := "none"];
      style := style[MarginLeft := if action == RightAction then "auto" else "0"];
      style := style[MarginRight := if action == LeftAction then "auto" else "0"];
      if action == CenterAction {
        style := style[MarginLeft := "auto"];
        style := style[MarginRight := "auto"];
      }
      assert style == AlignedStyle(images[id].style, action);
      images := images[id := ImageElement(images[id].attributes[DataAlign := ActionName(action)], style)];
      quill.Update(User);
      PositionUI(g);
    }

    /** The caption input changed to `value`: a non-blank caption becomes the image's alt text, a blank one removes it. */
    method HandleCaptionInput(value: string)
      requires Valid()
      modifies this, quill
      ensures Valid()
      ensures Ui() == old(Ui()).(caption := value)
      ensures old(activeImage).None? ==> images == old(images) && unchanged(quill)
      ensures old(activeImage).Some? ==>
        var id, t := old(activeImage).value, Trim(value);
        var img := old(images)[id];
        var change: FmtChange := if t != "" then Some(FStr(t)) else None;
        && images == old(images)[id := img.(attributes := if t != "" then img.attributes[Alt := t] else img.attributes - {Alt})]
        && quill.log == old(quill.log) + [FormatTextCall(old(activeIndex).value, 1, map["alt" := change], User)]
        && quill.content == FormatAt(old(quill.content), old(activeIndex).value, 1, map["alt" := change])
      ensures Listeners() == old(Listeners())
      ensures activeIndex == old(activeIndex)
      ensures Drag() == old(Drag())
      ensures Gates() == old(Gates())
      ensures attached == old(attached)
    {
      captionValue := value;
      if activeImage.None? || activeIndex.None? {
        return;
      }
      var id := activeImage.value;
      var img := images[id];
      var trimmed := Trim(value);
      if trimmed != "" {
        images := images[id := img.(attributes := img.attributes[Alt := trimmed])];
        quill.FormatText(activeIndex.value, 1, map["alt" := Some(FStr(trimmed))], User);
      } else {
        images := images[id := img.(attributes := img.attributes - {Alt})];
        quill.FormatText(activeIndex.value, 1, map["alt" := None], User);
      }
    }

    /**
     * A selection change hides the UI when the selection is lost, is a range,
     * or is a caret whose leaf is not the active image; a pending suppression,
     * a click being handled or a focused caption input ignores it.
     */
    method HandleSelectionChange(range: Option<Range>, leafImage: Option<ImageId>, captionFocused: bool)
      requires Valid()
      modifies this
      ensures Valid()
      ensures var ignored := old(suppressSelectionChange) || old(isHandlingClick) || captionFocused;
        var hides := range.None? || range.value.length > 0 || (old(activeImage).Some? && leafImage != old(activeImage));
        if !ignored && hides then HidUI() else unchanged(this)
    {
      if suppressSelectionChange {
        return;
      }
      if isHandlingClick {
        return;
      }
      if captionFocused {
        return;
      }
      if range.None? || range.value.length > 0 {
        HideUI();
        return;
      }
      if activeImage.Some? {
        if leafImage != activeImage {
          HideUI();
        }
      }
    }

    /** After a content change, hide the UI if the active image left the editor, else lay it out again. */
    method HandleTextChange(activeInRoot: bool, g: Geometry)
      requires Valid()
      modifies this
      ensures Valid()
      ensures old(activeImage).None? ==> unchanged(this)
      ensures old(activeImage).Some? && !activeInRoot ==> HidUI()
      ensures old(activeImage).Some? && activeInRoot ==>
        && Ui() == old(Ui()).(layout := Relaid(old(layout), g))
        && Listeners() == old(Listeners()) && activeIndex == old(activeIndex)
        && Drag() == old(Drag()) && Gates() == old(Gates()) && images == old(images) && attached == old(attached)
    {
      if activeImage.None? {
        return;
      }
      if !activeInRoot {
        HideUI();
        return;
      }
      PositionUI(g);
    }

    /** Scrolling the editor or resizing the window lays the UI out again. */
    method HandleScroll(g: Geometry)
      requires Valid()
      modifies this
      ensures Valid()
      ensures Ui() == old(Ui()).(layout := if old(activeImage).Some? then Relaid(old(layout), g) else old(layout))
      ensures Listeners() == old(Listeners())
      ensures activeIndex == old(activeIndex)
      ensures Drag() == old(Drag())
      ensures Gates() == old(Gates())
      ensures images == old(images) && attached == old(attached)
    {
      if activeImage.None? {
        return;
      }
      PositionUI(g);
    }

    /** The animation frame scheduled by `showUI` fires. */
    method RunPositionFrame(g: Geometry)
      requires Valid() && positionFramePending
      modifies this
      ensures Valid()
      ensures Ui() == old(Ui()).(framePending := false,
        layout := if old(activeImage).Some? then Relaid(old(layout), g) else old(layout))
      ensures Listeners() == old(Listeners())
      ensures activeIndex == old(activeIndex)
      ensures Drag() == old(Drag())
      ensures Gates() == old(Gates())
      ensures images == old(images) && attached == old(attached)
    {
      positionFramePending := false;
      PositionUI(g);
    }

    /** Suppress the selection change that the click itself causes, until the next timer tick. */
    method SuppressSelectionChangeOnce()
      requires Valid()
      modifies this
      ensures Valid()
      ensures Gates() == old(Gates()).(suppressSelectionChange := true, suppressTimerPending := true)
      ensures Listeners() == old(Listeners())
      ensures activeIndex == old(activeIndex)
      ensures Drag() == old(Drag())
      ensures Ui() == old(Ui())
      ensures images == old(images) && attached == old(attached)
    {
      suppressSelectionChange := true;
      suppressTimerPending := true;
    }

    method SuppressTimerFired()
      requires Valid() && suppressTimerPending
      modifies this
      ensures Valid()
      ensures Gates() == old(Gates()).(suppressSelectionChange := false, suppressTimerPending := false)
      ensures Listeners() == old(Listeners())
      ensures activeIndex == old(activeIndex)
      ensures Drag() == old(Drag())
      ensures Ui() == old(Ui())
      ensures images == old(images) && attached == old(attached)
    {
      suppressSelectionChange := false;
      suppressTimerPending := false;
    }

    method ClickTimerFired()
      requires Valid()
      modifies this
      ensures Valid()
      ensures Gates() == old(Gates()).(isHandlingClick := false)
      ensures Listeners() == old(Listeners())
      ensures activeIndex == old(activeIndex)
      ensures Drag() == old(Drag())
      ensures Ui() == old(Ui())
      ensures images == old(images) && attached == old(attached)
    {
      isHandlingClick := false;
    }

    /**
     * A mouse-down inside the editor: on an image with a blot it becomes the
     * active image (caption from its alt text, UI shown); on anything else the
     * UI hides. Ignored during a drag. The result says whether the event's
     * default was prevented. The previous image's load listener is removed
     * before another image becomes active.
     */
    method HandleRootMouseDown(target: RootTarget, blot: BlotLookup) returns (prevented: bool)
      requires Valid()
      requires target.ImageTarget? ==> target.image in images
      modifies this
      ensures Valid()
      ensures old(isResizing) ==> !prevented && unchanged(this)
      ensures !old(isResizing) && !target.ImageTarget? ==> !prevented && HidUI()
      ensures !old(isResizing) && target.ImageTarget? && !blot.BlotAt? ==> prevented && HidUI()
      ensures !old(isResizing) && target.ImageTarget? && blot.BlotAt? ==>
        var attrs := old(images)[target.image].attributes;
        && prevented
        && Listeners() == Activate(old(Listeners()), target.image)
        && loadListeners == {target.image}
        && activeIndex == Some(blot.index)
        && Gates() == Guards(true, true, true)
        && Ui() == old(Ui()).(visible := true, framePending := true, caption := if Alt in attrs then attrs[Alt] else "")
        && Drag() == old(Drag()) && images == old(images) && attached == old(attached)
    {
      if isResizing {
        return false;
      }
      if !target.ImageTarget? {
        HideUI();
        return false;
      }
      prevented := true;
      if !blot.BlotAt? {
        HideUI();
        return;
      }
      isHandlingClick := true;
      SwitchActiveImage(target.image, blot.index);
      SuppressSelectionChangeOnce();
      ShowUI();
    }

    /** Make `image` the active image, dropping the previous image's load listener first. */
    method SwitchActiveImage(image: ImageId, index: int)
      requires Valid() && image in images
      modifies this
      ensures Valid()
      ensures Listeners() == SwitchedListener(old(Listeners()), image)
      ensures activeIndex == Some(index)
      ensures Ui() == old(Ui()).(caption := if Alt in images[image].attributes then images[image].attributes[Alt] else "")
      ensures Drag() == old(Drag())
      ensures Gates() == old(Gates())
      ensures images == old(images) && attached == old(attached)
    {
      if activeImage.Some? && activeImage.value != image {
        DetachImageLoadListener();
      }
      activeImage := Some(image);
      activeIndex := Some(index);
      var attributes := images[image].attributes;
      captionValue := if Alt in attributes then attributes[Alt] else "";
    }

    /** A mouse-down on a handle starts a drag from the mouse position and the image's current size. */
    method HandleHandleMouseDown(handle: Option<Direction>, clientX: real, clientY: real, rectWidth: real, rectHeight: real)
      returns (prevented: bool)
      requires Valid()
      modifies this
      ensures Valid()
      ensures prevented == (old(activeImage).Some? && handle.Some?)
      ensures Drag() == if prevented then DragState(true, handle, clientX, clientY, rectWidth, rectHeight, true) else old(Drag())
      ensures Listeners() == old(Listeners())
      ensures activeIndex == old(activeIndex)
      ensures Gates() == old(Gates())
      ensures Ui() == old(Ui())
      ensures images == old(images) && attached == old(attached)
    {
      if activeImage.None? || handle.None? {
        return false;
      }
      prevented := true;
      isResizing, direction, startX, startY := true, handle, clientX, clientY;
      startWidth, startHeight, dragListeners := rectWidth, rectHeight, true;
    }

    /** A mouse move during a drag resizes the active image and lays the UI out again. */
    method HandleDocumentMouseMove(clientX: real, clientY: real, editorWidth: real, g: Geometry)
      requires Valid()
      modifies this, quill
      ensures Valid()
      ensures !old(isResizing) || old(activeImage).None? ==> unchanged(this) && unchanged(quill)
      ensures old(isResizing) && old(activeImage).Some? ==>
        var (w, h) := ResizedSize(old(direction).value, old(startWidth), old(startHeight),
          clientX - old(startX), clientY - old(startY), editorWidth);
        var ws, hs := IntToString(Round(w)), IntToString(Round(h));
        var id := old(activeImage).value;
        && quill.log == old(quill.log) + [FormatTextCall(old(activeIndex).value, 1,
             map["width" := Some(FStr(ws)), "height" := Some(FStr(hs))], User)]
        && quill.content == FormatAt(old(quill.content), old(activeIndex).value, 1,
             map["width" := Some(FStr(ws)), "height" := Some(FStr(hs))])
        && images == old(images)[id := old(images)[id].(attributes := old(images)[id].attributes[Width := ws][Height := hs])]
        && Ui() == old(Ui()).(layout := Relaid(old(layout), g))
      ensures quill.selection == old(quill.selection)
      ensures Listeners() == old(Listeners())
      ensures activeIndex == old(activeIndex)
      ensures Drag() == old(Drag())
      ensures Gates() == old(Gates())
      ensures attached == old(attached)
    {
      if !isResizing || activeImage.None? || direction.None? {
        return;
      }
      var d := direction.value;
      var deltaX := clientX - startX;
      var deltaY := clientY - startY;
      var nextWidth := startWidth;
      var nextHeight := startHeight;
      if NamesEast(d) {
        nextWidth := startWidth + deltaX;
      }
      if NamesWest(d) {
        nextWidth := startWidth - deltaX;
      }
      if NamesSouth(d) {
        nextHeight := startHeight + deltaY;
      }
      if NamesNorth(d) {
        nextHeight := startHeight - deltaY;
      }
      nextWidth := MaxR(MIN_SIZE, nextWidth);
      nextHeight := MaxR(MIN_SIZE, nextHeight);
      if editorWidth > 0.0 {
        nextWidth := MinR(nextWidth, editorWidth);
      }
      assert (nextWidth, nextHeight) == ResizedSize(d, startWidth, startHeight, deltaX, deltaY, editorWidth);
      ApplySize(nextWidth, nextHeight);
      PositionUI(g);
    }

    /** Releasing the mouse button ends the drag. */
    method HandleDocumentMouseUp()
      requires Valid()
      modifies this
      ensures Valid()
      ensures !old(isResizing) ==> unchanged(this)
      ensures old(isResizing) ==> Drag() == old(Drag()).(isResizing := false, direction := None, listening := false)
      ensures Listeners() == old(Listeners())
      ensures activeIndex == old(activeIndex)
      ensures Gates() == old(Gates())
      ensures Ui() == old(Ui())
      ensures images == old(images) && attached == old(attached)
    {
      if !isResizing {
        return;
      }
      isResizing := false;
      direction := None;
      dragListeners := false;
    }

    /** A click outside the active image, the overlay and the toolbar hides the UI. */
    method HandleDocumentClick(target: ClickTarget)
      requires Valid()
      modifies this
      ensures Valid()
      ensures if old(activeImage).Some? && target == Elsewhere then HidUI() else unchanged(this)
    {
      if activeImage.None? {
        return;
      }
      if target == NoClickTarget {
        return;
      }
      if target == OnActiveImage || target == InsideOverlay || target == InsideToolbar {
        return;
      }
      HideUI();
    }

    /** Hide the UI, remove every listener and the pending suppression timer, and take the UI out of the container. */
    method Destroy()
      requires Valid()
      modifies this
      ensures Valid()
      ensures Listeners() == HideListener(old(Listeners())) && loadListeners == {} && activeIndex.None?
      ensures Ui() == old(Ui()).(visible := false)
      ensures Gates() == old(Gates()).(suppressTimerPending := false)
      ensures Drag() == old(Drag()).(listening := false)
      ensures images == old(images) && !attached
    {
      HideUI();
      suppressTimerPending := false;
      dragListeners := false;
      attached := false;
    }
  }
}
