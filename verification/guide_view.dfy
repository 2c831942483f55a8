/**
 * The spotlight overlay of UserGuideView.kt: its show/dismiss state, and the
 * integer geometry onDraw works out for one frame (the rectangle drawDashed
 * returns, its screen quadrant, the arrow beside it and the caption anchor
 * next to the arrow). For the round shape that rectangle is a square anchored
 * at the target's top-left, not the bounds of the circle drawn around it.
 */
module GuideView {
  import opened Wrappers
  import opened Platform
  import opened CommonExt

  /** The outline shapes; any other value is rejected when drawing. */
  const SHAPE_ROUND: int := 0
  const SHAPE_RECT: int := 1

  /** Pixel sizes the view obtains from dip(): dip(19) and dip(49) for the arrow,
      dip(9) between outline and arrow, dip(6) between arrow and caption, and
      dip(DASHED_PADDING) around the target. Taken as given. */
  datatype Dims = Dims(arrowWidth: nat, arrowHeight: nat, arrowGap: nat, textGap: nat, dashedPadding: nat)

  datatype Point = Point(x: int, y: int)

  datatype Size = Size(width: nat, height: nat)

  /** android.graphics.Rect: left/top inclusive, right/bottom exclusive. */
  datatype Rect = Rect(left: int, top: int, right: int, bottom: int)

  /** Where the target view is in the window and how big it is, at drawing time. */
  datatype TargetGeometry = TargetGeometry(location: Point, size: Size)

  /** IllegalStateException (no target) and IllegalArgumentException (bad shape). */
  datatype DrawError = IllegalState | IllegalArgument

  /** Halving as Kotlin's Int `/ 2` and Float.toInt() do it: rounded toward zero,
      so -3 halves to -1 where Euclidean division gives -2. */
  function Half(a: int): (q: int)
    ensures a >= 0 ==> 0 <= 2 * q <= a < 2 * q + 2
    ensures a < 0 ==> 2 * q - 2 < a <= 2 * q <= 0
  {
    if a >= 0 then a / 2 else -((-a) / 2)
  }

  function Max(a: int, b: int): int {
    if a >= b then a else b
  }

  // ---------------------------------------------------------------- outline

  /** The gap drawDashed leaves around the target: dip(DASHED_PADDING), or none. */
  function Padding(enablePadding: bool, dims: Dims): (p: nat)
    ensures enablePadding ==> p == dims.dashedPadding
    ensures !enablePadding ==> p == 0
  {
    if enablePadding then dims.dashedPadding else 0
  }

  /** The target's position in the overlay's coordinates. */
  function RelativeLocation(target: Point, overlay: Point): Point {
    Point(target.x - overlay.x, target.y - overlay.y)
  }

  /** drawDashed's rectangle. Rect shape: the target inflated by the padding on
      every side. Round shape: a square of side twice the radius
      max(w/2, h/2) + padding, anchored at the target's top-left corner. */
  function Outline(at: Point, size: Size, shape: int, padding: nat): (r: Result<Rect, DrawError>)
    ensures r.Err? <==> shape != SHAPE_ROUND && shape != SHAPE_RECT
    ensures r.Err? ==> r.error == IllegalArgument
    ensures shape == SHAPE_RECT ==>
      r == Ok(Rect(at.x - padding, at.y - padding, at.x + size.width + padding, at.y + size.height + padding))
    ensures shape == SHAPE_ROUND ==>
      && r.Ok? && r.value.left == at.x && r.value.top == at.y
      && r.value.right - r.value.left == r.value.bottom - r.value.top
      && r.value.right - r.value.left == 2 * (Max(size.width / 2, size.height / 2) + padding)
  {
    if shape == SHAPE_ROUND then
      var radius := Max(size.width / 2, size.height / 2) + padding;
      Ok(Rect(at.x, at.y, at.x + 2 * radius, at.y + 2 * radius))
    else if shape == SHAPE_RECT then
      var left := at.x - padding;
      var top := at.y - padding;
      Ok(Rect(left, top, left + size.width + 2 * padding, top + size.height + 2 * padding))
    else
      Err(IllegalArgument)
  }

  /** With padding switched off, the rect outline is exactly the target's bounds. */
  lemma RectOutlineWithoutPadding(at: Point, size: Size, dims: Dims)
    ensures Outline(at, size, SHAPE_RECT, Padding(false, dims))
         == Ok(Rect(at.x, at.y, at.x + size.width, at.y + size.height))
  {
  }

  /** The round outline's square covers the target once there is any padding;
      without padding an odd side can stick out by one pixel. */
  lemma RoundOutlineCoversTarget(at: Point, size: Size, padding: nat)
    ensures var r := Outline(at, size, SHAPE_ROUND, padding).value;
      && r.right >= at.x + size.width - 1 && r.bottom >= at.y + size.height - 1
      && (padding > 0 ==> r.right >= at.x + size.width && r.bottom >= at.y + size.height)
  {
  }

  // ---------------------------------------------------------------- quadrant

  /** 0 = right-bottom, 1 = right-top, 2 = left-top, 3 = left-bottom. */
  datatype Quadrant = RightBottom | RightTop | LeftTop | LeftBottom {
    function Index(): (i: int)
      ensures 0 <= i <= 3
      ensures IsRight() <==> i <= 1
      ensures IsBottom() <==> (i == 0 || i == 3)
    {
      match this
      case RightBottom => 0
      case RightTop => 1
      case LeftTop => 2
      case LeftBottom => 3
    }

    predicate IsRight() {
      RightBottom? || RightTop?
    }

    predicate IsBottom() {
      RightBottom? || LeftBottom?
    }
  }

  /** The integer centre of a rectangle, with Int division. */
  function Centre(r: Rect): (c: Point)
    ensures -1 <= r.left + r.right - 2 * c.x <= 1 && -1 <= r.top + r.bottom - 2 * c.y <= 1
    ensures r.left + r.right >= 0 ==> 2 * c.x <= r.left + r.right
    ensures r.left + r.right < 0 ==> 2 * c.x >= r.left + r.right
    ensures r.top + r.bottom >= 0 ==> 2 * c.y <= r.top + r.bottom
    ensures r.top + r.bottom < 0 ==> 2 * c.y >= r.top + r.bottom
  {
    Point(Half(r.left + r.right), Half(r.top + r.bottom))
  }

  /** The quadrant of the outline's centre: right when strictly past half the
      screen width, bottom when strictly past half the screen height. */
  function QuadrantOf(outline: Rect, screen: Size): (q: Quadrant)
    ensures q.IsRight() <==> Centre(outline).x > screen.width / 2
    ensures q.IsBottom() <==> Centre(outline).y > screen.height / 2
  {
    var c := Centre(outline);
    if c.x > screen.width / 2 then
      if c.y > screen.height / 2 then RightBottom else RightTop
    else
      if c.y > screen.height / 2 then LeftBottom else LeftTop
  }

  /** A centre exactly on both midpoints counts as left-top (quadrant 2); one pixel
      further right and down it is right-bottom (quadrant 0). */
  lemma QuadrantAtMidpoint(outline: Rect, screen: Size)
    requires Centre(outline) == Point(screen.width / 2, screen.height / 2)
    requires outline.left + outline.right >= 0 && outline.top + outline.bottom >= 0
    ensures QuadrantOf(outline, screen) == LeftTop && QuadrantOf(outline, screen).Index() == 2
    ensures QuadrantOf(Rect(outline.left + 1, outline.top + 1, outline.right + 1, outline.bottom + 1), screen) == RightBottom
  {
    var moved := Rect(outline.left + 1, outline.top + 1, outline.right + 1, outline.bottom + 1);
    CentreShift(outline.left + outline.right);
    CentreShift(outline.top + outline.bottom);
    assert Centre(moved).x == Centre(outline).x + 1;
  }

  /** Moving both edges one step moves the (truncated) centre one step, as long
      as the edge sum does not cross zero. */
  lemma CentreShift(s: int)
    requires s >= 0
    ensures Half(s + 2) == Half(s) + 1
  {
  }

  /** The quadrant as the shipped view works it out: its screen-size fields are
      initialised to 0 and never assigned, so every comparison is against 0. */
  function ShippedQuadrant(outline: Rect): (q: Quadrant)
    ensures q.IsRight() <==> Centre(outline).x > 0
    ensures q.IsBottom() <==> Centre(outline).y > 0
  {
    QuadrantOf(outline, Size(0, 0))
  }

  /** A target near the top-left corner of a 1080x1920 screen at density 3 is
      taken for right-bottom by the shipped code, so its arrow is drawn above it,
      partly off the top of the screen; with the real screen size it is left-top
      and the arrow goes below the outline. */
  lemma ShippedQuadrantIgnoresScreen()
    ensures var outline := Rect(80, 80, 120, 120);
      var dims := Dims(57, 147, 27, 18, 15);
      && ShippedQuadrant(outline) == RightBottom
      && ArrowFor(outline, ShippedQuadrant(outline), dims).rect.top < 0
      && QuadrantOf(outline, Size(1080, 1920)) == LeftTop
      && ArrowFor(outline, QuadrantOf(outline, Size(1080, 1920)), dims).rect.top > outline.bottom
  {
    assert Centre(Rect(80, 80, 120, 120)) == Point(100, 100);
  }

  // ---------------------------------------------------------------- arrow

  /** The scale diagonal of the 3x3 matrix the arrow bitmap is drawn with; the
      rest of the matrix is the identity. */
  datatype Flip = Flip(scaleX: int, scaleY: int)

  datatype ArrowPos = ArrowPos(rect: Rect, quadrant: Quadrant, flip: Flip)

  /** drawArrowBitmap: an arrowWidth x arrowHeight box centred on the outline's centre
      (left edge truncated toward zero), a gap above the outline in the bottom
      quadrants and below it in the top ones; flipped about the x axis in the top
      quadrants and about the y axis in the left ones. */
  function ArrowFor(outline: Rect, q: Quadrant, dims: Dims): (a: ArrowPos)
    ensures a.quadrant == q
    ensures a.rect.right - a.rect.left == dims.arrowWidth
    ensures a.rect.bottom - a.rect.top == dims.arrowHeight
    ensures -1 <= 2 * a.rect.left + dims.arrowWidth - 2 * Centre(outline).x <= 1
    ensures q.IsBottom() ==> a.rect.bottom == outline.top - dims.arrowGap
    ensures !q.IsBottom() ==> a.rect.top == outline.bottom + dims.arrowGap
    ensures a.flip == Flip(if q.IsRight() then 1 else -1, if q.IsBottom() then 1 else -1)
  {
    var c := Centre(outline);
    var left := Half(2 * c.x - dims.arrowWidth);
    match q
    case RightBottom =>
      var bottom := outline.top - dims.arrowGap;
      ArrowPos(Rect(left, bottom - dims.arrowHeight, left + dims.arrowWidth, bottom), q, Flip(1, 1))
    case RightTop =>
      var top := outline.bottom + dims.arrowGap;
      ArrowPos(Rect(left, top, left + dims.arrowWidth, top + dims.arrowHeight), q, Flip(1, -1))
    case LeftTop =>
      var top := outline.bottom + dims.arrowGap;
      ArrowPos(Rect(left, top, left + dims.arrowWidth, top + dims.arrowHeight), q, Flip(-1, -1))
    case LeftBottom =>
      var bottom := outline.top - dims.arrowGap;
      ArrowPos(Rect(left, bottom - dims.arrowHeight, left + dims.arrowWidth, bottom), q, Flip(-1, 1))
  }

  // ---------------------------------------------------------------- caption

  datatype Align = AlignLeft | AlignRight

  /** Which edge of the arrow the caption's baseline is measured from; the
      font-metric offset added to it is not modelled. */
  datatype Baseline = FromArrowTop | FromArrowBottom

  datatype Caption = Caption(x: int, align: Align, baseline: Baseline)

  /** drawGuideText: right of the screen, the caption ends textGap left of the
      arrow; left of it, the caption starts textGap right of the arrow. */
  function CaptionFor(arrow: Rect, q: Quadrant, dims: Dims): (c: Caption)
    ensures q.IsRight() ==> c.x == arrow.left - dims.textGap && c.align == AlignRight
    ensures !q.IsRight() ==> c.x == arrow.right + dims.textGap && c.align == AlignLeft
    ensures c.baseline == FromArrowTop <==> q.IsBottom()
  {
    match q
    case RightBottom => Caption(arrow.left - dims.textGap, AlignRight, FromArrowTop)
    case RightTop => Caption(arrow.left - dims.textGap, AlignRight, FromArrowBottom)
    case LeftTop => Caption(arrow.right + dims.textGap, AlignLeft, FromArrowBottom)
    case LeftBottom => Caption(arrow.right + dims.textGap, AlignLeft, FromArrowTop)
  }

  /** With the real screen size, the arrow and caption sit on the side of the
      rectangle drawDashed returns that faces the screen's centre: below it in
      the upper half, above it in the lower half, and the caption runs away
      from the nearer side edge without touching the arrow. The clearance is
      against that rectangle only; a round target's drawn circle is centred on
      the target and may reach past it. */
  lemma AnnotationFacesCentre(outline: Rect, screen: Size, dims: Dims)
    requires dims.textGap > 0
    ensures var q := QuadrantOf(outline, screen);
      var a := ArrowFor(outline, q, dims);
      var c := CaptionFor(a.rect, q, dims);
      && (Centre(outline).y <= screen.height / 2 ==> a.rect.top >= outline.bottom)
      && (Centre(outline).y > screen.height / 2 ==> a.rect.bottom <= outline.top)
      && (Centre(outline).x > screen.width / 2 ==> c.align == AlignRight && c.x < a.rect.left)
      && (Centre(outline).x <= screen.width / 2 ==> c.align == AlignLeft && c.x > a.rect.right)
  {
  }

  // ---------------------------------------------------------------- one frame

  datatype Annotation = Annotation(arrow: ArrowPos, caption: Caption)

  /** What one onDraw pass places: the outline, and the arrow and caption unless
      the text is empty. */
  datatype Frame = Frame(outline: Rect, annotation: Option<Annotation>)

  /** onDraw followed by drawFgBitmapWithTargetView: no target is an
      IllegalStateException, a bad shape an IllegalArgumentException; an empty
      text stops after the outline. */
  function FrameFor(target: Option<TargetGeometry>, overlay: Point, text: string, shape: int,
                    enablePadding: bool, screen: Size, dims: Dims): (r: Result<Frame, DrawError>)
    ensures target.None? ==> r == Err(IllegalState)
    ensures target.Some? ==> (r == Err(IllegalArgument) <==> shape != SHAPE_ROUND && shape != SHAPE_RECT)
    ensures target.Some? && (shape == SHAPE_ROUND || shape == SHAPE_RECT) ==>
      && r.Ok?
      && r.value.outline == Outline(RelativeLocation(target.value.location, overlay), target.value.size, shape,
                                    Padding(enablePadding, dims)).value
    ensures r.Ok? ==> (r.value.annotation.None? <==> text == [])
    ensures r.Ok? && r.value.annotation.Some? ==>
      var an := r.value.annotation.value;
      && an.arrow == ArrowFor(r.value.outline, QuadrantOf(r.value.outline, screen), dims)
      && an.caption == CaptionFor(an.arrow.rect, an.arrow.quadrant, dims)
  {
    match target
    case None => Err(IllegalState)
    case Some(t) =>
      var at := RelativeLocation(t.location, overlay);
      match Outline(at, t.size, shape, Padding(enablePadding, dims))
      case Err(e) => Err(e)
      case Ok(outline) =>
        if text == [] then Ok(Frame(outline, None))
        else
          var arrow := ArrowFor(outline, QuadrantOf(outline, screen), dims);
          Ok(Frame(outline, Some(Annotation(arrow, CaptionFor(arrow.rect, arrow.quadrant, dims)))))
  }

  // ---------------------------------------------------------------- the view

  /** The fields show/dismiss change, as one value. */
  datatype ViewState = ViewState(target: Option<ViewRef>, text: string, shape: int, enablePadding: bool,
                                 visibility: int, hasDismissListener: bool, dismissNotifications: nat)

  /** The state a freshly constructed view is in. */
  const INITIAL_STATE := ViewState(None, "", SHAPE_ROUND, true, GONE, false, 0)

  /** What show() leaves behind: a new target takes the text, shape and padding
      given with it, while showing the current target again keeps the old ones;
      either way the view ends up visible and its listener is untouched. */
  function AfterShow(s: ViewState, t: ViewRef, text: string, shape: int, padding: bool): (r: ViewState)
    ensures r.target == Some(t) && IsVisible(r.visibility)
    ensures s.target == Some(t) ==> r.text == s.text && r.shape == s.shape && r.enablePadding == s.enablePadding
    ensures s.target != Some(t) ==> r.text == text && r.shape == shape && r.enablePadding == padding
    ensures r.hasDismissListener == s.hasDismissListener && r.dismissNotifications == s.dismissNotifications
  {
    if s.target == Some(t) then s.(visibility := VISIBLE)
    else s.(target := Some(t), text := text, shape := shape, enablePadding := padding, visibility := VISIBLE)
  }

  class UserGuideView {
    var target: Option<ViewRef>
    var guideText: string
    var dashedShape: int
    var enablePadding: bool
    var visibility: int
    /** Whether `onDismissListener` is set. */
    var hasDismissListener: bool
    /** How many times `onDismissListener` has been invoked. */
    var dismissNotifications: nat

    function State(): ViewState
      reads this
    {
      ViewState(target, guideText, dashedShape, enablePadding, visibility, hasDismissListener, dismissNotifications)
    }

    /** The constructor runs init(), which ends in dismiss() while no listener is set. */
    constructor()
      ensures State() == INITIAL_STATE
    {
      target, guideText, dashedShape, enablePadding := None, "", SHAPE_ROUND, true;
      hasDismissListener, dismissNotifications := false, 0;
      visibility := VISIBLE;
      new;
      Dismiss();
    }

    /** show(): see AfterShow. */
    method Show(t: ViewRef, text: string, shape: int := SHAPE_ROUND, padding: bool := true)
      modifies this
      ensures State() == AfterShow(old(State()), t, text, shape, padding)
    {
      if target != Some(t) {
        target := Some(t);
        dashedShape := shape;
        guideText := text;
        enablePadding := padding;
      }
      visibility := VisibilityFor(true);
    }

    /** Hides the view and invokes the dismiss listener, if one is set. */
    method Dismiss()
      modifies this
      ensures State() == old(State()).(visibility := GONE,
        dismissNotifications := old(dismissNotifications) + if hasDismissListener then 1 else 0)
    {
      visibility := VisibilityFor(false);
      if hasDismissListener {
        dismissNotifications := dismissNotifications + 1;
      }
    }

    /** A single tap dismisses the view and is consumed. */
    method OnSingleTapUp() returns (handled: bool)
      modifies this
      ensures handled
      ensures State() == old(State()).(visibility := GONE,
        dismissNotifications := old(dismissNotifications) + if hasDismissListener then 1 else 0)
    {
      Dismiss();
      handled := true;
    }

    /** Assigning `onDismissListener` (a listener, or null). */
    method SetDismissListener(present: bool)
      modifies this
      ensures State() == old(State()).(hasDismissListener := present)
    {
      hasDismissListener := present;
    }

    /** `setVisibility` as the layout calls it through setVisible. */
    method SetVisible(visible: bool)
      modifies this
      ensures State() == old(State()).(visibility := VisibilityFor(visible))
    {
      visibility := VisibilityFor(visible);
    }

    /** onDraw: the geometry of one frame for the current target, whose position
        and size at drawing time are `where`. */
    method Draw(where: TargetGeometry, overlay: Point, screen: Size, dims: Dims) returns (r: Result<Frame, DrawError>)
      ensures r == FrameFor(if target.Some? then Some(where) else None, overlay, guideText, dashedShape,
                            enablePadding, screen, dims)
      ensures target.None? ==> r == Err(IllegalState)
    {
      r := FrameFor(if target.Some? then Some(where) else None, overlay, guideText, dashedShape,
                    enablePadding, screen, dims);
    }
  }
}
