/** Window placement: the bounds a window of a requested size gets for a
    semantic position (centred, on a given display, under the tray icon,
    or in a corner with a margin). Pixels are exact reals; the single
    precision of the source's `Pixels` is not modelled. */
module WindowPositioner {
  import opened Wrappers

  datatype Point = Point(x: real, y: real)
  datatype Size = Size(width: real, height: real)
  datatype Bounds = Bounds(origin: Point, size: Size)

  /** A display as the positioner sees it: its id and its bounds. */
  datatype Display = Display(id: nat, bounds: Bounds)

  datatype WindowPosition =
    | Center
    | CenterOnDisplay(display: nat)
    | TrayCenter(tray: Bounds)
    | TopRight(margin: real)
    | BottomRight(margin: real)
    | TopLeft(margin: real)
    | BottomLeft(margin: real)

  const ORIGIN: Point := Point(0.0, 0.0)

  /** The window lies inside the display. */
  predicate Inside(inner: Bounds, outer: Bounds)
  {
    && outer.origin.x <= inner.origin.x
    && outer.origin.y <= inner.origin.y
    && inner.origin.x + inner.size.width <= outer.origin.x + outer.size.width
    && inner.origin.y + inner.size.height <= outer.origin.y + outer.size.height
  }

  /** `center_in`: the window keeps its size and its centre is the
      display's centre; a window no larger than the display lies inside it. */
  function CenterIn(size: Size, display: Bounds): (r: Bounds)
    ensures r.size == size
    ensures r.origin.x + size.width / 2.0 == display.origin.x + display.size.width / 2.0
    ensures r.origin.y + size.height / 2.0 == display.origin.y + display.size.height / 2.0
    ensures 0.0 <= size.width <= display.size.width && 0.0 <= size.height <= display.size.height ==>
      Inside(r, display)
  {
    var x := display.origin.x + (display.size.width - size.width) * 0.5;
    var y := display.origin.y + (display.size.height - size.height) * 0.5;
    Bounds(Point(x, y), size)
  }

  /** `corner_position`: against the primary display, `margin` away from
      the right or left edge and from the bottom or top edge; at the origin
      when there is no primary display. */
  function CornerPosition(size: Size, primary: Option<Bounds>, margin: real, right: bool, bottom: bool): (r: Bounds)
    ensures r.size == size
    ensures primary.None? ==> r.origin == ORIGIN
    ensures primary.Some? ==>
      var db := primary.value;
      && (right ==> (db.origin.x + db.size.width) - (r.origin.x + size.width) == margin)
      && (!right ==> r.origin.x - db.origin.x == margin)
      && (bottom ==> (db.origin.y + db.size.height) - (r.origin.y + size.height) == margin)
      && (!bottom ==> r.origin.y - db.origin.y == margin)
  {
    match primary
    case None => Bounds(ORIGIN, size)
    case Some(db) =>
      var x := if right then db.origin.x + db.size.width - size.width - margin else db.origin.x + margin;
      var y := if bottom then db.origin.y + db.size.height - size.height - margin else db.origin.y + margin;
      Bounds(Point(x, y), size)
  }

  /** A corner window with a non-negative margin that leaves room for the
      window lies inside the display. */
  lemma CornerInsideDisplay(size: Size, db: Bounds, margin: real, right: bool, bottom: bool)
    requires 0.0 <= margin && 0.0 <= size.width && 0.0 <= size.height
    requires size.width + margin <= db.size.width && size.height + margin <= db.size.height
    ensures Inside(CornerPosition(size, Some(db), margin, right, bottom), db)
  {
    var r := CornerPosition(size, Some(db), margin, right, bottom);
    if right {
      assert r.origin.x == db.origin.x + db.size.width - size.width - margin;
    } else {
      assert r.origin.x == db.origin.x + margin;
    }
    if bottom {
      assert r.origin.y == db.origin.y + db.size.height - size.height - margin;
    } else {
      assert r.origin.y == db.origin.y + margin;
    }
  }

  /** `displays.iter().find(|d| d.id() == id)`: the bounds of the first
      display with that id. */
  function FindDisplay(displays: seq<Display>, id: nat): (r: Option<Bounds>)
    ensures r.Some? <==> exists i :: 0 <= i < |displays| && displays[i].id == id
    ensures r.Some? ==> exists i ::
      && 0 <= i < |displays| && displays[i].id == id && displays[i].bounds == r.value
      && forall j :: 0 <= j < i ==> displays[j].id != id
  {
    if displays == [] then None
    else if displays[0].id == id then Some(displays[0].bounds)
    else
      var r := FindDisplay(displays[1..], id);
      assert forall i :: 1 <= i < |displays| ==> displays[i] == displays[1..][i - 1];
      if r.Some? then
        ghost var k :| && 0 <= k < |displays[1..]| && displays[1..][k].id == id
                        && displays[1..][k].bounds == r.value
                        && forall j :: 0 <= j < k ==> displays[1..][j].id != id;
        assert displays[k + 1].id == id && displays[k + 1].bounds == r.value;
        assert forall j :: 0 <= j < k + 1 ==> displays[j].id != id;
        r
      else r
  }

  /** `compute_window_bounds`. */
  function ComputeWindowBounds(size: Size, position: WindowPosition, displays: seq<Display>, primary: Option<Bounds>): (r: Bounds)
    ensures r.size == size
  {
    match position
    case Center =>
      if primary.Some? then CenterIn(size, primary.value) else Bounds(ORIGIN, size)
    case CenterOnDisplay(id) =>
      var found := FindDisplay(displays, id);
      if found.Some? then CenterIn(size, found.value)
      else if primary.Some? then CenterIn(size, primary.value)
      else Bounds(ORIGIN, size)
    case TrayCenter(tray) =>
      var x := tray.origin.x + (tray.size.width - size.width) * 0.5;
      var y := tray.origin.y + tray.size.height;
      Bounds(Point(x, y), size)
    case TopRight(margin) => CornerPosition(size, primary, margin, true, false)
    case BottomRight(margin) => CornerPosition(size, primary, margin, true, true)
    case TopLeft(margin) => CornerPosition(size, primary, margin, false, false)
    case BottomLeft(margin) => CornerPosition(size, primary, margin, false, true)
  }

  /** Center centres on the primary display, or goes to the origin. */
  lemma CenterPlacement(size: Size, displays: seq<Display>, primary: Option<Bounds>)
    ensures primary.None? ==> ComputeWindowBounds(size, Center, displays, primary).origin == ORIGIN
    ensures primary.Some? ==>
      var r := ComputeWindowBounds(size, Center, displays, primary);
      var d := primary.value;
      && r.origin.x + size.width / 2.0 == d.origin.x + d.size.width / 2.0
      && r.origin.y + size.height / 2.0 == d.origin.y + d.size.height / 2.0
  {
  }

  /** CenterOnDisplay centres on the first display with the id, else on
      the primary display, else places the window at the origin. */
  lemma CenterOnDisplayPlacement(size: Size, id: nat, displays: seq<Display>, primary: Option<Bounds>)
    ensures var r := ComputeWindowBounds(size, CenterOnDisplay(id), displays, primary);
      && (forall i :: (0 <= i < |displays| && displays[i].id == id &&
            (forall j :: 0 <= j < i ==> displays[j].id != id)) ==>
            r == CenterIn(size, displays[i].bounds))
      && ((forall i :: 0 <= i < |displays| ==> displays[i].id != id) ==>
            r == if primary.Some? then CenterIn(size, primary.value) else Bounds(ORIGIN, size))
  {
    var found := FindDisplay(displays, id);
    forall i | 0 <= i < |displays| && displays[i].id == id && (forall j :: 0 <= j < i ==> displays[j].id != id)
      ensures found == Some(displays[i].bounds)
    {
      var k :| && 0 <= k < |displays| && displays[k].id == id && displays[k].bounds == found.value
               && forall j :: 0 <= j < k ==> displays[j].id != id;
    }
  }

  /** TrayCenter puts the window centred horizontally under the tray
      icon, its top at the icon's bottom, whatever the displays. */
  lemma TrayCenterPlacement(size: Size, tray: Bounds, displays: seq<Display>, primary: Option<Bounds>)
    ensures var r := ComputeWindowBounds(size, TrayCenter(tray), displays, primary);
      && r.origin.x + size.width / 2.0 == tray.origin.x + tray.size.width / 2.0
      && r.origin.y == tray.origin.y + tray.size.height
      && r == ComputeWindowBounds(size, TrayCenter(tray), [], None)
  {
  }

  /** The four corners choose (right, bottom) as TopRight (yes, no),
      BottomRight (yes, yes), TopLeft (no, no), BottomLeft (no, yes). */
  lemma CornerChoices(size: Size, margin: real, displays: seq<Display>, primary: Option<Bounds>)
    ensures ComputeWindowBounds(size, TopRight(margin), displays, primary) == CornerPosition(size, primary, margin, true, false)
    ensures ComputeWindowBounds(size, BottomRight(margin), displays, primary) == CornerPosition(size, primary, margin, true, true)
    ensures ComputeWindowBounds(size, TopLeft(margin), displays, primary) == CornerPosition(size, primary, margin, false, false)
    ensures ComputeWindowBounds(size, BottomLeft(margin), displays, primary) == CornerPosition(size, primary, margin, false, true)
  {
  }
}
