/** The canvas of the timeline widget (src/components/TimelineCanvas.tsx):
    the affine map between hours and vertical pixels, the hour labels, the
    lane filter, the rendered height of an object, and the drag controller
    that turns pointer movement into updates of the object store.

    Browser geometry is passed in: `viewHeight` is the mapper's height
    (`window.innerHeight - 200`), and `Rect` is the canvas's bounding box
    (its origin, width and height), which the drag handlers use apart from
    the mapper's height. */
module TimelineCanvas {
  import opened Wrappers
  import opened TimelineTypes
  import JsArray

  datatype Rect = Rect(left: real, top: real, width: real, height: real)

  /** Which lanes the canvas shows. */
  datatype Filters = Filters(showPassengers: bool, showVehicles: bool)

  // ---------------------------------------------------------------------
  // Time-axis mapper

  /** `timeToY`: the vertical offset of an hour; the range start is drawn
      at the top and its end at the mapper's height. Division by a
      zero-width range is the caller's error. */
  function TimeToY(range: TimeRange, viewHeight: real, time: real): (y: real)
    requires range.start != range.end
    ensures time == range.start as real ==> y == 0.0
    ensures time == range.end as real ==> y == viewHeight
  {
    (time - range.start as real) / (range.end - range.start) as real * viewHeight
  }

  /** `yToTime`: the hour at a vertical offset; the top is the range start
      and the mapper's height is its end. */
  function YToTime(range: TimeRange, viewHeight: real, y: real): (t: real)
    requires viewHeight != 0.0
    ensures y == 0.0 ==> t == range.start as real
    ensures y == viewHeight ==> t == range.end as real
  {
    range.start as real + y / viewHeight * (range.end - range.start) as real
  }

  /** `yToTime` undoes `timeToY`. */
  lemma YToTimeInvertsTimeToY(range: TimeRange, viewHeight: real, time: real)
    requires range.start != range.end && viewHeight != 0.0
    ensures YToTime(range, viewHeight, TimeToY(range, viewHeight, time)) == time
  {
    var w := (range.end - range.start) as real;
    var d := time - range.start as real;
    calc {
      TimeToY(range, viewHeight, time) / viewHeight * w;
      == (d / w * viewHeight) / viewHeight * w;
      == { DivMulCancel(d / w, viewHeight); } d / w * w;
      == { DivMulCancel(d, w); } d;
    }
  }

  /** `timeToY` undoes `yToTime`. */
  lemma TimeToYInvertsYToTime(range: TimeRange, viewHeight: real, y: real)
    requires range.start != range.end && viewHeight != 0.0
    ensures TimeToY(range, viewHeight, YToTime(range, viewHeight, y)) == y
  {
    var w := (range.end - range.start) as real;
    calc {
      TimeToY(range, viewHeight, YToTime(range, viewHeight, y));
      == (y / viewHeight * w) / w * viewHeight;
      == { DivMulCancel(y / viewHeight, w); } y / viewHeight * viewHeight;
      == { DivMulCancel(y, viewHeight); } y;
    }
  }

  lemma DivMulCancel(a: real, b: real)
    requires b != 0.0
    ensures a * b / b == a && a / b * b == a
  {
  }

  /** Later hours are drawn lower down. */
  lemma TimeToYStrictlyIncreasing(range: TimeRange, viewHeight: real, t1: real, t2: real)
    requires range.start < range.end && viewHeight > 0.0 && t1 < t2
    ensures TimeToY(range, viewHeight, t1) < TimeToY(range, viewHeight, t2)
  {
    var w := (range.end - range.start) as real;
    var a := (t1 - range.start as real) / w;
    var b := (t2 - range.start as real) / w;
    assert b - a == (t2 - t1) / w;
    assert a * viewHeight < b * viewHeight by {
      assert (b - a) * viewHeight > 0.0;
    }
  }

  // ---------------------------------------------------------------------
  // Hour labels

  /** How many labels a range gets: every second hour from the start up to
      and including the end. */
  function LabelCount(range: TimeRange): nat {
    if range.start > range.end then 0 else (range.end - range.start) / 2 + 1
  }

  /** `getTimeLabels`: the hours `start, start + 2, ...` that do not pass
      the end. */
  method TimeLabels(range: TimeRange) returns (labels: seq<int>)
    ensures |labels| == LabelCount(range)
    ensures forall k :: 0 <= k < |labels| ==> labels[k] == range.start + 2 * k
    ensures forall k :: 0 <= k < |labels| ==> labels[k] <= range.end
    ensures |labels| > 0 ==> labels[|labels| - 1] + 2 > range.end
  {
    labels := [];
    var i := range.start;
    while i <= range.end
      invariant i == range.start + 2 * |labels|
      invariant forall k :: 0 <= k < |labels| ==> labels[k] == range.start + 2 * k
      invariant forall k :: 0 <= k < |labels| ==> labels[k] <= range.end
      invariant |labels| > 0 ==> i == labels[|labels| - 1] + 2
      decreases range.end - i
    {
      labels := labels + [i];
      i := i + 2;
    }
  }

  // ---------------------------------------------------------------------
  // Lane filter and rendered height

  /** An object is drawn unless its lane is switched off. */
  predicate Shown(o: TimelineObject, filters: Filters) {
    && !(o.kind == Passenger && !filters.showPassengers)
    && !(o.kind == Vehicle && !filters.showVehicles)
  }

  /** The objects the canvas draws, in store order. */
  function Visible(objects: seq<TimelineObject>, filters: Filters): (r: seq<TimelineObject>)
    ensures forall i :: 0 <= i < |r| ==> r[i] in objects
    ensures forall i :: 0 <= i < |r| ==> (r[i].kind == Passenger ==> filters.showPassengers)
    ensures forall i :: 0 <= i < |r| ==> (r[i].kind == Vehicle ==> filters.showVehicles)
    ensures forall j :: 0 <= j < |objects| && Shown(objects[j], filters) ==> objects[j] in r
  {
    JsArray.Filter(objects, (o: TimelineObject) => Shown(o, filters))
  }

  /** The filter keeps store order: it filters each part of a
      concatenation separately. */
  lemma VisibleKeepsOrder(a: seq<TimelineObject>, b: seq<TimelineObject>, filters: Filters)
    ensures Visible(a + b, filters) == Visible(a, filters) + Visible(b, filters)
  {
    JsArray.FilterConcat(a, b, (o: TimelineObject) => Shown(o, filters));
  }

  /** With both lanes on, every object is drawn. */
  lemma VisibleAllLanes(objects: seq<TimelineObject>)
    ensures Visible(objects, Filters(true, true)) == objects
  {
    JsArray.FilterKeepsAll(objects, (o: TimelineObject) => Shown(o, Filters(true, true)));
  }

  /** With a lane off, some object of that lane is hidden and the drawn
      list is shorter. */
  lemma VisibleHidesSwitchedOffLane(objects: seq<TimelineObject>, filters: Filters, i: nat)
    requires i < |objects| && !Shown(objects[i], filters)
    ensures |Visible(objects, filters)| < |objects|
  {
    JsArray.FilterDrops(objects, (o: TimelineObject) => Shown(o, filters), i);
  }

  /** The drawn height of an object: 20 pixels an hour, at least 40. */
  function RenderedHeight(o: TimelineObject): (h: int)
    ensures h >= 40
    ensures h >= o.duration * 20
    ensures h == 40 || h == o.duration * 20
  {
    if o.duration * 20 > 40 then o.duration * 20 else 40
  }

  // ---------------------------------------------------------------------
  // Drag controller

  /** The lane a horizontal position falls in: left strictly before the
      middle of the canvas, right from the middle on. */
  function LaneOf(x: real, width: real): (k: Kind)
    ensures k == Passenger <==> x < width / 2.0
  {
    if x < width / 2.0 then Passenger else Vehicle
  }

  /** The fixed x of each lane. */
  function LaneAnchor(k: Kind, width: real): real {
    match k
    case Passenger => 120.0
    case Vehicle => width - 180.0
  }

  /** On a canvas at least 360 pixels wide each anchor lies in its own
      lane, so the lane read back from an object's x is its kind. */
  lemma AnchorInOwnLane(k: Kind, width: real)
    requires width >= 360.0
    ensures LaneOf(LaneAnchor(k, width), width) == k
  {
  }

  /** On a narrower canvas the vehicle anchor `width - 180` lies left of
      the midline: on a 300-pixel canvas it is at x = 120, the passenger
      anchor, and reads back as the passenger lane. */
  lemma NarrowCanvasVehicleAnchor()
    ensures LaneAnchor(Vehicle, 300.0) == LaneAnchor(Passenger, 300.0)
    ensures LaneOf(LaneAnchor(Vehicle, 300.0), 300.0) == Passenger
  {
  }

  /** Where the pointer puts the grabbed object before any constraint. */
  function Grabbed(client: Point, rect: Rect, offset: Point): Point {
    Point(client.x - rect.left - offset.x, client.y - rect.top - offset.y)
  }

  /** The dragged object's top, kept between the canvas top and 60 pixels
      above its bottom; when the canvas is shorter than 60 pixels the top
      wins. */
  function ClampY(y: real, height: real): (r: real)
    ensures r >= 0.0
    ensures height >= 60.0 ==> r <= height - 60.0
    ensures 0.0 <= y <= height - 60.0 ==> r == y
    ensures y < 0.0 || height < 60.0 ==> r == 0.0
    ensures height >= 60.0 && y > height - 60.0 ==> r == height - 60.0
  {
    var m := if y < height - 60.0 then y else height - 60.0;
    if m > 0.0 then m else 0.0
  }

  /** The one update a drag move commits: the lane's anchor and kind, the
      clamped y, and the hour at that y, always together. */
  function DragPatch(client: Point, rect: Rect, offset: Point, range: TimeRange, viewHeight: real): (p: Patch)
    requires viewHeight != 0.0
    ensures p.position.Some? && p.kind.Some? && p.startTime.Some?
    ensures p.name.None? && p.duration.None? && p.color.None?
    ensures p.kind.value == Passenger <==> Grabbed(client, rect, offset).x < rect.width / 2.0
    ensures p.kind.value == Passenger ==> p.position.value.x == 120.0
    ensures p.kind.value == Vehicle ==> p.position.value.x == rect.width - 180.0
    ensures p.position.value.y >= 0.0
    ensures rect.height >= 60.0 ==> p.position.value.y <= rect.height - 60.0
    ensures p.position.value.y == ClampY(Grabbed(client, rect, offset).y, rect.height)
    ensures 0.0 <= Grabbed(client, rect, offset).y <= rect.height - 60.0
            ==> p.position.value.y == Grabbed(client, rect, offset).y
    ensures p.startTime.value == YToTime(range, viewHeight, p.position.value.y)
  {
    var g := Grabbed(client, rect, offset);
    var kind := LaneOf(g.x, rect.width);
    var y := ClampY(g.y, rect.height);
    Patch(None, Some(kind), Some(YToTime(range, viewHeight, y)), None, None,
          Some(Point(LaneAnchor(kind, rect.width), y)))
  }

  /** On a 300-pixel canvas, a vehicle at the vehicle anchor that is
      grabbed and moved with no horizontal movement is committed as a
      passenger: the drop x is its own x, which is left of the midline. */
  lemma DragInPlaceOnNarrowCanvas(client: Point, rect: Rect, o: TimelineObject,
                                  range: TimeRange, viewHeight: real)
    requires rect.width == 300.0 && o.kind == Vehicle
    requires o.position.x == LaneAnchor(Vehicle, rect.width) && viewHeight != 0.0
    ensures var offset := Point(client.x - rect.left - o.position.x, client.y - rect.top - o.position.y);
            DragPatch(client, rect, offset, range, viewHeight).kind == Some(Passenger)
  {
  }

  /** The drag state of the canvas: the id being dragged (`null` when idle)
      and where on the object it was grabbed. */
  class DragController {
    var dragged: Option<Id>
    var offset: Point

    constructor ()
      ensures dragged == None && offset == Point(0.0, 0.0)
    {
      dragged := None;
      offset := Point(0.0, 0.0);
    }

    /** Whether a move commits: `!draggedObject` also holds of the empty
        id. */
    predicate Dragging()
      reads this
    {
      dragged.Some? && dragged.value != ""
    }

    /** `handleMouseDown` on the object `id`: unless the canvas is not
        mounted or `id` is not in `objects`, start dragging it from where it
        was grabbed, and ask for it to be selected. */
    method MouseDown(client: Point, rect: Option<Rect>, objects: seq<TimelineObject>, id: Id)
      returns (select: Option<Id>)
      modifies this
      ensures rect.None? || FindById(objects, id).None? ==>
                dragged == old(dragged) && offset == old(offset) && select == None
      ensures rect.Some? && FindById(objects, id).Some? ==>
                && dragged == Some(id) && select == Some(id)
                && var o := FindById(objects, id).value;
                   offset == Point(client.x - rect.value.left - o.position.x,
                                   client.y - rect.value.top - o.position.y)
    {
      select := None;
      if rect.None? {
        return;
      }
      var found := FindById(objects, id);
      if found.None? {
        return;
      }
      dragged := Some(id);
      offset := Point(client.x - rect.value.left - found.value.position.x,
                      client.y - rect.value.top - found.value.position.y);
      select := Some(id);
    }

    /** `handleMouseMove`: while dragging over a mounted canvas, commit the
        one update of `DragPatch`; otherwise commit nothing. The drag state
        itself does not change. */
    method MouseMove(client: Point, rect: Option<Rect>, range: TimeRange, viewHeight: real)
      returns (commit: Option<Change>)
      requires viewHeight != 0.0
      ensures commit.Some? <==> Dragging() && rect.Some?
      ensures commit.Some? ==>
                commit.value == Change(dragged.value, DragPatch(client, rect.value, offset, range, viewHeight))
    {
      if !Dragging() || rect.None? {
        return None;
      }
      commit := Some(Change(dragged.value, DragPatch(client, rect.value, offset, range, viewHeight)));
    }

    /** `handleMouseUp`, also bound to mouse-leave: back to idle, without a
        commit. */
    method MouseUp()
      modifies this`dragged
      ensures dragged == None
    {
      dragged := None;
    }
  }
}
