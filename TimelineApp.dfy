/** The timeline widget's root component (src/components/TimelineApp.tsx):
    the object store, the selection, the visible time range, the zoom and
    the mode, and the three store handlers it passes down. The new list of
    objects is computed by the pure functions below; the class holds the
    state cells and replaces them as the setters do. */
module TimelineApp {
  import opened Wrappers
  import opened TimelineTypes
  import JsArray
  import TimelineCanvas
  import TimelineControls
  import ObjectPanel

  // ---------------------------------------------------------------------
  // Creation defaults

  /** The tag the panel passes for a kind (`handleCreate("passenger")`,
      `handleCreate("vehicle")`). */
  function PanelTag(k: Kind): (tag: string)
    ensures tag == "passenger" <==> k == Passenger
    ensures tag == "passenger" || tag == "vehicle"
    ensures tag != "event"
  {
    match k
    case Passenger => "passenger"
    case Vehicle => "vehicle"
  }

  /** The tag the type declaration and the store's handler name for a
      kind: "event" for the left lane, "process" for the right. */
  function DeclaredTag(k: Kind): (tag: string)
    ensures tag == "event" <==> k == Passenger
    ensures tag == "event" || tag == "process"
  {
    match k
    case Passenger => "event"
    case Vehicle => "process"
  }

  /** The duration `handleCreateObject` gives, as written: it tests the
      tag it receives against "event". */
  function DurationForTag(tag: string): (d: int)
    ensures d == 1 <==> tag == "event"
    ensures d == 1 || d == 3
  {
    if tag == "event" then 1 else 3
  }

  /** The colour `handleCreateObject` gives, as written. */
  function ColorForTag(tag: string): (c: string)
    ensures c == "#9b87f5" <==> tag == "event"
    ensures c == "#9b87f5" || c == "#0EA5E9"
  {
    if tag == "event" then "#9b87f5" else "#0EA5E9"
  }

  /** As wired, the panel's tags never equal "event", so every object the
      panel creates gets the right lane's defaults, passengers included. */
  lemma PanelCreatesGetProcessDefaults(k: Kind)
    ensures DurationForTag(PanelTag(k)) == 3
    ensures ColorForTag(PanelTag(k)) == "#0EA5E9"
    ensures k == Passenger ==> DurationForTag(PanelTag(k)) != DefaultDuration(k)
  {
    assert |PanelTag(k)| != |"event"|;
  }

  /** The default duration of a new object of each kind: one hour for the
      left lane, three for the right. */
  function DefaultDuration(k: Kind): (d: int)
    ensures d > 0
    ensures d == 1 <==> k == Passenger
  {
    match k
    case Passenger => 1
    case Vehicle => 3
  }

  /** The default colour of a new object of each kind; both are palette
      colours. */
  function DefaultColor(k: Kind): (c: string)
    ensures c in ObjectPanel.Palette
    ensures c == "#9b87f5" <==> k == Passenger
  {
    match k
    case Passenger => "#9b87f5"
    case Vehicle => "#0EA5E9"
  }

  /** The corrected defaults are the handler's own choice applied to the
      kind's declared tag. */
  lemma DefaultsFollowDeclaredTag(k: Kind)
    ensures DefaultDuration(k) == DurationForTag(DeclaredTag(k))
    ensures DefaultColor(k) == ColorForTag(DeclaredTag(k))
  {
    assert |"process"| != |"event"|;
  }

  // ---------------------------------------------------------------------
  // The store's pure steps

  /** The object `handleCreateObject` builds; the id is supplied by the
      caller instead of being read from the clock. */
  function NewObject(id: Id, kind: Kind, name: string, range: TimeRange): (o: TimelineObject)
    ensures o.id == id && o.kind == kind && o.name == name
    ensures o.startTime == (range.start + 2) as real
    ensures o.duration == DefaultDuration(kind) && o.color == DefaultColor(kind)
    ensures o.position == Point(100.0, 60.0)
    ensures o.description.None? && o.priority.None?
  {
    TimelineObject(id, kind, name, (range.start + 2) as real, DefaultDuration(kind),
                   DefaultColor(kind), Point(100.0, 60.0), None, None)
  }

  /** A given field of a patch, or the prior value when it is absent. */
  function Pick<T>(given: Option<T>, prior: T): T {
    if given.Some? then given.value else prior
  }

  /** `{ ...obj, ...updates }`: every field the patch gives replaces the
      object's, every other field stays. */
  function Merge(o: TimelineObject, p: Patch): (r: TimelineObject)
    ensures r.id == o.id && r.description == o.description && r.priority == o.priority
    ensures p.name.Some? ==> r.name == p.name.value
    ensures p.name.None? ==> r.name == o.name
    ensures p.kind.Some? ==> r.kind == p.kind.value
    ensures p.kind.None? ==> r.kind == o.kind
    ensures p.startTime.Some? ==> r.startTime == p.startTime.value
    ensures p.startTime.None? ==> r.startTime == o.startTime
    ensures p.duration.Some? ==> r.duration == p.duration.value
    ensures p.duration.None? ==> r.duration == o.duration
    ensures p.color.Some? ==> r.color == p.color.value
    ensures p.color.None? ==> r.color == o.color
    ensures p.position.Some? ==> r.position == p.position.value
    ensures p.position.None? ==> r.position == o.position
  {
    o.(name := Pick(p.name, o.name),
       kind := Pick(p.kind, o.kind),
       startTime := Pick(p.startTime, o.startTime),
       duration := Pick(p.duration, o.duration),
       color := Pick(p.color, o.color),
       position := Pick(p.position, o.position))
  }

  /** The patch that has the effect of `p` followed by `q`: wherever `q`
      gives a field it wins. */
  function Then(p: Patch, q: Patch): Patch {
    Patch(if q.name.Some? then q.name else p.name,
          if q.kind.Some? then q.kind else p.kind,
          if q.startTime.Some? then q.startTime else p.startTime,
          if q.duration.Some? then q.duration else p.duration,
          if q.color.Some? then q.color else p.color,
          if q.position.Some? then q.position else p.position)
  }

  /** The patch that gives no field. */
  const NoChange: Patch := Patch(None, None, None, None, None, None)

  /** Merging nothing keeps the object. */
  lemma MergeNoChange(o: TimelineObject)
    ensures Merge(o, NoChange) == o
  {
  }

  /** Merging the same patch twice is merging it once. */
  lemma MergeIdempotent(o: TimelineObject, p: Patch)
    ensures Merge(Merge(o, p), p) == Merge(o, p)
  {
  }

  /** Two merges in a row are one merge of the combined patch. */
  lemma MergeThen(o: TimelineObject, p: Patch, q: Patch)
    ensures Merge(Merge(o, p), q) == Merge(o, Then(p, q))
  {
  }

  /** The store after an update: every object with the id has the patch
      spread over it, every other object is kept, in the same order. */
  function Updated(objects: seq<TimelineObject>, id: Id, p: Patch): (r: seq<TimelineObject>)
    ensures |r| == |objects|
    ensures forall i :: 0 <= i < |objects| && objects[i].id == id ==> r[i] == Merge(objects[i], p)
    ensures forall i :: 0 <= i < |objects| && objects[i].id != id ==> r[i] == objects[i]
  {
    JsArray.Map(objects, (o: TimelineObject) => if o.id == id then Merge(o, p) else o)
  }

  /** The store after a delete: the objects with another id, in order. */
  function Deleted(objects: seq<TimelineObject>, id: Id): (r: seq<TimelineObject>)
    ensures |r| <= |objects|
    ensures forall i :: 0 <= i < |r| ==> r[i].id != id && r[i] in objects
    ensures forall j :: 0 <= j < |objects| && objects[j].id != id ==> objects[j] in r
  {
    JsArray.Filter(objects, (o: TimelineObject) => o.id != id)
  }

  /** The ids of the objects, in order. */
  function Ids(objects: seq<TimelineObject>): (r: seq<Id>)
    ensures |r| == |objects|
    ensures forall i :: 0 <= i < |objects| ==> r[i] == objects[i].id
  {
    JsArray.Map(objects, (o: TimelineObject) => o.id)
  }

  /** No two objects share an id. */
  predicate UniqueIds(objects: seq<TimelineObject>) {
    forall i, j :: 0 <= i < j < |objects| ==> objects[i].id != objects[j].id
  }

  /** No object has the id. */
  predicate Absent(objects: seq<TimelineObject>, id: Id) {
    forall j :: 0 <= j < |objects| ==> objects[j].id != id
  }

  // ---------------------------------------------------------------------
  // Properties of the store's steps

  /** Create appends one object and keeps the ids unique when the new id
      is fresh. */
  lemma CreateKeepsUniqueIds(objects: seq<TimelineObject>, o: TimelineObject)
    requires UniqueIds(objects) && Absent(objects, o.id)
    ensures UniqueIds(objects + [o])
  {
    var s := objects + [o];
    forall i, j | 0 <= i < j < |s|
      ensures s[i].id != s[j].id
    {
      if j == |objects| {
        assert s[j] == o && s[i] == objects[i];
      } else {
        assert s[i] == objects[i] && s[j] == objects[j];
      }
    }
  }

  /** An update never changes an id, so the list of ids stays the same. */
  lemma UpdatedKeepsIds(objects: seq<TimelineObject>, id: Id, p: Patch)
    ensures Ids(Updated(objects, id, p)) == Ids(objects)
  {
    var r := Updated(objects, id, p);
    assert forall i :: 0 <= i < |r| ==> r[i].id == objects[i].id;
  }

  /** Hence an update keeps the ids unique. */
  lemma UpdatedKeepsUniqueIds(objects: seq<TimelineObject>, id: Id, p: Patch)
    requires UniqueIds(objects)
    ensures UniqueIds(Updated(objects, id, p))
  {
    var r := Updated(objects, id, p);
    assert forall i :: 0 <= i < |r| ==> r[i].id == objects[i].id;
  }

  /** An update of an id no object has leaves the list as it is. */
  lemma UpdatedAbsent(objects: seq<TimelineObject>, id: Id, p: Patch)
    requires Absent(objects, id)
    ensures Updated(objects, id, p) == objects
  {
    var r := Updated(objects, id, p);
    assert forall i :: 0 <= i < |r| ==> r[i] == objects[i];
  }

  /** Two updates of the same id are one update with the combined patch. */
  lemma UpdatedThen(objects: seq<TimelineObject>, id: Id, p: Patch, q: Patch)
    ensures Updated(Updated(objects, id, p), id, q) == Updated(objects, id, Then(p, q))
  {
    var a := Updated(Updated(objects, id, p), id, q);
    var b := Updated(objects, id, Then(p, q));
    forall i | 0 <= i < |objects|
      ensures a[i] == b[i]
    {
      if objects[i].id == id {
        MergeThen(objects[i], p, q);
      }
    }
  }

  /** Deleting an id no object has leaves the list as it is. */
  lemma DeletedAbsent(objects: seq<TimelineObject>, id: Id)
    requires Absent(objects, id)
    ensures Deleted(objects, id) == objects
  {
    JsArray.FilterKeepsAll(objects, (o: TimelineObject) => o.id != id);
  }

  /** Deleting from a concatenation deletes from each part, in order: the
      objects that stay keep their order. */
  lemma DeletedKeepsOrder(a: seq<TimelineObject>, b: seq<TimelineObject>, id: Id)
    ensures Deleted(a + b, id) == Deleted(a, id) + Deleted(b, id)
  {
    JsArray.FilterConcat(a, b, (o: TimelineObject) => o.id != id);
  }

  /** Deleting an id some object has makes the list shorter. */
  lemma DeletedShrinks(objects: seq<TimelineObject>, id: Id, i: nat)
    requires i < |objects| && objects[i].id == id
    ensures |Deleted(objects, id)| < |objects|
  {
    JsArray.FilterDrops(objects, (o: TimelineObject) => o.id != id, i);
  }

  /** Deleting right after a create with a fresh id gives back the list
      as it was before the create. */
  lemma DeleteUndoesCreate(objects: seq<TimelineObject>, o: TimelineObject)
    requires Absent(objects, o.id)
    ensures Deleted(objects + [o], o.id) == objects
  {
    DeletedKeepsOrder(objects, [o], o.id);
    DeletedAbsent(objects, o.id);
    assert Deleted([o], o.id) == [] by {
      assert [o][1..] == [];
    }
  }

  /** An object whose id no other object has can go in front. */
  lemma UniqueCons(x: TimelineObject, rest: seq<TimelineObject>)
    requires UniqueIds(rest) && Absent(rest, x.id)
    ensures UniqueIds([x] + rest)
  {
    var s := [x] + rest;
    forall i, j | 0 <= i < j < |s|
      ensures s[i].id != s[j].id
    {
      assert s[j] == rest[j - 1];
      if i > 0 {
        assert s[i] == rest[i - 1];
      }
    }
  }

  /** Deleting keeps the ids unique. */
  lemma {:induction false} DeletedKeepsUniqueIds(objects: seq<TimelineObject>, id: Id)
    requires UniqueIds(objects)
    ensures UniqueIds(Deleted(objects, id))
  {
    if objects != [] {
      var x, tail := objects[0], objects[1..];
      assert forall i :: 0 <= i < |tail| ==> tail[i] == objects[i + 1];
      assert UniqueIds(tail);
      assert Absent(tail, x.id);
      DeletedKeepsUniqueIds(tail, id);
      var rest := Deleted(tail, id);
      assert Absent(rest, x.id) by {
        forall k | 0 <= k < |rest|
          ensures rest[k].id != x.id
        {
          assert rest[k] in tail;
        }
      }
      if x.id != id {
        assert Deleted(objects, id) == [x] + rest;
        UniqueCons(x, rest);
      } else {
        assert Deleted(objects, id) == rest;
      }
    }
  }

  /** The update the canvas commits at the end of a drag step puts the
      object at its kind's anchor, at the time its height denotes, and
      touches nothing else; on a canvas at least 360 pixels wide the lane
      read back from its x is its kind. */
  lemma DragCommitSitsInLane(o: TimelineObject, client: Point, rect: TimelineCanvas.Rect,
                             offset: Point, range: TimeRange, viewHeight: real)
    requires viewHeight != 0.0
    ensures var r := Merge(o, TimelineCanvas.DragPatch(client, rect, offset, range, viewHeight));
            && r.position.x == TimelineCanvas.LaneAnchor(r.kind, rect.width)
            && r.startTime == TimelineCanvas.YToTime(range, viewHeight, r.position.y)
            && r.id == o.id && r.name == o.name && r.duration == o.duration && r.color == o.color
            && (rect.width >= 360.0 ==> TimelineCanvas.LaneOf(r.position.x, rect.width) == r.kind)
  {
    var r := Merge(o, TimelineCanvas.DragPatch(client, rect, offset, range, viewHeight));
    if rect.width >= 360.0 {
      TimelineCanvas.AnchorInOwnLane(r.kind, rect.width);
    }
  }

  /** A name edit changes the object's name and nothing else, a colour
      click its colour and nothing else; a duration edit changes only the
      duration and never sets it to 0. */
  lemma PanelEditsAreNarrow(o: TimelineObject, i: nat, text: string)
    requires i < |ObjectPanel.Palette|
    ensures Merge(o, ObjectPanel.NameEdit(o, text).patch) == o.(name := text)
    ensures Merge(o, ObjectPanel.ColorClick(o, i).patch) == o.(color := ObjectPanel.Palette[i])
    ensures Merge(o, ObjectPanel.DurationEdit(o, text).patch)
              == o.(duration := ObjectPanel.CoerceDuration(text))
    ensures Merge(o, ObjectPanel.DurationEdit(o, text).patch).duration != 0
  {
  }

  // ---------------------------------------------------------------------
  // The component's state cells

  /** The state of `TimelineApp`. */
  class Timeline {
    var mode: Mode
    var objects: seq<TimelineObject>
    var selected: Option<Id>
    var timeRange: TimeRange
    var zoom: real

    /** The time range is one the mapper accepts and ids are unique. */
    predicate Valid()
      reads this
    {
      0 <= timeRange.start < timeRange.end && UniqueIds(objects)
    }

    /** The initial state: schedule mode, no objects, nothing selected,
        hours 0 to 24, zoom 1. */
    constructor ()
      ensures mode == Schedule && objects == [] && selected == None
      ensures timeRange == TimeRange(0, 24) && zoom == 1.0
      ensures Valid()
    {
      mode := Schedule;
      objects := [];
      selected := None;
      timeRange := TimeRange(0, 24);
      zoom := 1.0;
    }

    /** `handleCreateObject`: one object is appended, built from the
        current range start; everything already there stays. */
    method CreateObject(id: Id, kind: Kind, name: string)
      modifies this`objects
      ensures objects == old(objects) + [NewObject(id, kind, name, timeRange)]
      ensures |objects| == |old(objects)| + 1
      ensures old(Valid()) && Absent(old(objects), id) ==> Valid()
    {
      var created := NewObject(id, kind, name, timeRange);
      if Valid() && Absent(objects, id) {
        CreateKeepsUniqueIds(objects, created);
      }
      objects := objects + [created];
    }

    /** The panel's create request, when there is one, reaches the store
        with the id the caller supplies. */
    method Create(request: Option<ObjectPanel.CreateRequest>, id: Id)
      modifies this`objects
      ensures request.None? ==> objects == old(objects)
      ensures request.Some? ==>
                objects == old(objects) + [NewObject(id, request.value.kind, request.value.name, timeRange)]
      ensures old(Valid()) && (request.Some? ==> Absent(old(objects), id)) ==> Valid()
    {
      if request.Some? {
        CreateObject(id, request.value.kind, request.value.name);
      }
    }

    /** `handleUpdateObject`: every object with the id takes the patch. */
    method UpdateObject(id: Id, p: Patch)
      modifies this`objects
      ensures objects == Updated(old(objects), id, p)
      ensures old(Valid()) ==> Valid()
    {
      if UniqueIds(objects) {
        UpdatedKeepsUniqueIds(objects, id, p);
      }
      objects := Updated(objects, id, p);
    }

    /** A drag step's commit, when there is one, reaches the store. */
    method Commit(change: Option<Change>)
      modifies this`objects
      ensures change.None? ==> objects == old(objects)
      ensures change.Some? ==> objects == Updated(old(objects), change.value.id, change.value.patch)
      ensures old(Valid()) ==> Valid()
    {
      if change.Some? {
        UpdateObject(change.value.id, change.value.patch);
      }
    }

    /** `handleDeleteObject`: the id's objects go and the selection is
        cleared, whichever object it was. */
    method DeleteObject(id: Id)
      modifies this`objects, this`selected
      ensures objects == Deleted(old(objects), id)
      ensures selected == None
      ensures old(Valid()) ==> Valid()
    {
      if UniqueIds(objects) {
        DeletedKeepsUniqueIds(objects, id);
      }
      objects := Deleted(objects, id);
      selected := None;
    }

    /** `setSelectedObject(id)`, as the canvas calls it on mouse-down. */
    method SelectObject(id: Id)
      modifies this`selected
      ensures selected == Some(id)
    {
      selected := Some(id);
    }

    /** A mouse-down's select request, when there is one, reaches the
        selection; without one the selection is kept as it was. */
    method Select(request: Option<Id>)
      modifies this`selected
      ensures request.None? ==> selected == old(selected)
      ensures request.Some? ==> selected == request
    {
      if request.Some? {
        SelectObject(request.value);
      }
    }

    /** The controls' pan-left button. */
    method PanLeft()
      modifies this`timeRange
      ensures timeRange == TimelineControls.PanLeft(old(timeRange))
      ensures old(Valid()) ==> Valid()
    {
      timeRange := TimelineControls.PanLeft(timeRange);
    }

    /** The controls' pan-right button. */
    method PanRight()
      modifies this`timeRange
      ensures timeRange == TimelineControls.PanRight(old(timeRange))
      ensures old(Valid()) ==> Valid()
    {
      timeRange := TimelineControls.PanRight(timeRange);
    }

    /** Where the canvas draws the label of an hour for the current range
        (the range this state passes down): a valid state always gives the
        mapper a non-empty range, the range start sits at the top and later
        hours sit lower down. */
    function LabelTop(hour: int, viewHeight: real): (y: real)
      reads this
      requires Valid()
      ensures hour == timeRange.start ==> y == 0.0
      ensures viewHeight > 0.0 && hour > timeRange.start ==> y > 0.0
    {
      var y := TimelineCanvas.TimeToY(timeRange, viewHeight, hour as real);
      if viewHeight > 0.0 && hour > timeRange.start then
        TimelineCanvas.TimeToYStrictlyIncreasing(timeRange, viewHeight, timeRange.start as real, hour as real);
        y
      else y
    }

    /** The zoom slider's value. */
    method SetZoom(z: real)
      modifies this`zoom
      ensures zoom == z
    {
      zoom := z;
    }

    /** The header's mode buttons. */
    method SetMode(m: Mode)
      modifies this`mode
      ensures mode == m
    {
      mode := m;
    }
  }
}
