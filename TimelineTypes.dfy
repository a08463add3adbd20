/** The records of the timeline widget (src/types/timeline.ts) and the
    partial record its handlers pass to the object store. */
module TimelineTypes {
  import opened Wrappers
  import JsArray

  /** Object ids are strings (the creation time in milliseconds, written
      in decimal). */
  type Id = string

  /** The two kinds of object, one per lane: the left lane's kind is
      tagged "event" in the type declaration and "passenger" by the panel
      and the canvas; the right lane's is tagged "process" and "vehicle". */
  datatype Kind = Passenger | Vehicle

  datatype Priority = Low | Medium | High

  /** A pixel position relative to the canvas. */
  datatype Point = Point(x: real, y: real)

  /** One object on the timeline. `duration` is whole hours: every path
      that sets it writes an integer. `description` and `priority` are
      declared but never written by any handler. */
  datatype TimelineObject = TimelineObject(
    id: Id,
    kind: Kind,
    name: string,
    startTime: real,
    duration: int,
    color: string,
    position: Point,
    description: Option<string>,
    priority: Option<Priority>)

  /** The visible window of the time axis, in hours. Its bounds are
      integers in every state the widget reaches: they start at 0 and 24
      and move in steps of 4, clamped by integer maxima. */
  datatype TimeRange = TimeRange(start: int, end: int)

  datatype Mode = Schedule | Data

  /** `Partial<TimelineObject>` as the handlers build it: each field is
      either given or absent. No handler passes `id`, `description` or
      `priority`. */
  datatype Patch = Patch(
    name: Option<string>,
    kind: Option<Kind>,
    startTime: Option<real>,
    duration: Option<int>,
    color: Option<string>,
    position: Option<Point>)

  /** One call of the store's update handler, `onUpdateObject(id, patch)`. */
  datatype Change = Change(id: Id, patch: Patch)

  /** The first object with the id, as both the canvas and the panel
      look it up; none when no object has it. */
  function FindById(objects: seq<TimelineObject>, id: Id): (r: Option<TimelineObject>)
    ensures r.Some? ==> r.value in objects && r.value.id == id
    ensures r.None? <==> forall j :: 0 <= j < |objects| ==> objects[j].id != id
    ensures r.Some? ==> exists j :: 0 <= j < |objects| && objects[j] == r.value
                                   && forall k :: 0 <= k < j ==> objects[k].id != id
  {
    JsArray.Find(objects, (o: TimelineObject) => o.id == id)
  }
}
