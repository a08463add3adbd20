/** The side panel of the timeline widget (src/components/ObjectPanel.tsx):
    the create form with its name field, and the editor of the selected
    object. Each handler returns the store call it makes instead of making
    it. */
module ObjectPanel {
  import opened Wrappers
  import opened TimelineTypes
  import opened JsText
  import opened JsNumber

  /** The five colours the editor offers. */
  const Palette: seq<string> := ["#9b87f5", "#0EA5E9", "#10B981", "#F59E0B", "#EF4444"]

  /** One call of `onCreateObject(type, name)`. */
  datatype CreateRequest = CreateRequest(kind: Kind, name: string)

  /** The create form, whose one piece of state is the typed name. */
  class CreateForm {
    var newName: string

    constructor ()
      ensures newName == ""
    {
      newName := "";
    }

    /** Typing into the name field. */
    method Input(text: string)
      modifies this
      ensures newName == text
    {
      newName := text;
    }

    /** `handleCreate`: a name that is not blank after trimming is created,
        trimmed, and the field is cleared; a blank one is ignored and the
        field kept as it is. */
    method HandleCreate(kind: Kind) returns (request: Option<CreateRequest>)
      modifies this
      ensures Trim(old(newName)) != [] ==>
                request == Some(CreateRequest(kind, Trim(old(newName)))) && newName == ""
      ensures Trim(old(newName)) == [] ==> request == None && newName == old(newName)
    {
      var trimmed := Trim(newName);
      if trimmed != [] {
        request := Some(CreateRequest(kind, trimmed));
        newName := "";
      } else {
        request := None;
      }
    }

    /** A key press in the name field: Enter creates a passenger, any other
        key does nothing. */
    method KeyPress(key: string) returns (request: Option<CreateRequest>)
      modifies this
      ensures key == "Enter" && Trim(old(newName)) != [] ==>
                request == Some(CreateRequest(Passenger, Trim(old(newName)))) && newName == ""
      ensures key != "Enter" || Trim(old(newName)) == [] ==>
                request == None && newName == old(newName)
    {
      if key == "Enter" {
        request := HandleCreate(Passenger);
      } else {
        request := None;
      }
    }
  }

  /** Both create buttons are disabled exactly when the name is blank,
      that is exactly when `HandleCreate` would ignore a click. */
  function CreateDisabled(name: string): (disabled: bool)
    ensures disabled <==> forall i :: 0 <= i < |name| ==> IsWhitespace(name[i])
  {
    TrimEmptyIff(name);
    Trim(name) == []
  }

  /** The object the editor shows: the first whose id is the selection;
      none when nothing is selected or the selected id is gone. */
  function SelectedObject(objects: seq<TimelineObject>, selected: Option<Id>): (r: Option<TimelineObject>)
    ensures r.Some? ==> selected == Some(r.value.id) && r.value in objects
    ensures r.None? <==> selected.None? || forall j :: 0 <= j < |objects| ==> objects[j].id != selected.value
    ensures r.Some? ==> exists j :: 0 <= j < |objects| && objects[j] == r.value
                                   && forall k :: 0 <= k < j ==> objects[k].id != r.value.id
  {
    if selected.None? then None else FindById(objects, selected.value)
  }

  /** `parseInt(v) || 1`: NaN and 0 become 1; every other integer,
      negatives included, passes through. */
  function CoerceDuration(text: string): (d: int)
    ensures d != 0
    ensures ParseInt(text).None? ==> d == 1
    ensures ParseInt(text).Some? && ParseInt(text).value != 0 ==> d == ParseInt(text).value
    ensures ParseInt(text) == Some(0) ==> d == 1
  {
    match ParseInt(text)
    case None => 1
    case Some(n) => if n == 0 then 1 else n
  }

  /** For a number typed as its decimal numeral, the coercion keeps it
      unless it is 0. */
  lemma CoerceDecimal(n: int)
    ensures CoerceDuration(IntToDecimal(n)) == if n == 0 then 1 else n
  {
    ParseIntDecimalRoundTrip(n);
  }

  /** An emptied field sets the duration to 1. */
  lemma CoerceEmpty()
    ensures CoerceDuration("") == 1
  {
    ParseIntNaNExamples();
  }

  function OnlyName(name: string): Patch {
    Patch(Some(name), None, None, None, None, None)
  }

  function OnlyDuration(duration: int): Patch {
    Patch(None, None, None, Some(duration), None, None)
  }

  function OnlyColor(color: string): Patch {
    Patch(None, None, None, None, Some(color), None)
  }

  /** Editing the name of the shown object sends just the new name, as
      typed (blank and untrimmed names included). */
  function NameEdit(o: TimelineObject, text: string): (c: Change)
    ensures c.id == o.id && c.patch.name == Some(text)
    ensures c.patch == OnlyName(c.patch.name.value)
  {
    Change(o.id, OnlyName(text))
  }

  /** Editing the duration sends just the coerced duration, never 0. */
  function DurationEdit(o: TimelineObject, text: string): (c: Change)
    ensures c.id == o.id && c.patch.duration.Some? && c.patch.duration.value != 0
    ensures c.patch == OnlyDuration(c.patch.duration.value)
  {
    Change(o.id, OnlyDuration(CoerceDuration(text)))
  }

  /** Clicking a palette colour sends just that colour. */
  function ColorClick(o: TimelineObject, i: nat): (c: Change)
    requires i < |Palette|
    ensures c.id == o.id && c.patch.color.Some? && c.patch.color.value in Palette
    ensures c.patch == OnlyColor(c.patch.color.value)
  {
    Change(o.id, OnlyColor(Palette[i]))
  }

  /** Clicking an entry of the object list evaluates an expression and
      discards it: no callback is called. */
  function ListItemClick(o: TimelineObject, selected: Option<Id>): (c: Option<Change>)
    ensures c.None?
  {
    None
  }
}
