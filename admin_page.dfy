/** The admin page for the event catalogue: it loads the list, keeps a
    selected id and the record being edited in sync with it, edits fields,
    highlights and agenda rows, and saves, deletes and adds events. The
    list updates are pure copies; the one in-place mutation (an agenda row
    edited through an array that was copied only shallowly) reaches every
    list entry that is the object those rows belong to, so the page keeps
    the identity of each entry's object (`objects`) and the owner of the
    details' rows (`rowsOwner`). Network replies are inputs; requests and
    toasts are recorded in logs. */
module AdminPage {
  import opened Js
  import JsNumber
  import opened Ui
  import EventCatalog

  type Event = EventCatalog.Record

  /** Where a request goes: the collection URL, or the collection URL
      followed by `/` and the interpolated selection (as `handleDelete`
      builds it). */
  datatype Path = Collection | Item(id: Option<Value>)

  datatype Request = Request(verb: string, path: Path, body: Option<Value>)

  /** Replies to the page's three kinds of request: a failure (network
      error, `!response.ok` or a body that does not parse) or the parsed
      data. A reply whose JSON has another shape is not modelled. */
  datatype ListReply = ListFailed | Listed(records: seq<Event>)
  datatype SaveReply = SaveFailed | Saved(record: Event)
  datatype DeleteReply = DeleteFailed | Deleted

  const LoadFailedToast := Toast("Error", "Could not load events. Please try again later.", "destructive")
  const SavedToast := Toast("Event Saved", "The event details have been successfully saved.", "success")
  const SaveFailedToast := Toast("Error", "Could not save event. Please try again later.", "destructive")
  const DeletedToast := Toast("Event Deleted", "The event has been successfully deleted.", "success")
  const DeleteFailedToast := Toast("Error", "Could not delete event. Please try again later.", "destructive")

  /** The properties copied by `{ ...prev }`: spreading `null` or
      `undefined` copies none. */
  function PropsOf(d: Option<Value>): (m: Obj)
    ensures d.Some? && d.value.Object? ==> m == d.value.props
    ensures !(d.Some? && d.value.Object?) ==> m == map[]
  {
    if d.Some? && d.value.Object? then d.value.props else map[]
  }

  /** `{ ...prev, [name]: value }`: exactly the named property changes. */
  function WithField(prev: Obj, name: string, value: Value): (r: Obj)
    ensures r.Keys == prev.Keys + {name}
    ensures r[name] == value
    ensures forall k :: k in prev && k != name ==> r[k] == prev[k]
  {
    Spread(prev, map[name := value])
  }

  /** `const a = [...items]; a[index] = value`: a copy with one position
      replaced. */
  function ReplaceAt(items: seq<Value>, index: nat, value: Value): (r: seq<Value>)
    requires index < |items|
    ensures |r| == |items| && r[index] == value
    ensures forall i :: 0 <= i < |items| && i != index ==> r[i] == items[i]
  {
    items[index := value]
  }

  /** The list after a successful save: an update maps every entry whose id
      is strictly equal to the returned id to the returned record; a
      creation appends it. */
  function SavedList(prev: seq<Event>, isUpdate: bool, updated: Event): (r: seq<Event>)
    ensures isUpdate ==> |r| == |prev|
    ensures isUpdate ==> forall i :: 0 <= i < |prev| ==>
              r[i] == if EventCatalog.Matches(prev[i], EventCatalog.IdOf(updated)) then updated else prev[i]
    ensures !isUpdate ==> r == prev + [updated]
  {
    if !isUpdate then prev + [updated]
    else if prev == [] then []
    else
      [if EventCatalog.Matches(prev[0], EventCatalog.IdOf(updated)) then updated else prev[0]]
      + SavedList(prev[1..], isUpdate, updated)
  }

  /** `prev.filter((event) => event.id !== id)`. */
  function RemoveById(prev: seq<Event>, id: Option<Value>): (r: seq<Event>)
    ensures |r| <= |prev|
    ensures forall i :: 0 <= i < |r| ==> !EventCatalog.Matches(r[i], id)
    ensures forall i :: 0 <= i < |r| ==> r[i] in prev
  {
    if prev == [] then []
    else if EventCatalog.Matches(prev[0], id) then RemoveById(prev[1..], id)
    else [prev[0]] + RemoveById(prev[1..], id)
  }

  /** The record `handleAddNewEvent` starts from. */
  const BlankEvent: Event := map[
    "id" := Null,
    "title" := Str(""),
    "description" := Str(""),
    "date" := Str(""),
    "location" := Str(""),
    "imageUrl" := Str(""),
    "highlights" := Array([Str("")]),
    "agenda" := Array([Object(map["time" := Str(""), "session" := Str("")])])
  ]

  /** The agenda array of a record, when it has one. */
  function AgendaOf(d: Option<Value>): Option<Value>
  {
    if d.Some? && d.value.Object? then Get(d.value.props, "agenda") else None
  }

  // ----- Object identity -----
  // The list entries are JSON objects that the page never copies, so two
  // entries can be one object: a successful update puts the one returned
  // object at every index whose id matches. Identities are numbers;
  // `objects[k]` is the identity of `events[k]`, and fresh objects get
  // identities from a counter.

  /** Entries with the same identity are the same object, hence equal. */
  ghost predicate SameObjects(events: seq<Event>, objects: seq<nat>)
  {
    && |objects| == |events|
    && forall i, j :: 0 <= i < |events| && 0 <= j < |events| && objects[i] == objects[j] ==> events[i] == events[j]
  }

  /** `count` freshly parsed objects, numbered from `next`. */
  function FreshObjects(next: nat, count: nat): (r: seq<nat>)
    ensures |r| == count
    ensures forall i :: 0 <= i < count ==> r[i] == next + i
  {
    seq(count, i requires 0 <= i < count => next + i)
  }

  /** The identities after a successful save: an update puts the returned
      object `newId` wherever `SavedList` puts the returned record; a
      creation appends it. */
  function SavedObjects(prev: seq<Event>, objects: seq<nat>, isUpdate: bool, updated: Event, newId: nat): (r: seq<nat>)
    requires |objects| == |prev|
    ensures isUpdate ==> |r| == |prev|
    ensures isUpdate ==> forall i :: 0 <= i < |prev| ==>
              r[i] == if EventCatalog.Matches(prev[i], EventCatalog.IdOf(updated)) then newId else objects[i]
    ensures !isUpdate ==> r == objects + [newId]
  {
    if !isUpdate then objects + [newId]
    else seq(|prev|, i requires 0 <= i < |prev| =>
               if EventCatalog.Matches(prev[i], EventCatalog.IdOf(updated)) then newId else objects[i])
  }

  /** The identities of the entries `RemoveById` keeps, in the same order. */
  function RemainingObjects(prev: seq<Event>, objects: seq<nat>, id: Option<Value>): (r: seq<nat>)
    requires |objects| == |prev|
    ensures |r| == |RemoveById(prev, id)|
    ensures forall i :: 0 <= i < |r| ==> r[i] in objects
  {
    if prev == [] then []
    else if EventCatalog.Matches(prev[0], id) then RemainingObjects(prev[1..], objects[1..], id)
    else [objects[0]] + RemainingObjects(prev[1..], objects[1..], id)
  }

  /** Each kept entry is some entry `j` of the old list, with its identity. */
  lemma {:induction false} RemainingCorrespond(prev: seq<Event>, objects: seq<nat>, id: Option<Value>, i: nat)
    returns (j: nat)
    requires |objects| == |prev| && i < |RemoveById(prev, id)|
    ensures j < |prev|
    ensures RemoveById(prev, id)[i] == prev[j] && RemainingObjects(prev, objects, id)[i] == objects[j]
  {
    if EventCatalog.Matches(prev[0], id) {
      var j' := RemainingCorrespond(prev[1..], objects[1..], id, i);
      j := j' + 1;
    } else if i == 0 {
      j := 0;
    } else {
      var j' := RemainingCorrespond(prev[1..], objects[1..], id, i - 1);
      j := j' + 1;
    }
  }

  /** Filtering keeps one object one object. */
  lemma RemoveKeepsSameObjects(prev: seq<Event>, objects: seq<nat>, id: Option<Value>)
    requires SameObjects(prev, objects)
    ensures SameObjects(RemoveById(prev, id), RemainingObjects(prev, objects, id))
  {
    var kept, ids := RemoveById(prev, id), RemainingObjects(prev, objects, id);
    forall a, b | 0 <= a < |kept| && 0 <= b < |kept| && ids[a] == ids[b]
      ensures kept[a] == kept[b]
    {
      var ja := RemainingCorrespond(prev, objects, id, a);
      var jb := RemainingCorrespond(prev, objects, id, b);
    }
  }

  /** `updatedAgenda[index][key] = value` changes a row object in place:
      every entry that is the object `owner` (whose rows the details hold)
      now has the edited agenda; other entries are untouched. */
  function EditedRows(events: seq<Event>, objects: seq<nat>, owner: nat, agenda: Value): (r: seq<Event>)
    requires |objects| == |events|
    ensures |r| == |events|
    ensures forall k :: 0 <= k < |events| ==>
              r[k] == if objects[k] == owner then WithField(events[k], "agenda", agenda) else events[k]
  {
    seq(|events|, k requires 0 <= k < |events| =>
          if objects[k] == owner then WithField(events[k], "agenda", agenda) else events[k])
  }

  /** The selection effect: with a truthy selected id, the details become
      the first event with that id (`undefined` when there is none), and
      their agenda rows are that object's rows; otherwise nothing changes. */
  function Synced(events: seq<Event>, objects: seq<nat>, selected: Option<Value>,
                  details: Option<Value>, rowsOwner: Option<nat>): (r: (Option<Value>, Option<nat>))
    requires |objects| == |events|
    ensures !Truthy(selected) ==> r == (details, rowsOwner)
    ensures Truthy(selected) && EventCatalog.NoMatch(events, selected) ==> r == (None, None)
    ensures Truthy(selected) && !EventCatalog.NoMatch(events, selected) ==>
              exists k :: EventCatalog.IsFirstMatch(events, selected, k)
                && r == (Some(Object(events[k])), Some(objects[k]))
  {
    if !Truthy(selected) then (details, rowsOwner)
    else
      var k := EventCatalog.FirstIndex(events, selected);
      if k == -1 then (None, None) else (Some(Object(events[k])), Some(objects[k]))
  }

  class Page {
    var events: seq<Event>
    var selectedEventId: Option<Value>
    var eventDetails: Option<Value>
    var isEditing: bool
    /** The identity of each list entry's object. */
    var objects: seq<nat>
    /** The next identity for a freshly parsed object. */
    var nextObject: nat
    /** The object whose agenda rows are the very row objects in
        `eventDetails.agenda`, if any. */
    var rowsOwner: Option<nat>
    var requests: seq<Request>
    var toasts: seq<Toast>

    /** The identities are consistent and below the counter, and every
        entry that is the rows' owner has exactly the details' agenda. */
    ghost predicate Valid()
      reads this
    {
      && SameObjects(events, objects)
      && (forall k :: 0 <= k < |objects| ==> objects[k] < nextObject)
      && (rowsOwner.Some? ==> rowsOwner.value < nextObject)
      && (rowsOwner.Some? ==>
            forall k :: 0 <= k < |events| && objects[k] == rowsOwner.value ==>
              AgendaOf(Some(Object(events[k]))) == AgendaOf(eventDetails))
    }

    constructor()
      ensures Valid()
      ensures events == [] && selectedEventId == Some(Null) && eventDetails == Some(Null)
      ensures !isEditing && objects == [] && nextObject == 0 && rowsOwner == None
      ensures requests == [] && toasts == []
    {
      events := [];
      selectedEventId := Some(Null);
      eventDetails := Some(Null);
      isEditing := false;
      objects := [];
      nextObject := 0;
      rowsOwner := None;
      requests := [];
      toasts := [];
    }

    /** The effect on `[selectedEventId, events]`, run after a change to
        either. */
    method SyncSelection()
      requires Valid()
      modifies this
      ensures Valid()
      ensures (eventDetails, rowsOwner) == Synced(events, objects, selectedEventId, old(eventDetails), old(rowsOwner))
      ensures events == old(events) && objects == old(objects) && nextObject == old(nextObject)
      ensures selectedEventId == old(selectedEventId)
      ensures isEditing == old(isEditing) && requests == old(requests) && toasts == old(toasts)
    {
      if Truthy(selectedEventId) {
        var k := EventCatalog.FindIndex(events, selectedEventId);
        if k == -1 {
          eventDetails := None;
          rowsOwner := None;
        } else {
          eventDetails := Some(Object(events[k]));
          rowsOwner := Some(objects[k]);
        }
      }
    }

    /** `fetchEvents`: the parsed list (all fresh objects) replaces the
        events, the first event's id becomes the selection, and the
        selection effect runs. */
    method LoadEvents(reply: ListReply)
      requires Valid()
      modifies this
      ensures Valid()
      ensures requests == old(requests) + [Request("GET", Collection, None)]
      ensures isEditing == old(isEditing)
      ensures reply.ListFailed? ==>
                events == old(events) && objects == old(objects) && nextObject == old(nextObject)
                && selectedEventId == old(selectedEventId)
                && eventDetails == old(eventDetails) && rowsOwner == old(rowsOwner)
                && toasts == old(toasts) + [LoadFailedToast]
      ensures reply.Listed? ==>
                && events == reply.records
                && objects == FreshObjects(old(nextObject), |reply.records|)
                && nextObject == old(nextObject) + |reply.records|
                && selectedEventId == (if |reply.records| > 0 then EventCatalog.IdOf(reply.records[0])
                                       else old(selectedEventId))
                && (eventDetails, rowsOwner) == Synced(events, objects, selectedEventId, old(eventDetails), None)
                && toasts == old(toasts)
    {
      requests := requests + [Request("GET", Collection, None)];
      match reply
      case ListFailed =>
        toasts := toasts + [LoadFailedToast];
      case Listed(records) =>
        events := records;
        objects := FreshObjects(nextObject, |records|);
        nextObject := nextObject + |records|;
        rowsOwner := None;
        if |records| > 0 {
          selectedEventId := EventCatalog.IdOf(records[0]);
        }
        SyncSelection();
    }

    /** The dropdown: `setSelectedEventId(Number(e.target.value))`; the
        effect runs when the value differs from the current selection. */
    method SelectFromDropdown(value: string)
      requires Valid()
      modifies this
      ensures Valid()
      ensures selectedEventId == Some(Number(JsNumber.StringToNumber(value)))
      ensures old(selectedEventId) == selectedEventId ==>
                eventDetails == old(eventDetails) && rowsOwner == old(rowsOwner)
      ensures old(selectedEventId) != selectedEventId ==>
                (eventDetails, rowsOwner) == Synced(events, objects, selectedEventId, old(eventDetails), old(rowsOwner))
      ensures events == old(events) && objects == old(objects) && nextObject == old(nextObject)
      ensures isEditing == old(isEditing) && requests == old(requests) && toasts == old(toasts)
    {
      var next := Some(Number(JsNumber.StringToNumber(value)));
      if next != selectedEventId {
        selectedEventId := next;
        SyncSelection();
      }
    }

    /** `handleInputChange`: the named property of the details takes the
        typed text; the agenda rows stay shared unless the agenda itself
        is overwritten. */
    method InputChange(name: string, value: string)
      requires Valid()
      modifies this
      ensures Valid()
      ensures eventDetails == Some(Object(WithField(PropsOf(old(eventDetails)), name, Str(value))))
      ensures rowsOwner == if name == "agenda" then None else old(rowsOwner)
      ensures events == old(events) && objects == old(objects) && nextObject == old(nextObject)
      ensures selectedEventId == old(selectedEventId)
      ensures isEditing == old(isEditing) && requests == old(requests) && toasts == old(toasts)
    {
      eventDetails := Some(Object(WithField(PropsOf(eventDetails), name, Str(value))));
      if name == "agenda" {
        rowsOwner := None;
      }
    }

    /** `handleArrayChange`: a copy of the named array with position
        `index` replaced; rendering only calls it for the highlights, at an
        index of that array. */
    method ArrayChange(field: string, index: nat, value: string)
      requires Valid()
      requires eventDetails.Some? && eventDetails.value.Object?
      requires field in eventDetails.value.props && eventDetails.value.props[field].Array?
      requires index < |eventDetails.value.props[field].items|
      modifies this
      ensures Valid()
      ensures eventDetails == Some(Object(WithField(old(eventDetails).value.props, field,
                Array(ReplaceAt(old(eventDetails).value.props[field].items, index, Str(value))))))
      ensures rowsOwner == if field == "agenda" then None else old(rowsOwner)
      ensures events == old(events) && objects == old(objects) && nextObject == old(nextObject)
      ensures selectedEventId == old(selectedEventId)
      ensures isEditing == old(isEditing) && requests == old(requests) && toasts == old(toasts)
    {
      var prev := eventDetails.value.props;
      var updated := ReplaceAt(prev[field].items, index, Str(value));
      eventDetails := Some(Object(WithField(prev, field, Array(updated))));
      if field == "agenda" {
        rowsOwner := None;
      }
    }

    /** `handleAgendaChange`: the agenda array is copied but its row is
        changed in place, so every list entry that is the object the rows
        belong to sees the edit too. */
    method AgendaChange(index: nat, key: string, value: string)
      requires Valid()
      requires AgendaOf(eventDetails).Some? && AgendaOf(eventDetails).value.Array?
      requires index < |AgendaOf(eventDetails).value.items|
      requires AgendaOf(eventDetails).value.items[index].Object?
      modifies this
      ensures Valid()
      ensures var rows := AgendaOf(old(eventDetails)).value.items;
              var agenda := Array(ReplaceAt(rows, index, Object(WithField(rows[index].props, key, Str(value)))));
              && eventDetails == Some(Object(WithField(old(eventDetails).value.props, "agenda", agenda)))
              && (old(rowsOwner).None? ==> events == old(events))
              && (old(rowsOwner).Some? ==> events == EditedRows(old(events), old(objects), old(rowsOwner).value, agenda))
      ensures rowsOwner == old(rowsOwner) && objects == old(objects) && nextObject == old(nextObject)
      ensures selectedEventId == old(selectedEventId)
      ensures isEditing == old(isEditing) && requests == old(requests) && toasts == old(toasts)
    {
      var rows := AgendaOf(eventDetails).value.items;
      var row := Object(WithField(rows[index].props, key, Str(value)));
      var agenda := Array(ReplaceAt(rows, index, row));
      eventDetails := Some(Object(WithField(eventDetails.value.props, "agenda", agenda)));
      if rowsOwner.Some? {
        events := EditedRows(events, objects, rowsOwner.value, agenda);
      }
    }

    /** The Edit button. */
    method StartEditing()
      requires Valid()
      modifies this
      ensures Valid()
      ensures isEditing
      ensures events == old(events) && objects == old(objects) && nextObject == old(nextObject)
      ensures selectedEventId == old(selectedEventId)
      ensures eventDetails == old(eventDetails) && rowsOwner == old(rowsOwner)
      ensures requests == old(requests) && toasts == old(toasts)
    {
      isEditing := true;
    }

    /** `handleSaveEvent`: editing ends first; the details go out with PUT
        when their id is truthy and with POST otherwise; a successful reply
        (one freshly parsed object) updates the list and the selection
        effect runs. */
    method SaveEvent(reply: SaveReply)
      requires Valid()
      modifies this
      ensures Valid()
      ensures !isEditing
      ensures var isUpdate := Truthy(IdOf(old(eventDetails)));
              requests == old(requests) + [Request(if isUpdate then "PUT" else "POST", Collection, old(eventDetails))]
      ensures selectedEventId == old(selectedEventId)
      ensures reply.SaveFailed? ==>
                events == old(events) && objects == old(objects) && nextObject == old(nextObject)
                && eventDetails == old(eventDetails) && rowsOwner == old(rowsOwner)
                && toasts == old(toasts) + [SaveFailedToast]
      ensures reply.Saved? ==>
                var isUpdate := Truthy(IdOf(old(eventDetails)));
                && events == SavedList(old(events), isUpdate, reply.record)
                && objects == SavedObjects(old(events), old(objects), isUpdate, reply.record, old(nextObject))
                && nextObject == old(nextObject) + 1
                && toasts == old(toasts) + [SavedToast]
                && (eventDetails, rowsOwner) == Synced(events, objects, selectedEventId, old(eventDetails), old(rowsOwner))
    {
      isEditing := false;
      var isUpdate := Truthy(IdOf(eventDetails));
      requests := requests + [Request(if isUpdate then "PUT" else "POST", Collection, eventDetails)];
      match reply
      case SaveFailed =>
        toasts := toasts + [SaveFailedToast];
      case Saved(record) =>
        SavedKeepsValid(events, objects, isUpdate, record, nextObject, rowsOwner, eventDetails);
        objects := SavedObjects(events, objects, isUpdate, record, nextObject);
        events := SavedList(events, isUpdate, record);
        nextObject := nextObject + 1;
        toasts := toasts + [SavedToast];
        SyncSelection();
    }

    /** `handleDelete`: after confirmation, a DELETE to the item path; on
        success every event with the selected id is filtered out and both
        the details and the selection are cleared. */
    method Delete(confirmed: bool, reply: DeleteReply)
      requires Valid()
      modifies this
      ensures Valid()
      ensures !confirmed ==>
                events == old(events) && selectedEventId == old(selectedEventId)
                && eventDetails == old(eventDetails) && rowsOwner == old(rowsOwner)
                && requests == old(requests) && toasts == old(toasts)
      ensures confirmed ==> requests == old(requests) + [Request("DELETE", Item(old(selectedEventId)), None)]
      ensures confirmed && reply.DeleteFailed? ==>
                events == old(events) && selectedEventId == old(selectedEventId)
                && eventDetails == old(eventDetails) && rowsOwner == old(rowsOwner)
                && toasts == old(toasts) + [DeleteFailedToast]
      ensures confirmed && reply.Deleted? ==>
                events == RemoveById(old(events), old(selectedEventId))
                && objects == RemainingObjects(old(events), old(objects), old(selectedEventId))
                && eventDetails == Some(Null) && selectedEventId == Some(Null) && rowsOwner == None
                && toasts == old(toasts) + [DeletedToast]
      ensures !(confirmed && reply.Deleted?) ==> objects == old(objects)
      ensures isEditing == old(isEditing) && nextObject == old(nextObject)
    {
      if confirmed {
        requests := requests + [Request("DELETE", Item(selectedEventId), None)];
        match reply
        case DeleteFailed =>
          toasts := toasts + [DeleteFailedToast];
        case Deleted =>
          RemoveKeepsSameObjects(events, objects, selectedEventId);
          objects := RemainingObjects(events, objects, selectedEventId);
          events := RemoveById(events, selectedEventId);
          eventDetails := Some(Null);
          selectedEventId := Some(Null);
          rowsOwner := None;
          toasts := toasts + [DeletedToast];
          SyncSelection();
      }
    }

    /** `handleAddNewEvent`: a blank record, no selection, editing on. */
    method AddNewEvent()
      requires Valid()
      modifies this
      ensures Valid()
      ensures eventDetails == Some(Object(BlankEvent)) && selectedEventId == Some(Null)
      ensures isEditing && rowsOwner == None
      ensures events == old(events) && objects == old(objects) && nextObject == old(nextObject)
      ensures requests == old(requests) && toasts == old(toasts)
    {
      eventDetails := Some(Object(BlankEvent));
      selectedEventId := Some(Null);
      isEditing := true;
      rowsOwner := None;
      SyncSelection();
    }
  }

  /** A save replaces entries by one fresh object, so the identities stay
      consistent and the entries that own the details' rows are untouched. */
  lemma SavedKeepsValid(events: seq<Event>, objects: seq<nat>, isUpdate: bool, updated: Event,
                        newId: nat, rowsOwner: Option<nat>, details: Option<Value>)
    requires SameObjects(events, objects)
    requires forall k :: 0 <= k < |objects| ==> objects[k] < newId
    requires rowsOwner.Some? ==>
               forall k :: 0 <= k < |events| && objects[k] == rowsOwner.value ==>
                 AgendaOf(Some(Object(events[k]))) == AgendaOf(details)
    requires rowsOwner.Some? ==> rowsOwner.value < newId
    ensures var list, ids := SavedList(events, isUpdate, updated), SavedObjects(events, objects, isUpdate, updated, newId);
            && SameObjects(list, ids)
            && (forall k :: 0 <= k < |ids| ==> ids[k] < newId + 1)
            && (rowsOwner.Some? ==>
                  forall k :: 0 <= k < |list| && ids[k] == rowsOwner.value ==>
                    AgendaOf(Some(Object(list[k]))) == AgendaOf(details))
  {
    var list, ids := SavedList(events, isUpdate, updated), SavedObjects(events, objects, isUpdate, updated, newId);
    if !isUpdate {
      forall k | 0 <= k < |events| ensures list[k] == events[k] && ids[k] == objects[k] {
      }
    }
  }

  /** `eventDetails?.id`. */
  function IdOf(d: Option<Value>): Option<Value>
  {
    if d.Some? && d.value.Object? then Get(d.value.props, "id") else None
  }

  // ----- Properties -----

  /** A primitive id other than NaN is strictly equal to itself, so the
      first event carrying it is found. */
  lemma PrimitiveIdFound(events: seq<Event>, k: nat)
    requires k < |events| && EventCatalog.IdOf(events[k]).Some?
    requires var v := EventCatalog.IdOf(events[k]).value;
             v.Null? || v.Bool? || v.Str? || (v.Number? && v.n != NaN)
    requires forall j :: 0 <= j < k ==> !EventCatalog.Matches(events[j], EventCatalog.IdOf(events[k]))
    ensures EventCatalog.FirstIndex(events, EventCatalog.IdOf(events[k])) == k
  {
    assert EventCatalog.IsFirstMatch(events, EventCatalog.IdOf(events[k]), k);
    var first := EventCatalog.FirstIndex(events, EventCatalog.IdOf(events[k]));
    assert EventCatalog.IsFirstMatch(events, EventCatalog.IdOf(events[k]), first);
  }

  /** The selection effect with a truthy selection takes its first match. */
  lemma SyncedFindsFirst(events: seq<Event>, objects: seq<nat>, selected: Option<Value>,
                         details: Option<Value>, rowsOwner: Option<nat>, k: nat)
    requires |objects| == |events| && Truthy(selected) && EventCatalog.IsFirstMatch(events, selected, k)
    ensures Synced(events, objects, selected, details, rowsOwner) == (Some(Object(events[k])), Some(objects[k]))
  {
    var f := EventCatalog.FirstIndex(events, selected);
    assert f != -1;
    assert f == k;
  }

  /** After a load with a non-empty list whose first id is a truthy
      primitive, the details are the first event. */
  lemma LoadSelectsFirst(records: seq<Event>, next: nat)
    requires |records| > 0 && Truthy(EventCatalog.IdOf(records[0]))
    requires !EventCatalog.IdOf(records[0]).value.Array? && !EventCatalog.IdOf(records[0]).value.Object?
    ensures Synced(records, FreshObjects(next, |records|), EventCatalog.IdOf(records[0]), Some(Null), None)
            == (Some(Object(records[0])), Some(next))
  {
    PrimitiveIdFound(records, 0);
  }

  /** An object or array id is never strictly equal to the selection (a
      fresh value each time), so such an event is never selected. */
  lemma ObjectIdNeverSelected(records: seq<Event>, objects: seq<nat>, props: Obj)
    requires |records| > 0 && |objects| == |records| && EventCatalog.IdOf(records[0]) == Some(Object(props))
    ensures Synced(records, objects, EventCatalog.IdOf(records[0]), Some(Null), None) == (None, None)
  {
    forall j | 0 <= j < |records|
      ensures !EventCatalog.Matches(records[j], Some(Object(props)))
    {
    }
  }

  /** Choosing an event with numeric id `n` in the dropdown (its option
      value is the decimal text of `n`) selects exactly that id. */
  lemma DropdownRoundTrip(n: nat)
    ensures Some(Number(JsNumber.StringToNumber(JsNumber.NatToDecimal(n)))) == Some(Number(Finite(n as real)))
  {
    JsNumber.NumberOfDecimal(n);
  }

  /** Editing two different fields commutes; editing one field twice keeps
      the second value. */
  lemma WithFieldLaws(d: Obj, a: string, b: string, x: Value, y: Value)
    ensures a != b ==> WithField(WithField(d, a, x), b, y) == WithField(WithField(d, b, y), a, x)
    ensures WithField(WithField(d, a, x), a, y) == WithField(d, a, y)
  {
  }

  /** After a successful update every entry that carried the returned id is
      the returned record, and every other entry is untouched. */
  lemma {:induction false} SavedListReplacesMatches(prev: seq<Event>, updated: Event, i: nat)
    requires i < |prev|
    ensures EventCatalog.Matches(prev[i], EventCatalog.IdOf(updated)) ==> SavedList(prev, true, updated)[i] == updated
    ensures !EventCatalog.Matches(prev[i], EventCatalog.IdOf(updated)) ==> SavedList(prev, true, updated)[i] == prev[i]
  {
  }

  /** Filtering keeps the order of what it keeps: it distributes over
      concatenation. */
  lemma {:induction false} RemoveByIdDistributes(a: seq<Event>, b: seq<Event>, id: Option<Value>)
    ensures RemoveById(a + b, id) == RemoveById(a, id) + RemoveById(b, id)
  {
    if a == [] {
      assert a + b == b;
    } else {
      assert (a + b)[0] == a[0];
      assert (a + b)[1..] == a[1..] + b;
      RemoveByIdDistributes(a[1..], b, id);
    }
  }

  /** Filtering removes exactly the strictly-equal entries: it keeps every
      other entry and leaves a list without matches as it is. */
  lemma {:induction false} RemoveByIdKeepsOthers(prev: seq<Event>, id: Option<Value>, i: nat)
    requires i < |prev| && !EventCatalog.Matches(prev[i], id)
    ensures prev[i] in RemoveById(prev, id)
  {
    if i > 0 {
      RemoveByIdKeepsOthers(prev[1..], id, i - 1);
    }
  }

  lemma {:induction false} RemoveByIdWithoutMatches(prev: seq<Event>, id: Option<Value>)
    requires EventCatalog.NoMatch(prev, id)
    ensures RemoveById(prev, id) == prev
  {
    if prev != [] {
      assert !EventCatalog.Matches(prev[0], id);
      RemoveByIdWithoutMatches(prev[1..], id);
    }
  }

  /** Against the catalogue: the blank record has a falsy id, so it is
      POSTed, and because the body's `id: null` overrides the timestamp the
      catalogue stores it with id null. */
  lemma BlankEventStoredWithNullId(events: seq<Event>, now: int)
    ensures !Truthy(IdOf(Some(Object(BlankEvent))))
    ensures EventCatalog.PostOutcome(events, BlankEvent, now).events[|events|]["id"] == Null
  {
  }

  /** Against the catalogue: the delete request carries the id in the path
      and no `id` query parameter, and the handler answers a DELETE without
      one with "Event not found", changing nothing. */
  lemma DeleteRequestNotUnderstood(events: seq<Event>, now: int)
    ensures EventCatalog.HandleOutcome(events, EventCatalog.Request("DELETE", None, map[]), now)
            == EventCatalog.Outcome(events, EventCatalog.EventNotFound)
  {
    EventCatalog.DeleteWithoutQueryIdNotFound(events);
  }

  /** Two entries with one id become one object after an update, so an
      agenda edit made through the details reaches both: load [a, b, c]
      where a and c carry id 1, retitle, save with the reply `saved`, then
      edit the first agenda row. */
  method DuplicateIdsShareRows(a: Event, b: Event, c: Event, title: string,
                               saved: Event, row: Obj, key: string, value: string)
    returns (p: Page)
    requires EventCatalog.IdOf(a) == Some(Number(Finite(1.0))) && EventCatalog.IdOf(c) == Some(Number(Finite(1.0)))
    requires EventCatalog.IdOf(b) == Some(Number(Finite(2.0)))
    requires EventCatalog.IdOf(saved) == Some(Number(Finite(1.0)))
    requires AgendaOf(Some(Object(saved))) == Some(Array([Object(row)]))
    ensures |p.events| == 3 && p.events[0] == p.events[2] && p.events[1] == b
    ensures AgendaOf(Some(Object(p.events[0]))) == Some(Array([Object(WithField(row, key, Str(value)))]))
    ensures p.eventDetails == Some(Object(p.events[0]))
  {
    p := LoadAndRetitle(a, b, c, title);
    SaveDuplicates(p, a, b, c, saved);
    EditSharedRow(p, saved, row, key, value);
  }

  /** The first two steps: the list loads, a is selected, its title changes. */
  method LoadAndRetitle(a: Event, b: Event, c: Event, title: string) returns (p: Page)
    requires EventCatalog.IdOf(a) == Some(Number(Finite(1.0)))
    ensures fresh(p) && p.Valid()
    ensures p.events == [a, b, c] && p.selectedEventId == Some(Number(Finite(1.0)))
    ensures IdOf(p.eventDetails) == Some(Number(Finite(1.0)))
  {
    var one := Some(Number(Finite(1.0)));
    p := new Page();
    p.LoadEvents(Listed([a, b, c]));
    SyncedFindsFirst(p.events, p.objects, one, Some(Null), None, 0);
    assert p.eventDetails == Some(Object(a));
    p.InputChange("title", title);
  }

  /** The update reply replaces a and c by one object, which becomes the
      details and the owner of their rows. */
  method SaveDuplicates(p: Page, a: Event, b: Event, c: Event, saved: Event)
    requires p.Valid() && p.events == [a, b, c] && p.selectedEventId == Some(Number(Finite(1.0)))
    requires IdOf(p.eventDetails) == Some(Number(Finite(1.0)))
    requires EventCatalog.IdOf(a) == Some(Number(Finite(1.0))) && EventCatalog.IdOf(c) == Some(Number(Finite(1.0)))
    requires EventCatalog.IdOf(b) == Some(Number(Finite(2.0)))
    requires EventCatalog.IdOf(saved) == Some(Number(Finite(1.0)))
    modifies p
    ensures p.Valid() && p.events == [saved, b, saved] && p.objects[0] == p.objects[2]
    ensures p.objects[1] != p.objects[0]
    ensures p.eventDetails == Some(Object(saved)) && p.rowsOwner == Some(p.objects[0])
  {
    var one := Some(Number(Finite(1.0)));
    p.SaveEvent(Saved(saved));
    assert p.events == [saved, b, saved] by {
      SavedListReplacesMatches([a, b, c], saved, 0);
      SavedListReplacesMatches([a, b, c], saved, 1);
      SavedListReplacesMatches([a, b, c], saved, 2);
    }
    SyncedFindsFirst(p.events, p.objects, one, old(p.eventDetails), old(p.rowsOwner), 0);
    assert p.objects[1] == old(p.objects[1]) < old(p.nextObject) == p.objects[0];
  }

  /** The row edit made through the details reaches both entries. */
  method EditSharedRow(p: Page, saved: Event, row: Obj, key: string, value: string)
    requires p.Valid() && |p.events| == 3 && p.events[0] == saved && p.events[2] == saved
    requires p.objects[0] == p.objects[2] && p.objects[1] != p.objects[0]
    requires p.eventDetails == Some(Object(saved)) && p.rowsOwner == Some(p.objects[0])
    requires AgendaOf(Some(Object(saved))) == Some(Array([Object(row)]))
    modifies p
    ensures |p.events| == 3 && p.events[0] == p.events[2] && p.events[1] == old(p.events[1])
    ensures AgendaOf(Some(Object(p.events[0]))) == Some(Array([Object(WithField(row, key, Str(value)))]))
    ensures p.eventDetails == Some(Object(p.events[0]))
  {
    var edited := Object(WithField(row, key, Str(value)));
    p.AgendaChange(0, key, value);
    assert ReplaceAt([Object(row)], 0, edited) == [edited];
    assert p.events[0] == WithField(saved, "agenda", Array([edited]));
  }
}
