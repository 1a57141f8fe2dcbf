/** The event enrolment page: it loads one event from the catalogue when
    the route supplies an id, shows a loading, error, not-found or event
    screen, and hosts the enrolment form, whose submission is validated,
    saved, and then reveals the payment button. Network replies are inputs;
    requests and toasts are recorded in logs. */
module EnrolPage {
  import opened Js
  import JsNumber
  import PriceText
  import EventCatalog
  import opened Ui

  /** `Object.keys(v).length` for a non-nullish value: the properties of an
      object, the indices of an array or a string, none for a number or a
      boolean. */
  function KeyCount(v: Value): nat
  {
    match v
    case Object(props) => |props|
    case Array(items) => |items|
    case Str(s) => |s|
    case _ => 0
  }

  /** How loading ended: with event data, or with an error message. */
  datatype Loaded = Loaded(event: Value) | LoadFailed(message: string)

  const NoData := "No event data received"

  function HttpError(status: nat): string
  {
    "HTTP error! status: " + JsNumber.NatToDecimal(status)
  }

  /** The outcome of the `try` block of `fetchEvent`: a non-ok status, a
      falsy payload and a payload without keys are errors. */
  function LoadResult(reply: Fetched): (r: Loaded)
    ensures r.Loaded? <==> reply.Reply? && Ok(reply.status) && reply.body.Json?
                           && Truthy(Some(reply.body.data)) && KeyCount(reply.body.data) > 0
    ensures r.Loaded? ==> r.event == reply.body.data
    ensures reply.Reply? && !Ok(reply.status) ==> r == LoadFailed(HttpError(reply.status))
    ensures reply.Reply? && Ok(reply.status) && reply.body.Json? && r.LoadFailed? ==> r.message == NoData
  {
    match reply
    case NetworkError(m) => LoadFailed(m)
    case Reply(status, body) =>
      if !Ok(status) then LoadFailed(HttpError(status))
      else
        match body
        case Unparsable(m) => LoadFailed(m)
        case Json(data) =>
          if !Truthy(Some(data)) || KeyCount(data) == 0 then LoadFailed(NoData) else Loaded(data)
  }

  /** The catalogue request for route id `id`. */
  function EventUrl(id: string): string
  {
    "/api/adminDetail/eventdetail?id=" + id
  }

  /** What the page renders. */
  datatype Screen = LoadingScreen | ErrorScreen(message: string) | NotFoundScreen | EventScreen(event: Value)

  /** The chain of early returns in the render. */
  function ScreenOf(isLoading: bool, error: Option<string>, event: Value): (s: Screen)
    ensures isLoading ==> s == LoadingScreen
    ensures !isLoading && error.Some? && error.value != "" ==> s == ErrorScreen(error.value)
    ensures s.EventScreen? ==> Truthy(Some(event)) && s.event == event
  {
    if isLoading then LoadingScreen
    else if error.Some? && error.value != "" then ErrorScreen(error.value)
    else if !Truthy(Some(event)) then NotFoundScreen
    else EventScreen(event)
  }

  class EventDetailsPage {
    var event: Value
    var isFormVisible: bool
    var isLoading: bool
    var error: Option<string>
    var requests: seq<string>
    var toasts: seq<Toast>

    constructor()
      ensures event == Null && !isFormVisible && isLoading && error == None
      ensures requests == [] && toasts == []
    {
      event := Null;
      isFormVisible := false;
      isLoading := true;
      error := None;
      requests := [];
      toasts := [];
    }

    function View(): Screen
      reads this
    {
      ScreenOf(isLoading, error, event)
    }

    /** The mount effect: `fetchEvent` runs only for a truthy id; it clears
        the error, requests the event, stores the data or the error message
        (with a toast), and always ends with `isLoading` false. */
    method Mount(id: Option<string>, reply: Fetched)
      modifies this
      ensures (id.None? || id == Some("")) ==>
                event == old(event) && isLoading == old(isLoading) && error == old(error)
                && requests == old(requests) && toasts == old(toasts)
      ensures id.Some? && id.value != "" ==>
                && requests == old(requests) + [EventUrl(id.value)]
                && !isLoading
                && (LoadResult(reply).Loaded? ==>
                      event == LoadResult(reply).event && error == None && toasts == old(toasts))
                && (LoadResult(reply).LoadFailed? ==>
                      && event == old(event)
                      && error == Some(LoadResult(reply).message)
                      && toasts == old(toasts)
                         + [Toast("Error", "Could not load event details. " + LoadResult(reply).message, "destructive")])
      ensures isFormVisible == old(isFormVisible)
    {
      if id.Some? && id.value != "" {
        isLoading := true;
        error := None;
        requests := requests + [EventUrl(id.value)];
        var result := LoadResult(reply);
        if result.Loaded? {
          event := result.event;
        } else {
          error := Some(result.message);
          toasts := toasts + [Toast("Error", "Could not load event details. " + result.message, "destructive")];
        }
        isLoading := false;
      }
    }

    method RegisterNow()
      modifies this
      ensures isFormVisible
      ensures event == old(event) && isLoading == old(isLoading) && error == old(error)
      ensures requests == old(requests) && toasts == old(toasts)
    {
      isFormVisible := true;
    }

    method CloseForm()
      modifies this
      ensures !isFormVisible
      ensures event == old(event) && isLoading == old(isLoading) && error == old(error)
      ensures requests == old(requests) && toasts == old(toasts)
    {
      isFormVisible := false;
    }
  }

  /** The screen once a fetch has finished: the event when it loaded, the
      error message otherwise (an empty message falls through to "not
      found" or the previous event). */
  lemma ScreenAfterLoad(reply: Fetched, previous: Value)
    ensures LoadResult(reply).Loaded? ==>
              ScreenOf(false, None, LoadResult(reply).event) == EventScreen(LoadResult(reply).event)
    ensures LoadResult(reply).LoadFailed? && LoadResult(reply).message != "" ==>
              ScreenOf(false, Some(LoadResult(reply).message), previous) == ErrorScreen(LoadResult(reply).message)
  {
  }

  /** With no id (or an empty one) the page never fetches: whatever the
      server would answer, a freshly mounted page stays on the loading
      screen and sends nothing. */
  method NoIdStaysLoading(id: Option<string>, reply: Fetched) returns (p: EventDetailsPage)
    requires id.None? || id == Some("")
    ensures p.View() == LoadingScreen
    ensures p.requests == [] && p.toasts == []
  {
    p := new EventDetailsPage();
    p.Mount(id, reply);
  }

  /** An empty object, `null` and an empty array are all "No event data
      received"; an object with a property loads. */
  lemma EmptyPayloads(status: nat, key: string, v: Value)
    requires Ok(status)
    ensures LoadResult(Reply(status, Json(Object(map[])))) == LoadFailed(NoData)
    ensures LoadResult(Reply(status, Json(Null))) == LoadFailed(NoData)
    ensures LoadResult(Reply(status, Json(Array([])))) == LoadFailed(NoData)
    ensures LoadResult(Reply(status, Json(Object(map[key := v])))) == Loaded(Object(map[key := v]))
  {
    assert |map[key := v]| == 1;
  }

  /** Against the catalogue: a route id that matches no record gets the
      handler's 404, which the page reports as "HTTP error! status: 404". */
  lemma UnknownIdReportsHttpError(events: seq<EventCatalog.Record>, id: string)
    requires id != ""
    requires EventCatalog.NoMatch(events, EventCatalog.QueryTarget(Some(id)))
    ensures EventCatalog.GetResponse(events, Some(id)) == EventCatalog.EventNotFound
    ensures LoadResult(Reply(404, Json(EventCatalog.EventNotFound.body))) == LoadFailed("HTTP error! status: 404")
  {
    NotFoundText();
  }

  lemma NotFoundText()
    ensures HttpError(404) == "HTTP error! status: 404"
  {
    assert JsNumber.NatToDecimal(4) == "4";
    assert JsNumber.NatToDecimal(40) == "40";
  }

  /** Against the catalogue: a route id that matches a record loads that
      record (every matching record has an `id` property, so it has keys). */
  lemma KnownIdLoads(events: seq<EventCatalog.Record>, id: string, k: int)
    requires id != ""
    requires EventCatalog.IsFirstMatch(events, EventCatalog.QueryTarget(Some(id)), k)
    ensures EventCatalog.GetResponse(events, Some(id)) == EventCatalog.Response(200, Object(events[k]))
    ensures LoadResult(Reply(200, Json(Object(events[k])))) == Loaded(Object(events[k]))
  {
    EventCatalog.GetFindsFirstMatch(events, Some(id), k);
    assert "id" in events[k];
    assert |events[k]| > 0;
  }

  // ----- The enrolment form -----

  /** The form's fields, in the order they are declared and rendered. */
  const Fields: seq<string> := ["name", "contactNumber", "stream", "qualification"]

  const ValidationToast := Toast("Validation Error", "Please fill out all the fields before enrolling.", "destructive")
  const SavedToast := Toast("Data Saved", "Your details have been saved. Please proceed with the payment.", "success")
  const SaveFailedToast := Toast("Error", "Failed to save event data. Please try again.", "destructive")

  /** The endpoint the form posts to, spelled as in the source. */
  const SheetEndpoint := "/api/googleSheetss"

  datatype SheetRequest = SheetRequest(url: string, data: map<string, string>)

  /** `Object.values(formData).some((value) => !value)`. */
  predicate HasEmptyField(data: map<string, string>)
  {
    exists k :: k in data && data[k] == ""
  }

  /** `result.success` is truthy; a JSON reply that is not an object, a
      failed request or an unparsable body all take the error path. */
  predicate SaveAccepted(reply: Fetched)
  {
    reply.Reply? && reply.body.Json? && reply.body.data.Object?
    && Truthy(Get(reply.body.data.props, "success"))
  }

  class EventForm {
    var formData: map<string, string>
    var showPayment: bool
    var requests: seq<SheetRequest>
    var toasts: seq<Toast>

    constructor()
      ensures formData == map["name" := "", "contactNumber" := "", "stream" := "", "qualification" := ""]
      ensures !showPayment && requests == [] && toasts == []
    {
      formData := map["name" := "", "contactNumber" := "", "stream" := "", "qualification" := ""];
      showPayment := false;
      requests := [];
      toasts := [];
    }

    /** `handleInputChange`: the named field takes the new value. */
    method InputChange(name: string, value: string)
      modifies this
      ensures formData == old(formData)[name := value]
      ensures showPayment == old(showPayment) && requests == old(requests) && toasts == old(toasts)
    {
      formData := formData[name := value];
    }

    /** `handleFormSubmit`: an empty field stops submission with a toast and
        no request; otherwise the data is posted and `showPayment` turns on
        only when the save is accepted. */
    method Submit(reply: Fetched)
      modifies this
      ensures formData == old(formData)
      ensures HasEmptyField(old(formData)) ==>
                requests == old(requests) && showPayment == old(showPayment)
                && toasts == old(toasts) + [ValidationToast]
      ensures !HasEmptyField(old(formData)) ==>
                && requests == old(requests) + [SheetRequest(SheetEndpoint, old(formData))]
                && (SaveAccepted(reply) ==> showPayment && toasts == old(toasts) + [SavedToast])
                && (!SaveAccepted(reply) ==> showPayment == old(showPayment) && toasts == old(toasts) + [SaveFailedToast])
    {
      if HasEmptyField(formData) {
        toasts := toasts + [ValidationToast];
        return;
      }
      requests := requests + [SheetRequest(SheetEndpoint, formData)];
      if SaveAccepted(reply) {
        showPayment := true;
        toasts := toasts + [SavedToast];
      } else {
        toasts := toasts + [SaveFailedToast];
      }
    }
  }

  /** A freshly opened form cannot be submitted: every field is empty. */
  lemma FreshFormIsRejected()
    ensures HasEmptyField(map["name" := "", "contactNumber" := "", "stream" := "", "qualification" := ""])
  {
    var m := map["name" := "", "contactNumber" := "", "stream" := "", "qualification" := ""];
    assert "name" in m && m["name"] == "";
  }

  /** Submission goes ahead exactly when every field is filled in. */
  lemma SubmitIffAllFilled(data: map<string, string>)
    ensures !HasEmptyField(data) <==> forall k :: k in data ==> data[k] != ""
  {
  }

  /** ASCII upper-casing of one character (other scripts are not modelled). */
  function ToUpperChar(c: char): (d: char)
    ensures !('a' <= d <= 'z')
    ensures !('a' <= c <= 'z') ==> d == c
  {
    if 'a' <= c <= 'z' then (c as int - 'a' as int + 'A' as int) as char else c
  }

  /** `key.charAt(0).toUpperCase() + key.slice(1)`. */
  function Label(key: string): (r: string)
    ensures |r| == |key|
    ensures key != "" ==> r[0] == ToUpperChar(key[0]) && r[1..] == key[1..]
  {
    if key == "" then "" else [ToUpperChar(key[0])] + key[1..]
  }

  /** The rendered labels of the four fields. */
  lemma FieldLabels()
    ensures Label(Fields[0]) == "Name"
    ensures Label(Fields[1]) == "ContactNumber"
    ensures Label(Fields[2]) == "Stream"
    ensures Label(Fields[3]) == "Qualification"
  {
    NameLabel();
    ContactNumberLabel();
    StreamLabel();
    QualificationLabel();
  }

  // The rendered label of each field, one field at a time.
  lemma NameLabel() ensures Label(Fields[0]) == "Name" {}
  lemma ContactNumberLabel() ensures Label(Fields[1]) == "ContactNumber" {}
  lemma StreamLabel() ensures Label(Fields[2]) == "Stream" {}
  lemma QualificationLabel() ensures Label(Fields[3]) == "Qualification" {}

  /** Capitalising a label again changes nothing. */
  lemma LabelIdempotent(key: string)
    ensures Label(Label(key)) == Label(key)
  {
    if key != "" {
      assert Label(key)[1..] == key[1..];
    }
  }

  /** `key === 'contactNumber' ? 'tel' : 'text'`. */
  function InputType(key: string): (t: string)
    ensures t == "tel" <==> key == "contactNumber"
    ensures t == "text" <==> key != "contactNumber"
  {
    if key == "contactNumber" then "tel" else "text"
  }

  /** Only the second field is a telephone input. */
  lemma FieldTypes()
    ensures forall i :: 0 <= i < |Fields| ==> InputType(Fields[i]) == (if i == 1 then "tel" else "text")
  {
  }

  /** `(event?.price || '0')` followed by the price-text rule: a missing or
      falsy price is "0", a string price is stripped, and any other truthy
      price makes `.replace` throw (`None`). */
  function PriceFloatText(event: Obj): (r: Option<string>)
    ensures !Truthy(Get(event, "price")) ==> r == Some("0")
    ensures Truthy(Get(event, "price")) && event["price"].Str? ==>
              r == Some(PriceText.StripNonNumeric(event["price"].s))
    ensures Truthy(Get(event, "price")) && !event["price"].Str? ==> r == None
  {
    var price := Get(event, "price");
    if !Truthy(price) then
      assert PriceText.StripNonNumeric("0") == "0";
      Some(PriceText.PriceText("0"))
    else if price.value.Str? then
      PriceText.CommaReplaceIsNoOp(price.value.s);
      Some(PriceText.PriceText(price.value.s))
    else None
  }

  /** Unlike the workshop page, the form has no "Free" case: "Free" strips
      to the empty text, which `parseFloat` turns into NaN. */
  lemma FreeIsNotSpecial(event: Obj)
    requires Get(event, "price") == Some(Str("Free"))
    ensures PriceFloatText(event) == Some("")
  {
  }

  /** The second seed event's price "1,999 Rs" is charged as "1999". */
  lemma SeedPrice()
    ensures PriceFloatText(EventCatalog.Seed[1]) == Some("1999")
  {
    PriceText.Example("1,999 Rs");
    PriceText.CommaReplaceIsNoOp("1,999 Rs");
  }
}
