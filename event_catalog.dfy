/** The event catalogue API handler: a module-level array of event records,
    served by one request handler that answers GET (one record by id, or the
    whole list), POST (append), PUT (merge by id), DELETE (remove by id) and
    405 for any other method. The array lives in the server process and is
    changed in place; it is modelled as the `events` field of `Catalog`,
    and every handler branch also has a value-level specification
    (`GetResponse`, `PostOutcome`, `PutOutcome`, `DeleteOutcome`). */
module EventCatalog {
  import opened Js
  import JsNumber

  /** An event record: a JSON object. */
  type Record = Obj

  datatype Response = Response(status: int, body: Value)

  /** The new contents of the store and the response of one request. */
  datatype Outcome = Outcome(events: seq<Record>, response: Response)

  /** An HTTP request as the handler sees it: the method, the `id` query
      parameter (absent, or one string) and the parsed JSON body object. */
  datatype Request = Request(verb: string, queryId: Option<string>, body: Obj)

  function Message(text: string): Value
  {
    Object(map["message" := Str(text)])
  }

  const EventNotFound: Response := Response(404, Message("Event not found"))
  const MethodNotAllowed: Response := Response(405, Message("Method not allowed"))

  function AgendaItem(time: string, session: string, speaker: string): Value
  {
    Object(map["time" := Str(time), "session" := Str(session), "speaker" := Str(speaker)])
  }

  /** A seed record: its `id` and `price` together with its other fields. */
  function SeedEvent(id: real, price: string, rest: Obj): (r: Record)
    ensures Get(r, "id") == Some(Number(Finite(id)))
    ensures Get(r, "price") == Some(Str(price))
  {
    rest["price" := Str(price)]["id" := Number(Finite(id))]
  }

  /** The two records the array holds when the server process starts. */
  const Seed: seq<Record> := [
    SeedEvent(1.0, "Free", map[
      "title" := Str("AI and Machine Learning Summit 2024"),
      "organizer" := Str("Tech Corp"),
      "date" := Str("November 15, 2024"),
      "location" := Str("New York City, NY"),
      "imageUrl" := Str("https://www.rrce.org/blog/wp-content/uploads/2022/11/Artifical-Intelligence.-Machine-Learning-at-RRCE.png"),
      "description" := Str("A one-day summit to explore the latest trends and innovations in AI and Machine Learning."),
      "agenda" := Array([
        AgendaItem("10:00 AM - 11:00 AM", "Keynote: The Future of AI", "Dr. Jane Doe"),
        AgendaItem("11:30 AM - 1:00 PM", "Workshop: Building Machine Learning Models", "John Smith"),
        AgendaItem("2:00 PM - 3:30 PM", "Panel Discussion: Ethics in AI", "Various Industry Leaders")
      ]),
      "highlights" := Array([Str("Networking Opportunities"), Str("Hands-on Workshops"), Str("Expert Panel Discussions")])
    ]),
    SeedEvent(2.0, "1,999 Rs", map[
      "title" := Str("Web Development Bootcamp"),
      "organizer" := Str("Code Academy"),
      "date" := Str("December 5-7, 2024"),
      "location" := Str("Online"),
      "imageUrl" := Str("https://media.geeksforgeeks.org/wp-content/uploads/20231205165904/web-development-image.webp"),
      "description" := Str("A 3-day bootcamp to master the fundamentals of web development."),
      "agenda" := Array([
        AgendaItem("Day 1: 9:00 AM - 5:00 PM", "Introduction to HTML & CSS", "Alice Johnson"),
        AgendaItem("Day 2: 9:00 AM - 5:00 PM", "JavaScript for Beginners", "Bob Williams"),
        AgendaItem("Day 3: 9:00 AM - 5:00 PM", "Building and Deploying a Website", "Charlie Brown")
      ]),
      "highlights" := Array([Str("Live Coding Sessions"), Str("Real-World Projects"), Str("Interactive Q&A")])
    ])
  ]

  function IdOf(r: Record): Option<Value>
  {
    Get(r, "id")
  }

  /** The scan predicate: `e.id === target`. */
  predicate Matches(r: Record, target: Option<Value>)
  {
    StrictEquals(IdOf(r), target)
  }

  ghost predicate NoMatch(events: seq<Record>, target: Option<Value>)
  {
    forall j :: 0 <= j < |events| ==> !Matches(events[j], target)
  }

  ghost predicate IsFirstMatch(events: seq<Record>, target: Option<Value>, k: int)
  {
    0 <= k < |events| && Matches(events[k], target)
    && forall j :: 0 <= j < k ==> !Matches(events[j], target)
  }

  /** `events.findIndex(e => e.id === target)`: the first matching index,
      or -1 when no record matches. */
  function FirstIndex(events: seq<Record>, target: Option<Value>): (k: int)
    ensures -1 <= k < |events|
    ensures k == -1 <==> NoMatch(events, target)
    ensures k != -1 ==> IsFirstMatch(events, target, k)
  {
    if events == [] then -1
    else if Matches(events[0], target) then 0
    else
      var k := FirstIndex(events[1..], target);
      assert forall j :: 1 <= j < |events| ==> events[j] == events[1..][j - 1];
      if k == -1 then -1 else k + 1
  }

  /** The list as a JSON array. */
  function ListValue(events: seq<Record>): (v: Value)
    ensures v.Array? && |v.items| == |events|
    ensures forall i :: 0 <= i < |events| ==> v.items[i] == Object(events[i])
  {
    Array(seq(|events|, i requires 0 <= i < |events| => Object(events[i])))
  }

  /** The `id` query parameter as a JavaScript value. */
  function QueryValue(q: Option<string>): Option<Value>
  {
    match q
    case None => None
    case Some(s) => Some(Str(s))
  }

  /** The value the GET and DELETE scans compare against: `Number(id)`. */
  function QueryTarget(q: Option<string>): Option<Value>
  {
    Some(Number(JsNumber.QueryToNumber(q)))
  }

  /** The record a POST stores: `{ id: Date.now(), ...body }`. */
  function NewRecord(body: Obj, now: int): (r: Record)
    ensures r.Keys == body.Keys + {"id"}
    ensures IdOf(r) == if "id" in body then Some(body["id"]) else Some(Number(Finite(now as real)))
    ensures forall k :: k in body ==> r[k] == body[k]
  {
    Spread(map["id" := Number(Finite(now as real))], body)
  }

  /** GET: with a non-empty `id` the first record whose id is `Number(id)`
      (200) or "Event not found" (404); without one, the whole list (200). */
  function GetResponse(events: seq<Record>, queryId: Option<string>): (r: Response)
    ensures !Truthy(QueryValue(queryId)) ==> r == Response(200, ListValue(events))
    ensures Truthy(QueryValue(queryId)) && NoMatch(events, QueryTarget(queryId)) ==> r == EventNotFound
    ensures Truthy(QueryValue(queryId)) && !NoMatch(events, QueryTarget(queryId)) ==>
              exists k :: IsFirstMatch(events, QueryTarget(queryId), k) && r == Response(200, Object(events[k]))
  {
    if Truthy(QueryValue(queryId)) then
      var k := FirstIndex(events, QueryTarget(queryId));
      if k != -1 then Response(200, Object(events[k])) else EventNotFound
    else Response(200, ListValue(events))
  }

  /** POST: exactly one record appended at the end, earlier records kept,
      and the new record returned with 201. */
  function PostOutcome(events: seq<Record>, body: Obj, now: int): (o: Outcome)
    ensures |o.events| == |events| + 1 && o.events[..|events|] == events
    ensures o.events[|events|] == NewRecord(body, now)
    ensures o.response == Response(201, Object(NewRecord(body, now)))
  {
    Outcome(events + [NewRecord(body, now)], Response(201, Object(NewRecord(body, now))))
  }

  /** PUT: the first record whose id is strictly equal to `body.id` (no
      numeric conversion) is replaced by itself overlaid with the body, and
      returned with 200; nothing else changes. No match: 404, no change. */
  function PutOutcome(events: seq<Record>, body: Obj): (o: Outcome)
    ensures |o.events| == |events|
    ensures NoMatch(events, Get(body, "id")) ==> o == Outcome(events, EventNotFound)
    ensures !NoMatch(events, Get(body, "id")) ==>
              exists k :: IsFirstMatch(events, Get(body, "id"), k)
                && o.events == events[k := Spread(events[k], body)]
                && o.response == Response(200, Object(Spread(events[k], body)))
  {
    var k := FirstIndex(events, Get(body, "id"));
    if k > -1 then
      var merged := Spread(events[k], body);
      Outcome(events[k := merged], Response(200, Object(merged)))
    else Outcome(events, EventNotFound)
  }

  /** DELETE: the first record whose id is `Number(id)` is spliced out and
      returned with 200; the others keep their order. No match: 404. */
  function DeleteOutcome(events: seq<Record>, queryId: Option<string>): (o: Outcome)
    ensures NoMatch(events, QueryTarget(queryId)) ==> o == Outcome(events, EventNotFound)
    ensures !NoMatch(events, QueryTarget(queryId)) ==>
              exists k :: IsFirstMatch(events, QueryTarget(queryId), k)
                && o.events == events[..k] + events[k + 1..]
                && o.response == Response(200, Object(events[k]))
  {
    var k := FirstIndex(events, QueryTarget(queryId));
    if k > -1 then Outcome(events[..k] + events[k + 1..], Response(200, Object(events[k])))
    else Outcome(events, EventNotFound)
  }

  /** The handler: dispatch on the request method; anything but the four verbs is
      405 "Method not allowed" with the store unchanged, and GET never
      changes the store. */
  function HandleOutcome(events: seq<Record>, req: Request, now: int): (o: Outcome)
    ensures req.verb !in {"GET", "POST", "PUT", "DELETE"} ==> o == Outcome(events, MethodNotAllowed)
    ensures req.verb == "GET" ==> o == Outcome(events, GetResponse(events, req.queryId))
    ensures req.verb == "POST" ==> o == PostOutcome(events, req.body, now)
    ensures req.verb == "PUT" ==> o == PutOutcome(events, req.body)
    ensures req.verb == "DELETE" ==> o == DeleteOutcome(events, req.queryId)
  {
    if req.verb == "GET" then Outcome(events, GetResponse(events, req.queryId))
    else if req.verb == "POST" then PostOutcome(events, req.body, now)
    else if req.verb == "PUT" then PutOutcome(events, req.body)
    else if req.verb == "DELETE" then DeleteOutcome(events, req.queryId)
    else Outcome(events, MethodNotAllowed)
  }

  /** The linear scan behind `find` and `findIndex`. */
  method FindIndex(events: seq<Record>, target: Option<Value>) returns (index: int)
    ensures index == FirstIndex(events, target)
  {
    index := 0;
    while index < |events|
      invariant 0 <= index <= |events|
      invariant forall j :: 0 <= j < index ==> !Matches(events[j], target)
    {
      if Matches(events[index], target) {
        return;
      }
      index := index + 1;
    }
    index := -1;
  }

  /** The module-level `events` array and the handler that serves it. */
  class Catalog {
    var events: seq<Record>

    constructor ()
      ensures events == Seed
    {
      events := Seed;
    }

    method Get(queryId: Option<string>) returns (resp: Response)
      ensures resp == GetResponse(events, queryId)
    {
      if Truthy(QueryValue(queryId)) {
        var index := FindIndex(events, QueryTarget(queryId));
        if index != -1 {
          resp := Response(200, Object(events[index]));
        } else {
          resp := EventNotFound;
        }
      } else {
        resp := Response(200, ListValue(events));
      }
    }

    /** `now` is the value `Date.now()` returns. */
    method Post(body: Obj, now: int) returns (resp: Response)
      modifies this
      ensures Outcome(events, resp) == PostOutcome(old(events), body, now)
    {
      var newEvent := Spread(map["id" := Number(Finite(now as real))], body);
      events := events + [newEvent];
      resp := Response(201, Object(newEvent));
    }

    method Put(body: Obj) returns (resp: Response)
      modifies this
      ensures Outcome(events, resp) == PutOutcome(old(events), body)
    {
      var index := FindIndex(events, Js.Get(body, "id"));
      if index > -1 {
        events := events[index := Spread(events[index], body)];
        resp := Response(200, Object(events[index]));
      } else {
        resp := EventNotFound;
      }
    }

    method Delete(queryId: Option<string>) returns (resp: Response)
      modifies this
      ensures Outcome(events, resp) == DeleteOutcome(old(events), queryId)
    {
      var index := FindIndex(events, QueryTarget(queryId));
      if index > -1 {
        var deleted := events[index];
        events := events[..index] + events[index + 1..];
        resp := Response(200, Object(deleted));
      } else {
        resp := EventNotFound;
      }
    }

    method Handle(req: Request, now: int) returns (resp: Response)
      modifies this
      ensures Outcome(events, resp) == HandleOutcome(old(events), req, now)
    {
      if req.verb == "GET" {
        resp := Get(req.queryId);
      } else if req.verb == "POST" {
        resp := Post(req.body, now);
      } else if req.verb == "PUT" {
        resp := Put(req.body);
      } else if req.verb == "DELETE" {
        resp := Delete(req.queryId);
      } else {
        resp := MethodNotAllowed;
      }
    }
  }

  // ----- Properties of the store -----

  /** No two records have strictly equal ids. */
  ghost predicate UniqueIds(events: seq<Record>)
  {
    forall i, j :: 0 <= i < j < |events| ==> !StrictEquals(IdOf(events[i]), IdOf(events[j]))
  }

  /** Every record carries an `id` property. */
  ghost predicate AllHaveIds(events: seq<Record>)
  {
    forall i :: 0 <= i < |events| ==> "id" in events[i]
  }

  lemma SeedIsWellFormed()
    ensures AllHaveIds(Seed) && UniqueIds(Seed)
  {
  }

  lemma PutPreservesIds(events: seq<Record>, body: Obj)
    requires AllHaveIds(events)
    ensures AllHaveIds(PutOutcome(events, body).events)
  {
    var o := PutOutcome(events, body);
    if !NoMatch(events, Get(body, "id")) {
      var k :| IsFirstMatch(events, Get(body, "id"), k) && o.events == events[k := Spread(events[k], body)];
      assert "id" in events[k];
    }
  }

  /** Splicing one record out keeps the others, in order. */
  lemma RemoveAt(events: seq<Record>, k: int)
    requires 0 <= k < |events|
    ensures var rest := events[..k] + events[k + 1..];
            |rest| == |events| - 1
            && (forall i :: 0 <= i < k ==> rest[i] == events[i])
            && (forall i :: k <= i < |rest| ==> rest[i] == events[i + 1])
  {
  }

  lemma DeletePreservesIds(events: seq<Record>, queryId: Option<string>)
    requires AllHaveIds(events)
    ensures AllHaveIds(DeleteOutcome(events, queryId).events)
  {
    var k := FirstIndex(events, QueryTarget(queryId));
    if k != -1 {
      RemoveAt(events, k);
    }
  }

  /** No request removes the `id` property of a record: POST always sets
      one and a PUT body can only overwrite it. */
  lemma HandlePreservesIds(events: seq<Record>, req: Request, now: int)
    requires AllHaveIds(events)
    ensures AllHaveIds(HandleOutcome(events, req, now).events)
  {
    if req.verb == "PUT" {
      PutPreservesIds(events, req.body);
    } else if req.verb == "DELETE" {
      DeletePreservesIds(events, req.queryId);
    } else if req.verb == "POST" {
      var o := PostOutcome(events, req.body, now);
      assert forall i :: 0 <= i < |events| ==> o.events[i] == events[i];
    }
  }

  /** A record POSTed without an `id` at a time no stored id equals can be
      read back by GET with the decimal time as the query parameter. */
  lemma PostThenGet(events: seq<Record>, body: Obj, now: nat)
    requires "id" !in body
    requires NoMatch(events, Some(Number(Finite(now as real))))
    ensures GetResponse(PostOutcome(events, body, now).events, Some(JsNumber.NatToDecimal(now)))
            == Response(200, Object(NewRecord(body, now)))
  {
    var after := PostOutcome(events, body, now).events;
    assert forall j :: 0 <= j < |events| ==> after[j] == events[j];
    assert IsFirstMatch(after, Some(Number(Finite(now as real))), |events|);
    GetConvertsQuery(after, now, |events|);
  }

  /** Posting such a record keeps ids unique. */
  lemma PostKeepsIdsUnique(events: seq<Record>, body: Obj, now: int)
    requires UniqueIds(events)
    requires "id" !in body
    requires NoMatch(events, Some(Number(Finite(now as real))))
    ensures UniqueIds(PostOutcome(events, body, now).events)
  {
    var after := PostOutcome(events, body, now).events;
    forall i, j | 0 <= i < j < |after|
      ensures !StrictEquals(IdOf(after[i]), IdOf(after[j]))
    {
      assert after[i] == events[i];
      if j < |events| {
        assert after[j] == events[j];
      } else {
        assert !Matches(events[i], Some(Number(Finite(now as real))));
      }
    }
  }

  /** A body `id` overrides the generated one: posting `{ id: 1 }` to the
      initial store creates a second record with id 1. */
  lemma PostedBodyIdCanDuplicate(now: int)
    ensures !UniqueIds(PostOutcome(Seed, map["id" := Number(Finite(1.0))], now).events)
  {
    var after := PostOutcome(Seed, map["id" := Number(Finite(1.0))], now).events;
    assert IdOf(after[0]) == Some(Number(Finite(1.0)));
    assert IdOf(after[2]) == Some(Number(Finite(1.0)));
  }

  /** With unique ids, once the first match is spliced out no record
      matches the same target. */
  lemma RemovingFirstMatchLeavesNone(events: seq<Record>, t: Option<Value>, k: int)
    requires UniqueIds(events) && IsFirstMatch(events, t, k)
    ensures NoMatch(events[..k] + events[k + 1..], t)
  {
    var rest := events[..k] + events[k + 1..];
    RemoveAt(events, k);
    forall j | 0 <= j < |rest| ensures !Matches(rest[j], t) {
      var src := if j < k then j else j + 1;
      assert rest[j] == events[src];
      StrictEqualsSymmetric(IdOf(events[k]), t);
      StrictEqualsSymmetric(IdOf(events[src]), IdOf(events[k]));
      StrictEqualsTransitive(IdOf(events[src]), t, IdOf(events[k]));
      if src < k {
        assert !StrictEquals(IdOf(events[src]), IdOf(events[k]));
      } else {
        assert !StrictEquals(IdOf(events[k]), IdOf(events[src]));
      }
    }
  }

  /** When ids are unique, deleting the same id twice answers 404 the
      second time and leaves the store unchanged. */
  lemma DeleteTwiceNotFound(events: seq<Record>, queryId: Option<string>)
    requires UniqueIds(events)
    ensures var once := DeleteOutcome(events, queryId).events;
            DeleteOutcome(once, queryId) == Outcome(once, EventNotFound)
  {
    var t := QueryTarget(queryId);
    var k := FirstIndex(events, t);
    if k != -1 {
      RemovingFirstMatchLeavesNone(events, t, k);
    }
  }

  /** A DELETE without an `id` query parameter compares against
      `Number(undefined)`, which is NaN, so it always answers 404. This is
      what the admin page's `/eventdetail/<id>` request reaches. */
  lemma DeleteWithoutQueryIdNotFound(events: seq<Record>)
    ensures DeleteOutcome(events, None) == Outcome(events, EventNotFound)
  {
    forall j | 0 <= j < |events| ensures !Matches(events[j], QueryTarget(None)) {
      NothingEqualsNaN(IdOf(events[j]));
    }
  }

  lemma SeedIds()
    ensures IdOf(Seed[0]) == Some(Number(Finite(1.0)))
    ensures IdOf(Seed[1]) == Some(Number(Finite(2.0)))
  {
  }

  /** GET answers with the first record whose id is strictly equal to
      `Number(id)`. */
  lemma GetFindsFirstMatch(events: seq<Record>, queryId: Option<string>, k: int)
    requires Truthy(QueryValue(queryId))
    requires IsFirstMatch(events, QueryTarget(queryId), k)
    ensures GetResponse(events, queryId) == Response(200, Object(events[k]))
  {
    var f := FirstIndex(events, QueryTarget(queryId));
    assert !NoMatch(events, QueryTarget(queryId));
    assert f == k;
  }

  /** GET converts the query with `Number`: the decimal text of `n` finds
      the first record whose id is the number `n`. */
  lemma GetConvertsQuery(events: seq<Record>, n: nat, k: int)
    requires IsFirstMatch(events, Some(Number(Finite(n as real))), k)
    ensures GetResponse(events, Some(JsNumber.NatToDecimal(n))) == Response(200, Object(events[k]))
  {
    JsNumber.NumberOfDecimal(n);
    GetFindsFirstMatch(events, Some(JsNumber.NatToDecimal(n)), k);
  }

  /** PUT does not convert: a body whose id is a string matches no record
      whose id is a number (such as the initial ones, see `SeedIds`). */
  lemma PutDoesNotConvert(events: seq<Record>, id: string)
    requires forall j :: 0 <= j < |events| ==> IdOf(events[j]).Some? && IdOf(events[j]).value.Number?
    ensures PutOutcome(events, map["id" := Str(id)]) == Outcome(events, EventNotFound)
  {
    assert NoMatch(events, Get(map["id" := Str(id)], "id"));
  }
}
