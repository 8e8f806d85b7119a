/**
 * The client's marker cache: the list of markers the map shows, bounded to the
 * newest `MaxMarkers` on insertion, and the callbacks that are handed a copy
 * of it after every change.  Network requests are given to each operation as
 * their outcome (`Fetch`), and `JSON.parse` as a parameter `parse` that yields
 * None where the real one throws.
 */
module Service {
  import opened Wrappers
  import opened Js
  import Sequences

  const MaxMarkers: nat := 1000

  /** The properties a stored marker must carry, each truthy. */
  const RequiredFields: seq<string> := ["id", "encryptedCoordinates", "encryptedMetadata", "timestamp", "proof"]

  /** `JSON.parse(field)` succeeds and the parsed value carries truthy `first` and `second` properties. */
  predicate ParsesWith(marker: Value, field: string, parse: Value -> Option<Value>, first: string, second: string)
    requires Prop(marker, field).Some?
  {
    match parse(Prop(marker, field).value)
    case None => false
    case Some(parsed) => TruthyProp(parsed, first) && TruthyProp(parsed, second)
  }

  /**
   * `isValidMarker` (src/services/markerService.ts:82-103).  Every check is a truthiness test, tried in
   * order, and an exception thrown by `JSON.parse` or by a property read of
   * `null` is caught and turns into `false`.
   */
  predicate IsValidMarker(marker: Value, parse: Value -> Option<Value>): (valid: bool)
    ensures valid <==>
      && Truthy(marker)
      && (forall k <- RequiredFields :: TruthyProp(marker, k))
      && ParsesWith(marker, "encryptedCoordinates", parse, "latitude", "longitude")
      && ParsesWith(marker, "encryptedMetadata", parse, "name", "category")
  {
    if !Truthy(marker) then false
    else if !TruthyProp(marker, "id") || !TruthyProp(marker, "encryptedCoordinates")
         || !TruthyProp(marker, "encryptedMetadata") || !TruthyProp(marker, "timestamp")
         || !TruthyProp(marker, "proof") then false
    else if !ParsesWith(marker, "encryptedCoordinates", parse, "latitude", "longitude") then false
    else ParsesWith(marker, "encryptedMetadata", parse, "name", "category")
  }

  /** `isValidMarker` as the callback handed to `filter`. */
  function ValidUnder(parse: Value -> Option<Value>): Value -> bool {
    marker => IsValidMarker(marker, parse)
  }

  /** A falsy required field (missing, empty, zero, false or null) makes the marker invalid. */
  lemma MissingFieldRejected(marker: Value, parse: Value -> Option<Value>, field: string)
    requires field in RequiredFields && !TruthyProp(marker, field)
    ensures !IsValidMarker(marker, parse)
  {
  }

  /** A parsed latitude or longitude of 0 is falsy, so a marker on the equator or the prime meridian is rejected. */
  lemma ZeroCoordinateRejected(marker: Value, parse: Value -> Option<Value>)
    requires Truthy(marker) && TruthyProp(marker, "encryptedCoordinates")
    requires parse(Prop(marker, "encryptedCoordinates").value).Some?
    requires var coords := parse(Prop(marker, "encryptedCoordinates").value).value;
             Prop(coords, "latitude") == Some(Number(0.0)) || Prop(coords, "longitude") == Some(Number(0.0))
    ensures !IsValidMarker(marker, parse)
  {
  }

  /** A `JSON.parse` that throws on either encoded field makes the marker invalid. */
  lemma ParseFailureRejected(marker: Value, parse: Value -> Option<Value>, field: string)
    requires field == "encryptedCoordinates" || field == "encryptedMetadata"
    requires Prop(marker, field).Some? && parse(Prop(marker, field).value).None?
    ensures !IsValidMarker(marker, parse)
  {
  }

  /** The outcome of one `fetch`: it rejects, or it answers with a status and a body that may fail to parse as JSON. */
  datatype Fetch = Rejected | Response(ok: bool, json: Option<Value>)

  /** The body `await response.json()` yields after the `response.ok` check, if every step succeeds. */
  function Received(response: Fetch): (body: Option<Value>)
    ensures body.Some? <==> response.Response? && response.ok && response.json.Some?
  {
    match response
    case Rejected => None
    case Response(ok, json) => if ok then json else None
  }

  /** What an operation rethrows. */
  datatype Failure =
    | InvalidMarkerData   // 'Invalid marker data'
    | FailedToAdd         // 'Failed to add marker'
    | FailedToRemove      // 'Failed to remove marker'
    | FetchRejected       // the request itself failed
    | BodyNotJson         // `response.json()` rejected
    | TypeError           // the id filter read a property of null or undefined

  datatype Outcome = Done | Thrown(failure: Failure)

  /** A callback registered with `subscribeToMarkers`, compared by identity. */
  type Callback = nat

  /** The closure `subscribeToMarkers` returns; calling it unsubscribes `callback`. */
  datatype Unsubscriber = Unsubscriber(callback: Callback)

  /** The callback of `subscribers.filter(sub => sub !== callback)`. */
  function OtherCallback(callback: Callback): Callback -> bool {
    sub => sub != callback
  }

  /**
   * Subscribing a callback that is not yet registered and then calling the
   * returned closure restores the subscriber list exactly.
   */
  lemma SubscribeThenUnsubscribe(subscribers: seq<Callback>, callback: Callback)
    requires callback !in subscribers
    ensures Sequences.Filter(subscribers + [callback], OtherCallback(callback)) == subscribers
  {
    Sequences.FilterAppend(subscribers, [callback], OtherCallback(callback));
    Sequences.FilterKeepsAll(subscribers, OtherCallback(callback));
    assert Sequences.Filter([callback], OtherCallback(callback)) == [];
  }

  /** One call `callback(snapshot)` made by `notifySubscribers`. */
  datatype Delivery = Delivery(callback: Callback, snapshot: seq<Value>)

  /** The calls one `notifySubscribers` makes: each subscriber, in registration order, gets the snapshot. */
  function Fanout(subscribers: seq<Callback>, snapshot: seq<Value>): (calls: seq<Delivery>)
    ensures |calls| == |subscribers|
    ensures forall i :: 0 <= i < |calls| ==> calls[i] == Delivery(subscribers[i], snapshot)
  {
    seq(|subscribers|, i requires 0 <= i < |subscribers| => Delivery(subscribers[i], snapshot))
  }

  /** `markers.slice(-MaxMarkers)` when the list has grown past the bound, else the list itself. */
  function KeepNewest(markers: seq<Value>): (r: seq<Value>)
    ensures |r| == if |markers| > MaxMarkers then MaxMarkers else |markers|
    ensures r == markers[|markers| - |r|..]
  {
    if |markers| > MaxMarkers then markers[|markers| - MaxMarkers..] else markers
  }

  /**
   * Appending and then trimming: the new marker is last, the list holds at most
   * `MaxMarkers`, only the oldest entries are dropped and the rest keep their
   * order; below the bound nothing is dropped.
   */
  lemma AppendKeepsNewest(markers: seq<Value>, added: Value)
    ensures var r := KeepNewest(markers + [added]);
      && |r| <= MaxMarkers
      && |r| > 0 && r[|r| - 1] == added
      && r[..|r| - 1] == markers[|markers| + 1 - |r|..]
      && (|markers| < MaxMarkers ==> r == markers + [added])
      && (|markers| >= MaxMarkers ==> |r| == MaxMarkers)
  {
    var r := KeepNewest(markers + [added]);
    assert r[..|r| - 1] == markers[|markers| + 1 - |r|..];
  }

  class MarkerService {
    var markers: seq<Value>
    var subscribers: seq<Callback>
    /** The calls made to subscribers so far, in order. */
    var delivered: seq<Delivery>

    /**
     * The service as constructed: empty, before the initial `loadMarkers`
     * (an asynchronous request, modelled by `LoadMarkers`) completes.
     */
    constructor ()
      ensures markers == [] && subscribers == [] && delivered == []
    {
      markers := [];
      subscribers := [];
      delivered := [];
    }

    /** A fresh array holding the current markers; changing it leaves the service untouched. */
    method GetMarkers() returns (copy: array<Value>)
      ensures fresh(copy) && copy[..] == markers
    {
      copy := new Value[|markers|](i requires 0 <= i < |markers| reads this => markers[i]);
    }

    method NotifySubscribers()
      modifies this
      ensures markers == old(markers) && subscribers == old(subscribers)
      ensures delivered == old(delivered) + Fanout(subscribers, markers)
    {
      var i := 0;
      while i < |subscribers|
        invariant 0 <= i <= |subscribers|
        invariant markers == old(markers) && subscribers == old(subscribers)
        invariant delivered == old(delivered) + Fanout(subscribers[..i], markers)
      {
        var copy := GetMarkers();
        delivered := delivered + [Delivery(subscribers[i], copy[..])];
        assert Fanout(subscribers[..i + 1], markers) == Fanout(subscribers[..i], markers) + [Delivery(subscribers[i], markers)];
        i := i + 1;
      }
      assert subscribers[..i] == subscribers;
    }

    method SubscribeToMarkers(callback: Callback) returns (unsubscribe: Unsubscriber)
      modifies this
      ensures subscribers == old(subscribers) + [callback]
      ensures markers == old(markers) && delivered == old(delivered)
      ensures unsubscribe == Unsubscriber(callback)
    {
      subscribers := subscribers + [callback];
      unsubscribe := Unsubscriber(callback);
    }

    /** Calling the closure: every registration of its callback goes, the others stay in order. */
    method Unsubscribe(unsubscribe: Unsubscriber)
      modifies this
      ensures subscribers == Sequences.Filter(old(subscribers), OtherCallback(unsubscribe.callback))
      ensures unsubscribe.callback !in subscribers
      ensures markers == old(markers) && delivered == old(delivered)
    {
      subscribers := Sequences.Filter(subscribers, OtherCallback(unsubscribe.callback));
    }

    method ClearAllMarkers()
      modifies this
      ensures markers == [] && subscribers == old(subscribers)
      ensures delivered == old(delivered) + Fanout(subscribers, [])
    {
      markers := [];
      NotifySubscribers();
    }

    /**
     * One completion of `loadMarkers`: on a JSON array the list becomes its
     * valid entries; on any failure, including a body that is not an array
     * (`filter` is then not a function), the list is cleared.  Either way the
     * subscribers are notified once.
     */
    method LoadMarkers(response: Fetch, parse: Value -> Option<Value>)
      modifies this
      ensures markers == match Received(response)
        case Some(Array(elems)) => Sequences.Filter(elems, ValidUnder(parse))
        case _ => []
      ensures subscribers == old(subscribers)
      ensures delivered == old(delivered) + Fanout(subscribers, markers)
    {
      match Received(response)
      case Some(Array(elems)) =>
        markers := Sequences.Filter(elems, ValidUnder(parse));
        NotifySubscribers();
      case _ =>
        ClearAllMarkers();
    }

    /**
     * Validate, post, and append the server's echo (not the marker that was
     * validated), keeping the newest `MaxMarkers`; rethrow on any failure,
     * with the list and the subscribers untouched.
     */
    method AddMarker(marker: Value, parse: Value -> Option<Value>, response: Fetch) returns (outcome: Outcome)
      modifies this
      ensures subscribers == old(subscribers)
      ensures !IsValidMarker(marker, parse) ==> outcome == Thrown(InvalidMarkerData)
      ensures IsValidMarker(marker, parse) && response.Rejected? ==> outcome == Thrown(FetchRejected)
      ensures IsValidMarker(marker, parse) && response.Response? && !response.ok ==> outcome == Thrown(FailedToAdd)
      ensures IsValidMarker(marker, parse) && response.Response? && response.ok && response.json.None? ==>
                outcome == Thrown(BodyNotJson)
      ensures outcome.Done? <==> IsValidMarker(marker, parse) && Received(response).Some?
      ensures outcome.Done? ==> markers == KeepNewest(old(markers) + [Received(response).value])
      ensures outcome.Done? ==> delivered == old(delivered) + Fanout(subscribers, markers)
      ensures outcome.Thrown? ==> markers == old(markers) && delivered == old(delivered)
    {
      if !IsValidMarker(marker, parse) {
        return Thrown(InvalidMarkerData);
      }
      match response
      case Rejected =>
        return Thrown(FetchRejected);
      case Response(ok, json) =>
        if !ok {
          return Thrown(FailedToAdd);
        }
        if json.None? {
          return Thrown(BodyNotJson);
        }
        markers := markers + [json.value];
        if |markers| > MaxMarkers {
          markers := markers[|markers| - MaxMarkers..];
        }
        NotifySubscribers();
        outcome := Done;
    }

    /**
     * Delete on the server, then drop every local entry whose id is strictly
     * equal to `markerId` (the `id` of a cached marker, so any value), the rest
     * keeping their order; rethrow when the request fails or an entry is
     * null or undefined, with the list and the subscribers untouched.
     */
    method RemoveMarker(markerId: Value, response: Fetch) returns (outcome: Outcome)
      modifies this
      ensures subscribers == old(subscribers)
      ensures response.Rejected? ==> outcome == Thrown(FetchRejected)
      ensures response.Response? && !response.ok ==> outcome == Thrown(FailedToRemove)
      ensures response.Response? && response.ok && WithoutId(old(markers), markerId).None? ==>
                outcome == Thrown(TypeError)
      ensures outcome.Done? <==> response.Response? && response.ok && WithoutId(old(markers), markerId).Some?
      ensures outcome.Done? ==> markers == WithoutId(old(markers), markerId).value
      ensures outcome.Done? ==> delivered == old(delivered) + Fanout(subscribers, markers)
      ensures outcome.Thrown? ==> markers == old(markers) && delivered == old(delivered)
    {
      match response
      case Rejected =>
        return Thrown(FetchRejected);
      case Response(ok, _) =>
        if !ok {
          return Thrown(FailedToRemove);
        }
        match WithoutId(markers, markerId)
        case None =>
          return Thrown(TypeError);
        case Some(rest) =>
          markers := rest;
          NotifySubscribers();
          outcome := Done;
    }
  }
}
