/**
 * The map view's own logic: the colour of a marker's category, the reference
 * point derived from the user's location, the click that opens the marker form
 * within 1000 m of it, and the form submission.  The distance of a click is
 * given as an input (the geodesic computation is not modelled).
 */
module MapView {
  import opened Wrappers
  import opened Js
  import opened Types
  import Service

  const DefaultColor: string := "#808080"
  /** The largest distance, in metres, from the reference point at which a click opens the form. */
  const MaxClickDistance: nat := 1000
  const ReferenceRadius: real := 1000.0
  const AddFailedMessage: string := "İşaretleme noktası eklenirken bir hata oluştu. Lütfen tekrar deneyin."
  const AddedMessage: string := "İşaretleme noktası başarıyla eklendi"

  /** `table.find(cat => cat.id === category)`, as the index of the first match. */
  function FindCategory(table: seq<CategoryColor>, category: string): (found: Option<nat>)
    ensures found.Some? ==> found.value < |table| && table[found.value].id.Literal() == category
    ensures found.Some? ==> forall j :: 0 <= j < found.value ==> table[j].id.Literal() != category
    ensures found.None? <==> forall j :: 0 <= j < |table| ==> table[j].id.Literal() != category
  {
    if table == [] then None
    else if table[0].id.Literal() == category then Some(0)
    else match FindCategory(table[1..], category)
      case None => None
      case Some(i) => Some(i + 1)
  }

  /** `getMarkerColor`: the colour of the category's row, grey when no row matches. */
  function GetMarkerColor(category: string): (color: string)
    ensures (forall j :: 0 <= j < |MarkerCategories| ==> MarkerCategories[j].id.Literal() != category) ==>
              color == DefaultColor
    ensures color == DefaultColor ||
              exists j :: 0 <= j < |MarkerCategories| && MarkerCategories[j].id.Literal() == category &&
                          MarkerCategories[j].color == color
  {
    match FindCategory(MarkerCategories, category)
    case Some(i) => MarkerCategories[i].color
    case None => DefaultColor
  }

  /** Every category of the union is shown in the colour of its own row. */
  lemma ColorOfKnownCategory(k: MarkerCategory)
    ensures GetMarkerColor(k.Literal()) == MarkerCategories[TableIndex(k)].color
  {
    CategoryTableIsComplete();
    assert MarkerCategories[TableIndex(k)].id.Literal() == k.Literal();
    var found := FindCategory(MarkerCategories, k.Literal());
    var i := found.value;
    if MarkerCategories[i].id != k {
      LiteralsDistinct(MarkerCategories[i].id, k);
    }
    assert TableIndex(MarkerCategories[i].id) == i;
  }

  /** Any string that is not one of the union's literals is shown grey. */
  lemma ColorOfUnknownCategory(category: string)
    requires forall k: MarkerCategory :: k.Literal() != category
    ensures GetMarkerColor(category) == DefaultColor
  {
    assert forall j :: 0 <= j < |MarkerCategories| ==> MarkerCategories[j].id.Literal() != category;
  }

  /** The form offers `incident`, `service` and `poi`, which the table does not know: all three are grey. */
  lemma FormOnlyCategoriesAreGrey()
    ensures GetMarkerColor("incident") == DefaultColor
    ensures GetMarkerColor("service") == DefaultColor
    ensures GetMarkerColor("poi") == DefaultColor
  {
    ColorOfUnknownCategory("incident");
    ColorOfUnknownCategory("service");
    ColorOfUnknownCategory("poi");
  }

  function CoordinatesValue(c: Coordinates): Value {
    Object(map["latitude" := Number(c.latitude), "longitude" := Number(c.longitude)])
  }

  function MetadataValue(m: MarkerMetadata): Value {
    var fields := map["name" := Str(m.name), "category" := Str(m.category)];
    Object(if m.description.Some? then fields["description" := Str(m.description.value)] else fields)
  }

  /** The `MarkerFormData` object the submission hands to `addMarker`: coordinates and metadata only. */
  function FormDataValue(coordinates: Coordinates, metadata: MarkerMetadata): Value {
    Object(map["coordinates" := CoordinatesValue(coordinates), "metadata" := MetadataValue(metadata)])
  }

  /**
   * The form data has no `id` (nor `proof`, `timestamp` or encoded fields), so
   * the service's validator rejects every submission, whatever `JSON.parse` does.
   */
  lemma FormDataIsNeverValid(coordinates: Coordinates, metadata: MarkerMetadata, parse: Value -> Option<Value>)
    ensures !Service.IsValidMarker(FormDataValue(coordinates, metadata), parse)
  {
    assert Prop(FormDataValue(coordinates, metadata), "id") == Some(Undefined);
  }

  /** The component's state that its handlers change. */
  class MapComponent {
    var showMarkerForm: bool
    var pendingCoordinates: Option<Coordinates>
    var referencePoint: Option<ReferencePoint>
    var mapError: Option<string>
    var statusMessage: string
    const service: Service.MarkerService
    const store: ReferencePointStore

    constructor (service: Service.MarkerService, store: ReferencePointStore)
      ensures this.service == service && this.store == store
      ensures !showMarkerForm && pendingCoordinates == None && referencePoint == None
      ensures mapError == None && statusMessage == ""
    {
      this.service := service;
      this.store := store;
      showMarkerForm := false;
      pendingCoordinates := None;
      referencePoint := None;
      mapError := None;
      statusMessage := "";
    }

    /** The effect run when the user's location changes: a 1000 m circle centred on it, published to the store. */
    method OnUserLocation(location: Option<Coordinates>)
      modifies this, store
      ensures location.None? ==> referencePoint == old(referencePoint) && store.referencePoint == old(store.referencePoint)
      ensures location.Some? ==>
                && referencePoint == Some(ReferencePoint(location.value.latitude, location.value.longitude, ReferenceRadius))
                && store.referencePoint == referencePoint
      ensures showMarkerForm == old(showMarkerForm) && pendingCoordinates == old(pendingCoordinates)
      ensures mapError == old(mapError) && statusMessage == old(statusMessage)
    {
      if location.None? {
        return;
      }
      var point := ReferencePoint(location.value.latitude, location.value.longitude, ReferenceRadius);
      store.Set(point);
      referencePoint := Some(point);
    }

    /**
     * A click at `clicked`, `distance` metres from the reference point: within
     * range it becomes the pending position and opens the form; out of range
     * the user is alerted and nothing changes; without a reference point the
     * click is ignored.
     */
    method HandleMapClick(clicked: Coordinates, distance: nat) returns (alerted: bool)
      modifies this
      ensures alerted <==> referencePoint.Some? && distance > MaxClickDistance
      ensures referencePoint.Some? && distance <= MaxClickDistance ==>
                pendingCoordinates == Some(clicked) && showMarkerForm
      ensures referencePoint.None? || distance > MaxClickDistance ==>
                pendingCoordinates == old(pendingCoordinates) && showMarkerForm == old(showMarkerForm)
      ensures referencePoint == old(referencePoint) && mapError == old(mapError) && statusMessage == old(statusMessage)
    {
      alerted := false;
      if referencePoint.None? {
        return;
      }
      if distance <= MaxClickDistance {
        pendingCoordinates := Some(clicked);
        showMarkerForm := true;
      } else {
        alerted := true;
      }
    }

    /** The catch block: report the failure, hide the form, drop the pending position. */
    method FailSubmission()
      modifies this
      ensures mapError == Some(AddFailedMessage) && !showMarkerForm && pendingCoordinates == None
      ensures referencePoint == old(referencePoint) && statusMessage == old(statusMessage)
    {
      mapError := Some(AddFailedMessage);
      showMarkerForm := false;
      pendingCoordinates := None;
    }

    /**
     * Submitting the form.  Nothing happens without a pending position; a zero
     * (falsy) latitude or longitude, an empty name or category, or a failure of
     * `addMarker` ends in the catch block.  Because the submitted object is
     * form data without an id, `addMarker` always fails, so every submission
     * with a pending position ends there and the service's list is untouched.
     */
    method HandleMarkerSubmit(metadata: MarkerMetadata, parse: Value -> Option<Value>, response: Service.Fetch)
      modifies this, service
      ensures old(pendingCoordinates).None? ==>
                && showMarkerForm == old(showMarkerForm) && pendingCoordinates == None
                && mapError == old(mapError) && statusMessage == old(statusMessage)
      ensures old(pendingCoordinates).Some? ==>
                && !showMarkerForm && pendingCoordinates == None
                && mapError == Some(AddFailedMessage) && statusMessage == old(statusMessage)
      ensures referencePoint == old(referencePoint)
      ensures service.markers == old(service.markers) && service.subscribers == old(service.subscribers)
      ensures service.delivered == old(service.delivered)
    {
      if pendingCoordinates.None? {
        return;
      }
      var pending := pendingCoordinates.value;
      if pending.latitude == 0.0 || pending.longitude == 0.0 {
        FailSubmission();
        return;
      }
      if metadata.name == "" || metadata.category == "" {
        FailSubmission();
        return;
      }
      var formData := FormDataValue(pending, metadata);
      FormDataIsNeverValid(pending, metadata, parse);
      var outcome := service.AddMarker(formData, parse, response);
      // Both the success path and the catch block hide the form and drop the pending position.
      showMarkerForm := false;
      pendingCoordinates := None;
      statusMessage := if outcome.Done? then AddedMessage else statusMessage;
      mapError := if outcome.Thrown? then Some(AddFailedMessage) else mapError;
    }
  }
}
