/** The shared marker types, the category table and the reference-point holder. */
module Types {
  import opened Wrappers

  datatype Coordinates = Coordinates(latitude: real, longitude: real)

  /** The centre of the circle within which the user may place markers, and its radius. */
  datatype ReferencePoint = ReferencePoint(latitude: real, longitude: real, radiusMeters: real)

  /** The union of category literals a marker's metadata is typed with. */
  datatype MarkerCategory = Hazard | Accident | Roadwork | Traffic | Police | Camera | Other
  {
    /** The string literal the category stands for at run time. */
    function Literal(): string {
      match this
      case Hazard => "hazard"
      case Accident => "accident"
      case Roadwork => "roadwork"
      case Traffic => "traffic"
      case Police => "police"
      case Camera => "camera"
      case Other => "other"
    }
  }

  /**
   * What the user enters in the marker form.  The category is a plain string at
   * run time: the form offers literals outside the union (`incident`, `service`, `poi`).
   */
  datatype MarkerMetadata = MarkerMetadata(name: string, category: string, description: Option<string>)

  /** One row of the category table: display name, colour and legend group. */
  datatype CategoryColor = CategoryColor(id: MarkerCategory, name: string, color: string, group: string)

  const MarkerCategories: seq<CategoryColor> := [
    CategoryColor(Hazard, "Tehlike", "#FF4444", "danger"),
    CategoryColor(Accident, "Kaza", "#FF4500", "danger"),
    CategoryColor(Roadwork, "Yol Çalışması", "#FFA500", "warning"),
    CategoryColor(Traffic, "Trafik", "#FFD700", "warning"),
    CategoryColor(Police, "Polis", "#0000FF", "info"),
    CategoryColor(Camera, "Kamera", "#4169E1", "info"),
    CategoryColor(Other, "Diğer", "#808080", "secondary")
  ]

  /** The four legend groups a category may belong to. */
  const LegendGroups: seq<string> := ["danger", "warning", "info", "secondary"]

  /** The position of a category's row in the table. */
  function TableIndex(k: MarkerCategory): nat {
    match k
    case Hazard => 0
    case Accident => 1
    case Roadwork => 2
    case Traffic => 3
    case Police => 4
    case Camera => 5
    case Other => 6
  }

  /**
   * The table lists every category of the union, each at exactly one position
   * (so the ids are pairwise distinct), and files each one under one of the
   * four legend groups.
   */
  lemma CategoryTableIsComplete()
    ensures |MarkerCategories| == 7
    ensures forall k: MarkerCategory :: TableIndex(k) < |MarkerCategories| && MarkerCategories[TableIndex(k)].id == k
    ensures forall i :: 0 <= i < |MarkerCategories| ==> TableIndex(MarkerCategories[i].id) == i
    ensures forall i :: 0 <= i < |MarkerCategories| ==> MarkerCategories[i].group in LegendGroups
  {
  }

  /** Distinct categories stand for distinct string literals. */
  lemma LiteralsDistinct(a: MarkerCategory, b: MarkerCategory)
    requires a != b
    ensures a.Literal() != b.Literal()
  {
  }

  /**
   * The holder of the current reference point.  The source keeps it in a static
   * field; here the single holder is an object that the map view is given.
   */
  class ReferencePointStore {
    var referencePoint: Option<ReferencePoint>

    constructor ()
      ensures referencePoint == None
    {
      referencePoint := None;
    }

    method Set(point: ReferencePoint)
      modifies this
      ensures referencePoint == Some(point)
    {
      referencePoint := Some(point);
    }

    method Get() returns (point: Option<ReferencePoint>)
      ensures point == referencePoint
    {
      point := referencePoint;
    }
  }
}
