/** The value types shared by the report form: the two enumerations a report
    is classified by and the location record the form carries. */
module Types {

  datatype Option<+T> = None | Some(value: T)

  /** The garbage levels a reporter can pick. */
  datatype GarbageLevel = Low | Medium | High

  /** The waste categories a reporter can pick; one per report. */
  datatype WasteType =
    | Plastic | Organic | EWaste | Medical
    | Construction | Household | Industrial | Other

  /** A coordinate pair with an optional accuracy radius in metres. */
  datatype GeoLocation = GeoLocation(latitude: real, longitude: real, accuracy: Option<real>)

  /** The string each garbage level is written as in forms and records. */
  function LevelName(level: GarbageLevel): string {
    match level
    case Low => "Low"
    case Medium => "Medium"
    case High => "High"
  }

  /** The string each waste type is written as in forms and records. */
  function WasteTypeName(w: WasteType): string {
    match w
    case Plastic => "Plastic"
    case Organic => "Organic"
    case EWaste => "E-waste"
    case Medical => "Medical"
    case Construction => "Construction"
    case Household => "Household"
    case Industrial => "Industrial"
    case Other => "Other"
  }

  /** Different garbage levels are written differently. */
  lemma LevelNameInjective(a: GarbageLevel, b: GarbageLevel)
    ensures LevelName(a) == LevelName(b) ==> a == b
  {
  }

  /** Different waste types are written differently. */
  lemma WasteTypeNameInjective(a: WasteType, b: WasteType)
    ensures WasteTypeName(a) == WasteTypeName(b) ==> a == b
  {
  }
}
