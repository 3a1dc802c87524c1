/** The records the application passes around (the declarations of types.ts). */
module Types {
  import opened Wrappers

  datatype Gender = Male | Female | Other

  /** The text a gender is shown and sent as. */
  function GenderLabel(g: Gender): string {
    match g
    case Male => "Male"
    case Female => "Female"
    case Other => "Other"
  }

  datatype PatientInfo = PatientInfo(name: string, age: string, gender: Gender)

  /** The nine anatomical regions the intake form offers. */
  datatype BodyPart =
    | Head | Neck | ChestAndAbdomen | Back | PelvisAndGroin
    | ArmsAndLegs | Skin | Urinary | GeneralWholeBody

  /** The string value of a region, which is also its key in the symptom table. */
  function Label(p: BodyPart): string {
    match p
    case Head => "Head"
    case Neck => "Neck"
    case ChestAndAbdomen => "Chest & Abdomen"
    case Back => "Back"
    case PelvisAndGroin => "Pelvis & Groin"
    case ArmsAndLegs => "Arms & Legs"
    case Skin => "Skin"
    case Urinary => "Urinary"
    case GeneralWholeBody => "General/Whole Body"
  }

  datatype Symptom = Symptom(id: string, name: string)

  /** What the intake form hands to the analysis on submit. */
  datatype IntakeData = IntakeData(patientInfo: PatientInfo, primaryBodyPart: BodyPart, symptoms: seq<Symptom>)

  /**
   * A JSON value, as `JSON.parse` produces it. The analysis result is kept as
   * such a value because the application casts the parsed text to its result
   * type without checking it.
   */
  datatype Json =
    | JNull
    | JBool(b: bool)
    | JNumber(n: real)
    | JString(s: string)
    | JArray(items: seq<Json>)
    | JObject(members: seq<(string, Json)>)

  /** JavaScript truthiness of a parsed value (objects and arrays are always truthy). */
  predicate Truthy(j: Json) {
    match j
    case JNull => false
    case JBool(b) => b
    case JNumber(n) => n != 0.0
    case JString(s) => s != ""
    case JArray(_) => true
    case JObject(_) => true
  }

  /**
   * One entry of the analysis history. The declared type also has `type` and
   * `summary` fields, which the application never fills in, so they are not
   * part of the record here.
   */
  datatype AnalysisRecord = AnalysisRecord(id: string, date: string, intakeData: Option<IntakeData>, result: Json)
}
