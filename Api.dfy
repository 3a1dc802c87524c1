/**
 * The analysis request/response pipeline of api.ts: the output schema, the
 * prompt, the repair of the model's text, the error policy, and the
 * request/response step itself with the hosted model and `JSON.parse` as
 * oracles.
 */
module Api {
  import opened Wrappers
  import opened JsString
  import opened Types
  import opened Constants

  // ---------------------------------------------------------------------
  // The response schema handed to the model
  // ---------------------------------------------------------------------

  datatype Schema =
    | ObjectSchema(properties: seq<Property>, required: seq<string>)
    | ArraySchema(description: string, items: Schema)
    | StringSchema(description: string)

  datatype Property = Property(name: string, schema: Schema)

  /** The names declared by an object schema's properties, in order. */
  function PropertyNames(props: seq<Property>): (r: seq<string>)
    ensures |r| == |props| && forall k :: 0 <= k < |props| ==> r[k] == props[k].name
  {
    seq(|props|, k requires 0 <= k < |props| => props[k].name)
  }

  /** Every `required` list of the schema, at every depth, names only declared properties. */
  predicate RequiredAreDeclared(s: Schema) {
    match s
    case ObjectSchema(props, req) =>
      (forall n :: n in req ==> n in PropertyNames(props))
      && (forall k :: 0 <= k < |props| ==> RequiredAreDeclared(props[k].schema))
    case ArraySchema(_, items) => RequiredAreDeclared(items)
    case StringSchema(_) => true
  }

  /** The properties an object schema declares but does not require. */
  function OptionalFields(s: Schema): set<string> {
    match s
    case ObjectSchema(props, req) => (set n | n in PropertyNames(props)) - (set n | n in req)
    case _ => {}
  }

  // The descriptions the schema gives the model for each field.
  const ConditionNameText: string := "The name of the condition."
  const ConditionDescriptionText: string :=
    "A brief, simple explanation of the "
    + "condition."
  const MedicationNameText: string :=
    "The generic name and strength of the "
    + "medication (e.g., 'Ibuprofen 200 mg')."
  const DosageText: string := "Example dosage (e.g., '1-2 tablets')."
  const FormText: string :=
    "The form of the medication (e.g., "
    + "'Tablet', 'Cream', 'Syrup')."
  const RouteText: string :=
    "The route of administration (e.g., "
    + "'Oral', 'Topical')."
  const FrequencyText: string :=
    "Example frequency (e.g., 'Every 4-6 "
    + "hours as needed')."
  const PurposeText: string :=
    "The primary purpose of the medication "
    + "(e.g., 'Pain relief', "
    + "'Anti-inflammatory')."
  const DisclaimerText: string :=
    "A mandatory disclaimer. MUST start with "
    + "'Educational example: ' and end with "
    + "'Consult a clinician before use.'."
  const AdviceIdText: string :=
    "A unique identifier string, e.g., "
    + "'la_1'."
  const AdviceText: string := "The lifestyle advice text."
  const ConditionsText: string :=
    "A list of 2-3 plausible, "
    + "educational-purpose potential medical "
    + "conditions based on the symptoms."
  const PrescriptionsText: string :=
    "A list of 1-2 example generic or "
    + "over-the-counter medications that might "
    + "be associated with the conditions. "
    + "These are for educational purposes ONLY."
  const LifestyleAdviceText: string :=
    "A list of 2-4 general, safe, and "
    + "helpful lifestyle tips related to the "
    + "symptoms."

  const ConditionSchema: Schema := ObjectSchema(
    [ Property("name", StringSchema(ConditionNameText)),
      Property("description", StringSchema(ConditionDescriptionText))],
    ["name", "description"])

  const PrescriptionSchema: Schema := ObjectSchema(
    [ Property("name", StringSchema(MedicationNameText)),
      Property("dosage", StringSchema(DosageText)),
      Property("form", StringSchema(FormText)),
      Property("route", StringSchema(RouteText)),
      Property("frequency", StringSchema(FrequencyText)),
      Property("purpose", StringSchema(PurposeText)),
      Property("description", StringSchema(DisclaimerText))],
    ["name", "purpose", "description"])

  const LifestyleAdviceSchema: Schema := ObjectSchema(
    [ Property("id", StringSchema(AdviceIdText)),
      Property("text", StringSchema(AdviceText))],
    ["id", "text"])

  /** `analysisSchema`: the shape the model is asked to produce. */
  const AnalysisSchema: Schema := ObjectSchema(
    [ Property("conditions", ArraySchema(ConditionsText, ConditionSchema)),
      Property("prescriptions", ArraySchema(PrescriptionsText, PrescriptionSchema)),
      Property("lifestyleAdvice", ArraySchema(LifestyleAdviceText, LifestyleAdviceSchema))],
    ["conditions", "prescriptions", "lifestyleAdvice"])

  /** Each of the three top-level lists is required. */
  lemma AnalysisRequiresEveryList()
    ensures AnalysisSchema.required == PropertyNames(AnalysisSchema.properties)
  {
    assert PropertyNames(AnalysisSchema.properties) == ["conditions", "prescriptions", "lifestyleAdvice"];
  }

  /** A condition item requires both of its fields. */
  lemma ConditionRequiresEveryField()
    ensures ConditionSchema.required == PropertyNames(ConditionSchema.properties)
  {
    assert PropertyNames(ConditionSchema.properties) == ["name", "description"];
  }

  /** A lifestyle-advice item requires both of its fields. */
  lemma LifestyleAdviceRequiresEveryField()
    ensures LifestyleAdviceSchema.required == PropertyNames(LifestyleAdviceSchema.properties)
  {
    assert PropertyNames(LifestyleAdviceSchema.properties) == ["id", "text"];
  }

  /** The field names of a prescription item, in declaration order. */
  lemma PrescriptionFieldNames()
    ensures PropertyNames(PrescriptionSchema.properties)
      == ["name", "dosage", "form", "route", "frequency", "purpose", "description"]
  {
  }

  /** Every required field, at every level of the schema, is declared where it is required. */
  lemma AnalysisRequiredAreDeclared()
    ensures RequiredAreDeclared(AnalysisSchema)
  {
    AnalysisRequiresEveryList();
    ConditionRequiresEveryField();
    LifestyleAdviceRequiresEveryField();
    PrescriptionFieldNames();
    assert RequiredAreDeclared(ConditionSchema);
    assert RequiredAreDeclared(LifestyleAdviceSchema);
    assert RequiredAreDeclared(PrescriptionSchema);
    assert RequiredAreDeclared(AnalysisSchema.properties[0].schema);
    assert RequiredAreDeclared(AnalysisSchema.properties[1].schema);
    assert RequiredAreDeclared(AnalysisSchema.properties[2].schema);
  }

  /** Seven declared names less three required ones leave four optional ones. */
  lemma PrescriptionNameSets(names: seq<string>, req: seq<string>)
    requires names == ["name", "dosage", "form", "route", "frequency", "purpose", "description"]
    requires req == ["name", "purpose", "description"]
    ensures (set n | n in names) - (set n | n in req) == {"dosage", "form", "route", "frequency"}
  {
    assert (set n | n in names) == {"name", "dosage", "form", "route", "frequency", "purpose", "description"};
    assert (set n | n in req) == {"name", "purpose", "description"};
  }

  /**
   * A prescription item requires only its name, purpose and description:
   * dosage, form, route and frequency may be absent.
   */
  lemma PrescriptionOptionalFields()
    ensures OptionalFields(PrescriptionSchema) == {"dosage", "form", "route", "frequency"}
  {
    PrescriptionFieldNames();
    PrescriptionNameSets(PropertyNames(PrescriptionSchema.properties), PrescriptionSchema.required);
  }

  // ---------------------------------------------------------------------
  // The prompt
  // ---------------------------------------------------------------------

  const PromptIntro: string :=
    "\nA patient presents with the following "
    + "information:\n- Patient Details: Name: "
  const AgeLabel: string := ", Age: "
  const GenderLabelText: string := ", Gender: "
  const AreaLabel: string := "\n- Primary Affected Area: "
  const SymptomsLabel: string := "\n- Symptoms: "
  const PromptInstructions: string :=
    "\n\nPlease generate an educational "
    + "analysis based on this data. The output "
    + "must be a JSON object matching the "
    + "provided schema. \n- For 'conditions', "
    + "provide 2 plausible potential "
    + "conditions with simple descriptions.\n- "
    + "For 'prescriptions', provide 1-2 common "
    + "generic or over-the-counter example "
    + "medications. The description for each "
    + "MUST include a disclaimer like "
    + "\"Educational example. Consult a "
    + "clinician before use.\"\n- For "
    + "'lifestyleAdvice', provide 3-4 simple, "
    + "helpful tips.\nThis is for a tool called "
    + "'MedDoc Prescriber' and is for "
    + "educational demonstration ONLY. Do not "
    + "provide a real diagnosis or medical "
    + "advice.\n\nIMPORTANT: Your entire "
    + "response must be ONLY the raw JSON "
    + "object, without any surrounding text, "
    + "explanations, or markdown formatting "
    + "like ```json.\n"

  /** `data.symptoms.map(s => s.name)`. */
  function SymptomNames(symptoms: seq<Symptom>): (r: seq<string>)
    ensures |r| == |symptoms| && forall k :: 0 <= k < |symptoms| ==> r[k] == symptoms[k].name
  {
    seq(|symptoms|, k requires 0 <= k < |symptoms| => symptoms[k].name)
  }

  /**
   * The template text before the symptom list, piece by piece: each label
   * followed by the intake field it introduces.
   */
  function HeadPieces(data: IntakeData): (r: seq<string>)
    ensures |r| == 9
    ensures r[1] == data.patientInfo.name && r[3] == data.patientInfo.age
    ensures r[5] == GenderLabel(data.patientInfo.gender) && r[7] == Label(data.primaryBodyPart)
    ensures r[0] == PromptIntro && r[2] == AgeLabel && r[4] == GenderLabelText
    ensures r[6] == AreaLabel && r[8] == SymptomsLabel
  {
    [ PromptIntro, data.patientInfo.name,
      AgeLabel, data.patientInfo.age,
      GenderLabelText, GenderLabel(data.patientInfo.gender),
      AreaLabel, Label(data.primaryBodyPart),
      SymptomsLabel ]
  }

  /** The part of the prompt before the symptom list. */
  function PromptHead(data: IntakeData): string {
    Join(HeadPieces(data), "")
  }

  /** `buildPrompt(data)`: a pure function of the intake. */
  function BuildPrompt(data: IntakeData): string {
    PromptHead(data) + Join(SymptomNames(data.symptoms), ", ") + PromptInstructions
  }

  /** Whatever occurs in the part before the symptom list occurs at the same place in the prompt. */
  lemma HeadOccursInPrompt(data: IntakeData, p: string, k: nat)
    requires OccursAt(PromptHead(data), p, k)
    ensures OccursAt(BuildPrompt(data), p, k)
  {
    var joined := Join(SymptomNames(data.symptoms), ", ");
    OccursAtExtended(PromptHead(data), joined, p, k);
    OccursAtExtended(PromptHead(data) + joined, PromptInstructions, p, k);
  }

  /**
   * The prompt states the patient verbatim: piece k of the template (a label,
   * or the name, age, gender or region it introduces) stands where the pieces
   * before it end.
   */
  lemma PromptStatesPiece(data: IntakeData, k: nat)
    requires k < 9
    ensures OccursAt(BuildPrompt(data), HeadPieces(data)[k], JoinOffset(HeadPieces(data), "", k))
    ensures k < 8 ==>
      JoinOffset(HeadPieces(data), "", k + 1) == JoinOffset(HeadPieces(data), "", k) + |HeadPieces(data)[k]|
  {
    var pieces := HeadPieces(data);
    JoinPlacesEach(pieces, "", k);
    HeadOccursInPrompt(data, pieces[k], JoinOffset(pieces, "", k));
    if k < 8 {
      JoinOffsetStep(pieces, "", k);
    }
  }

  /**
   * The symptom names follow the part before the list in list order: name k
   * stands at its place in the joined list, followed by ", " unless it is the
   * last.
   */
  lemma PromptListsSymptom(data: IntakeData, k: nat)
    requires k < |data.symptoms|
    ensures var names := SymptomNames(data.symptoms);
      OccursAt(BuildPrompt(data), names[k], |PromptHead(data)| + JoinOffset(names, ", ", k))
    ensures var names := SymptomNames(data.symptoms);
      k + 1 < |names| ==>
        OccursAt(BuildPrompt(data), ", ", |PromptHead(data)| + JoinOffset(names, ", ", k) + |names[k]|)
  {
    JoinedPartInContext(PromptHead(data), SymptomNames(data.symptoms), ", ", PromptInstructions, k);
  }

  /**
   * The part before the symptom list ends with the "- Symptoms: " label, so
   * the first symptom name follows that label directly.
   */
  lemma PromptHeadEndsWithSymptomsLabel(data: IntakeData)
    ensures |PromptHead(data)| == JoinOffset(HeadPieces(data), "", 8) + |SymptomsLabel|
  {
    JoinEndsWithLast(HeadPieces(data), "");
  }

  /**
   * The instructions follow the symptom list directly and end the prompt.
   * (With at least one symptom the list ends with the last name, by
   * `JoinEndsWithLast`.)
   */
  lemma PromptEndsWithInstructions(data: IntakeData)
    ensures var at := |PromptHead(data)| + |Join(SymptomNames(data.symptoms), ", ")|;
      at <= |BuildPrompt(data)| && BuildPrompt(data)[at..] == PromptInstructions
  {
    SuffixAfterTwo(PromptHead(data), Join(SymptomNames(data.symptoms), ", "), PromptInstructions);
  }

  // ---------------------------------------------------------------------
  // Repair of the model's text
  // ---------------------------------------------------------------------

  const FenceOpen: string := "```json\n"
  const FenceClose: string := "\n```"

  /**
   * The first match of /```json\n([\s\S]*?)\n```/ in `t` starts at `i` and its
   * capture ends at `j`: no earlier opener is followed by any closer (the
   * leftmost match), and no closer lies between the opener and `j` (the lazy,
   * shortest capture).
   */
  ghost predicate FirstFenceMatch(t: string, i: nat, j: nat) {
    && OccursAt(t, FenceOpen, i)
    && i + |FenceOpen| <= j
    && OccursAt(t, FenceClose, j)
    && (forall q :: i + |FenceOpen| <= q < j ==> !OccursAt(t, FenceClose, q))
    && (forall p: nat, q: nat :: p < i && p + |FenceOpen| <= q && OccursAt(t, FenceOpen, p) ==> !OccursAt(t, FenceClose, q))
  }

  /** No opener in `t` is followed by a closer, so the pattern does not match at all. */
  ghost predicate NoFencedBlock(t: string) {
    forall p: nat, q: nat :: p + |FenceOpen| <= q && OccursAt(t, FenceOpen, p) ==> !OccursAt(t, FenceClose, q)
  }

  /**
   * The fence step: the interior of the first fenced block replaces the text;
   * a text without a match, or whose capture is empty (falsy), is kept.
   */
  function ExtractFenced(t: string): string {
    match FindFrom(t, FenceOpen, 0)
    case None => t
    case Some(i) =>
      match FindFrom(t, FenceClose, i + |FenceOpen|)
      case None => t
      case Some(j) => if j == i + |FenceOpen| then t else t[i + |FenceOpen|..j]
  }

  /** The repair applied to the model's text before parsing: trim, then the fence step. */
  function Repair(raw: string): string {
    ExtractFenced(Trim(raw))
  }

  /** The fence step agrees with the regular expression's first match. */
  lemma ExtractTakesFirstMatch(t: string, i: nat, j: nat)
    requires FirstFenceMatch(t, i, j)
    ensures ExtractFenced(t) == if j == i + |FenceOpen| then t else t[i + |FenceOpen|..j]
  {
    var first := FindFrom(t, FenceOpen, 0);
    assert first == Some(i);
    assert FindFrom(t, FenceClose, i + |FenceOpen|) == Some(j);
  }

  /** Text in which no opener is followed by a closer passes the fence step unchanged. */
  lemma ExtractWithoutBlock(t: string)
    requires NoFencedBlock(t)
    ensures ExtractFenced(t) == t
  {
  }

  /** A text that has a fenced block has a first match in the regular expression's sense. */
  lemma FirstMatchExists(t: string)
    requires !NoFencedBlock(t)
    ensures exists i, j :: FirstFenceMatch(t, i, j)
  {
    var p: nat, q: nat :| p + |FenceOpen| <= q && OccursAt(t, FenceOpen, p) && OccursAt(t, FenceClose, q);
    var i := FindFrom(t, FenceOpen, 0).value;
    var j := FindFrom(t, FenceClose, i + |FenceOpen|).value;
    assert FirstFenceMatch(t, i, j);
  }

  /** In a fenced `s`, the first closer after the opener is the one appended after `s`. */
  lemma OnlyFinalCloser(s: string, q: nat)
    requires !Includes(s, FenceClose)
    requires |FenceOpen| <= q < |FenceOpen| + |s|
    ensures !OccursAt(FenceOpen + s + FenceClose, FenceClose, q)
  {
    var t := FenceOpen + s + FenceClose;
    var n, e := |FenceOpen|, |FenceOpen| + |s|;
    if q + |FenceClose| <= e {
      assert t[q..q + |FenceClose|] == s[q - n..q - n + |FenceClose|];
      assert !OccursAt(s, FenceClose, q - n);
    } else {
      assert t[q..q + |FenceClose|][e - q] == '\n';
    }
  }

  /** The closer appended after `s` is the first one after the opener. */
  lemma FinalCloserFound(s: string)
    requires !Includes(s, FenceClose)
    ensures FindFrom(FenceOpen + s + FenceClose, FenceClose, |FenceOpen|) == Some(|FenceOpen| + |s|)
  {
    var t := FenceOpen + s + FenceClose;
    var n, e := |FenceOpen|, |FenceOpen| + |s|;
    OccursAtEnd(FenceOpen + s, FenceClose);
    forall q: nat | n <= q < e ensures !OccursAt(t, FenceClose, q) {
      OnlyFinalCloser(s, q);
    }
    FindFromIsFirst(t, FenceClose, n, e);
  }

  /** A fenced text starts and ends with a backquote, so trimming leaves it alone. */
  lemma FencedIsTrimmed(s: string)
    ensures Repair(FenceOpen + s + FenceClose) == ExtractFenced(FenceOpen + s + FenceClose)
  {
    var t := FenceOpen + s + FenceClose;
    assert t[0] == '`' && t[|t| - 1] == '`';
    TrimOfTrimmed(t);
  }

  /** The opener placed at the front of a fenced text is the first one found. */
  lemma FencedOpenerFirst(s: string)
    ensures FindFrom(FenceOpen + s + FenceClose, FenceOpen, 0) == Some(0)
  {
    var t := FenceOpen + s + FenceClose;
    assert t[0..|FenceOpen|] == FenceOpen;
  }

  /** A text opening with a fence whose first closer leaves a non-empty capture yields that capture. */
  lemma ExtractLeadingBlock(t: string, j: nat)
    requires FindFrom(t, FenceOpen, 0) == Some(0)
    requires FindFrom(t, FenceClose, |FenceOpen|) == Some(j)
    requires j != |FenceOpen|
    ensures ExtractFenced(t) == t[|FenceOpen|..j]
  {
  }

  /**
   * Round trip: wrapping a non-empty `s` that holds no closing fence in a
   * ```json fence and repairing the result gives back exactly `s`.
   */
  lemma FenceRoundTrip(s: string)
    requires s != "" && !Includes(s, FenceClose)
    ensures Repair(FenceOpen + s + FenceClose) == s
  {
    var t := FenceOpen + s + FenceClose;
    FencedIsTrimmed(s);
    FencedOpenerFirst(s);
    FinalCloserFound(s);
    ExtractLeadingBlock(t, |FenceOpen| + |s|);
    assert t[|FenceOpen|..|FenceOpen| + |s|] == s;
  }

  // ---------------------------------------------------------------------
  // Errors
  // ---------------------------------------------------------------------

  /** The marker that lets an error through to the user interface unchanged. */
  const ApiKeyMarker: string := "API key"

  /** The error `getGenAIClient` raises when no key is stored. */
  const MissingKeyMessage: string :=
    "Gemini " + ApiKeyMarker + " not found. Please set it in the "
    + "application settings."

  /** The one message every other failure is collapsed into. */
  const GenericFailureMessage: string :=
    "Failed to get analysis from AI. " + "The model returned an invalid "
    + "response. Check the developer " + "console for more details."

  /**
   * The TypeError raised by calling `trim` on an absent response text, in
   * the wording of the V8 engine; other engines word it differently, and
   * none of their wordings mentions an API key either.
   */
  const UndefinedTextMessage: string :=
    "Cannot read properties of " + "undefined (reading 'trim')"

  lemma MissingKeyMessageNamesKey()
    ensures Includes(MissingKeyMessage, ApiKeyMarker)
  {
    assert MissingKeyMessage[7..7 + |ApiKeyMarker|] == ApiKeyMarker;
    assert OccursAt(MissingKeyMessage, ApiKeyMarker, 7);
  }

  lemma GenericMessageLacksKey()
    ensures !Includes(GenericFailureMessage, ApiKeyMarker)
  {
    assert 'P' !in "Failed to get analysis from AI. " && 'P' !in "The model returned an invalid ";
    assert 'P' !in "response. Check the developer " && 'P' !in "console for more details.";
    MissingCharExcludes(GenericFailureMessage, ApiKeyMarker, 'P');
  }

  lemma UndefinedTextMessageLacksKey()
    ensures !Includes(UndefinedTextMessage, ApiKeyMarker)
  {
    assert 'P' !in "Cannot read properties of " && 'P' !in "undefined (reading 'trim')";
    MissingCharExcludes(UndefinedTextMessage, ApiKeyMarker, 'P');
  }

  /**
   * The error policy of the catch block: an error mentioning "API key" is
   * rethrown as it is, everything else becomes the generic message. The
   * outcome mentions "API key" exactly when the caught error did.
   */
  function ClassifyFailure(message: string): (r: string)
    ensures Includes(message, ApiKeyMarker) ==> r == message
    ensures !Includes(message, ApiKeyMarker) ==> r == GenericFailureMessage
    ensures Includes(r, ApiKeyMarker) <==> Includes(message, ApiKeyMarker)
  {
    GenericMessageLacksKey();
    if Includes(message, ApiKeyMarker) then message else GenericFailureMessage
  }

  /** Classifying twice is classifying once. */
  lemma ClassifyIdempotent(message: string)
    ensures ClassifyFailure(ClassifyFailure(message)) == ClassifyFailure(message)
  {
  }

  // ---------------------------------------------------------------------
  // The request/response step
  // ---------------------------------------------------------------------

  /** The key `getGenAIClient` reads; an absent or empty entry counts as missing. */
  function StoredApiKey(store: map<string, string>): (r: Option<string>)
    ensures r.Some? <==> ApiKeyStorageKey in store && store[ApiKeyStorageKey] != ""
    ensures r.Some? ==> r.value == store[ApiKeyStorageKey]
  {
    if ApiKeyStorageKey in store && store[ApiKeyStorageKey] != "" then Some(store[ApiKeyStorageKey]) else None
  }

  const ModelName: string := "gemini-2.5-flash"
  const ResponseMimeType: string := "application/json"
  const SystemInstruction: string :=
    "You are an AI assistant for 'MedDoc "
    + "Prescriber', an educational tool. Your "
    + "role is to generate example medical "
    + "data for demonstration purposes only. "
    + "All information you provide must be "
    + "clearly marked and understood as "
    + "non-clinical, educational examples. DO "
    + "NOT provide real medical advice. Based "
    + "on the user's input of symptoms, you "
    + "will generate a plausible set of "
    + "potential conditions, example "
    + "prescriptions (using generic names), "
    + "and general lifestyle advice. Your "
    + "output must strictly conform to the "
    + "provided JSON schema."

  /** One call of the hosted model. */
  datatype ModelRequest = ModelRequest(
    apiKey: string, model: string, contents: string,
    systemInstruction: string, responseMimeType: string, responseSchema: Schema)

  /** What the hosted model gives back: a response whose text may be absent, or a raised error. */
  datatype ModelReply = Replied(text: Option<string>) | Raised(message: string)

  /** What `JSON.parse` does with a text: a value, or a SyntaxError with its message. */
  datatype ParseResult = Parsed(value: Json) | SyntaxError(message: string)

  /** The promise `getAIAnalysis` returns: resolved with the parsed value, or rejected with an error message. */
  datatype AnalysisOutcome = Analysed(value: Json) | Failed(message: string)

  function RequestFor(apiKey: string, data: IntakeData): ModelRequest {
    ModelRequest(apiKey, ModelName, BuildPrompt(data), SystemInstruction, ResponseMimeType, AnalysisSchema)
  }

  /**
   * `getAIAnalysis(data)`. `respond` stands for the hosted model and `parse`
   * for `JSON.parse`; `sent` is the request made, if any. Without a stored
   * key nothing is sent and the key error comes back unchanged; otherwise
   * exactly the built request is sent, a parsed value is returned as it is
   * (no check against the schema), and every failure goes through the error
   * policy.
   */
  method GetAIAnalysis(
    store: map<string, string>, data: IntakeData,
    respond: ModelRequest -> ModelReply, parse: string -> ParseResult)
    returns (outcome: AnalysisOutcome, sent: Option<ModelRequest>)
    ensures StoredApiKey(store).None? ==> sent.None? && outcome == Failed(MissingKeyMessage)
    ensures StoredApiKey(store).Some? ==> sent == Some(RequestFor(StoredApiKey(store).value, data))
    ensures sent.Some? ==>
      match respond(sent.value)
      case Raised(m) => outcome == Failed(ClassifyFailure(m))
      case Replied(None) => outcome == Failed(GenericFailureMessage)
      case Replied(Some(text)) =>
        match parse(Repair(text))
        case Parsed(v) => outcome == Analysed(v)
        case SyntaxError(m) => outcome == Failed(ClassifyFailure(m))
    ensures outcome.Failed? ==> outcome.message == GenericFailureMessage || Includes(outcome.message, ApiKeyMarker)
  {
    var caught: string;
    sent := None;
    var apiKey := StoredApiKey(store);
    if apiKey.None? {
      caught := MissingKeyMessage;
      MissingKeyMessageNamesKey();
    } else {
      var request := RequestFor(apiKey.value, data);
      sent := Some(request);
      var response := respond(request);
      match response {
        case Raised(m) =>
          caught := m;
        case Replied(None) =>
          caught := UndefinedTextMessage;
          UndefinedTextMessageLacksKey();
        case Replied(Some(rawResponseText)) =>
          var jsonText := Repair(rawResponseText);
          match parse(jsonText) {
            case Parsed(v) =>
              outcome := Analysed(v);
              return;
            case SyntaxError(m) =>
              caught := m;
          }
      }
    }
    outcome := Failed(ClassifyFailure(caught));
  }
}
