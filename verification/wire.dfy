/**
 * The diagnosis request and result records and their JSON wire form, as
 * written by the app's kotlinx serializer (`ignoreUnknownKeys = true`,
 * defaults not encoded) and read by the backend's pydantic models, and back.
 */
module Wire {
  import opened Wrappers

  /** A JSON document. */
  datatype Json =
    | JNull
    | JBool(b: bool)
    | JNum(n: real)
    | JStr(s: string)
    | JArr(items: seq<Json>)
    | JObj(fields: map<string, Json>)

  /**
   * The body of `POST /diagnose`. `description` is required; the two image
   * fields are optional, default to null and are independent of each other.
   */
  datatype DiagnosisRequest = DiagnosisRequest(
    description: string,
    imageBase64: Option<string> := None,
    imageMediaType: Option<string> := None)

  /**
   * A diagnosis. Every field but `category` is required; `category` is absent
   * from the app's class but read by its callers, and defaults to "general"
   * as in the backend's response model.
   */
  datatype DiagnosisResult = DiagnosisResult(
    title: string,
    difficulty: string,
    estimatedTime: string,
    tools: seq<string>,
    steps: seq<string>,
    category: string := "general")

  const DEFAULT_CATEGORY: string := "general"

  // Wire names of the request.
  const KEY_DESCRIPTION: string := "description"
  const KEY_IMAGE_BASE64: string := "image_base64"
  const KEY_IMAGE_MEDIA_TYPE: string := "image_media_type"

  // Wire names of the result; only `estimatedTime` is renamed.
  const KEY_TITLE: string := "title"
  const KEY_DIFFICULTY: string := "difficulty"
  const KEY_ESTIMATED_TIME: string := "estimated_time"
  const KEY_TOOLS: string := "tools"
  const KEY_STEPS: string := "steps"
  const KEY_CATEGORY: string := "category"
  const RequiredKeys: set<string> := {KEY_TITLE, KEY_DIFFICULTY, KEY_ESTIMATED_TIME, KEY_TOOLS, KEY_STEPS}

  /** The fields of an object, `None` for any other JSON value. */
  function Fields(j: Json): Option<map<string, Json>> {
    if j.JObj? then Some(j.fields) else None
  }

  /** A required string field. */
  function RequiredString(m: map<string, Json>, key: string): (r: Option<string>)
    ensures r.Some? <==> key in m && m[key].JStr?
    ensures r.Some? ==> m[key] == JStr(r.value)
  {
    if key in m && m[key].JStr? then Some(m[key].s) else None
  }

  /**
   * An optional string field: absent or JSON null reads as `None`; any value
   * other than a string is an error (the outer `None`).
   */
  function OptionalString(m: map<string, Json>, key: string): (r: Option<Option<string>>)
    ensures key !in m ==> r == Some(None)
    ensures key in m && m[key].JStr? ==> r == Some(Some(m[key].s))
    ensures r == None <==> key in m && !m[key].JStr? && !m[key].JNull?
  {
    if key !in m then Some(None)
    else match m[key]
      case JNull => Some(None)
      case JStr(s) => Some(Some(s))
      case _ => None
  }

  /** A JSON array all of whose items are strings, read in order. */
  function StringList(items: seq<Json>): (r: Option<seq<string>>)
    ensures r.Some? <==> forall i | 0 <= i < |items| :: items[i].JStr?
    ensures r.Some? ==> |r.value| == |items| &&
                        forall i | 0 <= i < |items| :: items[i] == JStr(r.value[i])
  {
    if items == [] then Some([])
    else
      match (items[0], StringList(items[1..]))
      case (JStr(s), Some(rest)) => Some([s] + rest)
      case _ => None
  }

  function StringArray(xs: seq<string>): (j: Json)
    ensures j.JArr? && |j.items| == |xs|
    ensures forall i | 0 <= i < |xs| :: j.items[i] == JStr(xs[i])
  {
    JArr(seq(|xs|, i requires 0 <= i < |xs| => JStr(xs[i])))
  }

  // ---------------------------------------------------------------------
  // Request: app encodes, backend decodes

  /** The app's encoding: null image fields equal their default and are left out. */
  function EncodeRequest(req: DiagnosisRequest): (j: Json)
    ensures j.JObj?
    ensures j.fields.Keys <= {KEY_DESCRIPTION, KEY_IMAGE_BASE64, KEY_IMAGE_MEDIA_TYPE}
    ensures KEY_DESCRIPTION in j.fields && j.fields[KEY_DESCRIPTION] == JStr(req.description)
    ensures KEY_IMAGE_BASE64 in j.fields <==> req.imageBase64.Some?
    ensures KEY_IMAGE_MEDIA_TYPE in j.fields <==> req.imageMediaType.Some?
  {
    var m := map[KEY_DESCRIPTION := JStr(req.description)];
    var m := if req.imageBase64.Some? then m[KEY_IMAGE_BASE64 := JStr(req.imageBase64.value)] else m;
    var m := if req.imageMediaType.Some? then m[KEY_IMAGE_MEDIA_TYPE := JStr(req.imageMediaType.value)] else m;
    JObj(m)
  }

  /**
   * The backend's `DiagnoseRequest` model: `description` a required string,
   * the image fields strings or null defaulting to null, other keys ignored.
   */
  function DecodeRequest(j: Json): (r: Option<DiagnosisRequest>)
    ensures r.Some? <==> && j.JObj? && RequiredString(j.fields, KEY_DESCRIPTION).Some?
                         && OptionalString(j.fields, KEY_IMAGE_BASE64).Some?
                         && OptionalString(j.fields, KEY_IMAGE_MEDIA_TYPE).Some?
    ensures r.Some? ==> j.JObj? && KEY_DESCRIPTION in j.fields &&
                        j.fields[KEY_DESCRIPTION] == JStr(r.value.description)
    ensures r.Some? ==> OptionalString(j.fields, KEY_IMAGE_BASE64) == Some(r.value.imageBase64)
    ensures r.Some? ==> OptionalString(j.fields, KEY_IMAGE_MEDIA_TYPE) == Some(r.value.imageMediaType)
    ensures j.JObj? && KEY_DESCRIPTION !in j.fields ==> r == None
  {
    match Fields(j)
    case None => None
    case Some(m) =>
      match (RequiredString(m, KEY_DESCRIPTION), OptionalString(m, KEY_IMAGE_BASE64),
             OptionalString(m, KEY_IMAGE_MEDIA_TYPE))
      case (Some(d), Some(b), Some(t)) => Some(DiagnosisRequest(d, b, t))
      case _ => None
  }

  /** The backend reads back exactly the request the app sent. */
  lemma RequestRoundTrip(req: DiagnosisRequest)
    ensures DecodeRequest(EncodeRequest(req)) == Some(req)
  {
  }

  // ---------------------------------------------------------------------
  // Result: backend encodes, app decodes (pydantic builds it the same way
  // from the model's JSON)

  /** The backend's response body: every field of the response model. */
  function EncodeResult(r: DiagnosisResult): (j: Json)
    ensures j.JObj?
    ensures j.fields.Keys == {KEY_TITLE, KEY_DIFFICULTY, KEY_ESTIMATED_TIME, KEY_TOOLS, KEY_STEPS, KEY_CATEGORY}
    ensures j.fields[KEY_ESTIMATED_TIME] == JStr(r.estimatedTime)
    ensures j.fields[KEY_CATEGORY] == JStr(r.category)
  {
    JObj(map[
      KEY_TITLE := JStr(r.title),
      KEY_DIFFICULTY := JStr(r.difficulty),
      KEY_ESTIMATED_TIME := JStr(r.estimatedTime),
      KEY_TOOLS := StringArray(r.tools),
      KEY_STEPS := StringArray(r.steps),
      KEY_CATEGORY := JStr(r.category)])
  }

  /** A JSON array holding only strings. */
  predicate IsStringArray(j: Json) {
    j.JArr? && forall i | 0 <= i < |j.items| :: j.items[i].JStr?
  }

  /**
   * The shape a result object must have: the five required fields present
   * with their types, and `category`, when present, a string.
   */
  predicate IsResultObject(j: Json) {
    && j.JObj? && RequiredKeys <= j.fields.Keys
    && j.fields[KEY_TITLE].JStr? && j.fields[KEY_DIFFICULTY].JStr? && j.fields[KEY_ESTIMATED_TIME].JStr?
    && IsStringArray(j.fields[KEY_TOOLS]) && IsStringArray(j.fields[KEY_STEPS])
    && (KEY_CATEGORY in j.fields ==> j.fields[KEY_CATEGORY].JStr?)
  }

  /**
   * Building a result from a JSON object: the five required fields with
   * their types, `category` optional with default "general", other keys
   * ignored; anything else is a failure.
   */
  function DecodeResult(j: Json): (r: Option<DiagnosisResult>)
    ensures r.Some? <==> IsResultObject(j)
    ensures r.Some? ==> j.JObj? && KEY_ESTIMATED_TIME in j.fields &&
                        j.fields[KEY_ESTIMATED_TIME] == JStr(r.value.estimatedTime)
    ensures r.Some? ==> KEY_TITLE in j.fields && j.fields[KEY_TITLE] == JStr(r.value.title)
    ensures r.Some? ==> KEY_DIFFICULTY in j.fields && j.fields[KEY_DIFFICULTY] == JStr(r.value.difficulty)
    ensures r.Some? ==> KEY_TOOLS in j.fields && j.fields[KEY_TOOLS] == StringArray(r.value.tools)
    ensures r.Some? ==> KEY_STEPS in j.fields && j.fields[KEY_STEPS] == StringArray(r.value.steps)
    ensures r.Some? && KEY_CATEGORY !in j.fields ==> r.value.category == DEFAULT_CATEGORY
    ensures r.Some? && KEY_CATEGORY in j.fields ==> j.fields[KEY_CATEGORY] == JStr(r.value.category)
    ensures j.JObj? && !(RequiredKeys <= j.fields.Keys) ==> r == None
  {
    match Fields(j)
    case None => None
    case Some(m) =>
      if KEY_TOOLS !in m || !m[KEY_TOOLS].JArr? || KEY_STEPS !in m || !m[KEY_STEPS].JArr? then None
      else
        var category :=
          if KEY_CATEGORY !in m then Some(DEFAULT_CATEGORY)
          else if m[KEY_CATEGORY].JStr? then Some(m[KEY_CATEGORY].s)
          else None;
        match (RequiredString(m, KEY_TITLE), RequiredString(m, KEY_DIFFICULTY),
               RequiredString(m, KEY_ESTIMATED_TIME), StringList(m[KEY_TOOLS].items),
               StringList(m[KEY_STEPS].items), category)
        case (Some(t), Some(d), Some(e), Some(tools), Some(steps), Some(c)) =>
          Some(DiagnosisResult(t, d, e, tools, steps, c))
        case _ => None
  }

  lemma {:induction false} StringListOfArray(xs: seq<string>)
    ensures StringList(StringArray(xs).items) == Some(xs)
  {
    var items := StringArray(xs).items;
    var r := StringList(items);
    assert r.Some?;
    assert r.value == xs;
  }

  /** The app decodes the backend's response body to the result it encoded. */
  lemma ResultRoundTrip(r: DiagnosisResult)
    ensures DecodeResult(EncodeResult(r)) == Some(r)
  {
    StringListOfArray(r.tools);
    StringListOfArray(r.steps);
  }

  /** A response without `category` decodes to category "general". */
  lemma MissingCategoryIsGeneral(r: DiagnosisResult)
    ensures var j := JObj(EncodeResult(r).fields - {KEY_CATEGORY});
            DecodeResult(j) == Some(r.(category := DEFAULT_CATEGORY))
  {
    StringListOfArray(r.tools);
    StringListOfArray(r.steps);
  }
}
