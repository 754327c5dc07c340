/** `schematize(schema).parse` and the `UpdateCount` schema: the strict gate
    that turns the raw text of a model's answer into an integer delta. */
module Prompts {
  import opened Values

  /** A value as `JSON.parse` returns it. An object is a map because a
      parsed object keeps one value per key. */
  datatype Json =
    | JNull
    | JBool(b: bool)
    | JNumber(n: Num)
    | JString(s: string)
    | JArray(items: seq<Json>)
    | JObject(fields: map<string, Json>)

  /** What `UpdateCount`'s object schema objects to. */
  datatype Issue = ExpectedObject | DeltaRequired | DeltaExpectedNumber | DeltaExpectedInteger

  /** The three ways `parse` throws: the `'Invalid input'` guard, a
      `SyntaxError` from `JSON.parse`, and a schema error. */
  datatype ParseError = InvalidInput | SyntaxError | SchemaError(issue: Issue)

  /** The value `UpdateCount.parse` returns: `{ delta }`. */
  datatype UpdateCount = UpdateCount(delta: int)

  /** The JSON text a producer means: present and not the empty string. */
  predicate IsGiven(input: Option<string>) {
    input.Some? && input.value != ""
  }

  /** `schematize(schema).parse`: reject absent or empty input before any
      parsing, then `JSON.parse` (the parameter `jsonParse`, `None` for a
      syntax error), then check the schema. */
  function Schematize<T>(schema: Json -> Result<T, Issue>, jsonParse: string -> Option<Json>,
                         input: Option<string>): (r: Result<T, ParseError>)
    ensures !IsGiven(input) ==> r == Err(InvalidInput)
    ensures IsGiven(input) && jsonParse(input.value).None? ==> r == Err(SyntaxError)
    ensures IsGiven(input) && jsonParse(input.value).Some? ==>
              match schema(jsonParse(input.value).value)
              case Ok(v) => r == Ok(v)
              case Err(issue) => r == Err(SchemaError(issue))
  {
    if !IsGiven(input) then Err(InvalidInput)
    else match jsonParse(input.value)
      case None => Err(SyntaxError)
      case Some(json) =>
        match schema(json)
        case Ok(v) => Ok(v)
        case Err(issue) => Err(SchemaError(issue))
  }

  /** The object schema `{ delta: z.number().int() }` accepts this: an
      object whose `delta` is a whole number. */
  predicate HasWholeDelta(json: Json) {
    json.JObject? && "delta" in json.fields && json.fields["delta"].JNumber?
    && IsInteger(json.fields["delta"].n)
  }

  /** The object schema `{ delta: z.number().int() }`. Unknown keys are
      ignored; a non-finite number (from a literal too large for a double)
      fails `.int()`. */
  function UpdateCountSchema(json: Json): (r: Result<UpdateCount, Issue>)
    ensures r.Ok? <==> HasWholeDelta(json)
    ensures r.Ok? ==> r.value.delta == IntValue(json.fields["delta"].n)
    ensures !json.JObject? ==> r == Err(ExpectedObject)
    ensures json.JObject? && "delta" !in json.fields ==> r == Err(DeltaRequired)
    ensures json.JObject? && "delta" in json.fields && !json.fields["delta"].JNumber? ==>
              r == Err(DeltaExpectedNumber)
    ensures (json.JObject? && "delta" in json.fields && json.fields["delta"].JNumber?
             && !IsInteger(json.fields["delta"].n)) ==> r == Err(DeltaExpectedInteger)
  {
    if !json.JObject? then Err(ExpectedObject)
    else if "delta" !in json.fields then Err(DeltaRequired)
    else match json.fields["delta"]
      case JNumber(n) => if IsInteger(n) then Ok(UpdateCount(IntValue(n))) else Err(DeltaExpectedInteger)
      case _ => Err(DeltaExpectedNumber)
  }

  /** `UpdateCount.parse(text)`: succeeds exactly when the text is given,
      parses, and is an object whose `delta` is a whole number, which it
      returns; every failure names its stage. */
  function ParseUpdateCount(jsonParse: string -> Option<Json>, input: Option<string>): (r: Result<UpdateCount, ParseError>)
    ensures r.Ok? <==> (IsGiven(input) && jsonParse(input.value).Some?
                        && HasWholeDelta(jsonParse(input.value).value))
    ensures r.Ok? ==> r.value.delta == IntValue(jsonParse(input.value).value.fields["delta"].n)
    ensures r == Err(InvalidInput) <==> !IsGiven(input)
    ensures r == Err(SyntaxError) <==> IsGiven(input) && jsonParse(input.value).None?
  {
    Schematize(UpdateCountSchema, jsonParse, input)
  }

  /** `{"delta": -3}` is accepted as -3, and so is `{"delta": -3.0}`. */
  lemma AcceptsWholeDelta(jsonParse: string -> Option<Json>, text: string, n: Num)
    requires text != "" && n.Finite?
    requires jsonParse(text) == Some(JObject(map["delta" := JNumber(n)]))
    requires n.numer == -3 * n.denom
    ensures ParseUpdateCount(jsonParse, Some(text)) == Ok(UpdateCount(-3))
  {
  }

  /** `{"delta": 2.5}` is rejected as not an integer. */
  lemma RejectsFraction(jsonParse: string -> Option<Json>, text: string)
    requires text != ""
    requires jsonParse(text) == Some(JObject(map["delta" := JNumber(Finite(5, 2))]))
    ensures ParseUpdateCount(jsonParse, Some(text)) == Err(SchemaError(DeltaExpectedInteger))
  {
  }

  /** `{"delta": "five"}` is rejected as not a number. */
  lemma RejectsText(jsonParse: string -> Option<Json>, text: string)
    requires text != ""
    requires jsonParse(text) == Some(JObject(map["delta" := JString("five")]))
    ensures ParseUpdateCount(jsonParse, Some(text)) == Err(SchemaError(DeltaExpectedNumber))
  {
  }

  /** An object without `delta` is rejected, whatever else it holds. */
  lemma RejectsMissingDelta(jsonParse: string -> Option<Json>, text: string, fields: map<string, Json>)
    requires text != "" && "delta" !in fields
    requires jsonParse(text) == Some(JObject(fields))
    ensures ParseUpdateCount(jsonParse, Some(text)) == Err(SchemaError(DeltaRequired))
  {
  }
}
