/** The `IsGrad` enumeration of the local execution engine and its string and JSON forms. */
module IsGradSerial {
  import opened Wrappers

  /** The two enumerators, plus any other underlying value a cast can produce. */
  datatype IsGrad = YES | NO | Unnamed(raw: int)

  /** JSON as far as the (de)serializer looks at it: a string, or anything else. */
  datatype Json = JsonString(s: string) | JsonOther

  /** `format_as`: the enumerator's name; an unnamed value is an error. */
  function FormatAs(x: IsGrad): (r: Result<string, string>)
    ensures r.Ok? <==> !x.Unnamed?
    ensures r.Ok? ==> (r.value == "YES" <==> x == YES) && (r.value == "NO" <==> x == NO)
  {
    match x
    case YES => Ok("YES")
    case NO => Ok("NO")
    case Unnamed(_) => Err("Unknown IsGrad value")
  }

  /** `to_json`: the enumerator's name as a JSON string; an unnamed value is an error. */
  function ToJson(x: IsGrad): (r: Result<Json, string>)
    ensures r.Ok? <==> !x.Unnamed?
    ensures r.Ok? ==> r.value.JsonString?
  {
    match x
    case YES => Ok(JsonString("YES"))
    case NO => Ok(JsonString("NO"))
    case Unnamed(_) => Err("Unknown IsGrad value")
  }

  /** `from_json`: accepts exactly the strings "YES" and "NO"; a non-string fails inside
      `get<std::string>` and any other string is an unknown value. */
  function FromJson(j: Json): (r: Result<IsGrad, string>)
    ensures r.Ok? <==> j == JsonString("YES") || j == JsonString("NO")
    ensures r.Ok? ==> !r.value.Unnamed?
  {
    match j
    case JsonOther => Err("type_error: not a string")
    case JsonString(s) =>
      if s == "YES" then Ok(YES)
      else if s == "NO" then Ok(NO)
      else Err("Unknown IsGrad value")
  }

  /** Decoding what was encoded gives the value back. */
  lemma FromJsonToJson(x: IsGrad)
    requires ToJson(x).Ok?
    ensures FromJson(ToJson(x).value) == Ok(x)
  {
  }

  /** Encoding what was decoded gives the JSON back. */
  lemma ToJsonFromJson(j: Json)
    requires FromJson(j).Ok?
    ensures ToJson(FromJson(j).value) == Ok(j)
  {
  }

  /** The JSON form is the formatted name, so the two encodings agree. */
  lemma ToJsonIsFormatted(x: IsGrad)
    ensures ToJson(x).Ok? <==> FormatAs(x).Ok?
    ensures ToJson(x).Ok? ==> ToJson(x).value == JsonString(FormatAs(x).value)
  {
  }

  /** The encoding tells the two enumerators apart. */
  lemma ToJsonInjective(x: IsGrad, y: IsGrad)
    requires ToJson(x).Ok? && ToJson(y).Ok? && ToJson(x) == ToJson(y)
    ensures x == y
  {
  }
}
