/**
 * The parsed form of the metadata body. The parser itself (MiniJson's
 * `dictionaryFromJson`) is not part of this model: the controller receives it
 * as a function parameter.
 */
module Json {
  import opened Wrappers

  /**
   * A value of the parsed dictionary. Numbers, arrays and nested objects are
   * only ever turned into text by the controller, so they are kept as the text
   * .NET's `ToString` gives for them.
   */
  datatype JsonValue =
    | JString(text: string)
    | JBool(flag: bool)
    | JNull
    | JOther(rendering: string)

  type JsonObject = map<string, JsonValue>

  /**
   * `value.ToString()`: a string is itself, a boolean prints as "True" or
   * "False", and a null value has no text (the call throws).
   */
  function Render(v: JsonValue): (text: Option<string>)
    ensures text.None? <==> v.JNull?
    ensures v.JString? ==> text == Some(v.text)
  {
    match v
    case JString(s) => Some(s)
    case JBool(b) => Some(if b then "True" else "False")
    case JNull => None
    case JOther(r) => Some(r)
  }
}
