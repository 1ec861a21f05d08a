/** The optional value used wherever the Swift source has an optional (`String?`, `IPInfo?`, ...). */
module Wrappers {

  datatype Option<+T> = None | Some(value: T) {

    /** The wrapped value, or `default` for None (Swift's `??`). */
    function GetOr(default: T): T {
      match this
      case Some(v) => v
      case None => default
    }
  }
}

/**
 * Decoded JSON objects as the Swift code reads them: `json[key] as? String` yields the
 * text only when the member is present and is a string.
 */
module JsonFields {
  import opened Wrappers

  datatype JsonValue = JText(text: string) | JNonText

  type JsonObject = map<string, JsonValue>

  /** `json[key] as? String`. */
  function StringField(obj: JsonObject, key: string): (r: Option<string>)
    ensures r.Some? <==> key in obj && obj[key].JText?
    ensures r.Some? ==> obj[key] == JText(r.value)
  {
    if key in obj && obj[key].JText? then Some(obj[key].text) else None
  }
}
