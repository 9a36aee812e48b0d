/** JavaScript value conventions the handler relies on: optional fields,
    truthiness of string fields, and how a template literal shows a value. */
module JsValues {

  /** A field that may be absent (`undefined`) in a JSON payload. */
  datatype Option<+T> = None | Some(value: T) {
    function GetOr(default: T): T {
      match this
      case Some(v) => v
      case None => default
    }
  }

  /** A string field is truthy when it is present and not the empty string. */
  predicate Truthy(v: Option<string>) {
    v.Some? && v.value != ""
  }

  /** A value interpolated into a template literal: an absent field is shown
      as "undefined". */
  function Show(v: Option<string>): (r: string)
    ensures v.Some? ==> r == v.value
    ensures v.None? ==> r == "undefined"
  {
    match v
    case Some(s) => s
    case None => "undefined"
  }
}
