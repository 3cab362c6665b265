/** Values shared by the Flask server and the browser scripts: optional JSON
    fields, HTTP replies, correlation coefficients and the strong-correlation
    entry that travels from one to the other. */
module Common {

  /** A value that may be missing: Python's `None`. */
  datatype Option<T> = None | Some(value: T) {
    /** Python's `dict.get(key, default)`. */
    function GetOr(default: T): T {
      if Some? then value else default
    }
  }

  /** A key of a JSON request body: absent, present with `null`, or present
      with a value. */
  datatype Field<T> = Absent | Null | Given(value: T) {
    /** Python's `data.get(key, default)`: the default stands in only for an
        absent key; a `null` value is `None`. */
    function Get(default: Option<T>): (r: Option<T>)
      ensures Absent? ==> r == default
      ensures Null? ==> r.None?
      ensures Given? ==> r == Some(value)
    {
      match this
      case Absent => default
      case Null => None
      case Given(v) => Some(v)
    }
  }

  /** JavaScript and Python truthiness of an optional string: present and non-empty. */
  predicate Truthy(s: Option<string>) {
    s.Some? && s.value != ""
  }

  /** What a route sends back: a JSON body with status 200, or an error status. */
  datatype Reply<T> = Ok(body: T) | Err(status: int, message: string)

  /** The body a route returns for an unknown dataset name, with status 400. */
  const InvalidDataset: string := "Invalid dataset."

  /** An exception the route does not catch; Flask answers it with status 500. */
  const InternalServerError: string := "Internal Server Error"

  /** A correlation coefficient as pandas delivers it: a number or NaN. */
  datatype Coeff = NaN | Num(r: real)

  /** One entry of `strong_correlations`: `{var1, var2, value}`. */
  datatype StrongCorrelation = StrongCorrelation(var1: string, var2: string, value: real)
}
