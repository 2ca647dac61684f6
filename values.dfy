/**
 * The Python values the response layer handles without looking inside: context values,
 * request objects and the arguments of a template response.  An object is described only
 * by what the core asks of it: whether it has a `method` and a `url` attribute (and their
 * values) and what `str()` gives for it.
 */
module Values {
  import opened Wrappers

  /** The `url` attribute of a request-like object; `path` is `None` when it has none. */
  datatype Url = Url(path: Option<string>)

  datatype Value =
    | NoneValue
    | IntValue(i: int)
    | StrValue(s: string)
    | DictValue(entries: map<string, Value>)
    | ObjectValue(id: nat, httpMethod: Option<string>, url: Option<Url>, text: string)

  /** A `dict[str, Any]` whose insertion order nothing in the core depends on. */
  type Context = map<string, Value>

  /** `hasattr(v, "method") and hasattr(v, "url")`: the mark of a request-like object. */
  predicate RequestLike(v: Value) {
    v.ObjectValue? && v.httpMethod.Some? && v.url.Some?
  }

  function DigitChar(d: nat): char
    requires d < 10
  {
    "0123456789"[d]
  }

  function NatToString(n: nat): (s: string)
    ensures |s| >= 1
    decreases n
  {
    if n < 10 then [DigitChar(n)] else NatToString(n / 10) + [DigitChar(n % 10)]
  }

  /** `str(v)`.  A dict is printed by Python in insertion order, which a map does not keep,
      so its text is a fixed stand-in. */
  function Str(v: Value): string {
    match v
    case NoneValue => "None"
    case IntValue(i) => if i < 0 then "-" + NatToString(-i) else NatToString(i)
    case StrValue(s) => s
    case DictValue(_) => "{...}"
    case ObjectValue(_, _, _, text) => text
  }

  /** A mutable `dict` object: the pooled contexts and the caller's template context are
      updated in place and handed around by reference. */
  class Dict {
    var items: Context

    constructor (items: Context)
      ensures this.items == items
    {
      this.items := items;
    }
  }
}
