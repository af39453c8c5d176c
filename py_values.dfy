/**
 * Python values as the modelled code handles them: the contents of
 * dictionaries (request bodies, keyword arguments, database rows, service
 * capabilities) and their truthiness.
 */
module PyValues {
  import opened Wrappers
  import Strings

  datatype Value =
    | VNone
    | VBool(b: bool)
    | VInt(i: int)
    | VStr(s: string)
    | VList(items: seq<Value>)
    | VDict(entries: map<string, Value>)
      /** A `datetime`: seconds since the epoch and, when tz-aware, its UTC offset in seconds. */
    | VTime(seconds: int, utcOffset: Option<int>)
      /** An exception instance, known by its text. */
    | VExc(text: string)

  type Dict = map<string, Value>

  /** `d.get(key)`: the value under `key`, or None. */
  function Get(d: Dict, key: string): Value
  {
    if key in d then d[key] else VNone
  }

  /** Python truthiness (`if v:`). */
  predicate Truthy(v: Value)
  {
    match v
    case VNone => false
    case VBool(b) => b
    case VInt(i) => i != 0
    case VStr(s) => s != ""
    case VList(items) => |items| > 0
    case VDict(entries) => |entries| > 0
    case VTime(_, _) => true
    case VExc(_) => true
  }

  /** `x or default`. */
  function Or(v: Value, default: Value): (r: Value)
    ensures Truthy(v) ==> r == v
    ensures !Truthy(v) ==> r == default
  {
    if Truthy(v) then v else default
  }

  /** The text `"%s" % v` produces; containers and datetimes get a fixed placeholder. */
  function Render(v: Value): string
  {
    match v
    case VNone => "None"
    case VBool(b) => if b then "True" else "False"
    case VInt(i) => Strings.IntToString(i)
    case VStr(s) => s
    case VExc(t) => t
    case _ => "<value>"
  }

  /** `[x for x in xs]` over a list of strings. */
  function StrList(xs: seq<string>): (r: Value)
    ensures r.VList? && |r.items| == |xs|
    ensures forall i :: 0 <= i < |xs| ==> r.items[i] == VStr(xs[i])
  {
    VList(seq(|xs|, i requires 0 <= i < |xs| => VStr(xs[i])))
  }
}
