/** The Python values the bank stores and the restore record holds:
    `None`, strings, lists and string-keyed dicts. */
module Values {

  datatype Value =
    | Null
    | Str(s: string)
    | List(items: seq<Value>)
    | Dict(entries: map<string, Value>)

  /** Python's `None` is represented by `Null`; anything else is a real value. */
  predicate IsNone(v: Value) { v.Null? }

  /** A list of strings as a Python list value. */
  function StrList(xs: seq<string>): (v: Value)
    ensures v.List? && |v.items| == |xs|
    ensures forall i :: 0 <= i < |xs| ==> v.items[i] == Str(xs[i])
  {
    List(seq(|xs|, i requires 0 <= i < |xs| => Str(xs[i])))
  }

  /** A string-to-string map as a Python dict value. */
  function StrDict(m: map<string, string>): (v: Value)
    ensures v.Dict? && v.entries.Keys == m.Keys
    ensures forall k :: k in m ==> v.entries[k] == Str(m[k])
  {
    Dict(map k | k in m :: Str(m[k]))
  }
}
