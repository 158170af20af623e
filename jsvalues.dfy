/** JavaScript values as far as the bootstrap script handles them: the values
    that JSON text parses to, plus `undefined`, which a read of a missing
    property yields.  `Undefined` and `Null` are distinct, so that a key that is
    absent can be told apart from a key that holds `null`. */
module JsValues {

  datatype Json =
    | Undefined
    | Null
    | Bool(b: bool)
    | Num(n: int)
    | Str(s: string)
    | Arr(elems: seq<Json>)
    | Obj(fields: map<string, Json>)

  /** A plain object, such as the parsed contents of a storage slot. */
  type Object = map<string, Json>

  predicate IsDigit(c: char) {
    '0' <= c <= '9'
  }

  /** The decimal value of a string of digits. */
  function DecimalValue(k: string): nat
    requires forall i :: 0 <= i < |k| ==> IsDigit(k[i])
  {
    if |k| == 0 then 0
    else
      assert IsDigit(k[|k| - 1]);
      10 * DecimalValue(k[..|k| - 1]) + (k[|k| - 1] as int - '0' as int)
  }

  /** A property key that names an element of a string or an array: a canonical
      decimal numeral (digits only, no leading zero except "0" itself). */
  predicate IsIndexKey(k: string) {
    && |k| > 0
    && (forall i :: 0 <= i < |k| ==> IsDigit(k[i]))
    && (k[0] == '0' ==> |k| == 1)
  }

  /** `o[k]` on a plain object: a key that is not there reads as `undefined`. */
  function Get(o: Object, k: string): Json {
    if k in o then o[k] else Undefined
  }

  /** The own property `k` of the value `v` (`v[k]`, `v.k`).  Reading a property
      of `null` or `undefined` throws a TypeError, so callers must exclude them.
      Strings and arrays have `length` and their index keys; numbers and
      booleans have no own properties. */
  function Prop(v: Json, k: string): (r: Json)
    requires !v.Undefined? && !v.Null?
    ensures v.Obj? ==> (r.Undefined? <== k !in v.fields)
    ensures v.Obj? && k in v.fields ==> r == v.fields[k]
    ensures (v.Str? || v.Arr?) && k == "length" ==> r == Num(if v.Str? then |v.s| else |v.elems|)
    ensures v.Str? && IsIndexKey(k) && DecimalValue(k) < |v.s| ==> r == Str([v.s[DecimalValue(k)]])
    ensures v.Arr? && IsIndexKey(k) && DecimalValue(k) < |v.elems| ==> r == v.elems[DecimalValue(k)]
    ensures v.Str? ==> (r.Undefined? <==> k != "length" && !(IsIndexKey(k) && DecimalValue(k) < |v.s|))
    ensures v.Arr? ==> (r.Undefined? <== k != "length" && !(IsIndexKey(k) && DecimalValue(k) < |v.elems|))
    ensures v.Bool? || v.Num? ==> r.Undefined?
  {
    match v
    case Obj(m) => Get(m, k)
    case Str(s) =>
      if k == "length" then Num(|s|)
      else if IsIndexKey(k) && DecimalValue(k) < |s| then Str([s[DecimalValue(k)]])
      else Undefined
    case Arr(a) =>
      if k == "length" then Num(|a|)
      else if IsIndexKey(k) && DecimalValue(k) < |a| then a[DecimalValue(k)]
      else Undefined
    case _ => Undefined
  }

}
