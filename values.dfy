/** The JavaScript values the event draft is made of, as the browser holds them
    (and as `JSON.parse` returns them), with the property-access, spread and
    truthiness rules the form code depends on. */
module Values {
  import opened Text
  import opened JsNumbers
  import opened Optional

  /** A browser `File`, reduced to what the photo checks read. */
  datatype PhotoFile = PhotoFile(mimeType: string, size: nat)

  datatype Value =
    | Undefined
    | Null
    | Bool(b: bool)
    | Num(n: int)
    | Str(s: string)
    | Arr(items: seq<Value>)
    | Obj(fields: map<string, Value>)
    | File(file: PhotoFile)

  /** `!!v` */
  predicate Truthy(v: Value) {
    match v
    case Undefined => false
    case Null => false
    case Bool(b) => b
    case Num(n) => n != 0
    case Str(s) => s != []
    case _ => true
  }

  /** `a || b` */
  function Or(a: Value, b: Value): (r: Value)
    ensures Truthy(a) ==> r == a
    ensures !Truthy(a) ==> r == b
  {
    if Truthy(a) then a else b
  }

  /** `v == null`: reading a property of such a value throws a TypeError. */
  predicate Nullish(v: Value) {
    v.Undefined? || v.Null?
  }

  /** The property key of an array or string element: a canonical decimal index. */
  function IndexKey(k: string): Option<nat> {
    if k != [] && IsDigit(k[0]) && AllDigits(k) && (|k| == 1 || k[0] != '0') then Some(DigitsValue(k)) else None
  }

  lemma IndexKeyOfIndex(i: nat)
    ensures IndexKey(NatToString(i)) == Some(i)
  {
  }

  /** `v?.[key]`: own properties of objects, and the indices and `length` of
      arrays and strings; `undefined` for every other value. Where the source
      writes `v[key]` it has already checked that `v` is not null or undefined. */
  function Get(v: Value, key: string): (r: Value)
    ensures v.Obj? ==> r == (if key in v.fields then v.fields[key] else Undefined)
    ensures (v.Undefined? || v.Null? || v.Bool? || v.Num? || v.File?) ==> r == Undefined
  {
    match v
    case Obj(fields) => if key in fields then fields[key] else Undefined
    case Arr(items) =>
      if key == "length" then Num(|items|)
      else (match IndexKey(key)
        case Some(i) => if i < |items| then items[i] else Undefined
        case None => Undefined)
    case Str(s) =>
      if key == "length" then Num(|s|)
      else (match IndexKey(key)
        case Some(i) => if i < |s| then Str([s[i]]) else Undefined
        case None => Undefined)
    case _ => Undefined
  }

  /** The own enumerable properties that `{ ...v }` copies from an object;
      every other value contributes none here (see README, "Left out"). */
  function Spread(v: Value): (m: map<string, Value>)
    ensures v.Obj? ==> m == v.fields
    ensures !v.Obj? ==> m == map[]
  {
    if v.Obj? then v.fields else map[]
  }

  /** `{ ...v, [key]: x }` */
  function With(v: Value, key: string, x: Value): (r: Value)
    ensures r.Obj? && key in r.fields && r.fields[key] == x
    ensures forall k :: k != key ==> Get(r, k) == (if v.Obj? then Get(v, k) else Undefined)
  {
    Obj(Spread(v)[key := x])
  }

  /** `!v || v.trim() === ""` for a value on which `trim` may be called. */
  predicate Blank(v: Value) {
    !Truthy(v) || (v.Str? && AllWhitespace(v.s))
  }

  /** A value for which `!v || v.trim() === ""` does not throw. */
  predicate TextLike(v: Value) {
    v.Str? || !Truthy(v)
  }

  /** A primitive, whose `Number(v)` needs no object-to-primitive conversion. */
  predicate NumberLike(v: Value) {
    v.Str? || v.Num? || v.Bool? || !Truthy(v)
  }

  /** `Number(v)` */
  function NumberOf(v: Value): JsNumber
    requires NumberLike(v)
  {
    match v
    case Str(s) => ToNumber(s)
    case Num(n) => Finite(n as real)
    case Bool(b) => Finite(if b then 1.0 else 0.0)
    case Null => Finite(0.0)
    case _ => NaN
  }
}
