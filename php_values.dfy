/**
 * The PHP values the cache stores, and the two PHP presence tests its
 * branches are written with: `empty()` and `isset()`.
 */
module PhpValues {

  /** A cached value. Values are immutable, so PHP's `clone` on store and read is the identity here. */
  datatype Value =
    | Bool(b: bool)
    | Int(i: int)
    | Str(s: string)
    | Null
    | Arr(elems: seq<Value>)

  /** The marker another component stores to force a database read: `'checkthedatabaseplease'`. */
  const Sentinel: Value := Str("checkthedatabaseplease")

  /** The six values PHP's `empty()` is true of. */
  const EmptyValues: set<Value> := {Bool(false), Int(0), Str(""), Str("0"), Null, Arr([])}

  /** PHP's `empty($v)`: false, 0, "", "0", null and the empty array. */
  predicate IsEmpty(v: Value)
    ensures IsEmpty(v) <==> v in EmptyValues
  {
    match v
    case Bool(b) => !b
    case Int(i) => i == 0
    case Str(s) => s == "" || s == "0"
    case Null => true
    case Arr(elems) => elems == []
  }

  /** PHP's `isset($m[$k])`: the key is present and its value is not null. */
  predicate IsSet(m: map<string, Value>, k: string)
    ensures IsSet(m, k) ==> k in m
  {
    k in m && m[k] != Null
  }
}
