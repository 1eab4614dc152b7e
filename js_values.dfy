/**
 * The JavaScript values that reach the message compiler, as a tagged union,
 * with the few pieces of the language's semantics the compiler relies on:
 * truthiness, `typeof`, `Array.isArray`, `Object.entries`, own-property
 * reads and conversion to a string.
 */
module JsValues {
  import opened Results
  import Text

  /**
   * An object lists its own enumerable string-keyed properties in the order the
   * engine enumerates them (`Object.entries`); `isPlain` says whether its
   * prototype is `Object.prototype`, so that `value.constructor` reads `Object`
   * unless an own `constructor` property shadows it.
   */
  datatype Value =
    | Undefined
    | Null
    | Bool(b: bool)
    | Num(n: int)
    | Str(s: string)
    | Arr(elems: seq<Value>)
    | Obj(entries: seq<Entry>, isPlain: bool)

  datatype Entry = Entry(key: string, val: Value)

  /** A dictionary of own properties, looked up by name. */
  type Dict = map<string, Value>

  /** `!!v` */
  predicate Truthy(v: Value) {
    match v
    case Undefined => false
    case Null => false
    case Bool(b) => b
    case Num(n) => n != 0
    case Str(s) => s != ""
    case Arr(_) => true
    case Obj(_, _) => true
  }

  /** `typeof v`; null and arrays are both "object". */
  function TypeOf(v: Value): string {
    match v
    case Undefined => "undefined"
    case Bool(_) => "boolean"
    case Num(_) => "number"
    case Str(_) => "string"
    case Null => "object"
    case Arr(_) => "object"
    case Obj(_, _) => "object"
  }

  /** `Array.isArray(v)` */
  predicate IsArray(v: Value) {
    v.Arr?
  }

  function DigitChar(d: nat): char
    requires d < 10
  {
    "0123456789"[d]
  }

  /** The decimal text of a natural number, as `String(n)` gives it. */
  function NatToString(n: nat): string
    decreases n
  {
    if n < 10 then [DigitChar(n)] else NatToString(n / 10) + [DigitChar(n % 10)]
  }

  function IntToString(n: int): string {
    if n < 0 then "-" + NatToString(-n) else NatToString(n)
  }

  /**
   * `Object.entries(v)`: None where it throws (null and undefined); strings and
   * arrays list their indices, other primitives have no own properties.
   */
  function OwnEntries(v: Value): (r: Option<seq<Entry>>)
    ensures r.None? <==> v.Undefined? || v.Null?
    ensures v.Obj? ==> r == Some(v.entries)
  {
    match v
    case Undefined => None
    case Null => None
    case Bool(_) => Some([])
    case Num(_) => Some([])
    case Str(s) => Some(seq(|s|, i requires 0 <= i < |s| => Entry(NatToString(i), Str([s[i]]))))
    case Arr(elems) => Some(seq(|elems|, i requires 0 <= i < |elems| => Entry(NatToString(i), elems[i])))
    case Obj(entries, _) => Some(entries)
  }

  /** `Object.keys(v)` */
  function ObjectKeys(v: Value): (r: seq<string>)
    requires OwnEntries(v).Some?
    ensures |r| == |OwnEntries(v).value|
  {
    var es := OwnEntries(v).value;
    seq(|es|, i requires 0 <= i < |es| => es[i].key)
  }

  /** The own properties of an entry list; a later entry for a key replaces an earlier one. */
  function DictOf(entries: seq<Entry>): Dict
    decreases |entries|
  {
    if |entries| == 0 then map[]
    else DictOf(entries[..|entries| - 1])[entries[|entries| - 1].key := entries[|entries| - 1].val]
  }

  /** `key in v`, restricted to own properties. */
  predicate HasOwnProperty(v: Value, key: string) {
    v.Obj? && key in DictOf(v.entries)
  }

  /** `v[key]` for an own data property; undefined when there is none. */
  function Get(v: Value, key: string): Value {
    if HasOwnProperty(v, key) then DictOf(v.entries)[key] else Undefined
  }

  /** `v[i]` on an array; undefined past its end or on anything else. */
  function ElementAt(v: Value, i: nat): Value {
    if v.Arr? && i < |v.elems| then v.elems[i] else Undefined
  }

  /** `String(v)`, which is what a template literal and `+=` on a string apply. */
  function ToJsString(v: Value): string
    decreases v
  {
    match v
    case Undefined => "undefined"
    case Null => "null"
    case Bool(b) => if b then "true" else "false"
    case Num(n) => IntToString(n)
    case Str(s) => s
    case Arr(elems) =>
      Text.Join(seq(|elems|, i requires 0 <= i < |elems| =>
                      if elems[i].Undefined? || elems[i].Null? then "" else ToJsString(elems[i])), ",")
    case Obj(_, _) => "[object Object]"
  }

  /** A key is an own property exactly when some entry carries it. */
  lemma {:induction false} DictOfKeys(entries: seq<Entry>, key: string)
    ensures key in DictOf(entries) <==> exists i :: 0 <= i < |entries| && entries[i].key == key
  {
    var n := |entries|;
    if n > 0 {
      DictOfKeys(entries[..n - 1], key);
      if key in DictOf(entries[..n - 1]) {
        var i :| 0 <= i < n - 1 && entries[..n - 1][i].key == key;
        assert entries[i].key == key;
      }
      if exists i :: 0 <= i < n && entries[i].key == key {
        var i :| 0 <= i < n && entries[i].key == key;
        if i < n - 1 {
          assert entries[..n - 1][i].key == key;
        }
      }
    }
  }

  /** With distinct keys, every entry is read back as it was written. */
  lemma {:induction false} DictOfDistinct(entries: seq<Entry>, i: nat)
    requires i < |entries|
    requires forall a, b :: 0 <= a < b < |entries| ==> entries[a].key != entries[b].key
    ensures entries[i].key in DictOf(entries) && DictOf(entries)[entries[i].key] == entries[i].val
  {
    var n := |entries|;
    if i < n - 1 {
      DictOfDistinct(entries[..n - 1], i);
      assert entries[..n - 1][i] == entries[i];
      assert entries[i].key != entries[n - 1].key;
    }
  }
}
