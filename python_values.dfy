/** Python values as the bot sees them after `response.json()`, and the few
    built-in operations homework.py applies to them: truthiness, `==`,
    `dict.get`, subscripting with `[0]`, and the exceptions the
    interpreter raises when one of these is applied to the wrong kind of value. */
module Python {

  datatype Option<+T> = None | Some(value: T)

  datatype Result<+T, +E> = Success(value: T) | Failure(error: E)

  /** A decoded JSON value. JSON `null` and Python's `None` are the same value,
      `Null`; object keys are always strings. */
  datatype Json =
    | Null
    | Bool(b: bool)
    | Int(i: int)
    | Str(s: string)
    | List(items: seq<Json>)
    | Object(fields: map<string, Json>)

  /** A raised exception: its class and `msg`, the text `str(error)` gives. */
  datatype PyErr =
    | TypeError(msg: string)
    | KeyError(msg: string)
    | AttributeError(msg: string)
    | IndexError(msg: string)
    | UnboundLocalError(msg: string)
    | AnyException(msg: string)

  /** `type(v).__name__` */
  function TypeName(v: Json): (r: string)
    ensures r == "dict" <==> v.Object?
    ensures r == "list" <==> v.List?
  {
    match v
    case Null => "NoneType"
    case Bool(_) => "bool"
    case Int(_) => "int"
    case Str(_) => "str"
    case List(_) => "list"
    case Object(_) => "dict"
  }

  /** `bool(v)`: None, False, 0 and empty containers are false. */
  predicate Truthy(v: Json) {
    match v
    case Null => false
    case Bool(b) => b
    case Int(i) => i != 0
    case Str(s) => s != ""
    case List(xs) => xs != []
    case Object(m) => m != map[]
  }

  /** The value with every `bool` replaced by the `int` Python treats it as
      equal to (`True == 1`, `False == 0`), containers included. */
  function Norm(v: Json): (r: Json)
    ensures !r.Bool?
    ensures r.List? <==> v.List?
    ensures r.Object? <==> v.Object?
    ensures v.Str? || v.Null? ==> r == v
  {
    match v
    case Bool(b) => Int(if b then 1 else 0)
    case List(xs) => List(seq(|xs|, i requires 0 <= i < |xs| => Norm(xs[i])))
    case Object(m) => Object(map k | k in m :: Norm(m[k]))
    case _ => v
  }

  /** Python's `a == b` on decoded JSON values. */
  predicate PyEq(a: Json, b: Json) {
    Norm(a) == Norm(b)
  }

  /** Python's `==` across kinds: a bool equals the int it stands for, and a
      string never equals None or any int. */
  lemma PyEqAcrossKinds(s: string, i: int, b: bool)
    ensures PyEq(Bool(b), Int(if b then 1 else 0))
    ensures !PyEq(Str(s), Null) && !PyEq(Str(s), Int(i)) && !PyEq(Str(s), Bool(b))
  {
  }

  /** A value with no bool anywhere inside it. */
  predicate BoolFree(v: Json) {
    match v
    case Bool(_) => false
    case List(xs) => forall i :: 0 <= i < |xs| ==> BoolFree(xs[i])
    case Object(m) => forall k :: k in m ==> BoolFree(m[k])
    case _ => true
  }

  lemma {:induction false} NormFixesBoolFree(v: Json)
    requires BoolFree(v)
    ensures Norm(v) == v
  {
    match v
    case List(xs) =>
      forall i | 0 <= i < |xs| ensures Norm(xs[i]) == xs[i] {
        NormFixesBoolFree(xs[i]);
      }
      assert Norm(v).items == xs;
    case Object(m) =>
      forall k | k in m ensures Norm(m[k]) == m[k] {
        NormFixesBoolFree(m[k]);
      }
      assert Norm(v).fields == m;
    case _ =>
  }

  /** On values that hold no bool (statuses are strings in practice), Python's
      `==` is plain structural equality. */
  lemma {:induction false} PyEqOnBoolFree(a: Json, b: Json)
    requires BoolFree(a) && BoolFree(b)
    ensures PyEq(a, b) <==> a == b
  {
    NormFixesBoolFree(a);
    NormFixesBoolFree(b);
  }

  /** `m.get(key)` on a dict. */
  function DictGet(m: map<string, Json>, key: string): (r: Json)
    ensures key in m ==> r == m[key]
    ensures key !in m ==> r == Null
  {
    if key in m then m[key] else Null
  }

  /** `v.get(key)`: only a dict has the method. */
  function GetMethod(v: Json, key: string): (r: Result<Json, PyErr>)
    ensures r.Success? <==> v.Object?
    ensures r.Success? ==> r.value == DictGet(v.fields, key)
    ensures r.Failure? ==> r.error.AttributeError?
  {
    match v
    case Object(m) => Success(DictGet(m, key))
    case _ => Failure(AttributeError("'" + TypeName(v) + "' object has no attribute 'get'"))
  }

  /** `v[0]`. A dict raises KeyError because no JSON key is the int 0; a
      string gives its first character as a string. */
  function Subscript0(v: Json): (r: Result<Json, PyErr>)
    ensures r.Success? <==> (v.List? && v.items != []) || (v.Str? && v.s != "")
    ensures v.List? && v.items != [] ==> r == Success(v.items[0])
    ensures v.Object? ==> r == Failure(KeyError("0"))
  {
    match v
    case List(xs) =>
      if xs != [] then Success(xs[0]) else Failure(IndexError("list index out of range"))
    case Str(s) =>
      if s != "" then Success(Str([s[0]])) else Failure(IndexError("string index out of range"))
    case Object(_) => Failure(KeyError("0"))
    case _ => Failure(TypeError("'" + TypeName(v) + "' object is not subscriptable"))
  }

  /** `d[key]` on a dict of strings; `str()` of the KeyError is the key's repr. */
  function Lookup(d: map<string, string>, key: string): (r: Result<string, PyErr>)
    ensures r.Success? <==> key in d
    ensures r.Success? ==> r.value == d[key]
    ensures r.Failure? ==> r.error == KeyError("'" + key + "'")
  {
    if key in d then Success(d[key]) else Failure(KeyError("'" + key + "'"))
  }
}
