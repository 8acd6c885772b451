/**
 * The Python values the bot handles: the decoded JSON payload of the grading API,
 * and the exceptions that the interpreter or the script raises while reading it,
 * with the text that `str(error)` gives for each.
 */
module PyValue {

  import opened Wrappers

  /** A decoded JSON value as Python holds it after `Response.json()` (floats are not modelled). */
  datatype Value =
    | Null
    | Bool(b: bool)
    | Int(i: int)
    | Str(s: string)
    | List(items: seq<Value>)
    | Object(fields: map<string, Value>)

  /** Python truthiness: `None`, `False`, `0`, `''`, `[]` and `{}` are false. */
  predicate Truthy(v: Value) {
    match v
    case Null => false
    case Bool(b) => b
    case Int(i) => i != 0
    case Str(s) => s != ""
    case List(items) => items != []
    case Object(fields) => fields != map[]
  }

  /** The name Python gives the value's type in its error messages. */
  function TypeName(v: Value): string {
    match v
    case Null => "NoneType"
    case Bool(_) => "bool"
    case Int(_) => "int"
    case Str(_) => "str"
    case List(_) => "list"
    case Object(_) => "dict"
  }

  /** Only lists and dicts are unhashable, so only they cannot be looked up as dict keys. */
  predicate Hashable(v: Value) {
    !v.List? && !v.Object?
  }

  function DigitChar(d: nat): (c: char)
    requires d < 10
    ensures '0' <= c <= '9'
  {
    "0123456789"[d]
  }

  /** The number a string of decimal digits denotes. */
  function DecimalValue(s: string): nat
    requires forall k :: 0 <= k < |s| ==> '0' <= s[k] <= '9'
  {
    if s == [] then 0 else 10 * DecimalValue(s[..|s| - 1]) + (s[|s| - 1] - '0') as nat
  }

  /** The decimal digits of `n`, most significant first, without leading zeros. */
  function NatToString(n: nat): (r: string)
    ensures r != []
    ensures forall k :: 0 <= k < |r| ==> '0' <= r[k] <= '9'
    ensures n >= 10 ==> r[0] != '0'
    ensures DecimalValue(r) == n
    decreases n
  {
    if n < 10 then [DigitChar(n)] else NatToString(n / 10) + [DigitChar(n % 10)]
  }

  /** What an f-string placeholder `{v}` prints for `v`. */
  function Display(v: Value): string {
    match v
    case Null => "None"
    case Bool(b) => if b then "True" else "False"
    case Int(i) => if i < 0 then "-" + NatToString(-i) else NatToString(i)
    case Str(s) => s
    case List(_) => "[...]"
    case Object(_) => "{...}"
  }

  /** The exceptions one poll iteration can raise. */
  datatype Error =
      /** KeyError from `d[key]` on a dict without `key`. */
    | MissingKey(key: string)
      /** TypeError from `v['key']` on a value that is not a dict. */
    | NotSubscriptable(typeName: string)
      /** TypeError from `v in d` on a list or dict `v`. */
    | Unhashable(typeName: string)
      /** Exception('Нет доступа к API'): the endpoint answered with a status other than 200. */
    | ApiUnavailable
      /** ValueError from `.json()` on a body that is not JSON, with the decoder's text. */
    | BadJson(detail: string)
      /** KeyError re-raised by check_response when the payload has no `homeworks` key. */
    | BadResponse
      /** TypeError('Неверный список работ.'): `homeworks` is not a list. */
    | NotAList
      /** KeyError naming a status outside the catalog and the homework that carries it. */
    | UnknownStatus(status: string, name: string)

  /** `str(error)`: a KeyError prints the repr of its argument, the others print the argument. */
  function ErrorText(e: Error): (r: string)
    ensures !e.BadJson? ==> r != []
    ensures e.MissingKey? ==> |r| == |e.key| + 2 && r[0] == r[|r| - 1] == '\'' && r[1..|r| - 1] == e.key
    ensures e.UnknownStatus? ==> |r| == 29 + |e.status| + |e.name| && r[..8] == "'Статус " && r[8..8 + |e.status|] == e.status
    ensures e.UnknownStatus? ==> r[|r| - 11 - |e.name|..|r| - 11] == e.name && r[|r| - 11..] == "\" не задан'"
  {
    match e
    case MissingKey(key) => "'" + key + "'"
    case NotSubscriptable(t) =>
      if t == "list" then "list indices must be integers or slices, not str"
      else if t == "str" then "string indices must be integers"
      else "'" + t + "' object is not subscriptable"
    case Unhashable(t) => "unhashable type: '" + t + "'"
    case ApiUnavailable => "Нет доступа к API"
    case BadJson(detail) => detail
    case BadResponse => "\"'homeworks' не верный ответ API\""
    case NotAList => "Неверный список работ."
    case UnknownStatus(status, name) => "'Статус " + status + " задания \"" + name + "\" не задан'"
  }

  /** Python's `v[key]` for a string key. */
  function Subscript(v: Value, key: string): (r: Result<Value, Error>)
    ensures r.Ok? <==> v.Object? && key in v.fields
    ensures r.Ok? ==> r.value == v.fields[key]
    ensures !v.Object? ==> r == Err(NotSubscriptable(TypeName(v)))
    ensures v.Object? && key !in v.fields ==> r == Err(MissingKey(key))
  {
    match v
    case Object(fields) => if key in fields then Ok(fields[key]) else Err(MissingKey(key))
    case _ => Err(NotSubscriptable(TypeName(v)))
  }
}
