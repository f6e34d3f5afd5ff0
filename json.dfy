/** JSON values as the Python (`json.loads`) and JavaScript (`JSON.parse`) parsers return
    them, and the handful of language operations the models apply to such values. Parsing
    and serialising are not modelled: a parser is a parameter (`Parser`), `None` standing
    for the exception the real parser raises on malformed text. */
module Json {
  import opened Wrappers
  import opened Text
  import Assoc

  /** Numbers are integers; objects keep their fields in order. */
  datatype Json =
    | JNull
    | JBool(b: bool)
    | JNum(n: int)
    | JStr(s: string)
    | JArr(items: seq<Json>)
    | JObj(fields: seq<(string, Json)>)

  /** `json.loads` / `JSON.parse`: `None` when the text is not JSON. */
  type Parser = string -> Option<Json>

  /** Python's `bool(v)`. */
  predicate PyTruthy(j: Json)
  {
    match j
    case JNull => false
    case JBool(b) => b
    case JNum(n) => n != 0
    case JStr(s) => s != ""
    case JArr(items) => items != []
    case JObj(fields) => fields != []
  }

  /** JavaScript's `Boolean(v)`: arrays and objects are truthy even when empty. */
  predicate JsTruthy(j: Json)
  {
    match j
    case JNull => false
    case JBool(b) => b
    case JNum(n) => n != 0
    case JStr(s) => s != ""
    case JArr(_) => true
    case JObj(_) => true
  }

  /** Python's `repr` of a parsed value (quotes inside strings are not escaped). */
  function PyRepr(j: Json): string
    decreases j
  {
    match j
    case JNull => "None"
    case JBool(b) => if b then "True" else "False"
    case JNum(n) => IntToString(n)
    case JStr(s) => "'" + s + "'"
    case JArr(items) =>
      "[" + Join(seq(|items|, i requires 0 <= i < |items| => PyRepr(items[i])), ", ") + "]"
    case JObj(fields) =>
      "{" + Join(seq(|fields|, i requires 0 <= i < |fields| =>
                       assert fields[i] in fields;
                       "'" + fields[i].0 + "': " + PyRepr(fields[i].1)), ", ") + "}"
  }

  /** Python's `str(v)`: a string is itself, everything else its `repr`. */
  function PyStr(j: Json): string
  {
    if j.JStr? then j.s else PyRepr(j)
  }

  /** Python's `k in v`: a key of a dict, an element of a list, a substring of a string;
      any other value raises `TypeError`. */
  function PyIn(k: string, j: Json): Result<bool>
  {
    match j
    case JObj(fields) => Success(k in Assoc.Keys(fields))
    case JArr(items) => Success(JStr(k) in items)
    case JStr(s) => Success(Contains(s, k))
    case _ => Failure("TypeError: argument of type is not iterable")
  }

  /** The array index a JavaScript property key names: the key must be the canonical
      decimal text of a natural number ("0", "17"; not "01", "-1" or "1.0"). */
  function ArrayIndex(k: string): (r: Option<nat>)
    ensures r.Some? <==> Canonical(k)
    ensures r.Some? ==> NatToString(r.value) == k
  {
    if Canonical(k) then
      CanonicalRoundTrip(k);
      Some(DigitsValue(k))
    else None
  }

  /** Every index is named by exactly one key, its decimal text. */
  lemma {:induction false} ArrayIndexOfNat(n: nat)
    ensures ArrayIndex(NatToString(n)) == Some(n)
  {
    NatToStringCanonical(n);
  }

  /** JavaScript's `v[k]` / `v.k` for a parsed value: a field of an object; an element of
      an array or a character of a string at a canonical index below its length, and the
      length itself under "length"; `undefined` (`None`) otherwise. Reading a property of
      `null` throws `TypeError`. Properties inherited from the prototypes (`constructor`,
      `toString`, ...) are not modelled and read as `undefined`. */
  function JsGet(j: Json, k: string): (r: Result<Option<Json>>)
    ensures r.Failure? <==> j.JNull?
    ensures j.JObj? ==> r == Success(Assoc.Get(j.fields, k))
    ensures j.JArr? && k == "length" ==> r == Success(Some(JNum(|j.items|)))
    ensures j.JArr? && ArrayIndex(k).Some? ==>
              r == Success(if ArrayIndex(k).value < |j.items| then Some(j.items[ArrayIndex(k).value]) else None)
    ensures j.JStr? && k == "length" ==> r == Success(Some(JNum(|j.s|)))
    ensures j.JBool? || j.JNum? ==> r == Success(None)
  {
    match j
    case JNull => Failure("TypeError: Cannot read properties of null")
    case JObj(fields) => Success(Assoc.Get(fields, k))
    case JArr(items) =>
      if k == "length" then Success(Some(JNum(|items|)))
      else
        var i := ArrayIndex(k);
        if i.Some? && i.value < |items| then Success(Some(items[i.value])) else Success(None)
    case JStr(s) =>
      if k == "length" then Success(Some(JNum(|s|)))
      else
        var i := ArrayIndex(k);
        if i.Some? && i.value < |s| then Success(Some(JStr([s[i.value]]))) else Success(None)
    case _ => Success(None)
  }

  /** JavaScript's `typeof v === 'object'`, which holds for `null` too. */
  predicate JsTypeofObject(j: Json)
  {
    j.JNull? || j.JArr? || j.JObj?
  }

  /** Python `v[k]` with a string key: a field of a dict; a missing key raises `KeyError`
      and any other value `TypeError`. */
  function PyGetItem(j: Json, k: string): (r: Result<Json>)
    ensures r.Success? <==> j.JObj? && k in Assoc.Keys(j.fields)
    ensures r.Success? ==> Assoc.Get(j.fields, k) == Some(r.value)
  {
    match j
    case JObj(fields) =>
      var v := Assoc.Get(fields, k);
      if v.Some? then Success(v.value) else Failure("KeyError: '" + k + "'")
    case JArr(_) => Failure("TypeError: list indices must be integers or slices, not str")
    case JStr(_) => Failure("TypeError: string indices must be integers")
    case _ => Failure("TypeError: object is not subscriptable")
  }

  /** Python `v[0]`: the first element of a list or character of a string; an empty one
      raises `IndexError`, a dict `KeyError` and any other value `TypeError`. */
  function PyFirstItem(j: Json): (r: Result<Json>)
    ensures j.JArr? && j.items != [] ==> r == Success(j.items[0])
    ensures r.Success? ==> (j.JArr? && j.items != []) || (j.JStr? && j.s != [])
  {
    match j
    case JArr(items) => if items != [] then Success(items[0]) else Failure("IndexError: list index out of range")
    case JStr(s) => if s != [] then Success(JStr([s[0]])) else Failure("IndexError: string index out of range")
    case JObj(_) => Failure("KeyError: 0")
    case _ => Failure("TypeError: object is not subscriptable")
  }

  /** Python `a or b`: `a` when it is truthy, else `b`. */
  function PyOr(a: Json, b: Json): (r: Json)
    ensures PyTruthy(r) <==> PyTruthy(a) || PyTruthy(b)
  {
    if PyTruthy(a) then a else b
  }

  /** Python `d.get(k)` on a parsed dict: the field, or `None`. */
  function PyDictGet(fields: seq<(string, Json)>, k: string): Json
  {
    Assoc.Get(fields, k).GetOr(JNull)
  }
}
