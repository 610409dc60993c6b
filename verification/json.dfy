/**
 * JSON-like values: what json.loads produces and json.dumps consumes, and the
 * dictionaries the section classes build. A dictionary keeps its keys in
 * insertion order, as a Python dict does, beside the map from keys to values.
 */
module Json {
  import opened Wrappers

  datatype Value =
    | JNull
    | JBool(b: bool)
    | JInt(i: int)
    | JStr(s: string)
    | JArr(items: seq<Value>)
      /** A dictionary: its keys in insertion order, and the value of each key. */
    | JObj(keys: seq<string>, entries: map<string, Value>)

  const EmptyObj: Value := JObj([], map[])

  /** `v[key]`: None when `v` is not a dictionary or lacks the key (a raised KeyError or TypeError). */
  function Lookup(v: Value, key: string): (r: Option<Value>)
    ensures r.Some? <==> v.JObj? && key in v.entries
    ensures r.Some? ==> r.value == v.entries[key]
  {
    if v.JObj? && key in v.entries then Some(v.entries[key]) else None
  }

  /** `o[key]` for an optional dictionary, so that nested lookups chain. */
  function Item(o: Option<Value>, key: string): (r: Option<Value>)
    ensures r.Some? <==> o.Some? && Lookup(o.value, key).Some?
  {
    if o.Some? then Lookup(o.value, key) else None
  }

  /** `v.get(key, default)`: None when `v` is not a dictionary (it has no `get`). */
  function GetOr(v: Value, key: string, default: Value): (r: Option<Value>)
    ensures r.Some? <==> v.JObj?
    ensures r.Some? ==> r.value == if key in v.entries then v.entries[key] else default
  {
    if !v.JObj? then None
    else if key in v.entries then Some(v.entries[key])
    else Some(default)
  }

  /** `v[n]` for a list or a string (a string yields a one-character string). */
  function At(v: Value, n: nat): (r: Option<Value>)
    ensures v.JArr? && n < |v.items| ==> r == Some(v.items[n])
    ensures r.Some? <==> (v.JArr? && n < |v.items|) || (v.JStr? && n < |v.s|)
  {
    match v
    case JArr(items) => if n < |items| then Some(items[n]) else None
    case JStr(s) => if n < |s| then Some(JStr([s[n]])) else None
    case _ => None
  }

  /** Python's truth value of a JSON-like value. */
  predicate Truthy(v: Value) {
    match v
    case JNull => false
    case JBool(b) => b
    case JInt(i) => i != 0
    case JStr(s) => s != ""
    case JArr(items) => items != []
    case JObj(_, entries) => entries != map[]
  }

  function DigitChar(d: nat): char
    requires d < 10
  {
    "0123456789"[d]
  }

  function Digits(n: nat): (r: string)
    ensures |r| > 0
    ensures forall k :: 0 <= k < |r| ==> '0' <= r[k] <= '9'
  {
    if n < 10 then [DigitChar(n)] else Digits(n / 10) + [DigitChar(n % 10)]
  }

  /** `str(n)` for an int: optional minus sign, then decimal digits. */
  function IntToString(n: int): (r: string)
    ensures |r| > 0
    ensures n >= 0 ==> forall k :: 0 <= k < |r| ==> '0' <= r[k] <= '9'
    ensures n < 0 ==> r[0] == '-'
  {
    if n < 0 then "-" + Digits(-n) else Digits(n)
  }

  /** `str(v)`. Strings inside containers are quoted with `'`, without escaping. */
  function PyStr(v: Value): string {
    match v
    case JStr(s) => s
    case _ => PyRepr(v)
  }

  /**
   * What `str` makes of each kind of value: a string as it is, `None`,
   * `True`/`False`, decimal digits, and a bracketed list or braced dictionary.
   */
  lemma PyStrForms(v: Value)
    ensures v.JStr? ==> PyStr(v) == v.s
    ensures v == JNull ==> PyStr(v) == "None"
    ensures v.JBool? ==> PyStr(v) == if v.b then "True" else "False"
    ensures v.JInt? ==> PyStr(v) == IntToString(v.i)
    ensures v.JArr? ==> |PyStr(v)| >= 2 && PyStr(v)[0] == '[' && PyStr(v)[|PyStr(v)| - 1] == ']'
    ensures v.JObj? ==> |PyStr(v)| >= 2 && PyStr(v)[0] == '{' && PyStr(v)[|PyStr(v)| - 1] == '}'
  {
  }

  /** Only None, False, 0, "", [] and {} are false. */
  lemma FalsyValues(v: Value)
    ensures !Truthy(v) <==> v == JNull || v == JBool(false) || v == JInt(0) || v == JStr("") || v == JArr([]) ||
                            (v.JObj? && v.entries == map[])
  {
  }

  /** `repr(v)`, the form `str` gives to the elements of a list or dictionary. */
  function PyRepr(v: Value): string
    decreases v, 1
  {
    match v
    case JNull => "None"
    case JBool(b) => if b then "True" else "False"
    case JInt(i) => IntToString(i)
    case JStr(s) => "'" + s + "'"
    case JArr(items) => "[" + ReprItems(items) + "]"
    case JObj(keys, entries) => "{" + ReprEntries(v, keys) + "}"
  }

  function ReprItems(items: seq<Value>): string
    decreases items, 0
  {
    if |items| == 0 then ""
    else if |items| == 1 then PyRepr(items[0])
    else PyRepr(items[0]) + ", " + ReprItems(items[1..])
  }

  /** The entries of dictionary `v` under `keys`, in that order. */
  function ReprEntries(v: Value, keys: seq<string>): string
    requires v.JObj?
    decreases v, 0, |keys|
  {
    if |keys| == 0 then ""
    else
      var entry := "'" + keys[0] + "': " + (if keys[0] in v.entries then PyRepr(v.entries[keys[0]]) else "");
      if |keys| == 1 then entry else entry + ", " + ReprEntries(v, keys[1..])
  }
}
