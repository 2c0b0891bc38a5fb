/**
 * Decoded JSON payloads and database rows (`dict_row`) as the notification listener sees them,
 * with the Python operations the listener applies to them: truthiness, `.get`, `in`, `[]`,
 * `int(...)` and `str(...)`.
 */
module Json {
  import opened Wrappers
  import opened Text

  datatype Json =
    | JNull
    | JBool(b: bool)
    | JInt(i: int)
    | JStr(s: string)
    | JList(items: seq<Json>)
    | JObj(fields: map<string, Json>)

  /** A Python `dict` with string keys. */
  type Dict = map<string, Json>

  /** Python truthiness: None, False, 0, "", [] and {} are false. */
  predicate Truthy(j: Json) {
    match j
    case JNull => false
    case JBool(b) => b
    case JInt(i) => i != 0
    case JStr(s) => s != ""
    case JList(items) => items != []
    case JObj(fields) => fields != map[]
  }

  /** `d.get(key, default)` on a value known to be a dict. */
  function GetOr(d: Dict, key: string, default: Json): (r: Json)
    ensures key in d ==> r == d[key]
    ensures key !in d ==> r == default
  {
    if key in d then d[key] else default
  }

  /** `x.get(key, default)` on any value: only a dict has `.get`. */
  function Get(x: Json, key: string, default: Json): (r: Result<Json>)
    ensures r.Ok? <==> x.JObj?
    ensures x.JObj? ==> r.value == GetOr(x.fields, key, default)
  {
    if x.JObj? then Ok(GetOr(x.fields, key, default))
    else Err("'" + TypeName(x) + "' object has no attribute 'get'")
  }

  /** `key in x`: key membership for a dict, substring for a str, element equality for a list. */
  function In(key: string, x: Json): (r: Result<bool>)
    ensures x.JObj? ==> r == Ok(key in x.fields)
    ensures r.Err? <==> !(x.JObj? || x.JStr? || x.JList?)
  {
    match x
    case JObj(fields) => Ok(key in fields)
    case JStr(s) => Ok(Contains(s, key))
    case JList(items) => Ok(JStr(key) in items)
    case _ => Err("argument of type '" + TypeName(x) + "' is not iterable")
  }

  /** The TypeError `x[key]` raises for a string key when `x` is not a dict. */
  function StrKeyError(x: Json): string {
    match x
    case JStr(_) => "string indices must be integers, not 'str'"
    case JList(_) => "list indices must be integers or slices, not str"
    case _ => "'" + TypeName(x) + "' object is not subscriptable"
  }

  /** `x[key]`: a missing key raises KeyError, a non-dict raises TypeError. */
  function Index(x: Json, key: string): (r: Result<Json>)
    ensures r.Ok? <==> x.JObj? && key in x.fields
    ensures r.Ok? ==> r.value == x.fields[key]
    ensures x.JObj? && key !in x.fields ==> r == Err("'" + key + "'")
    ensures !x.JObj? ==> r == Err(StrKeyError(x))
  {
    if x.JObj? && key in x.fields then Ok(x.fields[key])
    else if x.JObj? then Err("'" + key + "'")
    else Err(StrKeyError(x))
  }

  /**
   * `x[0]`: a list's first item, a string's first character; an empty one raises IndexError, a dict
   * (whose decoded keys are all strings) raises KeyError, anything else TypeError.
   */
  function First(x: Json): (r: Result<Json>)
    ensures r.Ok? <==> (x.JList? && |x.items| > 0) || (x.JStr? && |x.s| > 0)
    ensures x.JList? && |x.items| > 0 ==> r == Ok(x.items[0])
    ensures x.JStr? && |x.s| > 0 ==> r == Ok(JStr(x.s[..1]))
  {
    match x
    case JList(items) => if |items| == 0 then Err("list index out of range") else Ok(items[0])
    case JStr(s) => if |s| == 0 then Err("string index out of range") else Ok(JStr(s[..1]))
    case JObj(_) => Err("0")
    case _ => Err("'" + TypeName(x) + "' object is not subscriptable")
  }

  /** `int(x)`: integers as they are, booleans as 0/1, decimal text parsed; anything else raises. */
  function ToInt(x: Json): (r: Result<int>)
    ensures x.JInt? ==> r == Ok(x.i)
    ensures x.JNull? || x.JList? || x.JObj? ==> r.Err?
  {
    match x
    case JInt(i) => Ok(i)
    case JBool(b) => Ok(if b then 1 else 0)
    case JStr(s) =>
      (match ParseInt(s)
       case Some(i) => Ok(i)
       case None => Err(InvalidLiteral(s)))
    case _ => Err("int() argument must be a string, a bytes-like object or a real number, not '" + TypeName(x) + "'")
  }

  /** The message of the ValueError `int(s)` raises for text that is not an integer: the text's `repr`. */
  function InvalidLiteral(s: string): string {
    "invalid literal for int() with base 10: " + StrRepr(s)
  }

  /**
   * `str(x)`, as an f-string renders a value: a string is its own text, anything else its `repr`.
   * A non-empty dict is shown with a fixed placeholder, since its key order is not kept here.
   */
  function Show(x: Json): string {
    if x.JStr? then x.s else Repr(x)
  }

  /** `repr(x)`: lists list their items' `repr`s, comma-separated, between brackets. */
  function Repr(x: Json): string
    decreases x, 1, 0
  {
    match x
    case JNull => "None"
    case JBool(b) => if b then "True" else "False"
    case JInt(i) => IntToString(i)
    case JStr(s) => StrRepr(s)
    case JList(items) => "[" + ReprItems(x, 0) + "]"
    case JObj(fields) => if |fields| == 0 then "{}" else "{...}"
  }

  /** The `repr`s of list `x`'s items from `i` on, joined by ", ". */
  function ReprItems(x: Json, i: nat): string
    requires x.JList? && i <= |x.items|
    decreases x, 0, |x.items| - i
  {
    if i == |x.items| then ""
    else (if i == 0 then "" else ", ") + Repr(x.items[i]) + ReprItems(x, i + 1)
  }

  /** A dict literal's `repr`, its keys in the literal's order. */
  function ReprDict(keys: seq<string>, d: Dict): string
    requires forall k :: k in keys ==> k in d
  {
    "{" + ReprEntries(keys, d) + "}"
  }

  function ReprEntries(keys: seq<string>, d: Dict): string
    requires forall k :: k in keys ==> k in d
  {
    if |keys| == 0 then ""
    else ReprEntries(keys[..|keys| - 1], d) + (if |keys| == 1 then "" else ", ") + Entry(keys[|keys| - 1], d[keys[|keys| - 1]])
  }

  /** One `key: value` pair of a dict's `repr`. */
  function Entry(k: string, v: Json): string {
    StrRepr(k) + ": " + Repr(v)
  }

  /** `repr(s)`: single quotes, unless the text holds a single quote and no double quote. */
  function StrRepr(s: string): (r: string)
    ensures |r| >= 2 && r[0] == r[|r| - 1] == Quote(s)
  {
    [Quote(s)] + Escaped(s, Quote(s)) + [Quote(s)]
  }

  function Quote(s: string): char {
    if '\'' in s && '"' !in s then '"' else '\''
  }

  function Escaped(s: string, q: char): string {
    if |s| == 0 then "" else Escaped(s[..|s| - 1], q) + EscapeChar(s[|s| - 1], q)
  }

  /** How `repr` writes one character between quotes `q`: backslash escapes for the quote, the backslash and control characters. */
  function EscapeChar(c: char, q: char): string {
    if c == '\\' || c == q then ['\\', c]
    else if c == '\n' then "\\n"
    else if c == '\r' then "\\r"
    else if c == '\t' then "\\t"
    else if c < ' ' || c == '\U{007F}' then "\\x" + [HexDigit(c as int / 16), HexDigit(c as int % 16)]
    else [c]
  }

  /** A character `repr` writes as it is between single quotes. */
  predicate Plain(c: char) {
    c != '\'' && c != '\\' && ' ' <= c && c != '\U{007F}'
  }

  lemma {:induction false} EscapedPlain(s: string)
    requires forall i :: 0 <= i < |s| ==> Plain(s[i])
    ensures Escaped(s, '\'') == s
  {
    if |s| > 0 {
      EscapedPlain(s[..|s| - 1]);
      assert s == s[..|s| - 1] + [s[|s| - 1]];
    }
  }

  /** A text of plain characters is shown between single quotes, unchanged. */
  lemma StrReprPlain(s: string)
    requires forall i :: 0 <= i < |s| ==> Plain(s[i])
    ensures StrRepr(s) == "'" + s + "'"
  {
    assert '\'' !in s;
    EscapedPlain(s);
  }

  /** Every character that is not plain is escaped by a backslash, so no text's `repr` ends before its closing quote. */
  lemma {:induction false} EscapedHasNoBareQuote(s: string, q: char)
    requires q == '\'' || q == '"'
    ensures forall i :: 0 <= i < |Escaped(s, q)| && Escaped(s, q)[i] == q ==> i > 0 && Escaped(s, q)[i - 1] == '\\'
    decreases |s|
  {
    if |s| > 0 {
      EscapedHasNoBareQuote(s[..|s| - 1], q);
      var e := Escaped(s[..|s| - 1], q);
      var last := EscapeChar(s[|s| - 1], q);
      assert Escaped(s, q) == e + last;
      forall i | 0 <= i < |e + last| && (e + last)[i] == q
        ensures i > 0 && (e + last)[i - 1] == '\\'
      {
        if i >= |e| {
          assert last[i - |e|] == q;
        }
      }
    }
  }

  function TypeName(x: Json): string {
    match x
    case JNull => "NoneType"
    case JBool(_) => "bool"
    case JInt(_) => "int"
    case JStr(_) => "str"
    case JList(_) => "list"
    case JObj(_) => "dict"
  }
}
