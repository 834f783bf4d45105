/**
 * The slice of the Python runtime that the homework bot relies on: the values
 * `response.json()` can produce, the exceptions the bot raises or lets through,
 * how `str()` and `repr()` render both, and the two subscript shapes the bot
 * uses (`x[0]` and `x['key']`).  Built-in error texts are those of CPython 3.10.
 */
module PyValues {
  import opened Wrappers

  /** A decoded JSON document as Python holds it. */
  datatype Value =
    | Null                      // JSON null, Python None
    | Bool(b: bool)
    | Int(i: int)
    | Float(repr: string)       // a float, carried as the text repr() gives it
    | Str(s: string)
    | List(items: seq<Value>)
    | Dict(entries: seq<Entry>) // the object's key-value pairs, in the order of the JSON text

  datatype Entry = Entry(key: string, val: Value)

  /** The exceptions that can reach the bot's `except Exception` clause. */
  datatype Error =
    | RequestException(text: string)  // transport failure inside `requests`
    | JSONDecodeError(text: string)   // `response.json()` on a body that is not JSON
    | TypeError(text: string)
    | KeyError(key: Value)            // str() of a KeyError is the repr() of its key
    | IndexError(text: string)
    | Exception(text: string)

  /** `type(v).__name__` */
  function TypeName(v: Value): string {
    match v
    case Null => "NoneType"
    case Bool(_) => "bool"
    case Int(_) => "int"
    case Float(_) => "float"
    case Str(_) => "str"
    case List(_) => "list"
    case Dict(_) => "dict"
  }

  // ---------------------------------------------------------------- integers

  predicate IsDigit(c: char) {
    '0' <= c <= '9'
  }

  predicate AllDigits(s: string) {
    forall i :: 0 <= i < |s| ==> IsDigit(s[i])
  }

  function DigitChar(d: nat): (c: char)
    requires d < 10
    ensures IsDigit(c)
  {
    ('0' as int + d) as char
  }

  function DigitValue(c: char): nat
    requires IsDigit(c)
  {
    c as int - '0' as int
  }

  /** `str(n)` for a non-negative integer: its decimal digits, most significant first. */
  function DecimalText(n: nat): (s: string)
    ensures |s| > 0 && AllDigits(s)
    ensures |s| > 1 ==> s[0] != '0'
    decreases n
  {
    if n < 10 then [DigitChar(n)] else DecimalText(n / 10) + [DigitChar(n % 10)]
  }

  /** Reads back a run of decimal digits: the inverse of DecimalText. */
  function ParseDecimal(s: string): nat
    requires |s| > 0 && AllDigits(s)
    decreases |s|
  {
    if |s| == 1 then DigitValue(s[0])
    else 10 * ParseDecimal(s[..|s| - 1]) + DigitValue(s[|s| - 1])
  }

  lemma {:induction false} DecimalRoundTrip(n: nat)
    ensures ParseDecimal(DecimalText(n)) == n
    decreases n
  {
    if n >= 10 {
      var s := DecimalText(n);
      assert s[..|s| - 1] == DecimalText(n / 10);
      DecimalRoundTrip(n / 10);
    }
  }

  /** `str(i)` for any integer. */
  function IntText(i: int): string {
    if i < 0 then "-" + DecimalText(-i) else DecimalText(i)
  }

  // ----------------------------------------------------------------- strings

  /** The quote repr() puts around a string: double quotes only when the text holds
      a single quote and no double quote. */
  function QuoteFor(s: string): char {
    if '\'' in s && '"' !in s then '"' else '\''
  }

  function EscapeChar(c: char, quote: char): string {
    if c == '\\' then "\\\\"
    else if c == quote then ['\\', quote]
    else if c == '\n' then "\\n"
    else if c == '\r' then "\\r"
    else if c == '\t' then "\\t"
    else [c]
  }

  function Escape(s: string, quote: char): string
    decreases |s|
  {
    if s == [] then "" else EscapeChar(s[0], quote) + Escape(s[1..], quote)
  }

  /** `repr(s)` for a string. */
  function StrRepr(s: string): string {
    var q := QuoteFor(s);
    [q] + Escape(s, q) + [q]
  }

  /** No character that repr() would escape or that would change its quote. */
  predicate Plain(s: string) {
    forall i :: 0 <= i < |s| ==> s[i] !in {'\\', '\'', '"', '\n', '\r', '\t'}
  }

  lemma {:induction false} EscapePlain(s: string, quote: char)
    requires Plain(s) && quote in {'\'', '"'}
    ensures Escape(s, quote) == s
    decreases |s|
  {
    if s != [] {
      assert Plain(s[1..]) by {
        forall i | 0 <= i < |s[1..]| ensures s[1..][i] !in {'\\', '\'', '"', '\n', '\r', '\t'} {
          assert s[1..][i] == s[i + 1];
        }
      }
      EscapePlain(s[1..], quote);
    }
  }

  /** A plain string prints between single quotes, unchanged. */
  lemma PlainStrRepr(s: string)
    requires Plain(s)
    ensures StrRepr(s) == "'" + s + "'"
  {
    EscapePlain(s, '\'');
  }

  // ------------------------------------------------------------ str and repr

  /** `repr(v)` */
  function Repr(v: Value): string
    decreases v
  {
    match v
    case Null => "None"
    case Bool(b) => if b then "True" else "False"
    case Int(i) => IntText(i)
    case Float(r) => r
    case Str(s) => StrRepr(s)
    case List(items) => "[" + JoinReprs(items) + "]"
    case Dict(entries) => "{" + JoinEntries(entries) + "}"
  }

  function JoinReprs(items: seq<Value>): string
    decreases items
  {
    if items == [] then ""
    else if |items| == 1 then Repr(items[0])
    else Repr(items[0]) + ", " + JoinReprs(items[1..])
  }

  function JoinEntries(entries: seq<Entry>): string
    decreases entries
  {
    if entries == [] then ""
    else
      var item := StrRepr(entries[0].key) + ": " + Repr(entries[0].val);
      if |entries| == 1 then item else item + ", " + JoinEntries(entries[1..])
  }

  /** `str(v)`, which is also what an f-string interpolates. */
  function Text(v: Value): string {
    if v.Str? then v.s else Repr(v)
  }

  /** `str(e)` for a caught exception. */
  function Message(e: Error): string {
    match e
    case KeyError(key) => Repr(key)
    case RequestException(t) => t
    case JSONDecodeError(t) => t
    case TypeError(t) => t
    case IndexError(t) => t
    case Exception(t) => t
  }

  // -------------------------------------------------------------- subscripts

  /** The value a dict holds under `key`, if any.  Where a JSON object repeats a key,
      `json.loads` keeps the last pair, so the search finds the last entry with the key. */
  function Lookup(entries: seq<Entry>, key: string): (r: Option<Value>)
    ensures r.None? <==> forall i :: 0 <= i < |entries| ==> entries[i].key != key
    ensures r.Some? ==> exists i :: 0 <= i < |entries| && entries[i] == Entry(key, r.value) &&
                          forall j :: i < j < |entries| ==> entries[j].key != key
    decreases |entries|
  {
    if entries == [] then None
    else if entries[|entries| - 1].key == key then Some(entries[|entries| - 1].val)
    else Lookup(entries[..|entries| - 1], key)
  }

  function NotSubscriptable(v: Value): Error {
    TypeError("'" + TypeName(v) + "' object is not subscriptable")
  }

  /** `v[0]` */
  function Item0(v: Value): (r: Result<Value, Error>)
    ensures r.Ok? <==> (v.List? && |v.items| > 0) || (v.Str? && |v.s| > 0)
    ensures v.List? && |v.items| > 0 ==> r == Ok(v.items[0])
    ensures r.Err? && r.error.IndexError? <==> v == List([]) || v == Str("")
  {
    match v
    case List(items) =>
      if |items| > 0 then Ok(items[0]) else Err(IndexError("list index out of range"))
    case Str(s) =>
      if |s| > 0 then Ok(Str([s[0]])) else Err(IndexError("string index out of range"))
    case Dict(_) => Err(KeyError(Int(0)))  // decoded keys are strings, never the int 0
    case _ => Err(NotSubscriptable(v))
  }

  /** `v[key]` for a string key. */
  function Field(v: Value, key: string): (r: Result<Value, Error>)
    ensures r.Ok? <==> v.Dict? && Lookup(v.entries, key).Some?
    ensures r.Ok? ==> r.value == Lookup(v.entries, key).value
    ensures v.Dict? && r.Err? ==> r.error == KeyError(Str(key))
  {
    match v
    case Dict(entries) =>
      (match Lookup(entries, key)
       case Some(x) => Ok(x)
       case None => Err(KeyError(Str(key))))
    case List(_) => Err(TypeError("list indices must be integers or slices, not str"))
    case Str(_) => Err(TypeError("string indices must be integers"))
    case _ => Err(NotSubscriptable(v))
  }

  /** Whether `v` can be a dict key; lists and dicts cannot. */
  predicate Hashable(v: Value) {
    !v.List? && !v.Dict?
  }
}
