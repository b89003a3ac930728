/**
 * Values as Python's `json.loads` hands them to the song tools, and the few
 * Python operations the tools apply to them: truthiness, `dict.get`, `str()`.
 */
module JsonValue {
  import opened Wrappers
  import opened PyText

  /** `None`, `bool`, `int`, `str`, `list` or `dict`. A dict keeps its insertion order. */
  datatype Value =
    | Null
    | Bool(b: bool)
    | Int(i: int)
    | String(s: string)
    | Array(items: seq<Value>)
    | Object(fields: seq<Field>)

  datatype Field = Field(key: string, value: Value)

  /** The exceptions the core lets escape to its caller. */
  datatype PyError =
    | JSONDecodeError(msg: string)
    | AttributeError(msg: string)
    | TypeError(msg: string)

  /** Python truthiness: `None`, `False`, `0`, `""`, `[]` and `{}` are false. */
  predicate Truthy(v: Value)
  {
    match v
    case Null => false
    case Bool(b) => b
    case Int(i) => i != 0
    case String(s) => s != []
    case Array(items) => items != []
    case Object(fields) => fields != []
  }

  /** The keys of a dict, in insertion order. */
  function Keys(fields: seq<Field>): (ks: seq<string>)
    ensures |ks| == |fields|
    ensures forall i :: 0 <= i < |fields| ==> ks[i] == fields[i].key
  {
    seq(|fields|, i requires 0 <= i < |fields| => fields[i].key)
  }

  /** `d[k]` when `k in d`, `None` otherwise. */
  function Lookup(fields: seq<Field>, k: string): (r: Option<Value>)
    ensures r.Some? <==> k in Keys(fields)
  {
    if fields == [] then None
    else if fields[0].key == k then Some(fields[0].value)
    else
      assert Keys(fields) == [fields[0].key] + Keys(fields[1..]);
      Lookup(fields[1..], k)
  }

  /** The value found is that of the first entry with the key. */
  lemma {:induction false} LookupFirst(fields: seq<Field>, k: string)
    ensures forall i :: FirstWith(fields, k, i) ==> Lookup(fields, k) == Some(fields[i].value)
    ensures k in Keys(fields) ==> exists i :: FirstWith(fields, k, i)
  {
    if fields != [] && fields[0].key == k {
      assert FirstWith(fields, k, 0);
    } else if fields != [] {
      assert Keys(fields) == [fields[0].key] + Keys(fields[1..]);
      LookupFirst(fields[1..], k);
      if k in Keys(fields) {
        var i :| FirstWith(fields[1..], k, i);
        assert FirstWith(fields, k, i + 1) by {
          forall j | 0 <= j < i + 1 ensures fields[j].key != k {
            if j > 0 { assert fields[j] == fields[1..][j - 1]; }
          }
        }
      }
      FirstWithShift(fields, k);
      forall i | FirstWith(fields, k, i) ensures Lookup(fields, k) == Some(fields[i].value) {
        assert i != 0;
        assert FirstWith(fields[1..], k, i - 1);
      }
    }
  }

  /** Entry `i` is the first entry with key `k`. */
  predicate FirstWith(fields: seq<Field>, k: string, i: int)
  {
    0 <= i < |fields| && fields[i].key == k && forall j :: 0 <= j < i ==> fields[j].key != k
  }

  lemma FirstWithShift(fields: seq<Field>, k: string)
    requires fields != [] && fields[0].key != k
    ensures forall i :: FirstWith(fields, k, i) ==> FirstWith(fields[1..], k, i - 1) && fields[1..][i - 1] == fields[i]
  {
    forall i | FirstWith(fields, k, i) ensures FirstWith(fields[1..], k, i - 1) {
      forall j | 0 <= j < i - 1 ensures fields[1..][j].key != k {
        assert fields[1..][j] == fields[j + 1];
      }
    }
  }

  /** `d.get(k, default)` */
  function Get(fields: seq<Field>, k: string, default: Value): (r: Value)
    ensures k !in Keys(fields) ==> r == default
    ensures k in Keys(fields) ==> Some(r) == Lookup(fields, k)
  {
    match Lookup(fields, k)
    case Some(v) => v
    case None => default
  }

  /** The name Python gives the value's type in its error messages. */
  function TypeName(v: Value): string
  {
    match v
    case Null => "NoneType"
    case Bool(_) => "bool"
    case Int(_) => "int"
    case String(_) => "str"
    case Array(_) => "list"
    case Object(_) => "dict"
  }

  /** The error Python raises when a method is called on a value that does not have it. */
  function NoAttribute(v: Value, name: string): PyError
  {
    AttributeError("'" + TypeName(v) + "' object has no attribute '" + name + "'")
  }

  /** The error Python raises for `text + v` when `v` is not a string. */
  function NoConcat(v: Value): PyError
  {
    TypeError("can only concatenate str (not \"" + TypeName(v) + "\") to str")
  }

  /** `str(v)`: a string as it is, anything else as its `repr`. */
  function ToStr(v: Value): string
  {
    if v.String? then v.s else Repr(v)
  }

  /** `repr(v)`. */
  function Repr(v: Value): string
    decreases v, 1
  {
    match v
    case Null => "None"
    case Bool(b) => if b then "True" else "False"
    case Int(i) => IntToStr(i)
    case String(s) => ReprString(s)
    case Array(_) => "[" + ReprItems(v, 0) + "]"
    case Object(_) => "{" + ReprFields(v, 0) + "}"
  }

  function ReprItems(v: Value, i: nat): string
    requires v.Array? && i <= |v.items|
    decreases v, 0, |v.items| - i
  {
    if i == |v.items| then []
    else (if i == 0 then "" else ", ") + Repr(v.items[i]) + ReprItems(v, i + 1)
  }

  function ReprFields(v: Value, i: nat): string
    requires v.Object? && i <= |v.fields|
    decreases v, 0, |v.fields| - i
  {
    if i == |v.fields| then []
    else
      var f := v.fields[i];
      (if i == 0 then "" else ", ") + ReprString(f.key) + ": " + Repr(f.value) + ReprFields(v, i + 1)
  }

  /** `repr(s)`: double quotes when `s` holds a single quote and no double quote, single quotes
      otherwise. Inside, backslash and the chosen quote get a backslash; newline, carriage return and
      tab are written `\n`, `\r`, `\t`; the other characters below U+0020, U+007F to U+00A0 and the
      soft hyphen U+00AD are written `\xNN` with lower-case hex digits. */
  function ReprString(s: string): (r: string)
    ensures |r| >= 2
    ensures r[0] == r[|r| - 1] && (r[0] == '\'' || r[0] == '"')
    ensures r[0] == '"' <==> '\'' in s && '"' !in s
  {
    var q := if '\'' in s && '"' !in s then '"' else '\'';
    [q] + EscapeFor(s, q) + [q]
  }

  /** The Latin-1 characters `repr` does not print as they are. */
  predicate HexEscaped(c: char)
  {
    (c < ' ' && c != '\n' && c != '\r' && c != '\t') || ('\U{7f}' <= c <= '\U{a0}') || c == '\U{ad}'
  }

  /** A lower-case hex digit. */
  function HexDigit(d: nat): (c: char)
    requires d < 16
    ensures HexValue(c) == d
  {
    if d < 10 then ('0' as int + d) as char else ('a' as int + d - 10) as char
  }

  /** The value of a lower-case hex digit (0 for any other character). */
  function HexValue(c: char): (d: nat)
    ensures d < 16
  {
    if '0' <= c <= '9' then c as int - '0' as int
    else if 'a' <= c <= 'f' then c as int - 'a' as int + 10
    else 0
  }

  /** `\xNN` for a character below U+0100. */
  function HexEscape(c: char): (r: string)
    requires c < '\U{100}'
    ensures |r| == 4 && r[..2] == "\\x"
  {
    "\\x" + [HexDigit(c as int / 16), HexDigit(c as int % 16)]
  }

  function EscapeChar(c: char, q: char): string
  {
    if c == '\\' || c == q then ['\\', c]
    else if c == '\n' then "\\n"
    else if c == '\r' then "\\r"
    else if c == '\t' then "\\t"
    else if HexEscaped(c) then HexEscape(c)
    else [c]
  }

  function EscapeFor(s: string, q: char): string
  {
    if s == [] then [] else EscapeChar(s[0], q) + EscapeFor(s[1..], q)
  }

  /** Reading an escaped string back, as Python's parser reads the inside of a string literal:
      `\n`, `\r`, `\t` and `\xNN` stand for their characters, a backslash before any other character
      stands for that character, and every other character stands for itself. */
  function Unescape(e: string): string
    decreases |e|
  {
    if e == [] then []
    else if e[0] == '\\' && |e| >= 4 && e[1] == 'x' then
      [(16 * HexValue(e[2]) + HexValue(e[3])) as char] + Unescape(e[4..])
    else if e[0] == '\\' && |e| >= 2 && e[1] != 'x' then [UnescapeLetter(e[1])] + Unescape(e[2..])
    else [e[0]] + Unescape(e[1..])
  }

  function UnescapeLetter(c: char): char
  {
    if c == 'n' then '\n' else if c == 'r' then '\r' else if c == 't' then '\t' else c
  }

  /** The quote `repr` chose is one of the two quote characters. */
  predicate IsQuote(q: char)
  {
    q == '\'' || q == '"'
  }

  /** One character's escape reads back as that character, whatever follows it. */
  lemma EscapeCharRoundTrip(c: char, q: char, rest: string)
    requires IsQuote(q)
    ensures Unescape(EscapeChar(c, q) + rest) == [c] + Unescape(rest)
  {
    var e := EscapeChar(c, q) + rest;
    if c == '\\' || c == q {
      assert e[0] == '\\' && e[1] == c && e[2..] == rest;
    } else if c == '\n' || c == '\r' || c == '\t' {
      assert e[0] == '\\' && e[1] != 'x' && e[2..] == rest;
    } else if HexEscaped(c) {
      var h := HexEscape(c);
      assert e[0] == '\\' && e[1] == 'x' && e[4..] == rest;
      assert HexValue(e[2]) == c as int / 16 && HexValue(e[3]) == c as int % 16;
    } else {
      assert e[0] == c && e[1..] == rest;
    }
  }

  /** Escaping loses nothing: reading the escaped text back gives the string. */
  lemma {:induction false} EscapeRoundTrip(s: string, q: char)
    requires IsQuote(q)
    ensures Unescape(EscapeFor(s, q)) == s
  {
    if s != [] {
      EscapeCharRoundTrip(s[0], q, EscapeFor(s[1..], q));
      EscapeRoundTrip(s[1..], q);
      assert s == [s[0]] + s[1..];
    }
  }

  /** `repr` of a string reads back as the string: the inside of the quotes unescapes to `s`. */
  lemma ReprRoundTrip(s: string)
    ensures var r := ReprString(s); Unescape(r[1..|r| - 1]) == s
  {
    var r := ReprString(s);
    assert r[1..|r| - 1] == EscapeFor(s, r[0]);
    EscapeRoundTrip(s, r[0]);
  }

  /** Each character is printed as it is exactly when it is plain; otherwise its escape starts with a
      backslash, and the chosen quote never appears except right after one. */
  lemma EscapeCharShape(c: char, q: char)
    requires IsQuote(q)
    ensures EscapeChar(c, q) == [c] <==> Plain(c, q)
    ensures !Plain(c, q) ==> |EscapeChar(c, q)| >= 2 && EscapeChar(c, q)[0] == '\\'
    ensures forall i :: 0 <= i < |EscapeChar(c, q)| && EscapeChar(c, q)[i] == q ==> i == 1 && EscapeChar(c, q)[0] == '\\'
  {
    if HexEscaped(c) && c != '\\' && c != q && c != '\n' && c != '\r' && c != '\t' {
      var e := EscapeChar(c, q);
      assert e == "\\x" + [HexDigit(c as int / 16), HexDigit(c as int % 16)];
    }
  }

  /** Inside the quotes, the chosen quote appears only right after a backslash, so it never ends the
      literal early. */
  lemma {:induction false} QuoteEscaped(s: string, q: char)
    requires IsQuote(q)
    ensures var e := EscapeFor(s, q);
      (e == [] || e[0] != q) && forall i :: 0 <= i < |e| && e[i] == q ==> i > 0 && e[i - 1] == '\\'
  {
    if s != [] {
      var x := EscapeChar(s[0], q);
      var e := EscapeFor(s[1..], q);
      EscapeCharShape(s[0], q);
      QuoteEscaped(s[1..], q);
      assert EscapeFor(s, q) == x + e;
      forall i | 0 <= i < |x + e| && (x + e)[i] == q ensures i > 0 && (x + e)[i - 1] == '\\' {
        if i < |x| {
          assert x[i] == q;
        } else {
          assert e[i - |x|] == q;
        }
      }
    }
  }

  /** A character `repr` prints as it is inside quotes `q`. */
  predicate Plain(c: char, q: char)
  {
    c != '\\' && c != q && c != '\n' && c != '\r' && c != '\t' && !HexEscaped(c)
  }

  /** A string of plain characters without a single quote is printed between single quotes,
      unchanged. */
  lemma {:induction false} ReprStringPlain(s: string)
    requires forall i :: 0 <= i < |s| ==> Plain(s[i], '\'')
    ensures ReprString(s) == "'" + s + "'"
  {
    assert '\'' !in s by {
      forall i | 0 <= i < |s| ensures s[i] != '\'' { }
    }
    EscapePlain(s, '\'');
  }

  lemma {:induction false} EscapePlain(s: string, q: char)
    requires forall i :: 0 <= i < |s| ==> Plain(s[i], q)
    ensures EscapeFor(s, q) == s
  {
    if s != [] {
      EscapePlain(s[1..], q);
      assert s == [s[0]] + s[1..];
    }
  }

  /** Escaping distributes over concatenation: each character is escaped on its own. */
  lemma {:induction false} EscapeAppend(a: string, b: string, q: char)
    ensures EscapeFor(a + b, q) == EscapeFor(a, q) + EscapeFor(b, q)
  {
    if a == [] {
      assert a + b == b;
    } else {
      assert (a + b)[0] == a[0] && (a + b)[1..] == a[1..] + b;
      EscapeAppend(a[1..], b, q);
    }
  }

  /** A control character inside a string inside a list is shown as a `\xNN` escape:
      `str(["\x01"])` is `['\x01']`. */
  lemma ReprControl()
    ensures ToStr(Array([String("\U{1}")])) == "['\\x01']"
  {
    var v := Array([String("\U{1}")]);
    assert EscapeChar('\U{1}', '\'') == "\\x01";
    assert ReprString("\U{1}") == "'\\x01'";
    assert ReprItems(v, 1) == "";
    assert ReprItems(v, 0) == "'\\x01'";
  }
}
