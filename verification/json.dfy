/** The decoded JSON values the bot handles, seen as the Python objects
    `json()` produces: `None`, `bool`, `int`, `str`, `list` and `dict`. */
module Json {

  datatype Json =
    | JNull
    | JBool(b: bool)
    | JNum(n: int)
    | JStr(s: string)
    | JArr(items: seq<Json>)
    | JObj(fields: map<string, Json>)

  /** Python truthiness: `None`, `False`, `0`, `""`, `[]` and `{}` are false. */
  predicate Truthy(j: Json) {
    match j
    case JNull => false
    case JBool(b) => b
    case JNum(n) => n != 0
    case JStr(s) => |s| > 0
    case JArr(a) => |a| > 0
    case JObj(m) => |m| > 0
  }

  /** The six falsy values, listed one by one. */
  const Falsy: set<Json> := {JNull, JBool(false), JNum(0), JStr(""), JArr([]), JObj(map[])}

  lemma FalsyExactly(j: Json)
    ensures !Truthy(j) <==> j in Falsy
  {
  }

  /** Python's type name of the value, as exception messages print it. */
  function TypeName(j: Json): string {
    match j
    case JNull => "NoneType"
    case JBool(_) => "bool"
    case JNum(_) => "int"
    case JStr(_) => "str"
    case JArr(_) => "list"
    case JObj(_) => "dict"
  }

  /** `d.get(key)` on a dict: the bound value, or `None` when absent. */
  function Get(m: map<string, Json>, key: string): (r: Json)
    ensures key !in m ==> r == JNull
    ensures key in m ==> r == m[key]
  {
    if key in m then m[key] else JNull
  }

  predicate AllDigits(s: string) {
    forall i :: 0 <= i < |s| ==> '0' <= s[i] <= '9'
  }

  /** The number a string of decimal digits denotes. */
  function DigitsValue(s: string): int
    requires AllDigits(s)
  {
    if |s| == 0 then 0 else DigitsValue(s[..|s| - 1]) * 10 + (s[|s| - 1] as int - '0' as int)
  }

  /** Decimal digits of a natural number, without leading zeros. */
  function NatText(n: nat): (r: string)
    ensures |r| > 0 && AllDigits(r)
    ensures DigitsValue(r) == n
    ensures n > 0 ==> r[0] != '0'
    decreases n
  {
    var d := [('0' as int + n % 10) as char];
    if n < 10 then d
    else
      var r := NatText(n / 10) + d;
      assert r[..|r| - 1] == NatText(n / 10);
      r
  }

  /** `str(i)` for a Python int. */
  function IntText(i: int): string {
    if i < 0 then "-" + NatText(-i) else NatText(i)
  }

  /** `str(x)` for the scalar values; lists and dicts get a placeholder. */
  function Str(j: Json): (r: string)
    ensures j.JStr? ==> r == j.s
    ensures j.JNull? ==> r == "None"
    ensures j.JNum? && j.n >= 0 ==> AllDigits(r) && DigitsValue(r) == j.n
    ensures j.JNum? && j.n < 0 ==> |r| > 1 && r[0] == '-' && AllDigits(r[1..]) && DigitsValue(r[1..]) == -j.n
  {
    match j
    case JNull => "None"
    case JBool(b) => if b then "True" else "False"
    case JNum(n) =>
      if n < 0 then
        assert ("-" + NatText(-n))[1..] == NatText(-n);
        IntText(n)
      else IntText(n)
    case JStr(s) => s
    case JArr(_) => "[...]"
    case JObj(_) => "{...}"
  }

  /** Backslash-escapes `\` and the chosen quote character; a string
      holding neither comes out unchanged. */
  function Escape(s: string, quote: char): (r: string)
    ensures |r| >= |s|
    ensures '\\' !in s && quote !in s ==> r == s
  {
    if |s| == 0 then ""
    else
      var c := s[0];
      (if c == '\\' || c == quote then ['\\', c] else [c]) + Escape(s[1..], quote)
  }

  /** Reads back what `Escape` wrote: a backslash stands for the
      character after it. */
  function Unescape(s: string): string
    decreases |s|
  {
    if |s| == 0 then ""
    else if s[0] == '\\' && |s| >= 2 then [s[1]] + Unescape(s[2..])
    else [s[0]] + Unescape(s[1..])
  }

  /** Escaping loses nothing: reading back gives the original string. */
  lemma {:induction false} UnescapeEscape(s: string, quote: char)
    ensures Unescape(Escape(s, quote)) == s
    decreases |s|
  {
    if |s| > 0 {
      var c := s[0];
      var rest := Escape(s[1..], quote);
      UnescapeEscape(s[1..], quote);
      if c == '\\' || c == quote {
        var e := ['\\', c] + rest;
        assert e[0] == '\\' && e[1] == c && e[2..] == rest;
      } else {
        var e := [c] + rest;
        assert e[0] == c && e[1..] == rest;
      }
    }
  }

  /** `repr(x)`: a string is quoted with `'`, or with `"` when it holds `'`
      and no `"`; every other value prints as `str` does. */
  function Repr(j: Json): (r: string)
    ensures !j.JStr? ==> r == Str(j)
    ensures j.JStr? ==> |r| >= 2 && r[0] == r[|r| - 1] && (r[0] == '\'' || r[0] == '"')
    ensures j.JStr? ==> r[0] == (if '\'' in j.s && '"' !in j.s then '"' else '\'')
    ensures j.JStr? && '\\' !in j.s && '\'' !in j.s ==> r == "'" + j.s + "'"
    ensures j.JStr? && '\\' !in j.s && '\'' in j.s && '"' !in j.s ==> r == "\"" + j.s + "\""
  {
    match j
    case JStr(s) =>
      var quote := if '\'' in s && '"' !in s then '"' else '\'';
      [quote] + Escape(s, quote) + [quote]
    case _ => Str(j)
  }
}
