/**
 * Python's `repr` for the argument values a declarative command passes, and
 * a reader for the literals it produces, standing in for what the Python
 * console does when it evaluates the command text.
 */
module PythonLiterals {
  import opened Wrappers

  /** The argument values a command may carry. */
  datatype PyValue = PyNone | PyBool(b: bool) | PyInt(i: int) | PyStr(s: string)

  predicate IsDigit(c: char)
  {
    '0' <= c <= '9'
  }

  function Digit(d: nat): (c: char)
    requires d < 10
    ensures IsDigit(c) && c as int - '0' as int == d
  {
    ('0' as int + d) as char
  }

  /** The decimal digits of `n`, most significant first, without leading zeros. */
  function Decimal(n: nat): (r: string)
    ensures 0 < |r| && forall k :: 0 <= k < |r| ==> IsDigit(r[k])
    decreases n
  {
    if n < 10 then [Digit(n)] else Decimal(n / 10) + [Digit(n % 10)]
  }

  /** A lower-case hexadecimal digit, as `repr` writes it in `\xhh`. */
  function HexDigit(d: nat): char
    requires d < 16
  {
    if d < 10 then Digit(d) else ('a' as int + d - 10) as char
  }

  /** Characters `repr` writes as a `\xhh` escape: ASCII control characters
      other than tab, newline and carriage return, and DEL. */
  predicate IsHexEscaped(c: char)
  {
    c < ' ' || c as int == 0x7f
  }

  /** `str.__repr__` quotes with `'`, or with `"` when the text holds `'` and no `"`. */
  function QuoteFor(s: string): (q: char)
    ensures q == '\'' || q == '"'
    ensures q in s ==> '\'' in s && '"' in s && q == '\''
  {
    if '\'' in s && '"' !in s then '"' else '\''
  }

  /** How `repr` writes one character inside a literal quoted with `q`. */
  function EscapeChar(c: char, q: char): string
  {
    if c == q || c == '\\' then ['\\', c]
    else if c == '\t' then "\\t"
    else if c == '\n' then "\\n"
    else if c == '\r' then "\\r"
    else if IsHexEscaped(c) then "\\x" + [HexDigit(c as int / 16), HexDigit(c as int % 16)]
    else [c]
  }

  function Escaped(s: string, q: char): string
    decreases |s|
  {
    if s == [] then [] else EscapeChar(s[0], q) + Escaped(s[1..], q)
  }

  function ReprStr(s: string): string
  {
    [QuoteFor(s)] + Escaped(s, QuoteFor(s)) + [QuoteFor(s)]
  }

  /** Python's `repr(v)`. Its first character tells which kind of literal it
      is, and a number starts with `-` exactly when it is negative. */
  function Repr(v: PyValue): (r: string)
    ensures r != []
    ensures r[0] == 'N' <==> v.PyNone?
    ensures r[0] == 'T' || r[0] == 'F' <==> v.PyBool?
    ensures r[0] == '\'' || r[0] == '"' <==> v.PyStr?
    ensures r[0] == '-' || IsDigit(r[0]) <==> v.PyInt?
    ensures v.PyInt? ==> (r[0] == '-' <==> v.i < 0)
  {
    match v
    case PyNone => "None"
    case PyBool(b) => if b then "True" else "False"
    case PyInt(i) => if i < 0 then "-" + Decimal(-i) else Decimal(i)
    case PyStr(s) => ReprStr(s)
  }

  /** `[repr(arg) for arg in args]`. */
  function Reprs(args: seq<PyValue>): (r: seq<string>)
    ensures |r| == |args| && forall i :: 0 <= i < |args| ==> r[i] == Repr(args[i])
    decreases |args|
  {
    if args == [] then [] else [Repr(args[0])] + Reprs(args[1..])
  }

  /** `sep.join(parts)`. */
  function Join(sep: string, parts: seq<string>): (r: string)
    ensures parts == [] ==> r == ""
    ensures |parts| == 1 ==> r == parts[0]
    ensures |parts| > 1 ==> parts[0] + sep <= r
    decreases |parts|
  {
    if parts == [] then ""
    else if |parts| == 1 then parts[0]
    else parts[0] + sep + Join(sep, parts[1..])
  }

  // ---------------------------------------------------------------------------
  // Reading literals back

  function HexValue(c: char): Option<nat>
  {
    if '0' <= c <= '9' then Some(c as int - '0' as int)
    else if 'a' <= c <= 'f' then Some(c as int - 'a' as int + 10)
    else if 'A' <= c <= 'F' then Some(c as int - 'A' as int + 10)
    else None
  }

  /** Puts `c` in front of the text read so far. */
  function Prepend(c: char, read: Option<(string, string)>): Option<(string, string)>
  {
    match read
    case None => None
    case Some((value, rest)) => Some(([c] + value, rest))
  }

  /** Reads the body of a literal quoted with `q` up to its closing quote: the
      text it denotes and what follows the quote. Escapes other than the ones
      `repr` writes are refused, and so is a line break inside the quotes. */
  function ReadBody(t: string, q: char): (r: Option<(string, string)>)
    ensures r.Some? ==> |r.value.1| < |t|
    decreases |t|
  {
    if t == [] then None
    else if t[0] == q then Some(([], t[1..]))
    else if t[0] == '\n' then None
    else if t[0] != '\\' then Prepend(t[0], ReadBody(t[1..], q))
    else if |t| < 2 then None
    else if t[1] == '\\' || t[1] == '\'' || t[1] == '"' then Prepend(t[1], ReadBody(t[2..], q))
    else if t[1] == 't' then Prepend('\t', ReadBody(t[2..], q))
    else if t[1] == 'n' then Prepend('\n', ReadBody(t[2..], q))
    else if t[1] == 'r' then Prepend('\r', ReadBody(t[2..], q))
    else if t[1] == 'x' && |t| >= 4 && HexValue(t[2]).Some? && HexValue(t[3]).Some?
            && HexValue(t[2]).value < 16 && HexValue(t[3]).value < 16 then
      Prepend((HexValue(t[2]).value * 16 + HexValue(t[3]).value) as char, ReadBody(t[4..], q))
    else None
  }

  /** The length of the run of digits `t` starts with. */
  function DigitRun(t: string): (k: nat)
    ensures k <= |t| && forall j :: 0 <= j < k ==> IsDigit(t[j])
    ensures k < |t| ==> !IsDigit(t[k])
    decreases |t|
  {
    if t == [] || !IsDigit(t[0]) then 0 else 1 + DigitRun(t[1..])
  }

  /** The number a string of decimal digits denotes. */
  function DigitsValue(d: string): nat
    requires forall k :: 0 <= k < |d| ==> IsDigit(d[k])
    decreases |d|
  {
    if d == [] then 0
    else
      assert IsDigit(d[|d| - 1]);
      DigitsValue(d[..|d| - 1]) * 10 + (d[|d| - 1] as int - '0' as int)
  }

  /** Reads one literal at the start of `t`: the value and the text after it. */
  function ReadLiteral(t: string): (r: Option<(PyValue, string)>)
    ensures r.Some? ==> |r.value.1| < |t|
  {
    if t == [] then None
    else if t[0] == 'N' then
      if "None" <= t then Some((PyNone, t[4..])) else None
    else if t[0] == 'T' then
      if "True" <= t then Some((PyBool(true), t[4..])) else None
    else if t[0] == 'F' then
      if "False" <= t then Some((PyBool(false), t[5..])) else None
    else if t[0] == '\'' || t[0] == '"' then
      match ReadBody(t[1..], t[0])
      case None => None
      case Some((s, rest)) => Some((PyStr(s), rest))
    else if t[0] == '-' then
      var k := DigitRun(t[1..]);
      if k == 0 then None else Some((PyInt(-(DigitsValue(t[1..][..k]) as int)), t[1..][k..]))
    else
      var k := DigitRun(t);
      if k == 0 then None else Some((PyInt(DigitsValue(t[..k])), t[k..]))
  }

  /** Reads a whole argument list: literals separated by ", ". */
  function ReadArgs(t: string): Option<seq<PyValue>>
    decreases |t|
  {
    if t == [] then Some([])
    else
      match ReadLiteral(t)
      case None => None
      case Some((v, rest)) =>
        if rest == [] then Some([v])
        else if |rest| >= 2 && rest[..2] == ", " then
          match ReadArgs(rest[2..])
          case None => None
          case Some(vs) => Some([v] + vs)
        else None
  }

  // ---------------------------------------------------------------------------
  // Round trips

  lemma HexRoundTrip(c: char)
    requires IsHexEscaped(c)
    ensures HexValue(HexDigit(c as int / 16)) == Some(c as int / 16)
    ensures HexValue(HexDigit(c as int % 16)) == Some(c as int % 16)
    ensures ((c as int / 16) * 16 + c as int % 16) as char == c
  {
  }

  /** Reading an escaped character gives the character back. */
  lemma EscapeCharRoundTrip(c: char, q: char, t: string)
    requires q == '\'' || q == '"'
    ensures ReadBody(EscapeChar(c, q) + t, q) == Prepend(c, ReadBody(t, q))
  {
    var e := EscapeChar(c, q);
    if c == q || c == '\\' {
      assert (e + t)[2..] == t;
    } else if c == '\t' || c == '\n' || c == '\r' {
      assert (e + t)[2..] == t;
    } else if IsHexEscaped(c) {
      HexRoundTrip(c);
      assert (e + t)[4..] == t;
    } else {
      assert (e + t)[1..] == t;
    }
  }

  /** The body `repr` writes reads back as the original text. */
  lemma {:induction false} EscapedRoundTrip(s: string, q: char, rest: string)
    requires q == '\'' || q == '"'
    ensures ReadBody(Escaped(s, q) + [q] + rest, q) == Some((s, rest))
    decreases |s|
  {
    if s == [] {
      assert Escaped(s, q) + [q] + rest == [q] + rest;
    } else {
      var tail := Escaped(s[1..], q) + [q] + rest;
      assert Escaped(s, q) + [q] + rest == EscapeChar(s[0], q) + tail;
      EscapeCharRoundTrip(s[0], q, tail);
      EscapedRoundTrip(s[1..], q, rest);
      assert [s[0]] + s[1..] == s;
    }
  }

  lemma {:induction false} DigitRunOfDigits(d: string, rest: string)
    requires forall k :: 0 <= k < |d| ==> IsDigit(d[k])
    requires rest == [] || !IsDigit(rest[0])
    ensures DigitRun(d + rest) == |d|
    decreases |d|
  {
    if d != [] {
      assert (d + rest)[1..] == d[1..] + rest;
      DigitRunOfDigits(d[1..], rest);
    }
  }

  lemma {:induction false} DecimalRoundTrip(n: nat)
    ensures DigitsValue(Decimal(n)) == n
    decreases n
  {
    if n >= 10 {
      var d := Decimal(n);
      assert d[..|d| - 1] == Decimal(n / 10);
      DecimalRoundTrip(n / 10);
    }
  }

  lemma StrLiteralRoundTrip(s: string, rest: string)
    ensures ReadLiteral(ReprStr(s) + rest) == Some((PyStr(s), rest))
  {
    var t := ReprStr(s) + rest;
    var q := QuoteFor(s);
    assert t[0] == q;
    assert t[1..] == Escaped(s, q) + [q] + rest;
    EscapedRoundTrip(s, q, rest);
  }

  lemma NatLiteralRoundTrip(n: nat, rest: string)
    requires rest == [] || !IsDigit(rest[0])
    ensures var t := Decimal(n) + rest;
      DigitRun(t) == |Decimal(n)| && t[..|Decimal(n)|] == Decimal(n) && t[|Decimal(n)|..] == rest &&
      DigitsValue(Decimal(n)) == n
  {
    DecimalRoundTrip(n);
    DigitRunOfDigits(Decimal(n), rest);
  }

  lemma IntLiteralRoundTrip(i: int, rest: string)
    requires rest == [] || !IsDigit(rest[0])
    ensures ReadLiteral(Repr(PyInt(i)) + rest) == Some((PyInt(i), rest))
  {
    var t := Repr(PyInt(i)) + rest;
    if i < 0 {
      NatLiteralRoundTrip(-i, rest);
      assert t[0] == '-' && t[1..] == Decimal(-i) + rest;
    } else {
      NatLiteralRoundTrip(i, rest);
      assert t == Decimal(i) + rest && IsDigit(t[0]);
    }
  }

  /** Reading `repr(v)` gives `v` back, whatever follows it, short of a digit
      right after a number. */
  lemma LiteralRoundTrip(v: PyValue, rest: string)
    requires rest == [] || !IsDigit(rest[0])
    ensures ReadLiteral(Repr(v) + rest) == Some((v, rest))
  {
    var t := Repr(v) + rest;
    match v
    case PyNone =>
      assert "None" <= t && t[4..] == rest;
    case PyBool(b) =>
      if b {
        assert "True" <= t && t[4..] == rest;
      } else {
        assert "False" <= t && t[5..] == rest;
      }
    case PyStr(s) =>
      StrLiteralRoundTrip(s, rest);
    case PyInt(i) =>
      IntLiteralRoundTrip(i, rest);
  }

  /** Reading the joined reprs of an argument list gives the list back. */
  lemma {:induction false} ArgsRoundTrip(args: seq<PyValue>)
    ensures ReadArgs(Join(", ", Reprs(args))) == Some(args)
    decreases |args|
  {
    if |args| == 1 {
      assert Join(", ", Reprs(args)) == Repr(args[0]) + [];
      LiteralRoundTrip(args[0], []);
      assert Repr(args[0]) + [] != [];
      assert [args[0]] == args;
    } else if |args| > 1 {
      var tail := Join(", ", Reprs(args[1..]));
      assert Reprs(args)[1..] == Reprs(args[1..]);
      assert Join(", ", Reprs(args)) == Repr(args[0]) + (", " + tail);
      LiteralRoundTrip(args[0], ", " + tail);
      assert (", " + tail)[2..] == tail;
      ArgsRoundTrip(args[1..]);
      assert [args[0]] + args[1..] == args;
    }
  }
}
