/** Shared vocabulary: optional values, results carrying the exceptions the
    query generator throws, and the string helpers (String.Join, integer
    formatting, char.IsWhiteSpace) the generator relies on. */
module Common {

  datatype Option<+T> = None | Some(value: T)

  /** The exceptions the modelled code throws, with the text it attaches. */
  datatype Error =
    | ArgumentNull(parameter: string)
    | Argument(parameter: string, message: string)
    | NotSupported(message: string)
    | InvalidOperation(message: string)
    | ArgumentOutOfRange
    | NullReference
    | Format

  datatype Result<+T> = Success(value: T) | Failure(error: Error)
  {
    predicate IsFailure()
    {
      Failure?
    }

    function PropagateFailure<U>(): Result<U>
      requires Failure?
    {
      Failure(error)
    }

    function Extract(): T
      requires Success?
    {
      value
    }
  }

  /** A void call that either completes or throws. */
  datatype Outcome = Pass | Fail(error: Error)

  /** The text a nullable string contributes when formatted: null formats as "". */
  function Text(s: Option<string>): string
  {
    if s.Some? then s.value else ""
  }

  /** String.Join(sep, parts). */
  function Join(parts: seq<string>, sep: string): string
  {
    if |parts| == 0 then ""
    else if |parts| == 1 then parts[0]
    else parts[0] + sep + Join(parts[1..], sep)
  }

  /** Joining grows at the end: the separator goes only between two parts. */
  lemma {:induction false} JoinAppend(parts: seq<string>, x: string, sep: string)
    ensures Join(parts + [x], sep) == if parts == [] then x else Join(parts, sep) + sep + x
  {
    if |parts| == 0 {
      assert parts + [x] == [x];
    } else if |parts| == 1 {
      assert parts + [x] == [parts[0], x];
      assert ([parts[0], x])[1..] == [x];
    } else {
      assert (parts + [x])[1..] == parts[1..] + [x];
      JoinAppend(parts[1..], x, sep);
    }
  }

  /** One part joins to itself; two parts are separated exactly once. */
  lemma JoinSmall(a: string, b: string, sep: string)
    ensures Join([a], sep) == a
    ensures Join([a, b], sep) == a + sep + b
  {
    assert [a, b][1..] == [b];
  }

  /** Concatenation of all parts, String.Join("", parts). */
  function Concat(parts: seq<string>): (r: string)
    ensures r == Join(parts, "")
    ensures |parts| == 0 ==> r == ""
  {
    if |parts| == 0 then ""
    else
      var rest := Concat(parts[1..]);
      assert |parts| > 1 ==> rest == Join(parts[1..], "");
      parts[0] + rest
  }

  /** Decimal digit of d, 0 <= d < 10. */
  function Digit(d: nat): (c: char)
    requires d < 10
    ensures c as int == '0' as int + d
  {
    "0123456789"[d]
  }

  /** The decimal digits of a non-negative count. */
  function NatText(n: nat): (r: string)
    ensures |r| >= 1
    ensures forall i :: 0 <= i < |r| ==> '0' <= r[i] <= '9'
    decreases n
  {
    if n < 10 then [Digit(n)] else NatText(n / 10) + [Digit(n % 10)]
  }

  /** Decimal text of an integer with a leading '-' for negative values. */
  function IntText(n: int): (r: string)
    ensures |r| >= 1
    ensures (r[0] == '-') <==> n < 0
  {
    if n < 0 then "-" + NatText(-n) else NatText(n)
  }

  /** The 32-bit signed range that Convert.ToInt32 produces. */
  newtype Int32 = x: int | -0x8000_0000 <= x < 0x8000_0000

  /** char.IsWhiteSpace: the Unicode space, line and paragraph separators and
      the control characters U+0009..U+000D and U+0085. */
  predicate IsWhiteSpace(c: char)
  {
    || ('\U{0009}' <= c <= '\U{000D}')
    || c == ' ' || c == '\U{0085}' || c == '\U{00A0}' || c == '\U{1680}'
    || ('\U{2000}' <= c <= '\U{200A}')
    || c == '\U{2028}' || c == '\U{2029}' || c == '\U{202F}' || c == '\U{205F}' || c == '\U{3000}'
  }

  /** string.IsNullOrWhiteSpace. */
  predicate IsNullOrWhiteSpace(s: Option<string>)
  {
    s.None? || forall i :: 0 <= i < |s.value| ==> IsWhiteSpace(s.value[i])
  }

  /** string.IsNullOrEmpty. */
  predicate IsNullOrEmpty(s: Option<string>)
  {
    s.None? || s.value == ""
  }

  /** No character of s is a brace, so composite formatting copies it as is. */
  predicate BraceFree(s: string)
  {
    forall i :: 0 <= i < |s| ==> s[i] != '{' && s[i] != '}'
  }

  /** Prepends literal text to a formatting result; a failure stays a failure. */
  function Prefix(s: string, r: Result<string>): Result<string>
  {
    if r.Success? then Success(s + r.value) else r
  }

  /** Number of decimal digits at the start of s. */
  function LeadingDigits(s: string): (n: nat)
    ensures n <= |s|
    ensures forall i :: 0 <= i < n ==> '0' <= s[i] <= '9'
    ensures n < |s| ==> !('0' <= s[n] <= '9')
  {
    if |s| > 0 && '0' <= s[0] <= '9' then 1 + LeadingDigits(s[1..]) else 0
  }

  /** Value of a run of decimal digits. */
  function DigitsValue(s: string): nat
    requires forall i :: 0 <= i < |s| ==> '0' <= s[i] <= '9'
  {
    if |s| == 0 then 0 else 10 * DigitsValue(s[..|s| - 1]) + (s[|s| - 1] as int - '0' as int)
  }

  /** string.Format(format, args) with every argument already converted to its
      text. "{{" and "}}" stand for one brace, "{n}" for the n-th argument; a
      lone brace, a malformed item or an index past the arguments throws
      FormatException. Only plain "{n}" items are recognised: alignment and
      format-string suffixes are treated as malformed. */
  function StringFormat(format: string, args: seq<string>): (r: Result<string>)
    ensures r.Failure? ==> r.error == Format
    decreases |format|
  {
    if format == [] then Success("")
    else if format[0] == '{' && |format| >= 2 && format[1] == '{' then Prefix("{", StringFormat(format[2..], args))
    else if format[0] == '{' then
      var n := LeadingDigits(format[1..]);
      if n == 0 || 1 + n >= |format| || format[1 + n] != '}' then Failure(Format)
      else
        var index := DigitsValue(format[1..1 + n]);
        if index < |args| then Prefix(args[index], StringFormat(format[2 + n..], args)) else Failure(Format)
    else if format[0] == '}' && |format| >= 2 && format[1] == '}' then Prefix("}", StringFormat(format[2..], args))
    else if format[0] == '}' then Failure(Format)
    else Prefix([format[0]], StringFormat(format[1..], args))
  }

  /** Literal text without braces is copied to the output unchanged. */
  lemma {:induction false} FormatLiteral(p: string, rest: string, args: seq<string>)
    requires BraceFree(p)
    ensures StringFormat(p + rest, args) == Prefix(p, StringFormat(rest, args))
  {
    if p != [] {
      var f := p + rest;
      assert f[0] == p[0] && f[0] != '{' && f[0] != '}';
      assert f[1..] == p[1..] + rest;
      assert StringFormat(f, args) == Prefix([p[0]], StringFormat(p[1..] + rest, args));
      FormatLiteral(p[1..], rest, args);
      assert [p[0]] + p[1..] == p;
      var r := StringFormat(rest, args);
      if r.Success? {
        assert [p[0]] + (p[1..] + r.value) == p + r.value;
      }
    } else {
      assert p + rest == rest;
      var r := StringFormat(rest, args);
      if r.Success? {
        assert p + r.value == r.value;
      }
    }
  }

  /** A format item with a one-digit index is replaced by that argument. */
  lemma FormatItem(d: nat, rest: string, args: seq<string>)
    requires d < 10 && d < |args|
    ensures StringFormat("{" + [Digit(d)] + "}" + rest, args) == Prefix(args[d], StringFormat(rest, args))
  {
    var f := "{" + [Digit(d)] + "}" + rest;
    assert f[0] == '{' && f[1] == Digit(d) && f[2] == '}';
    assert LeadingDigits(f[1..]) == 1 by {
      assert f[1..][1..] == f[2..];
    }
    assert f[1..2] == [Digit(d)];
    assert DigitsValue(f[1..2]) == d by {
      assert f[1..2][..0] == [];
    }
    assert f[3..] == rest;
  }

  /** Brace-free text survives formatting with no arguments. */
  lemma FormatBraceFree(s: string)
    requires BraceFree(s)
    ensures StringFormat(s, []) == Success(s)
  {
    FormatLiteral(s, "", []);
    assert s + "" == s;
  }

  /** "{0}" with one argument yields exactly that argument, whatever it holds. */
  lemma FormatVerbatim(s: string)
    ensures StringFormat("{0}", [s]) == Success(s)
  {
    FormatItem(0, "", [s]);
    assert "{" + [Digit(0)] + "}" + "" == "{0}";
    assert s + "" == s;
  }
}
