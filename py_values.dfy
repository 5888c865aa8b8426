/** The slice of Python the importer leans on: the scalar values a parsed cell or
    record field can hold, the exceptions the readers raise or catch, and the
    builtins `int()`, `float()`, `bool()`, `str()` and `repr()` on those values. */
module PyValues {

  /** A Python scalar as produced by the CSV, JSON and GeoPackage parsers.
      A Python `float` is modelled as an exact `real`. */
  datatype PyValue = Str(s: string) | Int(i: int) | Float(r: real) | Bool(b: bool) | NoneValue

  /** The exceptions that can leave a reader. `KeyError` carries the repr of the
      missing key, which is what `repr(e)` prints between the parentheses. */
  datatype PyError =
    | ValueError(message: string)
    | TypeError(message: string)
    | KeyError(keyRepr: string)
    | NotImplementedError(message: string)
    | UnboundLocalError(message: string)

  /** A Python call either returns a value or raises. */
  datatype Outcome<+T> = Returned(value: T) | Raised(error: PyError)

  /** Python evaluation of a loop or comprehension that calls `f` on each element
      in order: the first exception propagates and nothing after it runs. */
  function MapOutcome<A, B>(f: A -> Outcome<B>, xs: seq<A>): (r: Outcome<seq<B>>)
    ensures r.Returned? ==> |r.value| == |xs| && forall i :: 0 <= i < |xs| ==> f(xs[i]) == Returned(r.value[i])
    ensures r.Raised? ==>
      exists k :: 0 <= k < |xs| && f(xs[k]) == Raised(r.error) && forall i :: 0 <= i < k ==> f(xs[i]).Returned?
  {
    if xs == [] then Returned([])
    else
      var init := xs[..|xs| - 1];
      match MapOutcome(f, init)
      case Raised(e) =>
        var k :| 0 <= k < |init| && f(init[k]) == Raised(e) && forall i :: 0 <= i < k ==> f(init[i]).Returned?;
        assert f(xs[k]) == Raised(e) && forall i :: 0 <= i < k ==> xs[i] == init[i];
        Raised(e)
      case Returned(ys) =>
        match f(xs[|xs| - 1])
        case Raised(e) => Raised(e)
        case Returned(y) => Returned(ys + [y])
  }

  /** When every call returns, the loop returns exactly those values. */
  lemma MapOutcomeAllReturned<A, B>(f: A -> Outcome<B>, xs: seq<A>, ys: seq<B>)
    requires |ys| == |xs| && forall i :: 0 <= i < |xs| ==> f(xs[i]) == Returned(ys[i])
    ensures MapOutcome(f, xs) == Returned(ys)
  {
    var r := MapOutcome(f, xs);
    if r.Returned? {
      assert r.value == ys;
    }
  }

  /** The first call that raises decides what the whole loop raises. */
  lemma MapOutcomeFirstRaise<A, B>(f: A -> Outcome<B>, xs: seq<A>, k: nat)
    requires k < |xs| && f(xs[k]).Raised?
    requires forall i :: 0 <= i < k ==> f(xs[i]).Returned?
    ensures MapOutcome(f, xs) == Raised(f(xs[k]).error)
  {
    var r := MapOutcome(f, xs);
    if r.Raised? {
      var j :| 0 <= j < |xs| && f(xs[j]) == Raised(r.error) && forall i :: 0 <= i < j ==> f(xs[i]).Returned?;
      assert j == k;
    }
  }

  // ---------------------------------------------------------------------------
  // Decimal digits: `str()` of an integer and the literal syntax `int()` accepts
  // ---------------------------------------------------------------------------

  predicate IsDigit(c: char) { '0' <= c <= '9' }

  predicate AllDigits(s: string) { forall i :: 0 <= i < |s| ==> IsDigit(s[i]) }

  function DigitChar(d: nat): (c: char)
    requires d < 10
    ensures IsDigit(c)
  {
    ('0' as int + d) as char
  }

  function DigitValue(c: char): (d: nat)
    requires IsDigit(c)
    ensures d < 10
  {
    c as int - '0' as int
  }

  /** The value of a string of decimal digits, most significant first. */
  function DigitsValue(s: string): nat
    requires AllDigits(s)
  {
    if s == [] then 0 else DigitsValue(s[..|s| - 1]) * 10 + DigitValue(s[|s| - 1])
  }

  function Pow10(n: nat): (p: nat)
    ensures p > 0
  {
    if n == 0 then 1 else 10 * Pow10(n - 1)
  }

  /** `str(n)` for a non-negative integer: its decimal digits without leading zeros. */
  function ShowNat(n: nat): (s: string)
    ensures |s| > 0 && AllDigits(s)
    ensures n > 0 ==> s[0] != '0'
  {
    if n < 10 then [DigitChar(n)] else ShowNat(n / 10) + [DigitChar(n % 10)]
  }

  /** `str(n)` for any Python integer. */
  function ShowInt(n: int): (s: string)
    ensures |s| > 0
    ensures s[0] == '-' <==> n < 0
  {
    if n < 0 then "-" + ShowNat(-n) else ShowNat(n)
  }

  lemma {:induction false} ShowNatValue(n: nat)
    ensures DigitsValue(ShowNat(n)) == n
  {
    if n >= 10 {
      var s := ShowNat(n);
      ShowNatValue(n / 10);
      assert s[..|s| - 1] == ShowNat(n / 10);
    }
  }

  /** `int(s)` for a `str` argument: an optional sign followed by decimal digits. */
  function IntOfStr(s: string): (r: Outcome<int>)
    ensures r.Raised? ==> r.error.ValueError?
  {
    var digits := if |s| > 0 && (s[0] == '-' || s[0] == '+') then s[1..] else s;
    if |digits| > 0 && AllDigits(digits) then
      Returned(if s[0] == '-' then -(DigitsValue(digits) as int) else DigitsValue(digits))
    else
      Raised(ValueError("invalid literal for int() with base 10: " + StrRepr(s)))
  }

  /** `str(n)`: a minus sign before the digits of a negative number, the bare
      digits otherwise. */
  lemma ShowIntParts(n: int)
    ensures n < 0 ==> |ShowInt(n)| > 1 && ShowInt(n)[0] == '-' && ShowInt(n)[1..] == ShowNat(-n)
    ensures n >= 0 ==> ShowInt(n) == ShowNat(n)
  {
    if n < 0 {
      assert ("-" + ShowNat(-n))[1..] == ShowNat(-n);
    }
  }

  /** `int` of a plain digit string is the number the digits spell. */
  lemma IntOfDigits(s: string)
    requires |s| > 0 && AllDigits(s)
    ensures IntOfStr(s) == Returned(DigitsValue(s))
  {
    assert IsDigit(s[0]);
  }

  /** `int` of a minus sign and digits is the negated number. */
  lemma IntOfSigned(s: string)
    requires |s| > 1 && s[0] == '-' && AllDigits(s[1..])
    ensures IntOfStr(s) == Returned(-(DigitsValue(s[1..]) as int))
  {
  }

  /** `int(str(n)) == n`: the text `str()` prints is read back by `int()`. */
  lemma IntOfShowInt(n: int)
    ensures IntOfStr(ShowInt(n)) == Returned(n)
  {
    ShowIntParts(n);
    if n < 0 {
      ShowNatValue(-n);
      IntOfSigned(ShowInt(n));
    } else {
      ShowNatValue(n);
      IntOfDigits(ShowInt(n));
    }
  }

  /** Index of the first '.' in `s`, or `|s|` when there is none. */
  function FindDot(s: string): (k: nat)
    ensures k <= |s|
    ensures k < |s| ==> s[k] == '.'
    ensures forall i :: 0 <= i < k ==> s[i] != '.'
  {
    if s == [] then 0 else if s[0] == '.' then 0 else 1 + FindDot(s[1..])
  }

  /** The value of the digits `whole` before the point and `frac` after it. */
  function Magnitude(whole: string, frac: string): real
    requires AllDigits(whole) && AllDigits(frac)
  {
    DigitsValue(whole) as real + DigitsValue(frac) as real / Pow10(|frac|) as real
  }

  /** `float(s)` for a `str` argument, on plain decimal literals: an optional sign,
      digits, and at most one '.', with at least one digit in all. */
  function FloatOfStr(s: string): (r: Outcome<real>)
    ensures r.Raised? ==> r.error.ValueError?
  {
    var negative := |s| > 0 && s[0] == '-';
    var body := if |s| > 0 && (s[0] == '-' || s[0] == '+') then s[1..] else s;
    var k := FindDot(body);
    var whole := body[..k];
    var frac := if k < |body| then body[k + 1..] else "";
    if AllDigits(whole) && AllDigits(frac) && |whole| + |frac| > 0 then
      var magnitude := Magnitude(whole, frac);
      Returned(if negative then -magnitude else magnitude)
    else
      Raised(ValueError("could not convert string to float: " + StrRepr(s)))
  }

  /** Every integer literal is also a float literal of the same value: `float(str(n)) == n`. */
  lemma FloatOfShowInt(n: int)
    ensures FloatOfStr(ShowInt(n)) == Returned(n as real)
  {
    var s := ShowInt(n);
    ShowIntParts(n);
    if n < 0 {
      ShowNatValue(-n);
      assert FloatOfStr(s) == Returned(-(DigitsValue(s[1..]) as real)) by {
        FloatOfSigned(s);
      }
    } else {
      ShowNatValue(n);
      assert FloatOfStr(s) == Returned(DigitsValue(s) as real) by {
        FloatOfDigits(s);
      }
    }
  }

  /** `float` of a plain digit string is the number the digits spell. */
  lemma FloatOfDigits(body: string)
    requires |body| > 0 && AllDigits(body)
    ensures FloatOfStr(body) == Returned(DigitsValue(body) as real)
  {
    NoDot(body);
    assert body[..|body|] == body;
    WholeMagnitude(body);
  }

  /** `float` of a string that is a minus sign and digits. */
  lemma FloatOfSigned(s: string)
    requires |s| > 1 && s[0] == '-' && AllDigits(s[1..])
    ensures FloatOfStr(s) == Returned(-(DigitsValue(s[1..]) as real))
  {
    var body := s[1..];
    NoDot(body);
    assert body[..|body|] == body;
    WholeMagnitude(body);
  }

  /** A digit string has no '.'. */
  lemma NoDot(body: string)
    requires AllDigits(body)
    ensures FindDot(body) == |body|
  {
  }

  /** Digits with nothing after the point. */
  lemma WholeMagnitude(whole: string)
    requires AllDigits(whole)
    ensures Magnitude(whole, "") == DigitsValue(whole) as real
  {
    assert DigitsValue("") == 0 && Pow10(0) == 1;
  }

  /** `float("d.e")` for two digits d and e is d + e/10. */
  lemma FloatOfShortDecimal(s: string)
    requires |s| == 3 && IsDigit(s[0]) && s[1] == '.' && IsDigit(s[2])
    ensures FloatOfStr(s) == Returned(DigitValue(s[0]) as real + DigitValue(s[2]) as real / 10.0)
  {
    assert FindDot(s[1..]) == 0;
    assert FindDot(s) == 1;
    var whole, frac := s[..1], s[2..];
    assert whole == [s[0]] && frac == [s[2]];
    assert AllDigits(whole) && AllDigits(frac);
    assert DigitsValue(whole) == DigitValue(s[0]) by { assert whole[..0] == []; }
    assert DigitsValue(frac) == DigitValue(s[2]) by { assert frac[..0] == []; }
    assert Pow10(|frac|) == 10 by { assert Pow10(0) == 1; }
  }

  /** An ASCII letter can open a float literal only as the start of "inf",
      "infinity" or "nan" (in any case); text opening with any other letter
      is no float literal. */
  predicate NonNumericLetter(c: char)
  {
    ('a' <= c <= 'z' || 'A' <= c <= 'Z') && c !in "iInN"
  }

  /** Text that starts with a letter that opens no float word raises. */
  lemma FloatOfWord(s: string)
    requires |s| > 0 && NonNumericLetter(s[0])
    ensures FloatOfStr(s) == Raised(ValueError("could not convert string to float: " + StrRepr(s)))
  {
    var k := FindDot(s);
    assert k > 0;
    assert !IsDigit(s[..k][0]);
  }

  // ---------------------------------------------------------------------------
  // repr()
  // ---------------------------------------------------------------------------

  /** `repr(s)` for a `str`: single quotes unless the text holds a single quote
      and no double quote; backslash, the chosen quote, and the common control
      characters are escaped. */
  function StrRepr(s: string): (r: string)
    ensures |r| >= 2 && r[0] == r[|r| - 1] && (r[0] == '\'' || r[0] == '"')
  {
    var q := if '\'' in s && '"' !in s then '"' else '\'';
    [q] + Escape(s, q) + [q]
  }

  function Escape(s: string, q: char): string
  {
    if s == [] then "" else EscapeChar(s[0], q) + Escape(s[1..], q)
  }

  function EscapeChar(c: char, q: char): string
  {
    if c == '\\' then "\\\\"
    else if c == q then ['\\', q]
    else if c == '\n' then "\\n"
    else if c == '\r' then "\\r"
    else if c == '\t' then "\\t"
    else [c]
  }

  /** Plain text needs no escape. */
  lemma {:induction false} EscapePlain(s: string, q: char)
    requires forall i :: 0 <= i < |s| ==> s[i] != '\\' && s[i] != q && s[i] != '\n' && s[i] != '\r' && s[i] != '\t'
    ensures Escape(s, q) == s
  {
    if s != [] {
      EscapePlain(s[1..], q);
      assert [s[0]] + s[1..] == s;
    }
  }

  /** `repr(e)` for an exception raised with one argument: `Name(repr(arg))`. */
  function ExceptionRepr(e: PyError): (r: string)
    ensures |r| > 0 && r[|r| - 1] == ')'
  {
    match e
    case ValueError(m) => "ValueError(" + StrRepr(m) + ")"
    case TypeError(m) => "TypeError(" + StrRepr(m) + ")"
    case KeyError(k) => "KeyError(" + k + ")"
    case NotImplementedError(m) => "NotImplementedError(" + StrRepr(m) + ")"
    case UnboundLocalError(m) => "UnboundLocalError(" + StrRepr(m) + ")"
  }

  // ---------------------------------------------------------------------------
  // The builtins float(), int() and bool() on a scalar
  // ---------------------------------------------------------------------------

  /** `int(r)` for a float truncates toward zero. */
  function Truncate(r: real): (n: int)
    ensures n as real <= r < n as real + 1.0 || n as real - 1.0 < r <= n as real
    ensures r >= 0.0 ==> n >= 0
    ensures r <= 0.0 ==> n <= 0
  {
    if r >= 0.0 then r.Floor else -((-r).Floor)
  }

  /** `float(v)`. */
  function ToFloat(v: PyValue): (r: Outcome<PyValue>)
    ensures r.Returned? ==> r.value.Float?
    ensures r.Raised? <==> v == NoneValue || (v.Str? && FloatOfStr(v.s).Raised?)
  {
    match v
    case Str(s) =>
      (match FloatOfStr(s)
       case Returned(x) => Returned(Float(x))
       case Raised(e) => Raised(e))
    case Int(i) => Returned(Float(i as real))
    case Float(x) => Returned(Float(x))
    case Bool(b) => Returned(Float(if b then 1.0 else 0.0))
    case NoneValue => Raised(TypeError("float() argument must be a string or a real number, not 'NoneType'"))
  }

  /** `int(v)`. */
  function ToInt(v: PyValue): (r: Outcome<PyValue>)
    ensures r.Returned? ==> r.value.Int?
    ensures r.Raised? <==> v == NoneValue || (v.Str? && IntOfStr(v.s).Raised?)
  {
    match v
    case Str(s) =>
      (match IntOfStr(s)
       case Returned(n) => Returned(Int(n))
       case Raised(e) => Raised(e))
    case Int(i) => Returned(Int(i))
    case Float(x) => Returned(Int(Truncate(x)))
    case Bool(b) => Returned(Int(if b then 1 else 0))
    case NoneValue =>
      Raised(TypeError("int() argument must be a string, a bytes-like object or a real number, not 'NoneType'"))
  }

  /** `bool(v)`: Python truthiness. Never raises. */
  function Truth(v: PyValue): bool
  {
    match v
    case Str(s) => s != ""
    case Int(i) => i != 0
    case Float(x) => x != 0.0
    case Bool(b) => b
    case NoneValue => false
  }
}
