/**
 * Decimal digit strings: the zero-padded fields of an ISO date ("%04d", "%02d"),
 * Python's `str(n)` for integers and Python's `int(s)` for text, which is how the
 * `days` query parameter is read.
 */
module Decimal {
  import opened Wrappers

  predicate IsDigit(c: char) {
    '0' <= c <= '9'
  }

  predicate AllDigits(s: string) {
    forall i :: 0 <= i < |s| ==> IsDigit(s[i])
  }

  function DigitVal(c: char): (d: nat)
    requires IsDigit(c)
    ensures d < 10
  {
    c as int - '0' as int
  }

  function DigitChar(d: nat): (c: char)
    requires d < 10
    ensures IsDigit(c) && DigitVal(c) == d
  {
    ('0' as int + d) as char
  }

  /** The number a digit string denotes, most significant digit first. */
  function Value(s: string): nat
    requires AllDigits(s)
  {
    if s == [] then 0 else Value(s[..|s| - 1]) * 10 + DigitVal(s[|s| - 1])
  }

  function Pow10(w: nat): (p: nat)
    ensures p >= 1
  {
    if w == 0 then 1 else 10 * Pow10(w - 1)
  }

  /** The lowest `w` decimal digits of `n`, zero-padded: Python's "%0<w>d" for `n < 10^w`. */
  function Pad(n: nat, w: nat): (s: string)
    ensures |s| == w && AllDigits(s)
  {
    if w == 0 then [] else Pad(n / 10, w - 1) + [DigitChar(n % 10)]
  }

  /** Reading a padded field back gives the number, so `Pad(., w)` is injective below 10^w. */
  lemma {:induction false} PadValue(n: nat, w: nat)
    requires n < Pow10(w)
    ensures Value(Pad(n, w)) == n
  {
    if w > 0 {
      var s := Pad(n, w);
      assert s[..|s| - 1] == Pad(n / 10, w - 1);
      assert n / 10 < Pow10(w - 1);
      PadValue(n / 10, w - 1);
    }
  }

  /** The decimal digits of `n` without leading zeros: Python's `str(n)` for `n >= 0`. */
  function Digits(n: nat): (s: string)
    ensures |s| >= 1 && AllDigits(s)
  {
    if n < 10 then [DigitChar(n)] else Digits(n / 10) + [DigitChar(n % 10)]
  }

  lemma {:induction false} DigitsValue(n: nat)
    ensures Value(Digits(n)) == n
  {
    if n >= 10 {
      var s := Digits(n);
      assert s[..|s| - 1] == Digits(n / 10);
      DigitsValue(n / 10);
    }
  }

  /** The magnitude of an integer. */
  function Abs(n: int): nat {
    if n < 0 then -n else n
  }

  /** Python's `str(n)` for an integer of at most `MaxStrDigits` digits. */
  function Str(n: int): (s: string)
    ensures |s| >= 1
  {
    if n < 0 then "-" + Digits(-n) else Digits(n)
  }

  /** A number has no more decimal digits than it is large, plus one. */
  lemma {:induction false} DigitsLength(n: nat)
    ensures |Digits(n)| <= n + 1
  {
    if n >= 10 {
      DigitsLength(n / 10);
    }
  }

  /** `str()` of the numbers at and around the bounds of `days`. */
  lemma SmallStr()
    ensures Str(0) == "0" && Str(1) == "1" && Str(10) == "10"
    ensures Str(100) == "100" && Str(101) == "101"
  {
    assert Digits(10) == Digits(1) + ['0'];
    assert Digits(100) == Digits(10) + ['0'];
    assert Digits(101) == Digits(10) + ['1'];
  }

  /** The ASCII whitespace that `int()` strips from both ends of its argument. */
  predicate IsSpace(c: char) {
    c == ' ' || c == '\t' || c == '\n' || c == '\r' || c as int == 11 || c as int == 12
  }

  function TrimStart(s: string): (r: string)
    ensures r == [] || !IsSpace(r[0])
  {
    if s != [] && IsSpace(s[0]) then TrimStart(s[1..]) else s
  }

  function TrimEnd(s: string): (r: string)
    ensures r == [] || !IsSpace(r[|r| - 1])
  {
    if s != [] && IsSpace(s[|s| - 1]) then TrimEnd(s[..|s| - 1]) else s
  }

  /**
   * The body of a base-10 integer after its sign: digits, where a single `_` may
   * separate two digits ("1_000"), and nothing else.
   */
  predicate WellFormedDigits(s: string) {
    && |s| > 0
    && IsDigit(s[0])
    && IsDigit(s[|s| - 1])
    && (forall i :: 0 <= i < |s| ==> IsDigit(s[i]) || s[i] == '_')
    && (forall i :: 0 <= i < |s| - 1 ==> s[i] == '_' ==> s[i + 1] != '_')
  }

  /** The digits of `s` with the separating underscores dropped. */
  function DropUnderscores(s: string): (r: string)
    requires forall i :: 0 <= i < |s| ==> IsDigit(s[i]) || s[i] == '_'
    ensures AllDigits(r) && |r| <= |s|
  {
    if s == [] then []
    else if s[0] == '_' then DropUnderscores(s[1..])
    else [s[0]] + DropUnderscores(s[1..])
  }

  lemma {:induction false} DropUnderscoresOfDigits(s: string)
    requires AllDigits(s)
    ensures DropUnderscores(s) == s
  {
    if s != [] {
      DropUnderscoresOfDigits(s[1..]);
    }
  }

  /**
   * The most digits `int()` converts from a str: the default of
   * `sys.get_int_max_str_digits()` in CPython 3.11 and later (and in the 2022
   * security releases of 3.7 to 3.10). A longer digit run (underscores do not
   * count, leading zeros do) raises ValueError, as does `str(n)` for such an `n`.
   */
  const MaxStrDigits: nat := 4300

  /**
   * The unsigned part of `int()`: a well-formed digit run of at most
   * `MaxStrDigits` digits denotes its value; anything else is a ValueError.
   */
  function ParseDigits(body: string): (r: Option<nat>)
    ensures r.Some? ==> |body| >= 1 && IsDigit(body[0]) && IsDigit(body[|body| - 1])
  {
    if WellFormedDigits(body) && |DropUnderscores(body)| <= MaxStrDigits then
      Some(Value(DropUnderscores(body)))
    else None
  }

  /**
   * Python's `int(s)` on a str: surrounding whitespace is ignored, an optional
   * sign, then a run of at most `MaxStrDigits` digits with single underscores
   * between them. Any other text is a ValueError, here None.
   */
  function ParseInt(s: string): (r: Option<int>)
    ensures r.Some? ==>
      var t := TrimEnd(TrimStart(s));
      && |t| >= 1 && IsDigit(t[|t| - 1])
      && (IsDigit(t[0]) || t[0] == '+' || t[0] == '-')
  {
    var t := TrimEnd(TrimStart(s));
    if t != [] && (t[0] == '+' || t[0] == '-') then
      match ParseDigits(t[1..])
      case None => None
      case Some(n) => var v: int := n; Some(if t[0] == '-' then -v else v)
    else ParseDigits(t)
  }

  /** `str(n)` of a natural number is a well-formed digit run with no sign and no whitespace. */
  lemma DigitsShape(n: nat)
    ensures WellFormedDigits(Digits(n))
    ensures var d := Digits(n); d[0] != '+' && d[0] != '-' && !IsSpace(d[0]) && !IsSpace(d[|d| - 1])
  {
    var d := Digits(n);
    assert IsDigit(d[0]) && IsDigit(d[|d| - 1]);
  }

  /** `str(n)` has no surrounding whitespace for `int()` to strip. */
  lemma StrTrimmed(n: int)
    ensures TrimStart(Str(n)) == Str(n) && TrimEnd(Str(n)) == Str(n)
  {
    var s := Str(n);
    var m := Abs(n);
    DigitsShape(m);
    assert s[|s| - 1] == Digits(m)[|Digits(m)| - 1];
    assert s[0] == '-' || s[0] == Digits(m)[0];
  }

  /** `str(n)` of a natural number reads back as `n` when it is within the digit limit. */
  lemma ParseDigitsOfDigits(m: nat)
    ensures ParseDigits(Digits(m)) == if |Digits(m)| <= MaxStrDigits then Some(m) else None
  {
    DigitsShape(m);
    DropUnderscoresOfDigits(Digits(m));
    DigitsValue(m);
  }

  /**
   * `int(str(n)) == n`: the decimal text of every integer within the digit
   * limit parses back to it; the text of a longer one is refused.
   */
  lemma ParseStr(n: int)
    ensures ParseInt(Str(n)) == if |Digits(Abs(n))| <= MaxStrDigits then Some(n) else None
  {
    var s := Str(n);
    var d := Digits(Abs(n));
    StrTrimmed(n);
    DigitsShape(Abs(n));
    ParseDigitsOfDigits(Abs(n));
    if n < 0 {
      assert s[0] == '-' && s[1..] == d;
    } else {
      assert s == d;
    }
  }

  /** Surrounding whitespace does not change what `int()` reads. */
  lemma ParseIntIgnoresSpaces(n: int)
    ensures ParseInt(" " + Str(n) + "\n") == ParseInt(Str(n))
  {
    var s := Str(n);
    var t := " " + s + "\n";
    StrTrimmed(n);
    assert t[1..] == s + "\n";
    assert (s + "\n")[0] == s[0];
    assert TrimStart(t) == s + "\n";
    assert (s + "\n")[..|s|] == s;
    assert TrimEnd(s + "\n") == s;
  }

  /** Text that is not an integer is rejected: nothing, letters, a sign apart from its digits. */
  lemma ParseIntRejects()
    ensures ParseInt("") == None
    ensures ParseInt("abc") == None
    ensures ParseInt("- 5") == None
  {
  }

  /** Leading zeros count toward the limit: 4300 zeros and then a 5 are refused. */
  lemma ParseIntRejectsLongText()
    ensures ParseInt(seq(MaxStrDigits, _ => '0') + "5") == None
  {
    var s := seq(MaxStrDigits, _ => '0') + "5";
    assert AllDigits(s);
    DropUnderscoresOfDigits(s);
    assert s[0] == '0' && s[|s| - 1] == '5';
    assert TrimStart(s) == s && TrimEnd(s) == s;
  }

  /** An underscore must sit between two digits. */
  lemma ParseIntRejectsUnderscores()
    ensures ParseInt("1_") == None
    ensures ParseInt("1__0") == None
  {
  }
}
