/** The number conversions the views rely on: `parseInt` of a route parameter or
    a form field, and the decimal text React writes into an `<option value>`. */
module Numbers {
  import opened Wrappers
  import opened Text

  /** A JavaScript value where the views expect a number: `undefined`, `NaN` or
      an integer. */
  datatype JsNum = Undef | NaN | Int(value: int)

  /** A digit of radix 10 or 16. */
  predicate IsDigitOf(c: char, radix: nat) {
    if radix == 16 then '0' <= c <= '9' || 'a' <= c <= 'f' || 'A' <= c <= 'F'
    else '0' <= c <= '9'
  }

  function DigitValue(c: char): (r: nat)
    requires IsDigitOf(c, 16)
    ensures r < 16
    ensures '0' <= c <= '9' ==> r < 10
  {
    if '0' <= c <= '9' then c as int - '0' as int
    else if 'a' <= c <= 'f' then c as int - 'a' as int + 10
    else c as int - 'A' as int + 10
  }

  function DigitChar(d: nat): (c: char)
    requires d < 10
    ensures IsDigitOf(c, 10) && DigitValue(c) == d
  {
    ('0' as int + d) as char
  }

  predicate AllDigitsOf(s: string, radix: nat) {
    forall i :: 0 <= i < |s| ==> IsDigitOf(s[i], radix)
  }

  /** The longest prefix of `s` made of digits of `radix`. */
  function DigitPrefix(s: string, radix: nat): (r: string)
    ensures |r| <= |s| && r == s[..|r|]
    ensures AllDigitsOf(r, radix)
    ensures |r| == |s| || !IsDigitOf(s[|r|], radix)
    decreases |s|
  {
    if |s| > 0 && IsDigitOf(s[0], radix) then [s[0]] + DigitPrefix(s[1..], radix) else []
  }

  /** A string made only of digits is its own longest digit prefix. */
  lemma {:induction false} DigitPrefixOfDigits(s: string, radix: nat)
    requires AllDigitsOf(s, radix)
    ensures DigitPrefix(s, radix) == s
    decreases |s|
  {
    if |s| > 0 {
      DigitPrefixOfDigits(s[1..], radix);
      assert s == [s[0]] + s[1..];
    }
  }

  /** The value of a string of digits of `radix`, most significant first. */
  function DigitsValue(s: string, radix: nat): nat
    requires radix == 10 || radix == 16
    requires AllDigitsOf(s, radix)
    decreases |s|
  {
    if s == [] then 0
    else DigitsValue(s[..|s| - 1], radix) * radix + DigitValue(s[|s| - 1])
  }

  /** `String(n)` for a natural number: its decimal digits, with no leading
      zero. */
  function NatString(n: nat): (r: string)
    ensures r != [] && AllDigitsOf(r, 10)
    ensures DigitsValue(r, 10) == n
    ensures |r| > 1 ==> r[0] != '0'
  {
    if n < 10 then [DigitChar(n)]
    else
      var r := NatString(n / 10) + [DigitChar(n % 10)];
      assert r[..|r| - 1] == NatString(n / 10);
      r
  }

  /** `String(n)` for an integer. */
  function DecimalString(n: int): (r: string)
    ensures r != []
    ensures n >= 0 ==> AllDigitsOf(r, 10)
    ensures n < 0 ==> r[0] == '-' && AllDigitsOf(r[1..], 10)
  {
    if n < 0 then "-" + NatString(-n) else NatString(n)
  }

  /** The digits after any sign: a `0x` or `0X` prefix selects radix 16, and
      the longest run of digits that follows is the magnitude; no digits at all
      gives none. */
  function Magnitude(body: string): (r: Option<nat>)
    ensures body == [] ==> r == None
  {
    var hex := |body| >= 2 && body[0] == '0' && (body[1] == 'x' || body[1] == 'X');
    var radix := if hex then 16 else 10;
    var ds := DigitPrefix(if hex then body[2..] else body, radix);
    if ds == [] then None else Some(DigitsValue(ds, radix))
  }

  /** A non-empty run of decimal digits is read whole, in radix 10. */
  lemma MagnitudeOfDigits(body: string)
    requires body != [] && AllDigitsOf(body, 10)
    ensures Magnitude(body) == Some(DigitsValue(body, 10))
  {
    DigitPrefixOfDigits(body, 10);
  }

  /** Reads one optional sign and then the magnitude; no digits gives `NaN`. */
  function ReadNumber(t: string): (r: JsNum)
    ensures r != Undef
    ensures t == [] ==> r == NaN
  {
    var signed := |t| > 0 && (t[0] == '-' || t[0] == '+');
    match Magnitude(if signed then t[1..] else t)
    case None => NaN
    case Some(v) => Int(if signed && t[0] == '-' then -(v as int) else v)
  }

  /** `parseInt(s)` with no radix argument: leading white space is skipped and
      one sign is read before the magnitude; no digits gives `NaN`. */
  function ParseInt(s: string): (r: JsNum)
    ensures r != Undef
    ensures TrimStart(s) == [] ==> r == NaN
  {
    ReadNumber(TrimStart(s))
  }

  /** Reading back the decimal text of an integer gives that integer. */
  lemma ParseDecimal(n: int)
    ensures ParseInt(DecimalString(n)) == Int(n)
  {
    var s := DecimalString(n);
    var m: nat := if n < 0 then -n else n;
    var body := NatString(m);
    assert !IsTrimmable(s[0]);
    assert TrimStart(s) == s;
    if n < 0 {
      assert s[1..] == body;
    }
    MagnitudeOfDigits(body);
  }

  /** White space before a number does not change what is read. */
  lemma ParseSkipsLeadingSpace(w: string, s: string)
    requires AllTrimmable(w)
    ensures ParseInt(w + s) == ParseInt(s)
  {
    TrimStartSkips(w, s);
  }

  lemma {:induction false} TrimStartSkips(w: string, s: string)
    requires AllTrimmable(w)
    ensures TrimStart(w + s) == TrimStart(s)
    decreases |w|
  {
    if |w| > 0 {
      assert (w + s)[1..] == w[1..] + s;
      TrimStartSkips(w[1..], s);
    } else {
      assert w + s == s;
    }
  }

  /** A `0x` prefix switches to radix 16. */
  lemma ParseHexExample()
    ensures ParseInt("0x1A") == Int(26)
  {
    var t := "0x1A";
    assert !IsTrimmable(t[0]);
    assert TrimStart(t) == t;
    assert t[2..] == "1A";
    assert DigitPrefix("1A", 16) == "1A" by {
      assert "1A"[1..] == "A";
      assert "A"[1..] == "";
    }
    assert DigitsValue("1A", 16) == 26 by {
      assert "1A"[..1] == "1";
      assert "1"[..0] == "";
    }
    assert Magnitude(t) == Some(26);
  }

  /** Reading stops at the first character that is not a digit. */
  lemma ParseTrailingTextExample()
    ensures ParseInt("12px") == Int(12)
  {
    var t := "12px";
    assert !IsTrimmable(t[0]);
    assert TrimStart(t) == t;
    assert DigitPrefix(t, 10) == "12" by {
      assert t[1..] == "2px";
      assert t[1..][1..] == "px";
    }
    assert DigitsValue("12", 10) == 12 by {
      assert "12"[..1] == "1";
      assert "1"[..0] == "";
    }
    assert Magnitude(t) == Some(12);
  }

  /** Text with no digits reads as `NaN`. */
  lemma ParseNaNExample()
    ensures ParseInt("") == NaN
    ensures ParseInt("abc") == NaN
  {
    var t := "abc";
    assert !IsTrimmable(t[0]);
    assert TrimStart(t) == t;
    assert DigitPrefix(t, 10) == "";
    assert Magnitude(t) == None;
  }
}
