/** Models of the two Python conversions next_bus.py makes between
    integers and text: `int(s)` on a string (base 10) and `str(n)`. */
module PyInt {

  datatype Option<T> = None | Some(value: T)

  predicate IsDigit(c: char) {
    '0' <= c <= '9'
  }

  predicate AllDigits(s: string) {
    forall i :: 0 <= i < |s| ==> IsDigit(s[i])
  }

  /** The white space `int()` skips around its argument (ASCII only). */
  predicate IsSpace(c: char) {
    c == ' ' || c == '\t' || c == '\n' || c == '\r' || c == '\U{B}' || c == '\U{C}'
  }

  function DigitValue(c: char): (d: nat)
    requires IsDigit(c)
    ensures d < 10
  {
    c as int - '0' as int
  }

  function DigitChar(d: nat): (c: char)
    requires d < 10
    ensures IsDigit(c) && DigitValue(c) == d
  {
    ('0' as int + d) as char
  }

  /** The number a run of decimal digits denotes, most significant digit first. */
  function DigitsValue(s: string): nat
    requires AllDigits(s)
  {
    if s == [] then 0 else DigitsValue(s[..|s| - 1]) * 10 + DigitValue(s[|s| - 1])
  }

  /** The decimal digits of `n` with no leading zero ("0" for zero). */
  function NatDigits(n: nat): (s: string)
    ensures |s| >= 1 && AllDigits(s)
    ensures s[0] == '0' ==> n == 0
    ensures n == 0 ==> |s| == 1
    ensures DigitsValue(s) == n
  {
    if n < 10 then [DigitChar(n)]
    else
      var init := NatDigits(n / 10);
      var s := init + [DigitChar(n % 10)];
      assert s[..|s| - 1] == init;
      s
  }

  /** Appending one digit to a positive number's digits multiplies by ten and adds it. */
  lemma NatDigitsStep(n: nat, d: nat)
    requires n >= 1 && d < 10
    ensures NatDigits(n * 10 + d) == NatDigits(n) + [DigitChar(d)]
  {
    assert (n * 10 + d) / 10 == n && (n * 10 + d) % 10 == d;
  }

  /** Multiplying a positive number by ten appends a zero to its digits. */
  lemma NatDigitsTimesTen(n: nat)
    requires n >= 1
    ensures NatDigits(n * 10) == NatDigits(n) + "0"
  {
    NatDigitsStep(n, 0);
  }

  lemma ThreeZeros(s: string)
    ensures ((s + "0") + "0") + "0" == s + "000"
  {
    assert "000" == "0" + "0" + "0";
  }

  /** A positive number times a thousand is written as the number followed by three zeros. */
  lemma NatDigitsThousandfold(m: nat)
    requires m >= 1
    ensures NatDigits(m * 1000) == NatDigits(m) + "000"
  {
    var tens: nat := m * 10;
    var hundreds: nat := tens * 10;
    NatDigitsTimesTen(m);
    NatDigitsTimesTen(tens);
    NatDigitsTimesTen(hundreds);
    ThreeZeros(NatDigits(m));
    assert hundreds * 10 == m * 1000;
  }

  /** `str(c * 1000)` is `str(c)` with three zeros appended, for any nonzero `c`. */
  lemma FormatThousandfold(c: int)
    requires c != 0
    ensures FormatInt(c * 1000) == FormatInt(c) + "000"
  {
    if c < 0 {
      var m: nat := -c;
      var k: nat := m * 1000;
      assert -(c * 1000) == k;
      NatDigitsThousandfold(m);
      calc {
        FormatInt(c * 1000);
        "-" + NatDigits(k);
        "-" + (NatDigits(m) + "000");
        ("-" + NatDigits(m)) + "000";
        FormatInt(c) + "000";
      }
    } else {
      NatDigitsThousandfold(c);
    }
  }

  /** Python's `str(n)` for an int: a minus sign for negative numbers, then the digits. */
  function FormatInt(n: int): (s: string)
    ensures |s| >= 1
    ensures s[0] == '-' <==> n < 0
    ensures n >= 0 ==> AllDigits(s)
    ensures n < 0 ==> AllDigits(s[1..])
    ensures n >= 0 && s[0] == '0' ==> |s| == 1
    ensures n < 0 ==> |s| >= 2 && s[1] != '0'
    ensures forall i :: 0 <= i < |s| ==> !IsSpace(s[i])
  {
    if n < 0 then "-" + NatDigits(-n) else NatDigits(n)
  }

  /** `s` without its leading white space. */
  function TrimStart(s: string): (r: string)
    ensures |r| <= |s| && r == s[|s| - |r|..]
    ensures r != [] ==> !IsSpace(r[0])
  {
    if s != [] && IsSpace(s[0]) then TrimStart(s[1..]) else s
  }

  /** `s` without its trailing white space. */
  function TrimEnd(s: string): (r: string)
    ensures |r| <= |s| && r == s[..|r|]
    ensures r != [] ==> !IsSpace(r[|r| - 1])
  {
    if s != [] && IsSpace(s[|s| - 1]) then TrimEnd(s[..|s| - 1]) else s
  }

  /** The signed value of an optional sign followed by at least one digit, if `t` has that form. */
  function SignedValue(t: string): Option<int> {
    if |t| > 0 && (t[0] == '-' || t[0] == '+') then
      if |t| > 1 && AllDigits(t[1..]) then
        var magnitude: int := DigitsValue(t[1..]);
        Some(if t[0] == '-' then -magnitude else magnitude)
      else None
    else if |t| > 0 && AllDigits(t) then Some(DigitsValue(t))
    else None
  }

  /** Python's `int(s)` for a string: white space around an optionally signed
      run of decimal digits. `None` stands for the ValueError Python raises
      on anything else. A string without any digit is always rejected. */
  function ParseInt(s: string): (r: Option<int>)
    ensures r.Some? ==> exists i :: 0 <= i < |s| && IsDigit(s[i])
  {
    var t := TrimEnd(TrimStart(s));
    var r := SignedValue(t);
    if r.Some? then
      var u := TrimStart(s);
      var k := if IsDigit(t[0]) then 0 else 1;
      assert IsDigit(t[k]);
      assert t[k] == u[k];
      var i := |s| - |u| + k;
      assert 0 <= i < |s| && s[i] == u[k];
      r
    else r
  }

  /** `int(str(n)) == n` for every integer. */
  lemma FormatParseRoundTrip(n: int)
    ensures ParseInt(FormatInt(n)) == Some(n)
  {
    var s := FormatInt(n);
    assert TrimStart(s) == s;
    assert TrimEnd(s) == s;
    if n < 0 {
      assert s[1..] == NatDigits(-n);
    }
  }

  /** `int()` on a string with no white space at either end reads its sign and digits directly. */
  lemma ParseIntUntrimmed(s: string)
    requires |s| >= 1 && !IsSpace(s[0]) && !IsSpace(s[|s| - 1])
    ensures ParseInt(s) == SignedValue(s)
  {
    assert TrimStart(s) == s;
    assert TrimEnd(s) == s;
  }

  /** A run of digits, leading zeros included, parses to the number it denotes. */
  lemma ParseIntDigits(s: string)
    requires |s| >= 1 && AllDigits(s)
    ensures ParseInt(s) == Some(DigitsValue(s))
  {
    assert IsDigit(s[0]) && IsDigit(s[|s| - 1]);
    ParseIntUntrimmed(s);
  }

  /** The value of a sign followed by a run of digits. */
  lemma SignedValueOfSign(sign: char, s: string)
    requires sign == '-' || sign == '+'
    requires |s| >= 1 && AllDigits(s)
    ensures SignedValue([sign] + s) == Some(if sign == '-' then 0 - DigitsValue(s) else DigitsValue(s))
  {
    var t := [sign] + s;
    assert t[0] == sign && t[1..] == s;
  }

  /** A sign before a run of digits negates for '-' and changes nothing for '+'. */
  lemma ParseIntSigned(sign: char, s: string)
    requires sign == '-' || sign == '+'
    requires |s| >= 1 && AllDigits(s)
    ensures ParseInt([sign] + s) == Some(if sign == '-' then 0 - DigitsValue(s) else DigitsValue(s))
  {
    var t := [sign] + s;
    assert t[0] == sign && t[|t| - 1] == s[|s| - 1];
    assert IsDigit(s[|s| - 1]);
    ParseIntUntrimmed(t);
    SignedValueOfSign(sign, s);
  }

  /** A leading zero does not change the number a run of digits denotes. */
  lemma {:induction false} DigitsValueLeadingZero(s: string)
    requires AllDigits(s)
    ensures AllDigits("0" + s) && DigitsValue("0" + s) == DigitsValue(s)
  {
    if s != [] {
      var init := s[..|s| - 1];
      DigitsValueLeadingZero(init);
      assert ("0" + s)[..|"0" + s| - 1] == "0" + init;
    }
  }

  /** Trimming the front of a string that ends in white space keeps that character last. */
  lemma {:induction false} TrimStartAppend(s: string, c: char)
    requires IsSpace(c)
    ensures TrimStart(s + [c]) == (if TrimStart(s) == [] then [] else TrimStart(s) + [c])
  {
    var t := s + [c];
    if s == [] {
      assert t[1..] == [];
      assert TrimStart(t) == TrimStart([]);
    } else if IsSpace(s[0]) {
      assert t[0] == s[0] && t[1..] == s[1..] + [c];
      assert TrimStart(t) == TrimStart(s[1..] + [c]);
      assert TrimStart(s) == TrimStart(s[1..]);
      TrimStartAppend(s[1..], c);
    } else {
      assert t[0] == s[0];
      assert TrimStart(t) == t;
      assert TrimStart(s) == s;
    }
  }

  /** `int()` skips trailing white space. */
  lemma ParseIntSkipsTrailingSpace(s: string, c: char)
    requires IsSpace(c)
    ensures ParseInt(s + [c]) == ParseInt(s)
  {
    TrimStartAppend(s, c);
    var u := TrimStart(s);
    if u != [] {
      assert (u + [c])[..|u + [c]| - 1] == u;
    }
  }

  /** `int()` skips leading white space. */
  lemma ParseIntSkipsLeadingSpace(c: char, s: string)
    requires IsSpace(c)
    ensures ParseInt([c] + s) == ParseInt(s)
  {
    assert ([c] + s)[1..] == s;
  }
}
