/**
 * Decimal text: the number parser behind `pd.to_numeric(..., errors='coerce')`,
 * the decimal rendering of naturals, and the thousands-separated rendering
 * that Python's `{:,}` format gives an integer amount.
 */
module Numeric {
  import opened Tables

  predicate IsDigit(c: char)
  {
    '0' <= c <= '9'
  }

  predicate AllDigits(s: string)
  {
    forall i :: 0 <= i < |s| ==> IsDigit(s[i])
  }

  function Digit(d: nat): (c: char)
    requires d < 10
    ensures IsDigit(c)
  {
    (('0' as int) + d) as char
  }

  /** The value of a run of decimal digits, most significant first. */
  function DigitsValue(s: string): nat
    requires AllDigits(s)
  {
    if s == [] then 0 else DigitsValue(s[..|s| - 1]) * 10 + ((s[|s| - 1] as int) - ('0' as int))
  }

  function Pow10(n: nat): (p: nat)
    ensures p > 0
  {
    if n == 0 then 1 else 10 * Pow10(n - 1)
  }

  /** The position of the first decimal point, or |s| when there is none. */
  function IndexOfPoint(s: string): (k: nat)
    ensures k <= |s|
    ensures k < |s| ==> s[k] == '.'
    ensures forall i :: 0 <= i < k ==> s[i] != '.'
  {
    if s == [] then 0
    else if s[0] == '.' then 0
    else 1 + IndexOfPoint(s[1..])
  }

  /** An unsigned decimal: digits, optionally a point and more digits, at least one digit. */
  function ParseUnsigned(s: string): (r: Option<real>)
    ensures r.Some? ==> forall i :: 0 <= i < |s| ==> IsDigit(s[i]) || s[i] == '.'
    ensures r.Some? ==> r.value >= 0.0
  {
    var k := IndexOfPoint(s);
    var whole := s[..k];
    var frac := if k < |s| then s[k + 1..] else "";
    if AllDigits(whole) && AllDigits(frac) && |whole| + |frac| > 0 then
      assert forall i :: k < i < |s| ==> s[i] == frac[i - k - 1];
      Some(DigitsValue(whole) as real + DigitsValue(frac) as real / Pow10(|frac|) as real)
    else
      None
  }

  /**
   * The numbers `pd.to_numeric` reads from text: an optional sign and an
   * unsigned decimal. Anything else is unparsable and becomes missing.
   */
  function ParseDecimal(s: string): (r: Option<real>)
    ensures r.Some? ==> forall i :: 0 <= i < |s| ==> IsDigit(s[i]) || s[i] in "+-."
  {
    if |s| > 0 && s[0] == '-' then
      match ParseUnsigned(s[1..])
      case Some(x) => Some(-x)
      case None => None
    else if |s| > 0 && s[0] == '+' then
      ParseUnsigned(s[1..])
    else
      ParseUnsigned(s)
  }

  /** `str(n)` for a natural number. */
  function NatToString(n: nat): (s: string)
    ensures |s| > 0 && AllDigits(s)
    ensures DigitsValue(s) == n
    ensures s[0] == '0' ==> n == 0
  {
    if n < 10 then [Digit(n)]
    else
      var init := NatToString(n / 10);
      var s := init + [Digit(n % 10)];
      assert s[..|s| - 1] == init;
      s
  }

  /** Reading back the rendering of a natural number gives the number. */
  lemma ParseNatToString(n: nat)
    ensures ParseDecimal(NatToString(n)) == Some(n as real)
  {
    var s := NatToString(n);
    assert IndexOfPoint(s) == |s| by {
      IndexOfPointDigits(s);
    }
    assert s[..|s|] == s;
  }

  lemma {:induction false} IndexOfPointDigits(s: string)
    requires AllDigits(s)
    ensures IndexOfPoint(s) == |s|
  {
    if s != [] {
      IndexOfPointDigits(s[1..]);
    }
  }

  /** `s.replace(c, '')`: every occurrence of `c` removed, the rest kept in order. */
  function RemoveChar(s: string, c: char): (r: string)
    ensures c !in r
    ensures forall x :: x in r <==> x in s && x != c
    ensures c !in s ==> r == s
  {
    if s == [] then ""
    else (if s[0] == c then "" else [s[0]]) + RemoveChar(s[1..], c)
  }

  /** Keeps every character other than `c`. */
  function Other(c: char): char -> bool
  {
    x => x != c
  }

  /** Removing a character is filtering the string by "not that character": order is kept. */
  lemma {:induction false} RemoveCharFilter(s: string, c: char)
    ensures RemoveChar(s, c) == Filter(s, Other(c))
  {
    if s != [] {
      RemoveCharFilter(s[1..], c);
    }
  }

  lemma {:induction false} RemoveCharAppend(a: string, b: string, c: char)
    ensures RemoveChar(a + b, c) == RemoveChar(a, c) + RemoveChar(b, c)
  {
    if a == [] {
      assert a + b == b;
    } else {
      assert (a + b)[1..] == a[1..] + b;
      RemoveCharAppend(a[1..], b, c);
    }
  }

  /** Three digits with leading zeros: one group of a thousands-separated number. */
  function Group3(r: nat): (s: string)
    requires r < 1000
    ensures |s| == 3 && AllDigits(s)
  {
    [Digit(r / 100), Digit((r / 10) % 10), Digit(r % 10)]
  }

  /** Python's `f"{n:,}"` for a natural number: groups of three digits separated by commas. */
  function FormatThousands(n: nat): (s: string)
    ensures |s| > 0
  {
    if n < 1000 then NatToString(n)
    else FormatThousands(n / 1000) + "," + Group3(n % 1000)
  }

  /** The last three digits of a number of four or more digits form its last group. */
  lemma NatToStringSplit(n: nat)
    requires n >= 1000
    ensures NatToString(n) == NatToString(n / 1000) + Group3(n % 1000)
  {
    var n1 := n / 10;
    var n2 := n1 / 10;
    var n3 := n2 / 10;
    var c, b, a := n % 10, n1 % 10, n2 % 10;
    DivMod1000(n, n3, 100 * a + 10 * b + c);
    Group3Digits(a, b, c);
    calc {
      NatToString(n);
      NatToString(n1) + [Digit(c)];
      (NatToString(n2) + [Digit(b)]) + [Digit(c)];
      ((NatToString(n3) + [Digit(a)]) + [Digit(b)]) + [Digit(c)];
      NatToString(n3) + [Digit(a), Digit(b), Digit(c)];
    }
  }

  /** Peeling three decimal digits off a number is dividing it by 1000. */
  lemma DivMod1000(n: nat, q: nat, r: nat)
    requires r < 1000 && q == ((n / 10) / 10) / 10
    requires r == 100 * (((n / 10) / 10) % 10) + 10 * ((n / 10) % 10) + n % 10
    ensures n / 1000 == q && n % 1000 == r
  {
    assert n == 1000 * q + r;
  }

  lemma Group3Digits(a: nat, b: nat, c: nat)
    requires a < 10 && b < 10 && c < 10
    ensures Group3(100 * a + 10 * b + c) == [Digit(a), Digit(b), Digit(c)]
  {
    var r := 100 * a + 10 * b + c;
    assert r / 100 == a;
    assert r / 10 == 10 * a + b;
    assert r % 10 == c;
  }

  /** Dropping the commas from `f,g` when `g` has none. */
  lemma RemoveCommaGroup(f: string, g: string)
    requires AllDigits(g)
    ensures RemoveChar(f + "," + g, ',') == RemoveChar(f, ',') + g
  {
    assert ',' !in g by {
      assert forall i :: 0 <= i < |g| ==> g[i] != ',';
    }
    assert RemoveChar(",", ',') == "";
    RemoveCharAppend(f, ",", ',');
    assert RemoveChar(f + ",", ',') == RemoveChar(f, ',');
    RemoveCharAppend(f + ",", g, ',');
  }

  /** Dropping the separators from `{:,}` gives the plain rendering back. */
  lemma {:induction false} StripThousands(n: nat)
    ensures RemoveChar(FormatThousands(n), ',') == NatToString(n)
  {
    if n >= 1000 {
      StripThousands(n / 1000);
      RemoveCommaGroup(FormatThousands(n / 1000), Group3(n % 1000));
      NatToStringSplit(n);
    } else {
      var s := NatToString(n);
      assert ',' !in s by {
        assert forall i :: 0 <= i < |s| ==> s[i] != ',';
      }
    }
  }
}
