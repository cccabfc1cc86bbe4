/** Decimal digit strings: printing, reading, padding, trimming and grouping. */
module Digits {
  predicate AllDigits(s: string) {
    forall i :: 0 <= i < |s| ==> '0' <= s[i] <= '9'
  }

  predicate IsNumeral(s: string) {
    |s| > 0 && AllDigits(s)
  }

  /** `n` times ten to the `k`. */
  function Shift(n: nat, k: nat): (r: nat)
    ensures r >= n
  {
    if k == 0 then n else 10 * Shift(n, k - 1)
  }

  /** Quotient and remainder of `n` by ten to the `k`. */
  function Divide(n: nat, k: nat): (qr: (nat, nat))
    ensures n == Shift(qr.0, k) + qr.1 && qr.1 < Shift(1, k)
    decreases k
  {
    if k == 0 then (n, 0)
    else
      var upper := Divide(n / 10, k - 1);
      (upper.0, 10 * upper.1 + n % 10)
  }

  lemma {:induction false} ShiftAdds(a: nat, b: nat, k: nat)
    ensures Shift(a + b, k) == Shift(a, k) + Shift(b, k)
  {
    if k > 0 {
      ShiftAdds(a, b, k - 1);
    }
  }

  lemma {:induction false} ShiftTwice(n: nat, j: nat, k: nat)
    ensures Shift(Shift(n, j), k) == Shift(n, j + k)
  {
    if k > 0 {
      ShiftTwice(n, j, k - 1);
    }
  }

  lemma {:induction false} ShiftZero(k: nat)
    ensures Shift(0, k) == 0
  {
    if k > 0 {
      ShiftZero(k - 1);
    }
  }

  /** A larger number stays larger by at least a unit of the new scale. */
  lemma {:induction false} ShiftOrders(a: nat, b: nat, k: nat)
    requires a < b
    ensures Shift(a, k) + Shift(1, k) <= Shift(b, k)
  {
    ShiftAdds(a, 1, k);
    ShiftAdds(a + 1, b - a - 1, k);
  }

  lemma {:induction false} DivideIsUnique(q: nat, r: nat, q': nat, r': nat, k: nat)
    requires r < Shift(1, k) && r' < Shift(1, k)
    requires Shift(q, k) + r == Shift(q', k) + r'
    ensures q == q' && r == r'
  {
    if q < q' {
      ShiftOrders(q, q', k);
    } else if q' < q {
      ShiftOrders(q', q, k);
    }
  }

  /** The number a digit string denotes; leading zeros add nothing. */
  function Parse(s: string): (n: nat)
    requires AllDigits(s)
  {
    if s == "" then 0 else Parse(s[..|s| - 1]) * 10 + (s[|s| - 1] as int - '0' as int)
  }

  /** Decimal form of a number: digits only and no leading zero. */
  function Print(n: nat): (s: string)
    ensures IsNumeral(s)
    ensures |s| > 1 ==> s[0] != '0'
    ensures s[0] == '0' <==> n == 0
  {
    if n < 10 then ['0' + n as char] else Print(n / 10) + ['0' + (n % 10) as char]
  }

  function Zeros(n: nat): (s: string)
    ensures |s| == n && forall i :: 0 <= i < n ==> s[i] == '0'
  {
    if n == 0 then "" else "0" + Zeros(n - 1)
  }

  function PadStart(s: string, width: nat): (r: string)
    ensures |r| == if |s| < width then width else |s|
  {
    if |s| < width then Zeros(width - |s|) + s else s
  }

  function PadEnd(s: string, width: nat): (r: string)
    ensures |r| == if |s| < width then width else |s|
  {
    if s == "" then Zeros(width)
    else if |s| < width then s + Zeros(width - |s|)
    else s
  }

  /** Drops the trailing zeros, all of them and nothing else. */
  function TrimEnd(s: string): (r: string)
    ensures |r| <= |s|
    ensures r != "" ==> r[|r| - 1] != '0'
  {
    if s != "" && s[|s| - 1] == '0' then TrimEnd(s[..|s| - 1]) else s
  }

  /** The source's arithmetic: its power of ten, and truncating division and remainder by it. */
  function Pow10(k: nat): (p: nat)
    ensures p > 0
  {
    if k == 0 then 1 else 10 * Pow10(k - 1)
  }

  lemma {:induction false} ShiftIsTimes(n: nat, k: nat)
    ensures Shift(n, k) == n * Pow10(k)
  {
    if k > 0 {
      ShiftIsTimes(n, k - 1);
      assert n * (10 * Pow10(k - 1)) == 10 * (n * Pow10(k - 1));
    }
  }

  lemma {:induction false} DivideIsDivision(n: nat, k: nat)
    ensures Divide(n, k) == (n / Pow10(k), n % Pow10(k))
  {
    var base := Pow10(k);
    DivMod(n, base);
    ShiftIsTimes(n / base, k);
    ShiftIsTimes(1, k);
    var qr := Divide(n, k);
    DivideIsUnique(qr.0, qr.1, n / base, n % base, k);
  }

  lemma {:induction false} DivMod(n: nat, base: nat)
    requires base > 0
    ensures n / base >= 0 && 0 <= n % base < base && n == (n / base) * base + n % base
  {
  }

  /** A comma before every third digit counted from the right. */
  function Group(s: string): (r: string)
  {
    if |s| <= 3 then s else Group(s[..|s| - 3]) + "," + s[|s| - 3..]
  }

  function WithoutCommas(s: string): (r: string)
  {
    if s == "" then ""
    else if s[|s| - 1] == ',' then WithoutCommas(s[..|s| - 1])
    else WithoutCommas(s[..|s| - 1]) + [s[|s| - 1]]
  }

  lemma {:induction false} ParsePrint(n: nat)
    ensures Parse(Print(n)) == n
  {
    if n >= 10 {
      ParsePrint(n / 10);
      assert Print(n)[..|Print(n)| - 1] == Print(n / 10);
    }
  }

  lemma {:induction false} PrintFits(n: nat, width: nat)
    requires n < Shift(1, width) && width > 0
    ensures |Print(n)| <= width
  {
    if n >= 10 {
      PrintFits(n / 10, width - 1);
    }
  }

  lemma {:induction false} ParseConcat(a: string, b: string)
    requires AllDigits(a) && AllDigits(b)
    ensures AllDigits(a + b)
    ensures Parse(a + b) == Shift(Parse(a), |b|) + Parse(b)
  {
    if b == "" {
      assert a + b == a;
    } else {
      ParseConcat(a, b[..|b| - 1]);
      assert (a + b)[..|a + b| - 1] == a + b[..|b| - 1];
    }
  }

  lemma {:induction false} ParseZeros(n: nat)
    ensures Parse(Zeros(n)) == 0
  {
    if n > 0 {
      ParseZeros(n - 1);
      assert Zeros(n)[..n - 1] == Zeros(n - 1);
    }
  }

  lemma {:induction false} ParsePadStart(s: string, width: nat)
    requires AllDigits(s)
    ensures AllDigits(PadStart(s, width)) && Parse(PadStart(s, width)) == Parse(s)
  {
    if |s| < width {
      ParseZeros(width - |s|);
      ParseConcat(Zeros(width - |s|), s);
      ShiftZero(|s|);
    }
  }

  /** Zeros appended scale the number by a power of ten. */
  lemma {:induction false} ParseThenZeros(s: string, n: nat)
    requires AllDigits(s)
    ensures AllDigits(s + Zeros(n)) && Parse(s + Zeros(n)) == Shift(Parse(s), n)
  {
    ParseZeros(n);
    ParseConcat(s, Zeros(n));
  }

  lemma {:induction false} TrimEndDropsZeros(s: string)
    ensures s == TrimEnd(s) + Zeros(|s| - |TrimEnd(s)|)
  {
    if s != "" && s[|s| - 1] == '0' {
      TrimEndDropsZeros(s[..|s| - 1]);
      assert s == s[..|s| - 1] + "0";
    }
  }

  lemma {:induction false} ParseBound(s: string)
    requires AllDigits(s)
    ensures Parse(s) < Shift(1, |s|)
  {
    if s != "" {
      ParseBound(s[..|s| - 1]);
    }
  }

  /** Digit strings of one length that denote one number are the same string. */
  lemma {:induction false} ParseInjective(a: string, b: string)
    requires AllDigits(a) && AllDigits(b) && |a| == |b|
    requires Parse(a) == Parse(b)
    ensures a == b
  {
    if a != "" {
      var k := |a| - 1;
      ParseInjective(a[..k], b[..k]);
      assert a == a[..k] + [a[k]] && b == b[..k] + [b[k]];
    }
  }

  /** A numeral without leading zeros is the printed form of its number. */
  lemma {:induction false} PrintParse(s: string)
    requires IsNumeral(s) && (|s| > 1 ==> s[0] != '0')
    ensures Print(Parse(s)) == s
  {
    var k := |s| - 1;
    if k > 0 {
      PrintParse(s[..k]);
      var digit := s[k] as int - '0' as int;
      var front := Parse(s[..k]);
      assert Parse(s) == front * 10 + digit;
      assert Print(Parse(s)) == Print(front) + ['0' + digit as char];
    } else {
      assert s[..0] == "";
    }
  }

  /** Grouping inserts commas and changes nothing else. */
  lemma {:induction false} UngroupGroup(s: string)
    requires AllDigits(s)
    ensures WithoutCommas(Group(s)) == s
  {
    if |s| <= 3 {
      WithoutCommasOnDigits(s);
    } else {
      var front, back := s[..|s| - 3], s[|s| - 3..];
      UngroupGroup(front);
      WithoutCommasOnDigits(back);
      WithoutCommasConcat(Group(front) + ",", back);
      WithoutCommasConcat(Group(front), ",");
      assert WithoutCommas(",") == "" by {
        assert ","[..0] == "";
      }
      assert Group(s) == (Group(front) + ",") + back;
    }
  }

  lemma {:induction false} WithoutCommasOnDigits(s: string)
    requires ',' !in s
    ensures WithoutCommas(s) == s
  {
    if s != "" {
      WithoutCommasOnDigits(s[..|s| - 1]);
    }
  }

  lemma {:induction false} WithoutCommasConcat(a: string, b: string)
    ensures WithoutCommas(a + b) == WithoutCommas(a) + WithoutCommas(b)
  {
    if b == "" {
      assert a + b == a;
    } else {
      WithoutCommasConcat(a, b[..|b| - 1]);
      assert (a + b)[..|a + b| - 1] == a + b[..|b| - 1];
    }
  }

  /** In a grouped number every fourth character from the right is a comma and no other one is. */
  lemma {:induction false} GroupPositions(s: string, k: nat)
    requires IsNumeral(s) && k < |Group(s)|
    ensures Group(s)[|Group(s)| - 1 - k] == ',' <==> k % 4 == 3
  {
    if |s| > 3 {
      var front := Group(s[..|s| - 3]);
      if k >= 4 {
        assert Group(s)[|Group(s)| - 1 - k] == front[|front| - 1 - (k - 4)];
        GroupPositions(s[..|s| - 3], k - 4);
      }
    }
  }
}
