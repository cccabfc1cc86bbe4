/** apps/backoffice/src/lib/amount.ts: base-unit integers printed as decimal amounts. */
module Amount {
  import opened Wrappers
  import opened Digits

  datatype Rounding = HalfUp | Trunc

  datatype Options = Options(symbol: string, group: bool, rounding: Rounding)

  /** A decimal text taken apart: its sign, the digits before the dot and those after it. */
  datatype Decimal = Decimal(negative: bool, whole: string, fraction: string)

  predicate Negative(s: string) {
    s != "" && s[0] == '-'
  }

  function Unsigned(s: string): (u: string) {
    if Negative(s) then s[1..] else s
  }

  function Signed(negative: bool, m: nat): (v: int) {
    if negative then -(m as int) else m
  }

  /** What the function accepts: an optional minus and at least one digit, leading zeros allowed. */
  predicate WellFormed(raw: string) {
    IsNumeral(Unsigned(raw))
  }

  function Magnitude(raw: string): (m: nat)
    requires WellFormed(raw)
  {
    Parse(Unsigned(raw))
  }

  function Value(raw: string): (v: int)
    requires WellFormed(raw)
  {
    Signed(Negative(raw), Magnitude(raw))
  }

  // `magnitude` without its last `drop` digits, rounded.
  function Reduce(magnitude: nat, drop: nat, rounding: Rounding): (m: nat) {
    var (quotient, remainder) := Divide(magnitude, drop);
    if rounding.Trunc? then quotient
    else if remainder * 2 >= Shift(1, drop) then quotient + 1 else quotient
  }

  predicate Reduces(decimals: int, displayDecimals: Option<int>) {
    displayDecimals.Some? && displayDecimals.value < decimals
  }

  function Scale(decimals: int, displayDecimals: Option<int>): (s: int) {
    if Reduces(decimals, displayDecimals) then displayDecimals.value else decimals
  }

  function Shown(raw: string, decimals: int, displayDecimals: Option<int>, rounding: Rounding): (m: nat)
    requires WellFormed(raw)
  {
    if Reduces(decimals, displayDecimals)
    then Reduce(Magnitude(raw), decimals - displayDecimals.value, rounding)
    else Magnitude(raw)
  }

  // The digits of `rest` over `scale` decimals.
  function ScaledDigits(rest: nat, scale: nat): (f: string) {
    if scale > 0 then PadStart(Print(rest), scale) else ""
  }

  function FractionDigits(rest: nat, scale: nat, displayDecimals: Option<int>): (f: string) {
    var digits := ScaledDigits(rest, scale);
    if displayDecimals.None? then TrimEnd(digits)
    else if displayDecimals.value > scale then PadEnd(digits, displayDecimals.value)
    else digits
  }

  function Parts(negative: bool, magnitude: nat, scale: nat, displayDecimals: Option<int>): (d: Decimal) {
    var (whole, rest) := Divide(magnitude, scale);
    Decimal(negative && magnitude != 0, Print(whole), FractionDigits(rest, scale, displayDecimals))
  }

  function Layout(d: Decimal): (t: string) {
    var body := if d.fraction == "" then d.whole else d.whole + "." + d.fraction;
    if d.negative then "-" + body else body
  }

  function Decorate(d: Decimal, opts: Options): (t: string) {
    var signed := Layout(if opts.group then d.(whole := Group(d.whole)) else d);
    if opts.symbol == "" then signed else signed + " " + opts.symbol
  }

  /** Fails exactly on malformed text or when a negative number of digits is asked for. */
  function FormatStroops(raw: string, decimals: int, displayDecimals: Option<int>, opts: Options): (r: Reply<string>)
    ensures r.Failure? <==> !WellFormed(raw) || decimals < 0 || (displayDecimals.Some? && displayDecimals.value < 0)
  {
    if !WellFormed(raw) then Failure("NON_INTEGER_INPUT")
    else if Scale(decimals, displayDecimals) < 0 then Failure("NEGATIVE_EXPONENT")
    else
      var magnitude := Shown(raw, decimals, displayDecimals, opts.rounding);
      Success(Decorate(Parts(Negative(raw), magnitude, Scale(decimals, displayDecimals), displayDecimals), opts))
  }

  function Plain(rounding: Rounding): (opts: Options) {
    Options("", false, rounding)
  }

  // ---- Reading an amount back ------------------------------------------------------------------------

  predicate WellPrinted(d: Decimal) {
    IsNumeral(d.whole) && AllDigits(d.fraction)
  }

  // A whole part and the digits after the dot, as a number of units of the last of `places` decimals.
  function Units(whole: string, fraction: string, places: nat): (m: nat)
    requires AllDigits(whole) && AllDigits(fraction) && |fraction| <= places
  {
    Shift(Parse(whole), places) + Shift(Parse(fraction), places - |fraction|)
  }

  /** The text `t` reads as the number `v` divided by ten to the `places`. */
  ghost predicate Reads(t: string, v: int, places: nat) {
    exists d :: t == Layout(d) && Denotes(d, v, places)
  }

  predicate Denotes(d: Decimal, v: int, places: nat) {
    WellPrinted(d) && |d.fraction| <= places && v == Signed(d.negative, Units(d.whole, d.fraction, places))
  }

  predicate CanonicalDigits(whole: string, fraction: string) {
    && IsNumeral(whole) && (|whole| > 1 ==> whole[0] != '0')
    && AllDigits(fraction) && (fraction != "" ==> fraction[|fraction| - 1] != '0')
  }

  /** One way to write each number: no leading zero, no trailing zero after the dot, no minus on zero. */
  predicate CanonicalParts(d: Decimal) {
    CanonicalDigits(d.whole, d.fraction) && (d.negative ==> Parse(d.whole) != 0 || Parse(d.fraction) != 0)
  }

  ghost predicate Canonical(t: string) {
    exists d :: t == Layout(d) && CanonicalParts(d)
  }

  /** A text can be taken apart in one way only. */
  lemma {:induction false} LayoutInjective(d: Decimal, d': Decimal)
    requires WellPrinted(d) && WellPrinted(d') && Layout(d) == Layout(d')
    ensures d == d'
  {
    SameNegative(d, d');
    WholeNotLonger(d, d');
    WholeNotLonger(d', d);
    SameDigits(d, d');
  }

  lemma {:induction false} SameNegative(d: Decimal, d': Decimal)
    requires WellPrinted(d) && WellPrinted(d') && Layout(d) == Layout(d')
    ensures d.negative == d'.negative
  {
    assert Layout(d)[0] == if d.negative then '-' else d.whole[0];
    assert Layout(d')[0] == if d'.negative then '-' else d'.whole[0];
  }

  // The dot of `d` stands where `d'` would have a digit, were its whole part longer.
  lemma {:induction false} WholeNotLonger(d: Decimal, d': Decimal)
    requires WellPrinted(d) && WellPrinted(d') && Layout(d) == Layout(d') && d.negative == d'.negative
    ensures |d.whole| <= |d'.whole|
  {
    CharacterAt(d);
    CharacterAt(d');
  }

  lemma {:induction false} SameDigits(d: Decimal, d': Decimal)
    requires Layout(d) == Layout(d') && d.negative == d'.negative && |d.whole| == |d'.whole|
    ensures d.whole == d'.whole && d.fraction == d'.fraction
  {
    var body, body' := Layout(d.(negative := false)), Layout(d'.(negative := false));
    if d.negative {
      SameTail("-", body, "-", body');
    }
    assert |body| == |body'|;
    if d.fraction != "" {
      SameTail(d.whole + ".", d.fraction, d'.whole + ".", d'.fraction);
      SameTail(d.whole, ".", d'.whole, ".");
    }
  }

  lemma {:induction false} SameTail(a: string, b: string, a': string, b': string)
    requires a + b == a' + b' && |a| == |a'|
    ensures a == a' && b == b'
  {
    assert (a + b)[..|a|] == a && (a' + b')[..|a|] == a';
    assert (a + b)[|a|..] == b && (a' + b')[|a|..] == b';
  }

  // Where each character of a text comes from.
  lemma {:induction false} CharacterAt(d: Decimal)
    ensures var t := Layout(d);
            var start := if d.negative then 1 else 0;
            var dot := start + |d.whole|;
            && |t| == dot + (if d.fraction == "" then 0 else 1 + |d.fraction|)
            && (forall i :: 0 <= i < |d.whole| ==> t[start + i] == d.whole[i])
            && (d.fraction != "" ==> t[dot] == '.')
            && (forall i :: 0 <= i < |d.fraction| ==> t[dot + 1 + i] == d.fraction[i])
  {
  }

  /** So a text reads as at most one number. */
  lemma {:induction false} ReadsOnce(t: string, v: int, v': int, places: nat)
    requires Reads(t, v, places) && Reads(t, v', places)
    ensures v == v'
  {
    var d :| t == Layout(d) && Denotes(d, v, places);
    var d' :| t == Layout(d') && Denotes(d', v', places);
    LayoutInjective(d, d');
  }

  function Places(scale: nat, displayDecimals: Option<int>): (p: nat)
    requires displayDecimals.Some? ==> scale <= displayDecimals.value
  {
    if displayDecimals.None? then scale else displayDecimals.value
  }

  lemma {:induction false} ScaledValue(rest: nat, scale: nat)
    requires rest < Shift(1, scale)
    ensures var f := ScaledDigits(rest, scale); |f| == scale && AllDigits(f) && Parse(f) == rest
  {
    if scale > 0 {
      PrintFits(rest, scale);
      ParsePrint(rest);
      ParsePadStart(Print(rest), scale);
    }
  }

  // `f` is a way to write `rest` over `scale` decimals, to `places` of them.
  predicate Writes(f: string, rest: nat, scale: nat, places: nat)
    requires scale <= places
  {
    AllDigits(f) && |f| <= places && Shift(Parse(f), places - |f|) == Shift(rest, places - scale)
  }

  lemma {:induction false} TrimmedValue(digits: string)
    requires AllDigits(digits)
    ensures Writes(TrimEnd(digits), Parse(digits), |digits|, |digits|)
  {
    var f := TrimEnd(digits);
    TrimEndDropsZeros(digits);
    assert forall i :: 0 <= i < |f| ==> f[i] == digits[i];
    ParseThenZeros(f, |digits| - |f|);
  }

  lemma {:induction false} PaddedFraction(digits: string, width: nat)
    requires AllDigits(digits) && |digits| <= width
    ensures Writes(PadEnd(digits, width), Parse(digits), |digits|, width)
  {
    if digits == "" {
      ParseZeros(width);
      ShiftZero(width);
    } else if |digits| < width {
      ParseThenZeros(digits, width - |digits|);
    }
  }

  lemma {:induction false} FractionValue(rest: nat, scale: nat, displayDecimals: Option<int>)
    requires rest < Shift(1, scale)
    requires displayDecimals.Some? ==> scale <= displayDecimals.value
    ensures var f := FractionDigits(rest, scale, displayDecimals);
            && Writes(f, rest, scale, Places(scale, displayDecimals))
            && (displayDecimals.Some? ==> |f| == displayDecimals.value)
            && (displayDecimals.None? && f != "" ==> f[|f| - 1] != '0')
  {
    ScaledValue(rest, scale);
    var digits := ScaledDigits(rest, scale);
    if displayDecimals.None? {
      TrimmedValue(digits);
    } else {
      PaddedFraction(digits, displayDecimals.value);
    }
  }

  lemma {:induction false} DecimalDenotes(d: Decimal, m: nat, whole: nat, rest: nat, scale: nat, places: nat)
    requires d.whole == Print(whole) && scale <= places && Writes(d.fraction, rest, scale, places)
    requires m == Shift(whole, scale) + rest
    ensures Denotes(d, Signed(d.negative, Shift(m, places - scale)), places)
  {
    ParsePrint(whole);
    ShiftTwice(whole, scale, places - scale);
    ShiftAdds(Shift(whole, scale), rest, places - scale);
  }

  /** The parts of a magnitude at a scale denote that magnitude. */
  lemma {:induction false} PartsDenote(negative: bool, m: nat, scale: nat, displayDecimals: Option<int>)
    requires displayDecimals.Some? ==> scale <= displayDecimals.value
    ensures var d := Parts(negative, m, scale, displayDecimals);
            var places := Places(scale, displayDecimals);
            && Denotes(d, Signed(d.negative, Shift(m, places - scale)), places)
            && (displayDecimals.Some? ==> |d.fraction| == places)
  {
    var (whole, rest) := Divide(m, scale);
    var d := Parts(negative, m, scale, displayDecimals);
    FractionValue(rest, scale, displayDecimals);
    DecimalDenotes(d, m, whole, rest, scale, Places(scale, displayDecimals));
  }

  lemma {:induction false} FullPartsAreCanonical(negative: bool, m: nat, scale: nat)
    ensures CanonicalParts(Parts(negative, m, scale, None))
  {
    var (whole, rest) := Divide(m, scale);
    FractionValue(rest, scale, None);
    var d := Parts(negative, m, scale, None);
    PartsDenote(negative, m, scale, None);
    NonzeroParts(d.whole, d.fraction, scale);
  }

  /** At full precision the text read back and scaled by the decimals is the input, and it is canonical. */
  lemma {:induction false} ExactReadBack(raw: string, decimals: nat, rounding: Rounding)
    requires WellFormed(raw)
    ensures var t := FormatStroops(raw, decimals, None, Plain(rounding)).value;
            Reads(t, Value(raw), decimals) && Canonical(t)
  {
    var d := Parts(Negative(raw), Magnitude(raw), decimals, None);
    PartsDenote(Negative(raw), Magnitude(raw), decimals, None);
    FullPartsAreCanonical(Negative(raw), Magnitude(raw), decimals);
    assert FormatStroops(raw, decimals, None, Plain(rounding)).value == Layout(d);
  }

  lemma {:induction false} NonzeroParts(whole: string, fraction: string, places: nat)
    requires AllDigits(whole) && AllDigits(fraction) && |fraction| <= places
    ensures Units(whole, fraction, places) == 0 <==> Parse(whole) == 0 && Parse(fraction) == 0
  {
    ShiftZero(places);
    ShiftZero(places - |fraction|);
  }

  /** A number has one canonical text. */
  lemma {:induction false} CanonicalIsUnique(s: string, t: string, v: int, places: nat)
    requires Canonical(s) && Canonical(t) && Reads(s, v, places) && Reads(t, v, places)
    ensures s == t
  {
    var d := CanonicalDenotes(s, v, places);
    var d' := CanonicalDenotes(t, v, places);
    NonzeroParts(d.whole, d.fraction, places);
    NonzeroParts(d'.whole, d'.fraction, places);
    DigitsAreUnique(d.whole, d.fraction, d'.whole, d'.fraction, places);
  }

  lemma {:induction false} CanonicalDenotes(t: string, v: int, places: nat) returns (d: Decimal)
    requires Canonical(t) && Reads(t, v, places)
    ensures t == Layout(d) && CanonicalParts(d) && Denotes(d, v, places)
  {
    d :| t == Layout(d) && CanonicalParts(d);
    var d' :| t == Layout(d') && Denotes(d', v, places);
    LayoutInjective(d, d');
  }

  lemma {:induction false} DigitsAreUnique(w: string, f: string, w': string, f': string, places: nat)
    requires CanonicalDigits(w, f) && CanonicalDigits(w', f') && |f| <= places && |f'| <= places
    requires Units(w, f, places) == Units(w', f', places)
    ensures w == w' && f == f'
  {
    var long, long' := f + Zeros(places - |f|), f' + Zeros(places - |f'|);
    LongForm(w, f, places);
    LongForm(w', f', places);
    DivideIsUnique(Parse(w), Parse(long), Parse(w'), Parse(long'), places);
    ParseInjective(long, long');
    TrimmedIsUnique(f, f', places);
    assert w == w' by {
      PrintParse(w);
      PrintParse(w');
    }
  }

  lemma {:induction false} LongForm(w: string, f: string, places: nat)
    requires AllDigits(w) && AllDigits(f) && |f| <= places
    ensures var long := f + Zeros(places - |f|);
            && AllDigits(long) && |long| == places && Parse(long) < Shift(1, places)
            && Units(w, f, places) == Shift(Parse(w), places) + Parse(long)
  {
    ParseThenZeros(f, places - |f|);
    ParseBound(f + Zeros(places - |f|));
  }

  lemma {:induction false} TrimmedIsUnique(f: string, f': string, places: nat)
    requires |f| <= places && |f'| <= places
    requires f + Zeros(places - |f|) == f' + Zeros(places - |f'|)
    requires (f != "" ==> f[|f| - 1] != '0') && (f' != "" ==> f'[|f'| - 1] != '0')
    ensures f == f'
  {
    var long, long' := f + Zeros(places - |f|), f' + Zeros(places - |f'|);
    assert f' != "" ==> long'[|f'| - 1] == f'[|f'| - 1];
    assert f != "" ==> long[|f| - 1] == f[|f| - 1];
    assert f == long[..|f|] && f' == long'[..|f'|];
  }

  /** Two inputs print the same at full precision exactly when they are the same number. */
  lemma {:induction false} SameTextSameValue(raw: string, raw': string, decimals: nat, rounding: Rounding)
    requires WellFormed(raw) && WellFormed(raw')
    ensures FormatStroops(raw, decimals, None, Plain(rounding)) == FormatStroops(raw', decimals, None, Plain(rounding)) <==>
            Value(raw) == Value(raw')
  {
    var t := FormatStroops(raw, decimals, None, Plain(rounding)).value;
    var t' := FormatStroops(raw', decimals, None, Plain(rounding)).value;
    ExactReadBack(raw, decimals, rounding);
    ExactReadBack(raw', decimals, rounding);
    if Value(raw) == Value(raw') {
      CanonicalIsUnique(t, t', Value(raw), decimals);
    } else if t == t' {
      ReadsOnce(t, Value(raw), Value(raw'), decimals);
    }
  }

  function Abs(x: int): (r: nat) {
    if x < 0 then -x else x
  }

  /** Trunc drops less than a unit; half-up lands within half a unit, a tie going up. */
  predicate Rounded(shown: nat, exact: nat, drop: nat, rounding: Rounding) {
    var unit := Shift(1, drop);
    match rounding
    case Trunc => Shift(shown, drop) <= exact < Shift(shown, drop) + unit
    case HalfUp => 2 * Shift(shown, drop) - unit <= 2 * exact < 2 * Shift(shown, drop) + unit
  }

  lemma {:induction false} ReduceRounds(m: nat, drop: nat, rounding: Rounding)
    ensures Rounded(Reduce(m, drop, rounding), m, drop, rounding)
  {
    var (quotient, remainder) := Divide(m, drop);
    ShiftAdds(quotient, 1, drop);
  }

  /** `d` is the number `v` with exactly `display` digits after the dot, and a minus only before a nonzero number. */
  predicate ShowsExactly(d: Decimal, v: int, display: nat) {
    Denotes(d, v, display) && |d.fraction| == display && (d.negative <==> v < 0)
  }

  lemma {:induction false} ShowsMagnitude(negative: bool, m: nat, scale: nat, display: nat)
    requires scale <= display
    ensures ShowsExactly(Parts(negative, m, scale, Some(display)), Signed(negative, Shift(m, display - scale)), display)
  {
    ShiftZero(display - scale);
    PartsDenote(negative, m, scale, Some(display));
  }

  /** Fewer display digits than decimals: exactly that many are shown, and the value shown is the input rounded
      to a unit of the last of them, in magnitude and keeping its sign. */
  lemma {:induction false} RoundedValue(raw: string, decimals: nat, display: nat, rounding: Rounding)
    returns (d: Decimal, shown: int)
    requires WellFormed(raw) && display < decimals
    ensures FormatStroops(raw, decimals, Some(display), Plain(rounding)) == Success(Layout(d))
    ensures ShowsExactly(d, shown, display)
    ensures (shown < 0 ==> Value(raw) < 0) && (shown > 0 ==> Value(raw) > 0)
    ensures Rounded(Abs(shown), Abs(Value(raw)), decimals - display, rounding)
  {
    var m := Reduce(Magnitude(raw), decimals - display, rounding);
    d, shown := Parts(Negative(raw), m, display, Some(display)), Signed(Negative(raw), m);
    ShowsMagnitude(Negative(raw), m, display, display);
    SignedRounding(Negative(raw), Magnitude(raw), decimals - display, rounding);
  }

  lemma {:induction false} SignedRounding(negative: bool, exact: nat, drop: nat, rounding: Rounding)
    ensures var shown, value := Signed(negative, Reduce(exact, drop, rounding)), Signed(negative, exact);
            && (shown < 0 ==> value < 0) && (shown > 0 ==> value > 0)
            && Rounded(Abs(shown), Abs(value), drop, rounding)
  {
    ReduceRounds(exact, drop, rounding);
    ReduceKeepsZero(drop, rounding);
  }

  lemma {:induction false} ReduceKeepsZero(drop: nat, rounding: Rounding)
    ensures Reduce(0, drop, rounding) == 0
  {
    ShiftZero(drop);
    var (quotient, remainder) := Divide(0, drop);
    DivideIsUnique(quotient, remainder, 0, 0, drop);
  }

  /** At least as many display digits as decimals: exactly that many are shown, and the value shown is exact. */
  lemma {:induction false} PaddedValue(raw: string, decimals: nat, display: nat, rounding: Rounding) returns (d: Decimal)
    requires WellFormed(raw) && display >= decimals
    ensures FormatStroops(raw, decimals, Some(display), Plain(rounding)) == Success(Layout(d))
    ensures ShowsExactly(d, ShiftedValue(raw, display - decimals), display)
  {
    d := Parts(Negative(raw), Magnitude(raw), decimals, Some(display));
    ShowsMagnitude(Negative(raw), Magnitude(raw), decimals, display);
  }

  // The value of an input times ten to the `k`.
  function ShiftedValue(raw: string, k: nat): (v: int)
    requires WellFormed(raw)
  {
    Signed(Negative(raw), Shift(Magnitude(raw), k))
  }

  lemma {:induction false} ShiftedValueIsTimes(raw: string, k: nat)
    requires WellFormed(raw)
    ensures ShiftedValue(raw, k) == Value(raw) * Pow10(k)
  {
    ShiftIsTimes(Magnitude(raw), k);
  }

  /** Commas before every third digit of the whole part counted from the right, and nowhere else. */
  predicate GroupedWhole(grouped: string, whole: string) {
    && WithoutCommas(grouped) == whole
    && forall k :: 0 <= k < |grouped| ==> (grouped[|grouped| - 1 - k] == ',' <==> k % 4 == 3)
  }

  /** Grouping and the symbol decorate the plain text: the whole part is grouped, the symbol follows a space, and
      no digit changes. */
  lemma {:induction false} DecorationOnly(raw: string, decimals: int, displayDecimals: Option<int>, opts: Options)
    returns (d: Decimal, whole: string)
    requires FormatStroops(raw, decimals, displayDecimals, opts).Success?
    ensures WellPrinted(d)
    ensures FormatStroops(raw, decimals, displayDecimals, Plain(opts.rounding)) == Success(Layout(d))
    ensures if opts.group then GroupedWhole(whole, d.whole) else whole == d.whole
    ensures var signed := Layout(d.(whole := whole));
            FormatStroops(raw, decimals, displayDecimals, opts)
            == Success(if opts.symbol == "" then signed else signed + " " + opts.symbol)
  {
    var scale := Scale(decimals, displayDecimals);
    var m := Shown(raw, decimals, displayDecimals, opts.rounding);
    d := Parts(Negative(raw), m, scale, displayDecimals);
    PartsDenote(Negative(raw), m, scale, displayDecimals);
    whole := if opts.group then Group(d.whole) else d.whole;
    if opts.group {
      GroupsWhole(d.whole);
    }
  }

  lemma {:induction false} GroupsWhole(whole: string)
    requires IsNumeral(whole)
    ensures GroupedWhole(Group(whole), whole)
  {
    UngroupGroup(whole);
    forall k | 0 <= k < |Group(whole)|
      ensures Group(whole)[|Group(whole)| - 1 - k] == ',' <==> k % 4 == 3
    {
      GroupPositions(whole, k);
    }
  }
}
