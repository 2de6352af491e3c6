/** Exact monetary text: minor units in the Rust service and micro-USDC in the web client. */
module Money {
  import opened Core
  import opened Text

  // ---- Minor units (rust/src/flutterwave.rs) -----------------------------------------------

  function PrintMinorUnits(n: U128): string {
    var minor := n % 100;
    Decimal(n / 100) + ['.'] + [DigitChar(minor / 10), DigitChar(minor % 10)]
  }

  function ParseU128(s: string): Option<U128>
    requires AllDigits(s)
  {
    if s != [] && NatOf(s) < U128_SIZE then Some(NatOf(s)) else None
  }

  /** The fraction part in hundredths; more than two places are accepted only as trailing zeros. */
  function FractionMinor(f: string): Option<nat> {
    if f == [] then Some(0)
    else if !AllDigits(f) then None
    else if |f| == 1 then Some(NatOf(f) * 10)
    else if |f| == 2 then Some(NatOf(f))
    else if forall i :: 2 <= i < |f| ==> f[i] == '0' then Some(NatOf(f[..2]))
    else None
  }

  function ParseMinorUnits(raw: string): Option<U128> {
    var cleaned := Without(Trim(raw), ',');
    if cleaned == [] || cleaned[0] == '-' then None else
    var parts := Split(cleaned, '.');
    if |parts| > 2 || !AllDigits(parts[0]) then None else
    match ParseU128(parts[0])
    case None => None
    case Some(major) =>
      match FractionMinor(if |parts| == 2 then parts[1] else [])
      case None => None
      case Some(minor) =>
        if major * 100 >= U128_SIZE || major * 100 + minor >= U128_SIZE then None
        else Some(major * 100 + minor)
  }

  /** `cleaned` is the plain decimal numeral with integer part `m` and fraction digits `f`. */
  predicate Numeral(cleaned: string, m: string, f: string) {
    && m != [] && AllDigits(m) && AllDigits(f)
    && (cleaned == m + ['.'] + f || (f == [] && cleaned == m))
  }

  /** `raw`, trimmed and without thousands separators, denotes exactly `v / 100`:
      its value NatOf(m + f) / 10^|f| equals v / 100. */
  ghost predicate DenotesHundredths(raw: string, v: nat) {
    exists m, f :: Numeral(Without(Trim(raw), ','), m, f) && v * Pow10(|f|) == 100 * NatOf0(m + f)
  }

  /** NatOf extended to all strings, so that it can stand inside a quantifier. */
  function NatOf0(s: string): nat { if AllDigits(s) then NatOf(s) else 0 }

  lemma DigitsAreClean(s: string)
    requires AllDigits(s)
    ensures '.' !in s && ',' !in s && '-' !in s
    ensures forall i :: 0 <= i < |s| ==> !IsWhitespace(s[i]) && !IsJsWhitespace(s[i])
  {}

  lemma TwoDigits(f: string)
    requires |f| == 2 && AllDigits(f)
    ensures NatOf(f) == 10 * DigitValue(f[0]) + DigitValue(f[1])
  {
    var g := f[..1];
    assert NatOf(g) == 10 * NatOf(g[..0]) + DigitValue(g[0]);
    assert g[..0] == [];
  }

  /** The fraction rule is exact: it yields `minor` just when 0.f equals minor / 100. */
  lemma FractionExact(f: string, minor: nat)
    requires AllDigits(f)
    ensures FractionMinor(f) == Some(minor) <==> minor * Pow10(|f|) == 100 * NatOf(f)
  {
    if f == [] {
      assert Pow10(0) == 1;
    } else if |f| == 1 {
      assert Pow10(1) == 10;
    } else if |f| == 2 {
      assert Pow10(2) == 100 by { assert Pow10(1) == 10; }
    } else {
      var head, tail := f[..2], f[2..];
      assert f == head + tail;
      NatOfAppend(head, tail);
      NatOfBound(tail);
      Pow10Shift(|tail|);
      LongFraction(minor, NatOf(head), NatOf(tail), Pow10(|tail|));
      assert minor * Pow10(|f|) == 100 * NatOf(f) <==> NatOf(tail) == 0 && minor == NatOf(head);
      if NatOf(tail) == 0 {
        ZeroIsZeros(tail);
        assert forall i :: 2 <= i < |f| ==> f[i] == tail[i - 2];
      }
      if forall i :: 2 <= i < |f| ==> f[i] == '0' {
        assert forall i :: 0 <= i < |tail| ==> tail[i] == f[i + 2];
        NatOfZeros(tail);
      }
    }
  }

  lemma Pow10Shift(k: nat)
    ensures Pow10(k + 2) == 100 * Pow10(k) && Pow10(k) >= 1
  {
    assert Pow10(k + 2) == 10 * Pow10(k + 1);
    Pow10Positive(k);
  }

  lemma LongFraction(minor: nat, head: nat, tail: nat, p: nat)
    requires tail < p
    ensures minor * (100 * p) == 100 * (head * p + tail) <==> tail == 0 && minor == head
  {
    if minor * (100 * p) == 100 * (head * p + tail) {
      assert minor * p == head * p + tail by { ScaleByHundred(minor, p); }
      QuotientUnique(minor, head, tail, p);
    } else if tail == 0 && minor == head {
      ScaleByHundred(minor, p);
    }
  }

  lemma ScaleByHundred(a: int, p: int)
    ensures a * (100 * p) == 100 * (a * p)
  {}

  lemma LargeMultiple(d: int, p: nat)
    requires d != 0
    ensures d * p >= p || d * p <= 0 - p
  {
    if d >= 1 {
      assert (d - 1) * p >= 0;
    } else {
      assert (-d - 1) * p >= 0;
    }
  }

  /** A multiple of `p` strictly between -p and p is zero. */
  lemma SmallMultiple(d: int, p: nat)
    requires 0 - p < d * p < p
    ensures d == 0
  {
    if d != 0 {
      LargeMultiple(d, p);
    }
  }

  lemma QuotientUnique(a: nat, b: nat, r: nat, p: nat)
    requires r < p && a * p == b * p + r
    ensures a == b && r == 0
  {
    assert (a - b) * p == a * p - b * p;
    SmallMultiple(a - b, p);
  }

  lemma Pow10Positive(k: nat)
    ensures Pow10(k) >= 1
  {}

  lemma Distributes(v: int, a: int, p: int)
    ensures (v - 100 * a) * p == v * p - 100 * (a * p)
  {}

  /** Joining integer and fraction digits scales the integer part by 10^|f|. */
  lemma NumeralValue(m: string, f: string, v: int)
    requires AllDigits(m) && AllDigits(f)
    ensures AllDigits(m + f)
    ensures v * Pow10(|f|) == 100 * NatOf(m + f)
        <==> (v - 100 * NatOf(m)) * Pow10(|f|) == 100 * NatOf(f)
  {
    hide NatOf, Pow10, AllDigits;
    NatOfAppend(m, f);
    Distributes(v, NatOf(m), Pow10(|f|));
  }

  /** A numeral splits in only one way. */
  lemma NumeralSplits(cleaned: string, m: string, f: string)
    requires Numeral(cleaned, m, f)
    ensures cleaned != [] && cleaned[0] != '-'
    ensures var parts := Split(cleaned, '.');
            |parts| <= 2 && parts[0] == m && f == (if |parts| == 2 then parts[1] else [])
  {
    DigitsAreClean(m);
    DigitsAreClean(f);
    if cleaned == m + ['.'] + f {
      SplitTwo(m, '.', f);
      assert cleaned[0] == m[0];
    } else {
      SplitOne(m, '.');
    }
  }

  /** What the parser computes from one numeral. */
  lemma NumeralResult(raw: string, m: string, f: string, v: nat)
    requires Numeral(Without(Trim(raw), ','), m, f)
    ensures ParseMinorUnits(raw) == Some(v)
        <==> v < U128_SIZE && v >= 100 * NatOf(m) && FractionMinor(f) == Some(v - 100 * NatOf(m))
  {
    hide NatOf, Without, Trim, Split, FractionMinor;
    NumeralSplits(Without(Trim(raw), ','), m, f);
  }

  /** A printed numeral contains nothing that trimming or removing separators would change. */
  lemma PrintedIsClean(m: string, f: string)
    requires m != [] && AllDigits(m) && AllDigits(f)
    ensures var s := m + ['.'] + f;
            && JsTrim(Without(s, ',')) == s && Split(s, '.') == [m, f]
            && (f != [] ==> Without(Trim(s), ',') == s)
  {
    var s := m + ['.'] + f;
    DigitsAreClean(m);
    DigitsAreClean(f);
    SplitTwo(m, '.', f);
    hide Split, AllDigits;
    assert s[0] == m[0];
    assert if f == [] then s[|s| - 1] == '.' else s[|s| - 1] == f[|f| - 1];
    if f != [] { TrimNothing(s); }
    WithoutNothing(s, ',');
    JsTrimNothing(s);
  }

  lemma TwoPlaces(minor: nat)
    requires minor < 100
    ensures var f := [DigitChar(minor / 10), DigitChar(minor % 10)];
            AllDigits(f) && FractionMinor(f) == Some(minor)
  {
    TwoDigits([DigitChar(minor / 10), DigitChar(minor % 10)]);
  }

  /** Printing then parsing returns every u128 unchanged. */
  lemma MinorUnitsRoundTrip(n: U128)
    ensures ParseMinorUnits(PrintMinorUnits(n)) == Some(n)
  {
    hide ParseMinorUnits, FractionMinor, Without, Trim, JsTrim, Split;
    var m := Decimal(n / 100);
    var f := [DigitChar(n % 100 / 10), DigitChar(n % 100 % 10)];
    TwoPlaces(n % 100);
    PrintedIsClean(m, f);
    assert PrintMinorUnits(n) == m + ['.'] + f;
    hide NatOf, PrintMinorUnits, AllDigits;
    NumeralResult(m + ['.'] + f, m, f, n);
  }

  /** For one numeral: parsing yields `v` exactly when the numeral equals v / 100. */
  lemma NumeralParses(raw: string, m: string, f: string, v: nat)
    requires Numeral(Without(Trim(raw), ','), m, f)
    ensures ParseMinorUnits(raw) == Some(v) <==> v < U128_SIZE && v * Pow10(|f|) == 100 * NatOf0(m + f)
  {
    NumeralResult(raw, m, f, v);
    NumeralValue(m, f, v);
    Pow10Positive(|f|);
    var rest := v - 100 * NatOf(m);
    if rest < 0 {
      NegativeProduct(rest, Pow10(|f|));
    } else {
      FractionExact(f, rest);
    }
  }

  lemma NegativeProduct(a: int, p: nat)
    requires a < 0 && p >= 1
    ensures a * p < 0
  {}

  /** The parser accepts exactly the numerals that denote a whole number of hundredths below 2^128,
      and returns that number: nothing is rounded and nothing representable is refused. */
  lemma ParseMinorUnitsExact(raw: string, v: nat)
    ensures ParseMinorUnits(raw) == Some(v) <==> v < U128_SIZE && DenotesHundredths(raw, v)
  {
    var cleaned := Without(Trim(raw), ',');
    if ParseMinorUnits(raw) == Some(v) {
      var parts := Split(cleaned, '.');
      var m, f := parts[0], if |parts| == 2 then parts[1] else [];
      assert Numeral(cleaned, m, f);
      NumeralParses(raw, m, f, v);
    }
    if v < U128_SIZE && DenotesHundredths(raw, v) {
      var m, f :| Numeral(cleaned, m, f) && v * Pow10(|f|) == 100 * NatOf0(m + f);
      NumeralParses(raw, m, f, v);
    }
  }

  // ---- Micro-USDC (frontend/lib/web3/arcConfig.ts) ------------------------------------------

  function PadStart(s: string, width: nat): string
    decreases width - |s|
  {
    if |s| >= width then s else PadStart(['0'] + s, width)
  }

  function PadEnd(s: string, width: nat): string
    decreases width - |s|
  {
    if |s| >= width then s else PadEnd(s + ['0'], width)
  }

  function StripZeros(s: string): string {
    if s != [] && s[|s| - 1] == '0' then StripZeros(s[..|s| - 1]) else s
  }

  function Slice(s: string, n: nat): string { if n < |s| then s[..n] else s }

  function FormatUsdc(micro: nat, decimals: nat): string {
    var frac := micro % 1_000_000;
    var fracStr := PadStart(Decimal(frac), 6);
    if decimals < 6 && frac % PowerOfTen(6 - decimals) != 0
    then Decimal(micro / 1_000_000) + ['.'] + StripZeros(fracStr)
    else Decimal(micro / 1_000_000) + ['.'] + Slice(fracStr, decimals)
  }

  /** 10^k as a positive divisor. */
  function PowerOfTen(k: nat): (p: nat)
    ensures p == Pow10(k) && p > 0
  {
    if k == 0 then 1 else 10 * PowerOfTen(k - 1)
  }

  /** The parser's regular expression: digits, then optionally a point and one to six digits. */
  predicate UsdcShape(parts: seq<string>)
    requires |parts| >= 1
  {
    && |parts| <= 2 && parts[0] != [] && AllDigits(parts[0])
    && (|parts| == 2 ==> AllDigits(parts[1]) && 1 <= |parts[1]| <= 6)
  }

  function ParseUsdc(human: string): Option<nat> {
    var cleaned := JsTrim(Without(human, ','));
    var parts := Split(cleaned, '.');
    if !UsdcShape(parts) then None else
    var padded := PadEnd(if |parts| == 2 then parts[1] else [], 6);
    PadEndDigits(if |parts| == 2 then parts[1] else [], 6);
    var units := NatOf(parts[0]) * 1_000_000 + NatOf(Slice(padded, 6));
    if units <= 0 then None else Some(units)
  }

  lemma {:induction false} PadEndDigits(s: string, width: nat)
    requires AllDigits(s)
    ensures AllDigits(PadEnd(s, width)) && |PadEnd(s, width)| == (if |s| >= width then |s| else width)
    ensures |s| <= width ==> NatOf(PadEnd(s, width)) == NatOf(s) * Pow10(width - |s|)
    decreases width - |s|
  {
    if |s| < width {
      var t := s + ['0'];
      assert Pow10(width - |s|) == 10 * Pow10(width - |t|) && PadEnd(s, width) == PadEnd(t, width);
      hide NatOf, Pow10, PadEnd;
      AppendZero(s);
      PadEndDigits(t, width);
      TenfoldPadding(NatOf(s), Pow10(width - |t|));
    } else {
      assert Pow10(0) == 1;
    }
  }

  lemma TenfoldPadding(a: nat, p: nat)
    ensures (10 * a) * p == a * (10 * p)
  {}

  lemma AppendZero(s: string)
    requires AllDigits(s)
    ensures AllDigits(s + ['0']) && NatOf(s + ['0']) == 10 * NatOf(s)
  {
    var t := s + ['0'];
    assert t[..|t| - 1] == s;
  }

  lemma {:induction false} PadStartDigits(s: string, width: nat)
    requires AllDigits(s)
    ensures AllDigits(PadStart(s, width)) && |PadStart(s, width)| == (if |s| >= width then |s| else width)
    ensures NatOf(PadStart(s, width)) == NatOf(s)
    decreases width - |s|
  {
    if |s| < width {
      assert ['0'][..0] == [];
      NatOfAppend(['0'], s);
      PadStartDigits(['0'] + s, width);
    }
  }

  /** Stripping trailing zeros keeps the value of a fraction: it is undone by padding. */
  lemma {:induction false} StripZerosScales(s: string)
    requires AllDigits(s)
    ensures AllDigits(StripZeros(s)) && |StripZeros(s)| <= |s|
    ensures NatOf(s) == NatOf(StripZeros(s)) * Pow10(|s| - |StripZeros(s)|)
    ensures NatOf(s) > 0 ==> StripZeros(s) != []
  {
    if s != [] && s[|s| - 1] == '0' {
      var t := s[..|s| - 1];
      StripZerosScales(t);
      ScaleByTen(NatOf(StripZeros(s)), Pow10(|t| - |StripZeros(s)|));
    } else {
      assert Pow10(0) == 1;
    }
  }

  lemma {:induction false} DecimalWidth(n: nat, k: nat)
    requires n < Pow10(k) && k >= 1
    ensures |Decimal(n)| <= k
  {
    if n >= 10 {
      assert k >= 2 by { assert Pow10(1) == 10; }
      DecimalWidth(n / 10, k - 1);
    }
  }

  /** The fraction digits that FormatUsdc prints. */
  function ShownFraction(micro: nat, decimals: nat): string {
    var frac := micro % 1_000_000;
    var fracStr := PadStart(Decimal(frac), 6);
    if decimals < 6 && frac % PowerOfTen(6 - decimals) != 0 then StripZeros(fracStr) else Slice(fracStr, decimals)
  }

  lemma SixDigits(frac: nat)
    requires frac < 1_000_000
    ensures var six := PadStart(Decimal(frac), 6);
            |six| == 6 && AllDigits(six) && NatOf(six) == frac
  {
    assert Pow10(6) == 1_000_000 by { assert Pow10(3) == 1000; }
    DecimalWidth(frac, 6);
    PadStartDigits(Decimal(frac), 6);
  }

  /** Cutting a digit string where the rest is a multiple of its weight drops only zeros. */
  lemma CutExact(s: string, n: nat)
    requires AllDigits(s) && n <= |s| && NatOf(s) % PowerOfTen(|s| - n) == 0
    ensures NatOf(s[..n]) * Pow10(|s| - n) == NatOf(s)
  {
    var head, tail := s[..n], s[n..];
    assert s == head + tail;
    NatOfAppend(head, tail);
    NatOfBound(tail);
    RemainderIs(NatOf(head), NatOf(tail), PowerOfTen(|s| - n));
  }

  /** The shown fraction loses nothing: padded back to six places it is the whole fraction. */
  lemma ShownFractionExact(micro: nat, decimals: nat)
    ensures var f := ShownFraction(micro, decimals);
            AllDigits(f) && |f| <= 6 && NatOf(f) * Pow10(6 - |f|) == micro % 1_000_000
  {
    var frac := micro % 1_000_000;
    SixDigits(frac);
    var six := PadStart(Decimal(frac), 6);
    if decimals >= 6 {
      assert Pow10(0) == 1;
    } else if frac % PowerOfTen(6 - decimals) != 0 {
      StripZerosScales(six);
    } else {
      CutExact(six, decimals);
    }
  }

  lemma SixPlaceRemainder(frac: nat)
    requires frac < 1_000_000
    ensures frac % PowerOfTen(6) == frac
  {
    assert PowerOfTen(6) == 1_000_000 by { assert PowerOfTen(3) == 1000; }
  }

  lemma ShownFractionEmpty(micro: nat, decimals: nat)
    ensures ShownFraction(micro, decimals) == [] <==> decimals == 0 && micro % 1_000_000 == 0
  {
    var frac := micro % 1_000_000;
    SixDigits(frac);
    SixPlaceRemainder(frac);
    if decimals < 6 && frac % PowerOfTen(6 - decimals) != 0 {
      RemainderIs(0, 0, PowerOfTen(6 - decimals));
      assert frac > 0;
      StripZerosScales(PadStart(Decimal(frac), 6));
    }
  }

  lemma RemainderIs(q: nat, r: nat, p: nat)
    requires r < p
    ensures (q * p + r) % p == r
  {
    var x := q * p + r;
    assert (q - x / p) * p == q * p - (x / p) * p;
    SmallMultiple(q - x / p, p);
  }

  /** What the parser computes from a printed numeral. */
  lemma ParsesPrinted(m: string, f: string)
    requires m != [] && AllDigits(m) && AllDigits(f) && |f| <= 6
    ensures var units := NatOf(m) * 1_000_000 + NatOf(f) * Pow10(6 - |f|);
            ParseUsdc(m + ['.'] + f) == if f != [] && units > 0 then Some(units) else None
  {
    hide NatOf, Pow10, Without, JsTrim, Split, PadEnd;
    var s := m + ['.'] + f;
    PrintedIsClean(m, f);
    assert Split(JsTrim(Without(s, ',')), '.') == [m, f];
    PadEndDigits(f, 6);
  }

  /** parseUsdc undoes formatUsdc for every amount and every number of decimals, except zero
      (which the parser refuses) and whole amounts shown with no decimals ("5." is refused). */
  lemma UsdcRoundTrip(micro: nat, decimals: nat)
    ensures ParseUsdc(FormatUsdc(micro, decimals)) == Some(micro)
        <==> micro > 0 && (decimals >= 1 || micro % 1_000_000 != 0)
  {
    hide ParseUsdc, StripZeros, PadStart, AllDigits;
    var m, f := Decimal(micro / 1_000_000), ShownFraction(micro, decimals);
    assert FormatUsdc(micro, decimals) == m + ['.'] + f;
    hide FormatUsdc, ShownFraction, NatOf;
    ShownFractionExact(micro, decimals);
    ShownFractionEmpty(micro, decimals);
    ParsesPrinted(m, f);
  }
}
