/** What src/components/Results/ResultsPanel.tsx shows for a route: the
    visibility rule, the duration and distance readings, the summed step
    distance, the mode colour and icon tables and each step's line. */
module ResultsPanel {
  import opened Common
  import opened Json
  import opened Text

  // ------------------------------------------------------------ decimal text

  predicate IsDigit(c: char) {
    '0' <= c <= '9'
  }

  function DigitValue(c: char): nat
    requires IsDigit(c)
  {
    c as int - '0' as int
  }

  predicate AllDigits(s: string) {
    forall k :: 0 <= k < |s| ==> IsDigit(s[k])
  }

  /** The integer a run of decimal digits denotes, most significant first. */
  function DecimalValue(ds: string): nat
    requires AllDigits(ds)
    decreases |ds|
  {
    if ds == [] then 0 else 10 * DecimalValue(ds[..|ds| - 1]) + DigitValue(ds[|ds| - 1])
  }

  function Pow10(n: nat): (p: real)
    ensures p >= 1.0
  {
    if n == 0 then 1.0 else 10.0 * Pow10(n - 1)
  }

  /** `x` multiplied by ten `n` times. */
  function Shift(x: real, n: nat): real {
    if n == 0 then x else 10.0 * Shift(x, n - 1)
  }

  /** Multiplying by ten `n` times multiplies by ten to the `n`. */
  lemma {:induction false} ShiftIsProduct(x: real, n: nat)
    ensures Shift(x, n) == x * Pow10(n)
  {
    if n > 0 {
      ShiftIsProduct(x, n - 1);
      Regroup(x, Pow10(n - 1));
    }
  }

  lemma Regroup(x: real, p: real)
    ensures 10.0 * (x * p) == x * (10.0 * p)
  {
  }

  lemma {:induction false} ShiftAdd(a: real, b: real, n: nat)
    ensures Shift(a + b, n) == Shift(a, n) + Shift(b, n)
  {
    if n > 0 {
      ShiftAdd(a, b, n - 1);
    }
  }

  lemma {:induction false} ShiftTenth(x: real, n: nat)
    ensures Shift(x / 10.0, n + 1) == Shift(x, n)
  {
    if n > 0 {
      ShiftTenth(x, n - 1);
    }
  }

  /** A digit run read from the front: each digit in its place. */
  function Numerator(ds: string): real
    requires AllDigits(ds)
  {
    if ds == [] then 0.0 else Shift(DigitValue(ds[0]) as real, |ds| - 1) + Numerator(ds[1..])
  }

  /** Read from the front, the last digit is still the units digit. */
  lemma {:induction false} NumeratorFromBack(ds: string)
    requires ds != [] && AllDigits(ds)
    ensures Numerator(ds) == 10.0 * Numerator(ds[..|ds| - 1]) + DigitValue(ds[|ds| - 1]) as real
    decreases |ds|
  {
    var n := |ds|;
    if n > 1 {
      var init := ds[..n - 1];
      NumeratorFromBack(ds[1..]);
      assert ds[1..][..n - 2] == init[1..] && ds[1..][n - 2] == ds[n - 1] && init[0] == ds[0];
    } else {
      assert ds[..0] == [] && ds[1..] == [];
    }
  }

  /** Reading a digit run from the front or from the back gives the same
      number. */
  lemma {:induction false} NumeratorIsDecimalValue(ds: string)
    requires AllDigits(ds)
    ensures Numerator(ds) == DecimalValue(ds) as real
    decreases |ds|
  {
    if ds != [] {
      NumeratorFromBack(ds);
      NumeratorIsDecimalValue(ds[..|ds| - 1]);
    }
  }

  /** The fraction `0.d1d2…` a run of digits after a decimal point denotes. */
  function FractionValue(ds: string): (r: real)
    requires AllDigits(ds)
    ensures 0.0 <= r < 1.0
  {
    if ds == [] then 0.0 else (DigitValue(ds[0]) as real + FractionValue(ds[1..])) / 10.0
  }

  /** The fraction is its digits read as an integer, scaled down by one
      power of ten per digit: ".25" moved two places left is 25. */
  lemma {:induction false} FractionValueScaled(ds: string)
    requires AllDigits(ds)
    ensures Shift(FractionValue(ds), |ds|) == DecimalValue(ds) as real
  {
    FractionShifted(ds);
    NumeratorIsDecimalValue(ds);
  }

  lemma {:induction false} FractionShifted(ds: string)
    requires AllDigits(ds)
    ensures Shift(FractionValue(ds), |ds|) == Numerator(ds)
    decreases |ds|
  {
    if ds != [] {
      var d, f, n := DigitValue(ds[0]) as real, FractionValue(ds[1..]), |ds| - 1;
      FractionShifted(ds[1..]);
      ShiftTenth(d + f, n);
      ShiftAdd(d, f, n);
    }
  }

  /** The decimal text of `n`, without leading zeros. */
  function DecimalText(n: nat): (s: string)
    ensures s != [] && AllDigits(s)
    ensures DecimalValue(s) == n
  {
    var last := ['0' + (n % 10) as char];
    if n < 10 then last
    else
      var s := DecimalText(n / 10) + last;
      assert s[..|s| - 1] == DecimalText(n / 10);
      s
  }

  /** The first index at or after `i` holding a digit, or `|s|`. */
  function FirstDigitFrom(s: string, i: nat): (k: nat)
    requires i <= |s|
    ensures i <= k <= |s| && (k < |s| ==> IsDigit(s[k]))
    ensures forall m :: i <= m < k ==> !IsDigit(s[m])
    decreases |s| - i
  {
    if i == |s| || IsDigit(s[i]) then i else FirstDigitFrom(s, i + 1)
  }

  /** The end of the digit run that starts at `i`: the match of `\d*` there. */
  function DigitRunEnd(s: string, i: nat): (j: nat)
    requires i <= |s|
    ensures i <= j <= |s| && AllDigits(s[i..j])
    ensures j == |s| || !IsDigit(s[j])
    ensures i < |s| && IsDigit(s[i]) ==> i < j
    decreases |s| - i
  {
    if i < |s| && IsDigit(s[i]) then
      var j := DigitRunEnd(s, i + 1);
      assert s[i..j] == [s[i]] + s[i + 1..j];
      j
    else i
  }

  /** A run `s[i..j]` of digits followed by a non-digit or the end is the
      run `DigitRunEnd` finds. */
  lemma {:induction false} DigitRunEndIs(s: string, i: nat, j: nat)
    requires i <= j <= |s| && AllDigits(s[i..j])
    requires j == |s| || !IsDigit(s[j])
    ensures DigitRunEnd(s, i) == j
    decreases j - i
  {
    if i < j {
      assert IsDigit(s[i..j][0]);
      assert s[i + 1..j] == s[i..j][1..];
      DigitRunEndIs(s, i + 1, j);
    }
  }

  /** The first index at or after `i` holding a digit is `k` when `s[k]` is
      a digit and none comes between. */
  lemma {:induction false} FirstDigitFromIs(s: string, i: nat, k: nat)
    requires i <= k < |s| && IsDigit(s[k])
    requires forall m :: i <= m < k ==> !IsDigit(s[m])
    ensures FirstDigitFrom(s, i) == k
    decreases k - i
  {
    if i < k {
      FirstDigitFromIs(s, i + 1, k);
    }
  }

  /** `s[k..j]` is the first run of digits in `s`: no digit before `k`, and
      the run cannot be extended to the right. */
  ghost predicate FirstRun(s: string, k: int, j: int) {
    && 0 <= k < j <= |s|
    && (forall m :: 0 <= m < k ==> !IsDigit(s[m]))
    && AllDigits(s[k..j])
    && (j == |s| || !IsDigit(s[j]))
  }

  /** `duration.match(/(\d+)/)`, read by `parseInt`: the value of the first
      digit run, if any. */
  function LeadingInteger(s: string): (r: Option<nat>)
    ensures r.None? <==> forall m :: 0 <= m < |s| ==> !IsDigit(s[m])
    ensures r.Some? ==> exists k, j :: FirstRun(s, k, j) && r.value == DecimalValue(s[k..j])
  {
    var k := FirstDigitFrom(s, 0);
    if k == |s| then None
    else
      var j := DigitRunEnd(s, k);
      assert FirstRun(s, k, j);
      Some(DecimalValue(s[k..j]))
  }

  /** `distance.match(/(\d+(\.\d+)?)/)`, read by `parseFloat`: the first
      digit run, with a fraction when a point and at least one digit follow. */
  function LeadingDecimal(s: string): (r: Option<real>)
    ensures r.None? <==> forall m :: 0 <= m < |s| ==> !IsDigit(s[m])
    ensures r.Some? ==> exists k, j ::
      FirstRun(s, k, j) && DecimalValue(s[k..j]) as real <= r.value < DecimalValue(s[k..j]) as real + 1.0
  {
    var k := FirstDigitFrom(s, 0);
    if k == |s| then None
    else
      var j := DigitRunEnd(s, k);
      assert FirstRun(s, k, j);
      var whole := DecimalValue(s[k..j]) as real;
      if j + 1 < |s| && s[j] == '.' && IsDigit(s[j + 1]) then
        var f := DigitRunEnd(s, j + 1);
        Some(whole + FractionValue(s[j + 1..f]))
      else Some(whole)
  }

  /** Where the first digit run of `s` lies when `s[i..j]` is a run of
      digits with no digit before it and none right after it. */
  lemma RunAt(s: string, i: nat, j: nat)
    requires i < j <= |s| && AllDigits(s[i..j])
    requires forall m :: 0 <= m < i ==> !IsDigit(s[m])
    requires j == |s| || !IsDigit(s[j])
    ensures FirstDigitFrom(s, 0) == i && DigitRunEnd(s, i) == j
  {
    assert IsDigit(s[i..j][0]);
    FirstDigitFromIs(s, 0, i);
    DigitRunEndIs(s, i, j);
  }

  /** A number written out after text without digits, and followed by
      anything that does not start with a digit, reads back as that number:
      "about 45 min" reads 45. */
  lemma LeadingIntegerOfDecimalText(pre: string, n: nat, rest: string)
    requires forall m :: 0 <= m < |pre| ==> !IsDigit(pre[m])
    requires rest == [] || !IsDigit(rest[0])
    ensures LeadingInteger(pre + DecimalText(n) + rest) == Some(n)
    ensures rest == [] || rest[0] != '.' ==> LeadingDecimal(pre + DecimalText(n) + rest) == Some(n as real)
  {
    var d := DecimalText(n);
    var s := pre + d + rest;
    assert s[|pre|..|pre| + |d|] == d;
    RunAt(s, |pre|, |pre| + |d|);
  }

  /** A number with a fraction reads back with its fraction, wherever the
      first digit run starts. */
  lemma LeadingDecimalOfFraction(pre: string, n: nat, frac: string, rest: string)
    requires forall m :: 0 <= m < |pre| ==> !IsDigit(pre[m])
    requires frac != [] && AllDigits(frac)
    requires rest == [] || !IsDigit(rest[0])
    ensures LeadingDecimal(pre + DecimalText(n) + "." + frac + rest) == Some(n as real + FractionValue(frac))
  {
    var s := pre + DecimalText(n) + "." + frac + rest;
    var i, j := |pre|, |pre| + |DecimalText(n)|;
    FractionLayout(s, pre, n, frac, rest, i, j);
    ReadsRunWithFraction(s, i, j, n, frac);
  }

  /** The boundaries `LeadingDecimal` finds in `pre + DecimalText(n) + "." +
      frac + rest`. */
  lemma FractionLayout(s: string, pre: string, n: nat, frac: string, rest: string, i: nat, j: nat)
    requires forall m :: 0 <= m < |pre| ==> !IsDigit(pre[m])
    requires frac != [] && AllDigits(frac)
    requires rest == [] || !IsDigit(rest[0])
    requires s == pre + DecimalText(n) + "." + frac + rest
    requires i == |pre| && j == |pre| + |DecimalText(n)|
    ensures i < j && j + 1 < j + 1 + |frac| <= |s| && FirstDigitFrom(s, 0) == i && DigitRunEnd(s, i) == j
    ensures s[j] == '.' && IsDigit(s[j + 1]) && DigitRunEnd(s, j + 1) == j + 1 + |frac|
    ensures s[i..j] == DecimalText(n) && s[j + 1..j + 1 + |frac|] == frac
  {
    var d := DecimalText(n);
    var f := j + 1 + |frac|;
    assert s[i..j] == d;
    assert s[j + 1..f] == frac;
    assert s[j] == '.';
    RunAt(s, i, j);
    assert IsDigit(s[j + 1..f][0]);
    DigitRunEndIs(s, j + 1, f);
  }

  /** `LeadingDecimal` at known boundaries: the first digit run `s[i..j]`
      spells `n`, and a point and the digits `frac` follow it. */
  lemma ReadsRunWithFraction(s: string, i: nat, j: nat, n: nat, frac: string)
    requires i < |s| && FirstDigitFrom(s, 0) == i && DigitRunEnd(s, i) == j
    requires j + 1 < j + 1 + |frac| <= |s| && s[j] == '.' && IsDigit(s[j + 1])
    requires DigitRunEnd(s, j + 1) == j + 1 + |frac|
    requires s[i..j] == DecimalText(n) && s[j + 1..j + 1 + |frac|] == frac
    ensures LeadingDecimal(s) == Some(n as real + FractionValue(frac))
  {
  }

  // ---------------------------------------------------------------- duration

  /** The minutes `formatDuration` reads: a number as it is, a string's first
      digit run, and 0 for anything else or a string without digits. */
  function MinutesOf(duration: Json): (m: real)
    ensures duration.JNum? ==> m == duration.n
    ensures duration.JStr? ==> m >= 0.0 && m == m.Floor as real
    ensures duration.JStr? && (forall k :: 0 <= k < |duration.s| ==> !IsDigit(duration.s[k])) ==> m == 0.0
    ensures !duration.JNum? && !duration.JStr? ==> m == 0.0
  {
    match duration
    case JNum(n) => n
    case JStr(s) => (match LeadingInteger(s) case Some(m) => m as real case None => 0.0)
    case _ => 0.0
  }

  /** `"H hr M min"`, `"H hr"` or `"m min"`; the number-to-text step is not
      modelled. */
  datatype DurationText = HoursMinutes(hours: int, minutes: real) | Hours(hours: int) | Minutes(minutes: real)

  /** The minutes a duration text stands for. */
  function TotalMinutes(t: DurationText): real {
    match t
    case HoursMinutes(h, m) => 60.0 * h as real + m
    case Hours(h) => 60.0 * h as real
    case Minutes(m) => m
  }

  /** The hour split: it accounts for every minute, the hours are whole and
      at least one, the leftover minutes lie strictly between 0 and 60. */
  function SplitMinutes(m: real): (t: DurationText)
    ensures TotalMinutes(t) == m
    ensures t.Minutes? <==> m < 60.0
    ensures t.HoursMinutes? ==> t.hours >= 1 && 0.0 < t.minutes < 60.0
    ensures t.Hours? ==> t.hours >= 1
  {
    if m >= 60.0 then
      var hrs := (m / 60.0).Floor;
      var mins := m - 60.0 * hrs as real;
      if mins > 0.0 then HoursMinutes(hrs, mins) else Hours(hrs)
    else Minutes(m)
  }

  /** `formatDuration(duration)`: the text stands for exactly the minutes
      read, and names hours from 60 minutes on. */
  function FormatDuration(duration: Json): (t: DurationText)
    ensures TotalMinutes(t) == MinutesOf(duration)
    ensures t.Minutes? <==> MinutesOf(duration) < 60.0
  {
    SplitMinutes(MinutesOf(duration))
  }

  /** A duration sent as text such as "45 min" or "about 45 min" reads the
      same as the number. */
  lemma DurationTextReadsAsNumber(pre: string, n: nat, unit: string)
    requires forall m :: 0 <= m < |pre| ==> !IsDigit(pre[m])
    requires unit == [] || !IsDigit(unit[0])
    ensures FormatDuration(JStr(pre + DecimalText(n) + unit)) == FormatDuration(JNum(n as real))
  {
    LeadingIntegerOfDecimalText(pre, n, unit);
  }

  /** Only the first digit run counts: "1 hr 30 min" reads as one minute. */
  lemma OnlyFirstDigitRunCounts()
    ensures FormatDuration(JStr("1 hr 30 min")) == Minutes(1.0)
  {
    var s := "1 hr 30 min";
    assert FirstDigitFrom(s, 0) == 0;
    assert s[0..1] == "1";
    DigitRunEndIs(s, 0, 1);
  }

  // ---------------------------------------------------------------- distance

  /** The metres `formatDistance` reads: a number as it is, a string's first
      number token, 0 for anything else. */
  function MetresOf(distance: Json): (m: real)
    ensures distance.JNum? ==> m == distance.n
    ensures distance.JStr? ==> m >= 0.0
    ensures distance.JStr? && (forall k :: 0 <= k < |distance.s| ==> !IsDigit(distance.s[k])) ==> m == 0.0
    ensures !distance.JNum? && !distance.JStr? ==> m == 0.0
  {
    match distance
    case JNum(n) => n
    case JStr(s) => (match LeadingDecimal(s) case Some(m) => m case None => 0.0)
    case _ => 0.0
  }

  /** `"<km> km"` or `"<m> m"`; the `toFixed(1)` rounding is not modelled. */
  datatype DistanceText = Kilometres(km: real) | Metres(m: real)

  /** The metres a distance text stands for. */
  function InMetres(t: DistanceText): real {
    match t
    case Kilometres(km) => km * 1000.0
    case Metres(m) => m
  }

  function FormatMetres(metres: real): (t: DistanceText)
    ensures InMetres(t) == metres
    ensures t.Kilometres? <==> metres >= 1000.0
    ensures t.Kilometres? ==> t.km >= 1.0
  {
    if metres >= 1000.0 then Kilometres(metres / 1000.0) else Metres(metres)
  }

  /** `formatDistance(distance)`: the text stands for exactly the metres
      read, in kilometres from 1000 metres on. */
  function FormatDistance(distance: Json): (t: DistanceText)
    ensures InMetres(t) == MetresOf(distance)
    ensures t.Kilometres? <==> MetresOf(distance) >= 1000.0
  {
    FormatMetres(MetresOf(distance))
  }

  /** A distance sent as text such as "2500 m" or "approx. 2500 m" uses the
      km branch exactly as the number would. */
  lemma DistanceTextReadsAsNumber(pre: string, n: nat, unit: string)
    requires forall m :: 0 <= m < |pre| ==> !IsDigit(pre[m])
    requires unit == [] || (!IsDigit(unit[0]) && unit[0] != '.')
    ensures FormatDistance(JStr(pre + DecimalText(n) + unit)) == FormatDistance(JNum(n as real))
    ensures FormatDistance(JStr(pre + DecimalText(n) + unit)).Kilometres? <==> n >= 1000
  {
    LeadingIntegerOfDecimalText(pre, n, unit);
  }

  // ---------------------------------------------------------- total distance

  /** `parseFloat(String(x))`: a number is itself; a string is read after its
      leading white space, with an optional sign, then digits with an
      optional fraction or a point and digits; `None` is NaN. An exponent is
      not read: "1e3" gives 1 where `parseFloat` gives 1000. */
  function ParseFloat(x: Json): (r: Option<real>)
    ensures x.JNum? ==> r == Some(x.n)
    ensures x.JStr? ==> r == ParseFloatText(x.s)
    ensures !x.JNum? && !x.JStr? ==> r.None?
  {
    match x
    case JNum(n) => Some(n)
    case JStr(s) => ParseFloatText(s)
    case _ => None
  }

  function ParseFloatText(s: string): (r: Option<real>)
    ensures var t := TrimStart(s); t != [] && IsDigit(t[0]) ==> r.Some? && r.value >= 0.0
    ensures var t := TrimStart(s); t == [] || !(IsDigit(t[0]) || t[0] == '+' || t[0] == '-' || t[0] == '.') ==> r.None?
  {
    SignedPrefix(TrimStart(s))
  }

  /** An optional sign, then an unsigned number, at the start of `t`: a
      number read from `t` has a digit among its first three characters. */
  function SignedPrefix(t: string): (r: Option<real>)
    ensures r.Some? ==> (|t| >= 1 && IsDigit(t[0])) || (|t| >= 2 && IsDigit(t[1])) || (|t| >= 3 && IsDigit(t[2]))
    ensures t != [] && IsDigit(t[0]) ==> r == UnsignedPrefix(t)
    ensures t == [] || !(IsDigit(t[0]) || t[0] == '+' || t[0] == '-' || t[0] == '.') ==> r.None?
  {
    if t != [] && (t[0] == '-' || t[0] == '+') then
      match UnsignedPrefix(t[1..])
      case None => None
      case Some(v) => Some(if t[0] == '-' then -v else v)
    else UnsignedPrefix(t)
  }

  /** A text without any digit parses to NaN. */
  lemma NoDigitIsNaN(s: string)
    requires forall m :: 0 <= m < |s| ==> !IsDigit(s[m])
    ensures ParseFloatText(s).None?
  {
    var t := TrimStart(s);
    var i := |s| - |t|;
    assert t == s[i..];
    forall m | 0 <= m < |t| ensures !IsDigit(t[m]) {
      assert t[m] == s[i + m];
    }
  }

  /** `12`, `12.`, `12.5` or `.5` at the start of `u`. */
  function UnsignedPrefix(u: string): (r: Option<real>)
    ensures r.Some? ==> (u != [] && IsDigit(u[0])) || (|u| >= 2 && u[0] == '.' && IsDigit(u[1]))
    ensures r.Some? ==> r.value >= 0.0
    ensures u != [] && IsDigit(u[0]) ==> r.Some?
  {
    if u != [] && IsDigit(u[0]) then
      var j := DigitRunEnd(u, 0);
      var whole := DecimalValue(u[..j]) as real;
      if j < |u| && u[j] == '.' then Some(whole + FractionValue(u[j + 1..DigitRunEnd(u, j + 1)]))
      else Some(whole)
    else if |u| >= 2 && u[0] == '.' && IsDigit(u[1]) then
      Some(FractionValue(u[1..DigitRunEnd(u, 1)]))
    else None
  }

  /** Leading white space is skipped up to the first other character. */
  lemma {:induction false} TrimStartSkips(ws: string, t: string)
    requires forall k :: 0 <= k < |ws| ==> IsSpace(ws[k])
    requires t == [] || !IsSpace(t[0])
    ensures TrimStart(ws + t) == t
    decreases |ws|
  {
    if ws != [] {
      assert (ws + t)[1..] == ws[1..] + t;
      TrimStartSkips(ws[1..], t);
    } else {
      assert ws + t == t;
    }
  }

  /** The digits of `DecimalText(n)`, then a non-digit other than a point,
      read as `n`. */
  lemma UnsignedOfDecimalText(n: nat, rest: string)
    requires rest == [] || (!IsDigit(rest[0]) && rest[0] != '.')
    ensures UnsignedPrefix(DecimalText(n) + rest) == Some(n as real)
  {
    var d := DecimalText(n);
    var u := d + rest;
    assert u[0..|d|] == d;
    RunAt(u, 0, |d|);
  }

  /** With a point and fraction digits after it, `n` plus the fraction. */
  lemma UnsignedOfFraction(n: nat, frac: string, rest: string)
    requires frac != [] && AllDigits(frac)
    requires rest == [] || !IsDigit(rest[0])
    ensures UnsignedPrefix(DecimalText(n) + "." + frac + rest) == Some(n as real + FractionValue(frac))
  {
    var d := DecimalText(n);
    var u := d + "." + frac + rest;
    var j := |d|;
    var f := j + 1 + |frac|;
    assert u[0..j] == d;
    assert u[j + 1..f] == frac;
    assert u[j] == '.';
    DigitRunEndIs(u, 0, j);
    assert IsDigit(u[j + 1..f][0]);
    DigitRunEndIs(u, j + 1, f);
    assert u[..j] == d;
    ReadsFractionPrefix(u, j, f);
  }

  /** `UnsignedPrefix` at known boundaries: digits up to `j`, a point, and
      fraction digits up to `f`. */
  lemma ReadsFractionPrefix(u: string, j: nat, f: nat)
    requires 0 < j < f <= |u| && DigitRunEnd(u, 0) == j
    requires u[j] == '.' && DigitRunEnd(u, j + 1) == f
    ensures AllDigits(u[..j]) && AllDigits(u[j + 1..f])
    ensures UnsignedPrefix(u) == Some(DecimalValue(u[..j]) as real + FractionValue(u[j + 1..f]))
  {
    assert u[..j] == u[0..j];
    assert IsDigit(u[0]) by { assert u[0] == u[0..j][0]; }
  }

  /** A written number, after any white space, parses back to that number
      when what follows cannot continue it (no digit, point or exponent). */
  lemma ParseFloatReadsDecimalText(ws: string, n: nat, rest: string)
    requires forall k :: 0 <= k < |ws| ==> IsSpace(ws[k])
    requires rest == [] || (!IsDigit(rest[0]) && rest[0] != '.' && rest[0] != 'e' && rest[0] != 'E')
    ensures ParseFloatText(ws + (DecimalText(n) + rest)) == Some(n as real)
  {
    UnsignedOfDecimalText(n, rest);
    ParseAfterSpace(ws, DecimalText(n) + rest);
  }

  /** The same with a minus sign in front: the negated number. */
  lemma ParseFloatReadsNegative(ws: string, n: nat, rest: string)
    requires forall k :: 0 <= k < |ws| ==> IsSpace(ws[k])
    requires rest == [] || (!IsDigit(rest[0]) && rest[0] != '.' && rest[0] != 'e' && rest[0] != 'E')
    ensures ParseFloatText(ws + ("-" + (DecimalText(n) + rest))) == Some(-(n as real))
  {
    var u := DecimalText(n) + rest;
    UnsignedOfDecimalText(n, rest);
    assert UnsignedPrefix(u) == Some(n as real);
    ParseNegated(ws, u, n as real);
  }

  /** White space, a minus sign and an unsigned number read as `v`: `-v`. */
  lemma ParseNegated(ws: string, u: string, v: real)
    requires forall k :: 0 <= k < |ws| ==> IsSpace(ws[k])
    requires UnsignedPrefix(u) == Some(v)
    ensures ParseFloatText(ws + ("-" + u)) == Some(-v)
  {
    ParseAfterSpace(ws, "-" + u);
    SignedNegative(u, v);
  }

  lemma SignedNegative(u: string, v: real)
    requires UnsignedPrefix(u) == Some(v)
    ensures SignedPrefix("-" + u) == Some(-v)
  {
    assert ("-" + u)[1..] == u;
  }

  /** White space before the sign does not change the reading. */
  lemma ParseAfterSpace(ws: string, t: string)
    requires forall k :: 0 <= k < |ws| ==> IsSpace(ws[k])
    requires t == [] || !IsSpace(t[0])
    ensures ParseFloatText(ws + t) == SignedPrefix(t)
  {
    TrimStartSkips(ws, t);
  }

  /** A written number with a fraction parses back with its fraction. */
  lemma ParseFloatReadsFraction(ws: string, n: nat, frac: string, rest: string)
    requires forall k :: 0 <= k < |ws| ==> IsSpace(ws[k])
    requires frac != [] && AllDigits(frac)
    requires rest == [] || (!IsDigit(rest[0]) && rest[0] != 'e' && rest[0] != 'E')
    ensures ParseFloatText(ws + (DecimalText(n) + "." + frac + rest)) == Some(n as real + FractionValue(frac))
  {
    UnsignedOfFraction(n, frac, rest);
    ParseAfterSpace(ws, DecimalText(n) + "." + frac + rest);
  }

  /** `parseFloat(step.distance) || 0`. */
  function StepDistance(step: Json): (d: real)
    ensures Field(step, "distance").JNum? ==> d == Field(step, "distance").n
    ensures !Field(step, "distance").JNum? && !Field(step, "distance").JStr? ==> d == 0.0
    ensures var t := if Field(step, "distance").JStr? then TrimStart(Field(step, "distance").s) else [];
      t != [] && IsDigit(t[0]) ==> d >= 0.0
  {
    match ParseFloat(Field(step, "distance"))
    case Some(d) => d
    case None => 0.0
  }

  /** The `reduce` over the steps, left to right from 0. */
  function SumDistances(steps: seq<Json>): (total: real)
    ensures steps == [] ==> total == 0.0
    ensures |steps| == 1 ==> total == StepDistance(steps[0])
  {
    if steps == [] then 0.0 else SumDistances(steps[..|steps| - 1]) + StepDistance(steps[|steps| - 1])
  }

  /** The fold splits over any cut of the step list. */
  lemma {:induction false} SumDistancesAppend(a: seq<Json>, b: seq<Json>)
    ensures SumDistances(a + b) == SumDistances(a) + SumDistances(b)
    decreases |b|
  {
    if b != [] {
      var b' := b[..|b| - 1];
      assert (a + b)[..|a + b| - 1] == a + b';
      assert (a + b)[|a + b| - 1] == b[|b| - 1];
      SumDistancesAppend(a, b');
    } else {
      assert a + b == a;
    }
  }

  /** Steps without a readable distance add nothing to the total. */
  lemma {:induction false} UnreadableStepsAddNothing(steps: seq<Json>)
    requires forall k :: 0 <= k < |steps| ==> ParseFloat(Field(steps[k], "distance")).None?
    ensures SumDistances(steps) == 0.0
    decreases |steps|
  {
    if steps != [] {
      UnreadableStepsAddNothing(steps[..|steps| - 1]);
    }
  }

  /** Steps whose distances are all non-negative numbers give a total that
      bounds each of them. */
  lemma {:induction false} TotalBoundsEachStep(steps: seq<Json>, k: nat)
    requires forall i :: 0 <= i < |steps| ==> StepDistance(steps[i]) >= 0.0
    requires k < |steps|
    ensures SumDistances(steps) >= StepDistance(steps[k]) >= 0.0
    decreases |steps|
  {
    if k < |steps| - 1 {
      TotalBoundsEachStep(steps[..|steps| - 1], k);
    } else if |steps| > 1 {
      NonNegativeSum(steps[..|steps| - 1]);
    }
  }

  lemma {:induction false} NonNegativeSum(steps: seq<Json>)
    requires forall i :: 0 <= i < |steps| ==> StepDistance(steps[i]) >= 0.0
    ensures SumDistances(steps) >= 0.0
    decreases |steps|
  {
    if steps != [] {
      NonNegativeSum(steps[..|steps| - 1]);
    }
  }

  /** `currentRoute?.steps?.reduce(…) || 0`: nullish steps give 0, an array
      gives the fold, and any other value has no `reduce`, so the render
      throws (`None`). */
  function TotalDistance(route: Option<Json>): (r: Option<real>)
    ensures r.None? <==> route.Some? && !Nullish(Field(route.value, "steps")) && !Field(route.value, "steps").JArr?
    ensures route.None? ==> r == Some(0.0)
    ensures route.Some? && Nullish(Field(route.value, "steps")) ==> r == Some(0.0)
    ensures route.Some? && Field(route.value, "steps").JArr? ==> r == Some(SumDistances(Field(route.value, "steps").items))
  {
    var steps := if route.Some? then Field(route.value, "steps") else JUndefined;
    if Nullish(steps) then Some(0.0)
    else if steps.JArr? then Some(SumDistances(steps.items))
    else None
  }

  /** The header's distance is summed from the steps, not taken from
      `total_distance`. */
  lemma TotalIgnoresRouteDistance(d: real)
    ensures TotalDistance(Some(JObj(map["total_distance" := JNum(d), "steps" := JArr([])]))) == Some(0.0)
  {
  }

  // ------------------------------------------------------------- mode tables

  datatype Icon = WalkIcon | TrainIcon | BusIcon | CarIcon | PinIcon

  const WalkingColour := "#64748b"
  const MetroColour := "#2563eb"
  const BusColour := "#16a34a"
  const CarColour := "#9333ea"
  const AutoColour := "#f59e0b"
  const DefaultColour := "#0ea5e9"

  /** `getModeIcon(mode)`: a `switch` compares with `===`, so only those
      exact strings match. */
  function ModeIcon(mode: Json): (i: Icon)
    ensures i == PinIcon <==> !(mode.JStr? && mode.s in ["walking", "metro", "bus", "car", "cab", "taxi"])
    ensures i == CarIcon <==> mode.JStr? && mode.s in ["car", "cab", "taxi"]
    ensures i == WalkIcon <==> mode == JStr("walking")
    ensures i == TrainIcon <==> mode == JStr("metro")
    ensures i == BusIcon <==> mode == JStr("bus")
  {
    if mode == JStr("walking") then WalkIcon
    else if mode == JStr("metro") then TrainIcon
    else if mode == JStr("bus") then BusIcon
    else if mode == JStr("car") || mode == JStr("cab") || mode == JStr("taxi") then CarIcon
    else PinIcon
  }

  /** `getModeColor(mode)`. */
  function ModeColour(mode: Json): (c: string)
    ensures c == DefaultColour <==> !(mode.JStr? && mode.s in ["walking", "metro", "bus", "car", "cab", "taxi", "auto"])
    ensures c == CarColour <==> mode.JStr? && mode.s in ["car", "cab", "taxi"]
    ensures c == AutoColour <==> mode == JStr("auto")
    ensures c == WalkingColour <==> mode == JStr("walking")
    ensures c == MetroColour <==> mode == JStr("metro")
    ensures c == BusColour <==> mode == JStr("bus")
  {
    if mode == JStr("walking") then WalkingColour
    else if mode == JStr("metro") then MetroColour
    else if mode == JStr("bus") then BusColour
    else if mode == JStr("car") || mode == JStr("cab") || mode == JStr("taxi") then CarColour
    else if mode == JStr("auto") then AutoColour
    else DefaultColour
  }

  /** The two tables agree on every mode except `auto`, which has its own
      colour but falls to the default pin icon: an icon other than the pin
      fixes the colour, and the pin goes with the default colour or `auto`. */
  lemma IconAndColourAgree(a: Json, b: Json)
    ensures ModeIcon(a) == ModeIcon(b) && ModeIcon(a) != PinIcon ==> ModeColour(a) == ModeColour(b)
    ensures ModeIcon(a) == PinIcon <==> ModeColour(a) == DefaultColour || a == JStr("auto")
    ensures ModeColour(a) == CarColour <==> ModeIcon(a) == CarIcon
    ensures ModeColour(JStr("auto")) != DefaultColour && ModeIcon(JStr("auto")) == PinIcon
  {
  }

  // -------------------------------------------------------------- step lines

  /** One rendered journey step. */
  datatype StepView = StepView(
    colour: string,
    icon: Icon,
    heading: Json,
    duration: DurationText,
    distance: DistanceText,
    cost: Option<Json>,
    badge: Option<string>)

  /** The upper-cased badge, shown for a truthy mode. */
  function Badge(mode: Json): (b: Option<string>)
    ensures b.Some? <==> mode.JStr? && mode.s != ""
    ensures b.Some? ==> b.value == Upper(mode.s) && Lower(b.value) == Lower(mode.s)
  {
    if mode.JStr? && mode.s != "" then
      UpperKeepsLowerForm(mode.s);
      Some(Upper(mode.s))
    else None
  }

  function ViewStep(step: Json): (v: StepView)
    ensures v.heading == (if Truthy(Field(step, "instructions")) then Field(step, "instructions") else JStr("No instruction"))
    ensures v.cost.Some? <==> Truthy(Field(step, "cost"))
    ensures v.cost.Some? ==> v.cost.value == Field(step, "cost")
    ensures v.colour == ModeColour(Field(step, "mode")) && v.icon == ModeIcon(Field(step, "mode"))
    ensures v.duration == FormatDuration(Field(step, "duration"))
    ensures v.distance == FormatDistance(Field(step, "distance"))
    ensures v.badge == Badge(Field(step, "mode"))
  {
    var mode := Field(step, "mode");
    var cost := Field(step, "cost");
    StepView(
      ModeColour(mode),
      ModeIcon(mode),
      Or(Field(step, "instructions"), JStr("No instruction")),
      FormatDuration(Field(step, "duration")),
      FormatDistance(Field(step, "distance")),
      if Truthy(cost) then Some(cost) else None,
      Badge(mode))
  }

  function ViewSteps(steps: seq<Json>): (vs: seq<StepView>)
    ensures |vs| == |steps|
    ensures forall k :: 0 <= k < |steps| ==> vs[k] == ViewStep(steps[k])
  {
    seq(|steps|, k requires 0 <= k < |steps| => ViewStep(steps[k]))
  }

  /** A step shaped like the `RouteStep` interface (`instruction`,
      `transport_mode`) shows "No instruction", the default colour and the
      pin, and no badge: the panel reads `instructions` and `mode`. */
  lemma InterfaceShapedStepShowsDefaults(text: string, mode: string)
    ensures var v := ViewStep(JObj(map["instruction" := JStr(text), "transport_mode" := JStr(mode)]));
      v.heading == JStr("No instruction") && v.colour == DefaultColour && v.icon == PinIcon && v.badge.None?
  {
    var step := JObj(map["instruction" := JStr(text), "transport_mode" := JStr(mode)]);
    assert Field(step, "instructions") == JUndefined;
    assert Field(step, "mode") == JUndefined;
  }

  // ------------------------------------------------------------------- panel

  /** The panel is mounted unless there is no route and no calculation. */
  function Visible(route: Option<Json>, isCalculating: bool): (v: bool)
    ensures isCalculating ==> v
    ensures route.None? || !Truthy(route.value) ==> (v <==> isCalculating)
    ensures route.Some? && Truthy(route.value) ==> v
  {
    (route.Some? && Truthy(route.value)) || isCalculating
  }

  datatype Body = Calculating | Journey(steps: seq<StepView>)

  datatype PanelView =
    | Hidden
    | RenderFault
    | Shown(duration: DurationText, distance: DistanceText, cost: Json, body: Body)

  /** The panel for a route and flag (minimise and full-screen are not
      modelled): hidden, a render that throws on non-array steps, or the
      header figures and either the spinner or the journey. */
  function Render(route: Option<Json>, isCalculating: bool): (v: PanelView)
    ensures v.Hidden? <==> !Visible(route, isCalculating)
    ensures v.RenderFault? <==> Visible(route, isCalculating) && TotalDistance(route).None?
    ensures v.Shown? ==> v.distance == FormatMetres(TotalDistance(route).value)
    ensures v.Shown? ==> (v.body.Calculating? <==> isCalculating)
    ensures v.Shown? && route.None? ==> v.duration == Minutes(0.0) && v.cost == JNum(0.0)
    ensures v.Shown? && route.Some? ==> v.duration == FormatDuration(Field(route.value, "total_duration"))
    ensures v.Shown? && route.Some? ==> v.cost == Or(Field(route.value, "total_cost"), JNum(0.0))
    ensures v.Shown? && route.Some? && Field(route.value, "steps").JArr? ==>
      v.distance == FormatMetres(SumDistances(Field(route.value, "steps").items))
    ensures v.Shown? && !isCalculating && route.Some? && Nullish(Field(route.value, "steps")) ==>
      v.body == Journey([])
    ensures v.Shown? && !isCalculating && route.Some? && Field(route.value, "steps").JArr? ==>
      v.body == Journey(ViewSteps(Field(route.value, "steps").items))
  {
    if !Visible(route, isCalculating) then Hidden
    else
      var r := if route.Some? then route.value else JUndefined;
      match TotalDistance(route)
      case None => RenderFault
      case Some(total) =>
        var steps := Field(r, "steps");
        Shown(
          FormatDuration(Field(r, "total_duration")),
          FormatMetres(total),
          Or(Field(r, "total_cost"), JNum(0.0)),
          if isCalculating then Calculating
          else Journey(if steps.JArr? then ViewSteps(steps.items) else []))
  }
}
