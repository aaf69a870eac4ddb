/**
 * The countdown display (components/Timer.tsx): splitting the remaining
 * seconds into hours, minutes and seconds, printing each field with at
 * least two digits, and choosing the urgency colour.
 */
module Timer {

  /** Below this many seconds the display turns red (the last five minutes). */
  const CriticalBelow: int := 300
  /** Below this many seconds the display turns orange (the last thirty minutes). */
  const WarningBelow: int := 1800

  /** JavaScript's `%` for a positive divisor: the remainder takes the dividend's sign. */
  function JsRem(a: int, d: int): (r: int)
    requires d > 0
    ensures -d < r < d
    ensures exists q :: a == q * d + r
    ensures a >= 0 ==> 0 <= r
    ensures a < 0 ==> r <= 0
  {
    if a >= 0 then
      assert a == (a / d) * d + a % d;
      a % d
    else
      assert a == -((-a) / d) * d + -((-a) % d);
      -((-a) % d)
  }

  datatype Clock = Clock(hours: int, minutes: int, seconds: int)

  /**
   * `Math.floor(timeLeft / 3600)`, `Math.floor((timeLeft % 3600) / 60)` and
   * `timeLeft % 60`; Dafny's `/` with a positive divisor is already the floor.
   */
  function Decompose(timeLeft: int): (c: Clock)
    ensures timeLeft >= 0 ==> 0 <= c.hours && 0 <= c.minutes < 60 && 0 <= c.seconds < 60
    ensures timeLeft >= 0 ==> c.hours * 3600 + c.minutes * 60 + c.seconds == timeLeft
  {
    Clock(timeLeft / 3600, JsRem(timeLeft, 3600) / 60, JsRem(timeLeft, 60))
  }

  function Compose(c: Clock): int {
    c.hours * 3600 + c.minutes * 60 + c.seconds
  }

  /** Composing a clock reading with minutes and seconds below 60 and decomposing it gives the reading back. */
  lemma DecomposeCompose(c: Clock)
    requires 0 <= c.hours && 0 <= c.minutes < 60 && 0 <= c.seconds < 60
    ensures Decompose(Compose(c)) == c
  {
  }

  /** Decomposing a non-negative time and composing the reading gives the time back. */
  lemma ComposeDecompose(timeLeft: int)
    requires timeLeft >= 0
    ensures Compose(Decompose(timeLeft)) == timeLeft
  {
  }

  // ---------------------------------------------------------------------------
  // Formatting: `toString()` and `padStart(2, '0')`
  // ---------------------------------------------------------------------------

  function DigitChar(d: int): (c: char)
    requires 0 <= d < 10
    ensures '0' <= c <= '9'
  {
    '0' + d as char
  }

  predicate IsDigits(s: string) {
    forall i :: 0 <= i < |s| ==> '0' <= s[i] <= '9'
  }

  /** The decimal digits of n, without leading zeros. */
  function Digits(n: nat): (s: string)
    ensures |s| >= 1 && IsDigits(s)
    ensures (s[0] == '0') <==> n == 0
    ensures n < 10 <==> |s| == 1
  {
    if n < 10 then [DigitChar(n)] else Digits(n / 10) + [DigitChar(n % 10)]
  }

  /** `Number.prototype.toString()` for an integer. */
  function ToDecimal(n: int): string {
    if n >= 0 then Digits(n) else "-" + Digits(-n)
  }

  /** `padStart(width, fill)`: prefix copies of `fill` up to `width` characters. */
  function PadStart(s: string, width: nat, fill: char): (r: string)
    ensures |r| == if |s| >= width then |s| else width
    ensures r[|r| - |s|..] == s
    ensures forall i :: 0 <= i < |r| - |s| ==> r[i] == fill
  {
    if |s| >= width then s else seq(width - |s|, _ => fill) + s
  }

  /** One field of the display. */
  function Field(n: int): string {
    PadStart(ToDecimal(n), 2, '0')
  }

  /** The numeric value of a digit string. */
  function Value(s: string): nat
    requires IsDigits(s)
  {
    if s == [] then 0 else Value(s[..|s| - 1]) * 10 + (s[|s| - 1] - '0') as int
  }

  lemma {:induction false} DigitsValue(n: nat)
    ensures Value(Digits(n)) == n
  {
    if n >= 10 {
      var s := Digits(n);
      assert s[..|s| - 1] == Digits(n / 10);
      DigitsValue(n / 10);
    }
  }

  lemma {:induction false} LeadingZeroValue(s: string)
    requires IsDigits(s)
    ensures IsDigits("0" + s) && Value("0" + s) == Value(s)
  {
    if s != [] {
      assert ("0" + s)[..|"0" + s| - 1] == "0" + s[..|s| - 1];
      LeadingZeroValue(s[..|s| - 1]);
    }
  }

  /** A single digit is padded with one '0'; longer numbers are printed as they are. */
  lemma FieldOfNat(n: nat)
    ensures n < 10 ==> Field(n) == "0" + Digits(n)
    ensures n >= 10 ==> Field(n) == Digits(n)
  {
    var d := Digits(n);
    if n < 10 {
      assert |d| == 1;
      assert PadStart(d, 2, '0') == seq(1, _ => '0') + d;
      assert seq(1, _ => '0') == "0";
    }
  }

  /**
   * A non-negative field is printed with at least two digits, starts with
   * '0' exactly when it is below 10, and reads back as the same number.
   */
  lemma FieldShape(n: nat)
    ensures var f := Field(n);
      && |f| >= 2 && IsDigits(f)
      && (f[0] == '0' <==> n < 10)
      && (n < 100 <==> |f| == 2)
      && Value(f) == n
  {
    DigitsValue(n);
    FieldOfNat(n);
    var d := Digits(n);
    if n < 10 {
      LeadingZeroValue(d);
    } else {
      DigitsTwoIffBelowHundred(n);
    }
  }

  lemma DigitsTwoIffBelowHundred(n: nat)
    requires n >= 10
    ensures |Digits(n)| == 2 <==> n < 100
  {
    assert |Digits(n)| == |Digits(n / 10)| + 1;
  }

  /** The whole display, `HH:MM:SS`. */
  function Display(timeLeft: int): string {
    ShowClock(Decompose(timeLeft))
  }

  function ShowClock(c: Clock): string {
    Field(c.hours) + ":" + Field(c.minutes) + ":" + Field(c.seconds)
  }

  /** Reads a display back: everything before the last six characters is hours, then minutes and seconds. */
  function ReadDisplay(d: string): int
    requires |d| >= 8 && IsDigits(d[..|d| - 6]) && IsDigits(d[|d| - 5..|d| - 3]) && IsDigits(d[|d| - 2..])
  {
    Value(d[..|d| - 6]) * 3600 + Value(d[|d| - 5..|d| - 3]) * 60 + Value(d[|d| - 2..])
  }

  /** The shape of a display is `HH:MM:SS` with the hours possibly longer. */
  predicate IsDisplayShape(d: string) {
    && |d| >= 8 && d[|d| - 6] == ':' && d[|d| - 3] == ':'
    && IsDigits(d[..|d| - 6]) && IsDigits(d[|d| - 5..|d| - 3]) && IsDigits(d[|d| - 2..])
  }

  lemma ShowClockReads(c: Clock)
    requires 0 <= c.hours && 0 <= c.minutes < 60 && 0 <= c.seconds < 60
    ensures IsDisplayShape(ShowClock(c)) && ReadDisplay(ShowClock(c)) == Compose(c)
  {
    FieldShape(c.hours);
    FieldShape(c.minutes);
    FieldShape(c.seconds);
    SplitDisplay(Field(c.hours), Field(c.minutes), Field(c.seconds));
  }

  /** For a non-negative time the display has the shape HH:MM:SS and reads back as the time. */
  lemma DisplayRoundTrip(timeLeft: int)
    requires timeLeft >= 0
    ensures IsDisplayShape(Display(timeLeft)) && ReadDisplay(Display(timeLeft)) == timeLeft
  {
    ShowClockReads(Decompose(timeLeft));
  }

  lemma SplitDisplay(h: string, m: string, s: string)
    requires |h| >= 2 && |m| == 2 && |s| == 2
    requires IsDigits(h) && IsDigits(m) && IsDigits(s)
    ensures var d := h + ":" + m + ":" + s;
      && |d| >= 8 && d[|d| - 6] == ':' && d[|d| - 3] == ':'
      && d[..|d| - 6] == h && d[|d| - 5..|d| - 3] == m && d[|d| - 2..] == s
      && ReadDisplay(d) == Value(h) * 3600 + Value(m) * 60 + Value(s)
  {
    var d := h + ":" + m + ":" + s;
    assert d[..|d| - 6] == h && d[|d| - 5..|d| - 3] == m && d[|d| - 2..] == s;
  }

  // ---------------------------------------------------------------------------
  // Urgency colour
  // ---------------------------------------------------------------------------

  /** The three colour classes of `getColorClass`: red and pulsing, orange, blue. */
  datatype Urgency = Critical | Warning | Calm

  function UrgencyOf(timeLeft: int): (u: Urgency)
    ensures u == Critical <==> timeLeft < CriticalBelow
    ensures u == Warning <==> CriticalBelow <= timeLeft < WarningBelow
    ensures u == Calm <==> timeLeft >= WarningBelow
  {
    if timeLeft < CriticalBelow then Critical
    else if timeLeft < WarningBelow then Warning
    else Calm
  }

  function Severity(u: Urgency): nat {
    match u
    case Critical => 2
    case Warning => 1
    case Calm => 0
  }

  /** Less time left never gives a less urgent colour. */
  lemma UrgencyMonotone(less: int, more: int)
    requires less <= more
    ensures Severity(UrgencyOf(less)) >= Severity(UrgencyOf(more))
  {
  }
}
