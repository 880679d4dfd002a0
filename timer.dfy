/** The pure parts of the interval state machine in app.js: the countdown text and the
    rule that picks the next interval. */
module Timer {
  import opened Records

  /** `settings[mode] * 60`: the full length of an interval, in seconds. */
  function Seconds(s: Settings, m: Mode): int {
    Minutes(s, m) * 60
  }

  function Abs(x: int): nat {
    if x < 0 then -x else x
  }

  /** JavaScript's `%` on integers: truncating, so the result takes the dividend's sign
      (Dafny's own `%` is Euclidean). `b == 0` gives NaN in JavaScript and is left to callers. */
  function JsRem(a: int, b: int): (r: int)
    requires b != 0
    ensures a >= 0 ==> r == a % Abs(b)
    ensures a < 0 ==> r <= 0 && -r == (-a) % Abs(b)
    ensures Abs(r) < Abs(b)
  {
    if a >= 0 then a % Abs(b) else -((-a) % Abs(b))
  }

  /* ---- formatTime ---- */

  predicate IsDigit(c: char) {
    '0' <= c <= '9'
  }

  function DigitValue(c: char): int {
    c as int - '0' as int
  }

  function DigitChar(d: int): (c: char)
    requires 0 <= d < 10
    ensures IsDigit(c) && DigitValue(c) == d
  {
    ('0' as int + d) as char
  }

  /** `Number.prototype.toString()` of a non-negative integer: decimal, no leading zeros. */
  function NatToString(n: nat): string
    decreases n
  {
    if n < 10 then [DigitChar(n)] else NatToString(n / 10) + [DigitChar(n % 10)]
  }

  function IntToString(i: int): string {
    if i < 0 then "-" + NatToString(-i) else NatToString(i)
  }

  /** `padStart(2, "0")` */
  function PadStart2(s: string): string {
    if |s| >= 2 then s else seq(2 - |s|, _ => '0') + s
  }

  /** `formatTime(seconds)`: `Math.floor(seconds / 60)` and `Math.floor(seconds % 60)`,
      each zero-padded to two characters, joined by a colon. */
  function FormatTime(seconds: int): string {
    PadStart2(IntToString(seconds / 60)) + ":" + PadStart2(IntToString(JsRem(seconds, 60)))
  }

  lemma {:induction false} TwoDigits(n: nat)
    requires n < 100
    ensures |PadStart2(IntToString(n))| == 2
    ensures IsDigit(PadStart2(IntToString(n))[0]) && IsDigit(PadStart2(IntToString(n))[1])
    ensures 10 * DigitValue(PadStart2(IntToString(n))[0]) + DigitValue(PadStart2(IntToString(n))[1]) == n
  {
    var p := PadStart2(IntToString(n));
    if n < 10 {
      assert IntToString(n) == [DigitChar(n)];
      assert p == ['0', DigitChar(n)];
    } else {
      assert NatToString(n / 10) == [DigitChar(n / 10)];
      assert IntToString(n) == [DigitChar(n / 10), DigitChar(n % 10)];
      assert p == [DigitChar(n / 10), DigitChar(n % 10)];
    }
  }

  /** Below 100 minutes the countdown reads `MM:SS`: two digits, a colon, two digits,
      with fewer than 60 seconds and `60 * MM + SS` the seconds left. */
  lemma FormatTimeShape(seconds: int)
    requires 0 <= seconds < 6000
    ensures var r := FormatTime(seconds);
      |r| == 5 && r[2] == ':' &&
      IsDigit(r[0]) && IsDigit(r[1]) && IsDigit(r[3]) && IsDigit(r[4]) &&
      10 * DigitValue(r[3]) + DigitValue(r[4]) < 60 &&
      60 * (10 * DigitValue(r[0]) + DigitValue(r[1])) + 10 * DigitValue(r[3]) + DigitValue(r[4]) == seconds
  {
    var m, s := seconds / 60, JsRem(seconds, 60);
    TwoDigits(m);
    TwoDigits(s);
    var pm, ps := PadStart2(IntToString(m)), PadStart2(IntToString(s));
    assert FormatTime(seconds) == pm + ":" + ps;
  }

  /* ---- nextMode ---- */

  /** `nextMode()`: after a focus interval, a long break when `cycleCount` is non-zero and a
      multiple of `cycles`, otherwise a short break; after any break, focus. `cycles == 0`
      makes the JavaScript remainder NaN, which never equals 0. */
  function NextMode(mode: Mode, cycleCount: nat, cycles: int): Mode {
    if mode == Focus then
      if cycleCount != 0 && cycles != 0 && JsRem(cycleCount, cycles) == 0 then Long else Short
    else Focus
  }

  lemma NextModeRule(mode: Mode, cycleCount: nat, cycles: int)
    ensures mode == Focus ==>
      (NextMode(mode, cycleCount, cycles) == Long <==> cycleCount > 0 && cycles != 0 && cycleCount % Abs(cycles) == 0)
    ensures mode == Focus && cycles > 0 ==>
      (NextMode(mode, cycleCount, cycles) == Long <==> cycleCount > 0 && cycleCount % cycles == 0)
    ensures mode == Focus && NextMode(mode, cycleCount, cycles) != Long ==> NextMode(mode, cycleCount, cycles) == Short
    ensures mode != Focus ==> NextMode(mode, cycleCount, cycles) == Focus
    ensures NextMode(mode, cycleCount, cycles) != mode
  {
  }

  lemma MulBound(k: int, d: int)
    requires k > 0
    ensures d >= 1 ==> k * d >= k
    ensures d <= -1 ==> k * d <= -k
  {
  }

  /** x == k*q + r with 0 <= r < k pins down Euclidean division. */
  lemma ModOfMultiplePlus(k: int, q: int, r: int)
    requires k > 0 && 0 <= r < k
    ensures (k * q + r) % k == r
  {
    var x := k * q + r;
    var q', r' := x / k, x % k;
    assert k * q' + r' == k * q + r;
    assert k * (q - q') == r' - r;
    MulBound(k, q - q');
  }

  /** `cycleCount` is never reset, so from any multiple of `cycles` (0 included) the next
      `cycles` focus completions give `cycles - 1` short breaks and then one long break. */
  lemma CycleLaw(cycleCount: nat, cycles: int, i: int)
    requires cycles > 0 && cycleCount % cycles == 0
    requires 1 <= i <= cycles
    ensures NextMode(Focus, cycleCount + i, cycles) == (if i == cycles then Long else Short)
  {
    var q := cycleCount / cycles;
    assert cycleCount == cycles * q;
    if i == cycles {
      ModOfMultiplePlus(cycles, q + 1, 0);
      assert cycleCount + i == cycles * (q + 1) + 0;
    } else {
      ModOfMultiplePlus(cycles, q, i);
    }
  }
}
