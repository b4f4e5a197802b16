/** What both drafts of `log_helper_base` compute at an iteration boundary: the `#IT` line, when it is
    stored, and how the `size_t` iteration counter advances. Clock readings and durations are reals;
    `std::chrono` and floating-point rounding are not modelled. */
module IterationState {
  import opened Basics
  import Decimal

  /** `set_iter_interval_print`: 0 is raised to 1, anything else is kept, so the interval is never 0. */
  function ClampInterval(interval: usize): (r: usize)
    ensures r >= 1
    ensures interval >= 1 ==> r == interval
  {
    if interval < 1 then 1 else interval
  }

  /** The `#IT` line; `render` stands for `std::to_string` on a `double`. */
  function IterationLine(n: usize, kernelTime: real, accTime: real, render: real -> string): (line: string)
    ensures |line| == 26 + |Decimal.ToString(n)| + |render(kernelTime)| + |render(accTime)|
    ensures line[..8] == "#IT Ite:" && line[8..8 + |Decimal.ToString(n)|] == Decimal.ToString(n)
  {
    "#IT Ite:" + Decimal.ToString(n) + " KerTime:" + render(kernelTime) + " AccTime:" + render(accTime)
  }

  /** A collector's reading of an `#IT` line: the iteration number after the `#IT Ite:` prefix. */
  function ParseIterationNumber(line: string): Option<nat> {
    var prefix := "#IT Ite:";
    if |line| < |prefix| || line[..|prefix|] != prefix then None
    else
      var rest := line[|prefix|..];
      var k := Decimal.DigitRun(rest);
      if k == 0 then None else Some(Decimal.Value(rest[..k]))
  }

  /** The `#IT` line carries the iteration number, whatever the durations render as. */
  lemma IterationNumberRoundTrip(n: usize, kernelTime: real, accTime: real, render: real -> string)
    ensures ParseIterationNumber(IterationLine(n, kernelTime, accTime, render)) == Some(n as nat)
  {
    var digits := Decimal.ToString(n);
    var tail := " KerTime:" + render(kernelTime) + " AccTime:" + render(accTime);
    assert IterationLine(n, kernelTime, accTime, render) == "#IT Ite:" + (digits + tail);
    ParseAfterPrefix(digits, tail);
    Decimal.ValueOfToString(n);
  }

  /** After the `#IT Ite:` prefix, the digits up to the first non-digit are read as the number. */
  lemma ParseAfterPrefix(digits: string, tail: string)
    requires digits != [] && Decimal.AllDigits(digits)
    requires tail == [] || !Decimal.IsDigit(tail[0])
    ensures ParseIterationNumber("#IT Ite:" + (digits + tail)) == Some(Decimal.Value(digits))
  {
    var rest := digits + tail;
    var line := "#IT Ite:" + rest;
    assert line[..8] == "#IT Ite:" && line[8..] == rest;
    Decimal.DigitRunOfPrefix(digits, tail);
    assert rest[..|digits|] == digits;
  }

  /** With durations rendered in at most 400 characters, an `#IT` line never exceeds 846 characters. */
  lemma IterationLineLength(n: usize, kernelTime: real, accTime: real, render: real -> string)
    requires |render(kernelTime)| <= 400 && |render(accTime)| <= 400
    ensures |IterationLine(n, kernelTime, accTime, render)| <= 846
  {
    Decimal.SizeToStringLength(n);
  }

  /** What `end_iteration` stores as the iteration string: the `#IT` line on iterations that are a
      multiple of the print interval, the empty string on all others. */
  function EndIterationString(n: usize, interval: usize, kernelTime: real, accTime: real, render: real -> string): (s: string)
    requires interval >= 1
    ensures s != "" <==> n % interval == 0
  {
    if n % interval == 0 then
      IterationLine(n, kernelTime, accTime, render)
    else ""
  }

  /** A line stored by `end_iteration` names the iteration it closes. */
  lemma PrintedLineNamesIteration(n: usize, interval: usize, kernelTime: real, accTime: real, render: real -> string)
    requires interval >= 1
    ensures var s := EndIterationString(n, interval, kernelTime, accTime, render);
            s != "" ==> ParseIterationNumber(s) == Some(n as nat)
  {
    IterationNumberRoundTrip(n, kernelTime, accTime, render);
  }

  /** The value of a `size_t` counter, started at 0, after `c` increments. */
  ghost function WrapCount(c: nat): (r: usize)
    ensures c < SizeLimit ==> r == c
  {
    if c == 0 then 0 else WrappingIncrement(WrapCount(c - 1))
  }

  /** Counting in a `size_t` is counting modulo 2^64. */
  lemma {:induction false} WrapCountIsMod(c: nat)
    ensures WrapCount(c) == c % SizeLimit
  {
    if c > 0 {
      WrapCountIsMod(c - 1);
      var q := (c - 1) / SizeLimit;
      var r := (c - 1) % SizeLimit;
      if r + 1 == SizeLimit {
        DivIsUnique(c, SizeLimit, q + 1, 0);
      } else {
        DivIsUnique(c, SizeLimit, q, r + 1);
      }
    }
  }

  /** How many of the iterations 0 .. n-1 produce an `#IT` line under print interval `k`. */
  function PrintedCount(n: nat, k: nat): nat
    requires k >= 1
  {
    if n == 0 then 0 else PrintedCount(n - 1, k) + (if (n - 1) % k == 0 then 1 else 0)
  }

  /** `PrintedCount` counts stored lines: iteration n adds one exactly when `end_iteration` stores
      a non-empty string for it. */
  lemma PrintedCountStep(n: usize, k: usize, kernelTime: real, accTime: real, render: real -> string)
    requires k >= 1
    ensures PrintedCount(n + 1, k) ==
      PrintedCount(n, k) + (if EndIterationString(n, k, kernelTime, accTime, render) != "" then 1 else 0)
  {
  }

  /** Throttling bounds the telemetry volume: of n iterations, exactly ceil(n / k) print. */
  lemma {:induction false} PrintedCountIsCeiling(n: nat, k: nat)
    requires k >= 1
    ensures PrintedCount(n, k) == (n + k - 1) / k
  {
    if n > 0 {
      PrintedCountIsCeiling(n - 1, k);
      CeilingStep(n - 1, k);
    }
  }

  /** ceil((m + 1) / k) exceeds ceil(m / k) by one exactly when m is a multiple of k. */
  lemma CeilingStep(m: nat, k: nat)
    requires k >= 1
    ensures (m + k) / k == (m + k - 1) / k + (if m % k == 0 then 1 else 0)
  {
    var q := m / k;
    var r := m % k;
    var qk := q * k;
    assert m == qk + r;
    if r == 0 {
      DivIsUnique(m + k - 1, k, q, k - 1);
      DivIsUnique(m + k, k, q + 1, 0);
    } else {
      DivIsUnique(m + k - 1, k, q + 1, r - 1);
      DivIsUnique(m + k, k, q + 1, r);
    }
  }
}
