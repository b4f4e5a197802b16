/** `log_helper_base` of the logger/ draft: the same per-run state machine as the log_helper/ draft,
    without a configuration file; the iteration boundaries return a status byte, the setters return
    the value they stored, and the iteration number can be read back. */
module LoggerBase {
  import opened Basics
  import opened IterationState

  class Session {
    var logFileName: string
    var header: string
    var benchmarkName: string
    var endIterationGeneratedString: string
    var maxErrorsPerIter: usize
    var maxInfosPerIter: usize
    var iterIntervalPrint: usize
    var lastIterErrors: usize
    var lastIterWithErrors: usize
    var kernelsTotalErrors: usize
    var iterationNumber: usize
    var kernelTimeAcc: real
    var kernelTime: real
    var itTimeStart: real
    var logErrorDetailCounter: usize
    var logInfoDetailCounter: usize
    var doubleErrorKill: bool

    /** How many times `end_iteration` has run. */
    ghost var completed: nat

    /** The print interval is never 0, the iteration number counts completed iterations (modulo
        2^64), and no code path ever assigns a log file name. */
    ghost predicate Valid()
      reads this
    {
      && iterIntervalPrint >= 1
      && iterationNumber == WrapCount(completed)
      && logFileName == ""
    }

    /** The state right after construction: the member initialisers (caps 500, print interval 1,
        every counter 0, double-error kill on, the start time at the clock's epoch). */
    ghost predicate Initial(benchmarkName: string, testInfo: string)
      reads this
    {
      && this.benchmarkName == benchmarkName && header == testInfo && endIterationGeneratedString == ""
      && maxErrorsPerIter == 500 && maxInfosPerIter == 500 && iterIntervalPrint == 1
      && lastIterErrors == 0 && lastIterWithErrors == 0 && kernelsTotalErrors == 0
      && iterationNumber == 0 && kernelTimeAcc == 0.0 && kernelTime == 0.0 && itTimeStart == 0.0
      && logErrorDetailCounter == 0 && logInfoDetailCounter == 0 && doubleErrorKill
      && completed == 0
    }

    /** The protected constructor: only the member initialisers. */
    constructor (benchmarkName: string, testInfo: string)
      ensures Valid() && Initial(benchmarkName, testInfo)
    {
      this.logFileName := "";
      this.header := testInfo;
      this.benchmarkName := benchmarkName;
      this.endIterationGeneratedString := "";
      this.maxErrorsPerIter := 500;
      this.maxInfosPerIter := 500;
      this.iterIntervalPrint := 1;
      this.lastIterErrors := 0;
      this.lastIterWithErrors := 0;
      this.kernelsTotalErrors := 0;
      this.iterationNumber := 0;
      this.kernelTimeAcc := 0.0;
      this.kernelTime := 0.0;
      this.itTimeStart := 0.0;
      this.logErrorDetailCounter := 0;
      this.logInfoDetailCounter := 0;
      this.doubleErrorKill := true;
      this.completed := 0;
    }

    /** `start_iteration`, with `now` the clock reading: returns 0. */
    method StartIteration(now: real) returns (status: byte)
      requires Valid()
      modifies this`logErrorDetailCounter, this`logInfoDetailCounter, this`itTimeStart
      ensures Valid()
      ensures status == 0
      ensures logErrorDetailCounter == 0 && logInfoDetailCounter == 0 && itTimeStart == now
    {
      logErrorDetailCounter := 0;
      logInfoDetailCounter := 0;
      itTimeStart := now;
      return 0;
    }

    /** `end_iteration`, with `now` the clock reading and `render` standing for `std::to_string`
        on a `double`: the duration is recorded and accumulated, both detail counters return to 0,
        the `#IT` line is generated only on multiples of the print interval (numbered before the
        increment), and the iteration number advances by one, wrapping like `size_t`. Returns 0. */
    method EndIteration(now: real, render: real -> string) returns (status: byte)
      requires Valid()
      modifies this`kernelTime, this`kernelTimeAcc, this`logErrorDetailCounter, this`logInfoDetailCounter
      modifies this`endIterationGeneratedString, this`iterationNumber, this`completed
      ensures Valid()
      ensures status == 0
      ensures kernelTime == now - old(itTimeStart) && kernelTimeAcc == old(kernelTimeAcc) + kernelTime
      ensures logErrorDetailCounter == 0 && logInfoDetailCounter == 0
      ensures endIterationGeneratedString ==
        EndIterationString(old(iterationNumber), iterIntervalPrint, kernelTime, kernelTimeAcc, render)
      ensures iterationNumber == WrappingIncrement(old(iterationNumber))
      ensures completed == old(completed) + 1
    {
      var difference := now - itTimeStart;
      var accumulated := kernelTimeAcc + difference;
      var line := "";
      if iterationNumber % iterIntervalPrint == 0 {
        line := IterationLine(iterationNumber, difference, accumulated, render);
      }

      kernelTime := difference;
      kernelTimeAcc := accumulated;
      logErrorDetailCounter := 0;
      logInfoDetailCounter := 0;
      endIterationGeneratedString := line;
      iterationNumber := WrappingIncrement(iterationNumber);
      completed := completed + 1;
      return 0;
    }

    method SetMaxErrorsIter(maxErrors: usize) returns (stored: usize)
      requires Valid()
      modifies this`maxErrorsPerIter
      ensures Valid()
      ensures maxErrorsPerIter == maxErrors && stored == maxErrors
    {
      maxErrorsPerIter := maxErrors;
      return maxErrorsPerIter;
    }

    method SetMaxInfosIter(maxInfos: usize) returns (stored: usize)
      requires Valid()
      modifies this`maxInfosPerIter
      ensures Valid()
      ensures maxInfosPerIter == maxInfos && stored == maxInfos
    {
      maxInfosPerIter := maxInfos;
      return maxInfosPerIter;
    }

    /** An interval of 0 is stored as 1; the stored interval is returned. */
    method SetIterIntervalPrint(interval: usize) returns (stored: usize)
      requires Valid()
      modifies this`iterIntervalPrint
      ensures Valid()
      ensures iterIntervalPrint == ClampInterval(interval) && stored == iterIntervalPrint
    {
      if interval < 1 {
        iterIntervalPrint := 1;
      } else {
        iterIntervalPrint := interval;
      }
      return iterIntervalPrint;
    }

    /** One-way: no method sets the flag back to true. */
    method DisableDoubleErrorKill()
      requires Valid()
      modifies this`doubleErrorKill
      ensures Valid()
      ensures doubleErrorKill == false
    {
      doubleErrorKill := false;
    }

    /** Always the empty string: nothing assigns the log file name. */
    function GetLogFileName(): (name: string)
      reads this
      requires Valid()
      ensures name == ""
    {
      logFileName
    }

    /** The number of completed iterations, as a `size_t` (so modulo 2^64; see `WrapCountIsMod`). */
    method GetIterationNumber() returns (n: usize)
      requires Valid()
      ensures n == WrapCount(completed)
      ensures completed < SizeLimit ==> n == completed
    {
      return iterationNumber;
    }
  }
}
