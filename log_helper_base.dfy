/** `log_helper_base` of the log_helper/ draft: the per-run session state, its setters, and the
    per-iteration bookkeeping. The constructor reads the configuration file. */
module LogHelperBase {
  import opened Basics
  import opened IterationState
  import ConfigFile

  class Session {
    var configurationParameters: ConfigFile.ConfigMap
    var logFileName: string
    var header: string
    var benchmarkName: string
    var endIterationString: string
    var maxErrorsPerIter: usize
    var maxInfosPerIter: usize
    var iterIntervalPrint: usize
    var lastIterErrors: usize
    var lastIterWithErrors: usize
    var kernelsTotalErrors: usize
    var iterationNumber: usize
    var kernelTimeAcc: real
    var kernelTime: real
    var itTimeStart: real
    var logErrorDetailCounter: usize
    var logInfoDetailCounter: usize
    var doubleErrorKill: bool

    /** How many iterations have been completed. */
    ghost var completed: nat

    /** The print interval is never 0, the iteration number counts completed iterations (modulo
        2^64), and no code path ever assigns a log file name. */
    ghost predicate Valid()
      reads this
    {
      && iterIntervalPrint >= 1
      && iterationNumber == WrapCount(completed)
      && logFileName == ""
    }

    /** The state right after construction: the member initialisers (caps 500, print interval 1,
        every counter 0, double-error kill on, the start time at the clock's epoch). */
    ghost predicate Initial(benchmarkName: string, testInfo: string)
      reads this
    {
      && this.benchmarkName == benchmarkName && header == testInfo && endIterationString == ""
      && maxErrorsPerIter == 500 && maxInfosPerIter == 500 && iterIntervalPrint == 1
      && lastIterErrors == 0 && lastIterWithErrors == 0 && kernelsTotalErrors == 0
      && iterationNumber == 0 && kernelTimeAcc == 0.0 && kernelTime == 0.0 && itTimeStart == 0.0
      && logErrorDetailCounter == 0 && logInfoDetailCounter == 0 && doubleErrorKill
      && completed == 0
    }

    /** The member initialisers, with the configuration already read. */
    constructor (benchmarkName: string, testInfo: string, configuration: ConfigFile.ConfigMap)
      ensures Valid() && Initial(benchmarkName, testInfo)
      ensures configurationParameters == configuration
    {
      this.configurationParameters := configuration;
      this.logFileName := "";
      this.header := testInfo;
      this.benchmarkName := benchmarkName;
      this.endIterationString := "";
      this.maxErrorsPerIter := 500;
      this.maxInfosPerIter := 500;
      this.iterIntervalPrint := 1;
      this.lastIterErrors := 0;
      this.lastIterWithErrors := 0;
      this.kernelsTotalErrors := 0;
      this.iterationNumber := 0;
      this.kernelTimeAcc := 0.0;
      this.kernelTime := 0.0;
      this.itTimeStart := 0.0;
      this.logErrorDetailCounter := 0;
      this.logInfoDetailCounter := 0;
      this.doubleErrorKill := true;
      this.completed := 0;
    }

    /** The protected constructor: reads the configuration file (`None`: it cannot be opened) and
        fails, building nothing, when that read fails. */
    static method Create(benchmarkName: string, testInfo: string, configFile: Option<string>)
      returns (r: Result<Session, ConfigFile.ConfigError>)
      ensures ConfigFile.ParseConfiguration(configFile).Failure? ==>
        r == Failure(ConfigFile.ParseConfiguration(configFile).error)
      ensures ConfigFile.ParseConfiguration(configFile).Success? ==>
        && r.Success? && fresh(r.value) && r.value.Valid()
        && r.value.Initial(benchmarkName, testInfo)
        && r.value.configurationParameters == ConfigFile.ParseConfiguration(configFile).value
    {
      var parsed := ConfigFile.ReadConfigurationFile(configFile);
      if parsed.Failure? {
        return Failure(parsed.error);
      }
      var session := new Session(benchmarkName, testInfo, parsed.value);
      return Success(session);
    }

    /** `start_iteration`, with `now` the clock reading. */
    method StartIteration(now: real)
      requires Valid()
      modifies this`logErrorDetailCounter, this`logInfoDetailCounter, this`itTimeStart
      ensures Valid()
      ensures logErrorDetailCounter == 0 && logInfoDetailCounter == 0 && itTimeStart == now
    {
      logErrorDetailCounter := 0;
      logInfoDetailCounter := 0;
      itTimeStart := now;
    }

    /** `end_iteration`, with `now` the clock reading and `render` standing for `std::to_string`
        on a `double`: the duration since `start_iteration` is recorded and accumulated, both
        detail counters return to 0, the `#IT` line is stored only on iterations that are a
        multiple of the print interval (numbered before the increment), and one more iteration is
        counted, wrapping like `size_t`. */
    method EndIteration(now: real, render: real -> string)
      requires Valid()
      modifies this`kernelTime, this`kernelTimeAcc, this`logErrorDetailCounter, this`logInfoDetailCounter
      modifies this`endIterationString, this`iterationNumber, this`completed
      ensures Valid()
      ensures kernelTime == now - old(itTimeStart) && kernelTimeAcc == old(kernelTimeAcc) + kernelTime
      ensures logErrorDetailCounter == 0 && logInfoDetailCounter == 0
      ensures endIterationString == EndIterationString(old(iterationNumber), iterIntervalPrint, kernelTime, kernelTimeAcc, render)
      ensures iterationNumber == WrappingIncrement(old(iterationNumber))
      ensures completed == old(completed) + 1
    {
      var difference := now - itTimeStart;
      var accumulated := kernelTimeAcc + difference;
      var line := "";
      if iterationNumber % iterIntervalPrint == 0 {
        line := IterationLine(iterationNumber, difference, accumulated, render);
      }

      kernelTime := difference;
      kernelTimeAcc := accumulated;
      logErrorDetailCounter := 0;
      logInfoDetailCounter := 0;
      endIterationString := line;
      iterationNumber := WrappingIncrement(iterationNumber);
      completed := completed + 1;
    }

    method SetMaxErrorsIter(maxErrors: usize)
      requires Valid()
      modifies this`maxErrorsPerIter
      ensures Valid()
      ensures maxErrorsPerIter == maxErrors
    {
      maxErrorsPerIter := maxErrors;
    }

    method SetMaxInfosIter(maxInfos: usize)
      requires Valid()
      modifies this`maxInfosPerIter
      ensures Valid()
      ensures maxInfosPerIter == maxInfos
    {
      maxInfosPerIter := maxInfos;
    }

    /** An interval of 0 is stored as 1. */
    method SetIterIntervalPrint(interval: usize)
      requires Valid()
      modifies this`iterIntervalPrint
      ensures Valid()
      ensures iterIntervalPrint == ClampInterval(interval)
    {
      if interval < 1 {
        iterIntervalPrint := 1;
      } else {
        iterIntervalPrint := interval;
      }
    }

    /** One-way: no method sets the flag back to true. */
    method DisableDoubleErrorKill()
      requires Valid()
      modifies this`doubleErrorKill
      ensures Valid()
      ensures doubleErrorKill == false
    {
      doubleErrorKill := false;
    }

    /** Always the empty string: nothing assigns the log file name. */
    function GetLogFileName(): (name: string)
      reads this
      requires Valid()
      ensures name == ""
    {
      logFileName
    }
  }
}
