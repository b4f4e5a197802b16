/** `log_helper_udp` of the log_helper/ draft: telemetry sent as text datagrams. Every datagram is
    the decimal text of the message type followed by the message; the first one of a session is
    the header. The socket is modelled by the sequence of datagrams handed to `sendto`. */
module LogHelperUdp {
  import opened Basics
  import opened Wire
  import opened Decimal
  import opened IterationState
  import ConfigFile
  import LogHelperBase

  /** `send_message`'s payload: `to_string` of the message type, then the message. */
  function Datagram(message: string, t: MessageType): (d: string)
    ensures |d| == |message| + 1
    ensures d[0] == DigitChar(Tag(t)) && d[1..] == message
  {
    ToString(Tag(t)) + message
  }

  /** What `sendto` transmits of a datagram: it is always handed `BUFFER_SIZE` bytes, so text
      past the first 1024 characters is cut off, and shorter text goes out whole (the bytes read
      past its end are not modelled). */
  function Transmitted(data: string): (t: string)
    ensures |t| <= BufferSize && |t| <= |data| && t == data[..|t|]
    ensures |data| <= BufferSize ==> t == data
    ensures |data| > BufferSize ==> |t| == BufferSize
  {
    if |data| <= BufferSize then data else data[..BufferSize]
  }

  /** The collector's reading of a datagram: a leading digit naming a message type, then the message. */
  function ParseDatagram(d: string): Option<(MessageType, string)> {
    if d == [] || !IsDigit(d[0]) then None
    else
      match FromTag(DigitValue(d[0]))
      case None => None
      case Some(t) => Some((t, d[1..]))
  }

  /** Every message type is one digit wide, so a datagram gives back its type and its message. */
  lemma DatagramRoundTrip(message: string, t: MessageType)
    ensures ParseDatagram(Datagram(message, t)) == Some((t, message))
  {
    var d := Datagram(message, t);
    assert DigitValue(d[0]) == Tag(t);
    TagRoundTrip(t);
  }

  /** `start_log_file`'s payload: the decimal length of the benchmark name, the name, then the test
      information. Names longer than 255 characters only draw a diagnostic. */
  function HeaderPayload(benchmarkName: string, testInfo: string): (p: string)
    ensures |p| == |ToString(|benchmarkName|)| + |benchmarkName| + |testInfo|
    ensures p[|ToString(|benchmarkName|)|..] == benchmarkName + testInfo
  {
    ToString(|benchmarkName|) + benchmarkName + testInfo
  }

  /** A reader of the header payload: the leading digits give the name's length. */
  function ParseHeader(p: string): Option<(string, string)> {
    var k := DigitRun(p);
    if k == 0 then None
    else
      var size := Value(p[..k]);
      if k + size > |p| then None else Some((p[k..k + size], p[k + size..]))
  }

  /** The header can be read back whenever the text after the length does not start with a digit. */
  lemma HeaderRoundTrip(benchmarkName: string, testInfo: string)
    requires var rest := benchmarkName + testInfo; rest == [] || !IsDigit(rest[0])
    ensures ParseHeader(HeaderPayload(benchmarkName, testInfo)) == Some((benchmarkName, testInfo))
  {
    var digits := ToString(|benchmarkName|);
    var rest := benchmarkName + testInfo;
    var p := HeaderPayload(benchmarkName, testInfo);
    assert p == digits + rest;
    DigitRunOfPrefix(digits, rest);
    assert p[..|digits|] == digits;
    ValueOfToString(|benchmarkName|);
    assert p[|digits|..] == rest;
    assert rest[..|benchmarkName|] == benchmarkName && rest[|benchmarkName|..] == testInfo;
  }

  /** A decimal length is not self-delimiting: a one-character name "1" and an eleven-character
      name give the same header. */
  lemma HeaderAmbiguous()
    ensures HeaderPayload("1", "abcdefghijk") == HeaderPayload("abcdefghijk", "")
  {
    assert ToString(1) == "1";
    assert ToString(11) == ToString(1) + "1";
  }

  /** Why opening a session can fail: the configuration file could not be read, or its `port`
      entry is not a number that fits an `int` (`std::stoi` throws). */
  datatype OpenError = Config(ConfigFile.ConfigError) | BadPort(StoiError)

  class UdpSession {
    /** The `log_helper_base` part of the object. */
    const base: LogHelperBase.Session
    var serverIp: string
    var port: int
    /** Every datagram handed to `sendto`, oldest first. */
    var sent: seq<string>

    ghost predicate Valid()
      reads this, base
    {
      base.Valid() && IntMin <= port <= IntMax
    }

    /** The constructor body after the configuration entries have been read: the socket setup is
        not modelled; the header is the one datagram sent. */
    constructor (base: LogHelperBase.Session, serverIp: string, port: int, benchmarkName: string, testInfo: string)
      ensures this.base == base && this.serverIp == serverIp && this.port == port
      ensures sent == [Transmitted(Datagram(HeaderPayload(benchmarkName, testInfo), CreateHeader))]
    {
      this.base := base;
      this.serverIp := serverIp;
      this.port := port;
      this.sent := [];
      new;
      StartLogFile(benchmarkName, testInfo);
    }

    /** `log_helper_udp(benchmark_name, test_info)`: the base reads the configuration, then
        `server_ip` and `port` are looked up with `operator[]` (which inserts an empty entry when
        the key is absent) and the port is converted with `std::stoi`. */
    static method Open(benchmarkName: string, testInfo: string, configFile: Option<string>)
      returns (r: Result<UdpSession, OpenError>)
      ensures ConfigFile.ParseConfiguration(configFile).Failure? ==>
        r == Failure(Config(ConfigFile.ParseConfiguration(configFile).error))
      ensures ConfigFile.ParseConfiguration(configFile).Success? ==>
        var (withIp, ip) := ConfigFile.Subscript(ConfigFile.ParseConfiguration(configFile).value, "server_ip");
        var (withPort, portText) := ConfigFile.Subscript(withIp, "port");
        && (Stoi(portText).Failure? ==> r == Failure(BadPort(Stoi(portText).error)))
        && (Stoi(portText).Success? ==>
              && r.Success? && fresh(r.value) && fresh(r.value.base) && r.value.Valid()
              && r.value.base.Initial(benchmarkName, testInfo)
              && r.value.base.configurationParameters == withPort
              && r.value.serverIp == ip && r.value.port == Stoi(portText).value
              && r.value.sent == [Transmitted(Datagram(HeaderPayload(benchmarkName, testInfo), CreateHeader))])
    {
      var created := LogHelperBase.Session.Create(benchmarkName, testInfo, configFile);
      if created.Failure? {
        return Failure(Config(created.error));
      }
      var base := created.value;
      var (withIp, ip) := ConfigFile.Subscript(base.configurationParameters, "server_ip");
      var (withPort, portText) := ConfigFile.Subscript(withIp, "port");
      base.configurationParameters := withPort;
      var port := Stoi(portText);
      if port.Failure? {
        return Failure(BadPort(port.error));
      }
      var session := new UdpSession(base, ip, port.value, benchmarkName, testInfo);
      return Success(session);
    }

    /** `send_message`: one datagram is handed to the socket, cut to the buffer size. A failed
        send is only reported on the error stream, so the session is the same either way. */
    method SendMessage(message: string, t: MessageType)
      modifies this`sent
      ensures sent == old(sent) + [Transmitted(Datagram(message, t))]
    {
      var data := Datagram(message, t);
      sent := sent + [Transmitted(data)];
    }

    /** `start_log_file`: sends the header. */
    method StartLogFile(benchmarkName: string, testInfo: string)
      modifies this`sent
      ensures sent == old(sent) + [Transmitted(Datagram(HeaderPayload(benchmarkName, testInfo), CreateHeader))]
    {
      var finalMessage := HeaderPayload(benchmarkName, testInfo);
      SendMessage(finalMessage, CreateHeader);
    }

    method StartIteration(now: real)
      requires Valid()
      modifies base`logErrorDetailCounter, base`logInfoDetailCounter, base`itTimeStart
      ensures Valid()
      ensures base.logErrorDetailCounter == 0 && base.logInfoDetailCounter == 0 && base.itTimeStart == now
    {
      base.StartIteration(now);
    }

    /** `end_iteration`: the base update, then an `ITERATION_TIME` datagram carrying the iteration
        string exactly when that string is not empty (an over-long line is cut like any datagram). */
    method EndIteration(now: real, render: real -> string)
      requires Valid()
      modifies base`kernelTime, base`kernelTimeAcc, base`logErrorDetailCounter, base`logInfoDetailCounter
      modifies base`endIterationString, base`iterationNumber, base`completed, this`sent
      ensures Valid()
      ensures base.kernelTime == now - old(base.itTimeStart)
      ensures base.kernelTimeAcc == old(base.kernelTimeAcc) + base.kernelTime
      ensures base.logErrorDetailCounter == 0 && base.logInfoDetailCounter == 0
      ensures base.endIterationString ==
        EndIterationString(old(base.iterationNumber), base.iterIntervalPrint, base.kernelTime, base.kernelTimeAcc, render)
      ensures base.iterationNumber == WrappingIncrement(old(base.iterationNumber))
      ensures base.completed == old(base.completed) + 1
      ensures sent == old(sent) + if base.endIterationString == "" then [] else [Transmitted(Datagram(base.endIterationString, IterationTime))]
    {
      base.EndIteration(now, render);
      if base.endIterationString != "" {
        SendMessage(base.endIterationString, IterationTime);
      }
    }

    /** `log_error_count`: an empty body. */
    method LogErrorCount(kernelErrors: usize)
      ensures unchanged(this, base)
    {
    }

    /** `log_info_count`: an empty body. */
    method LogInfoCount(infoCount: usize)
      ensures unchanged(this, base)
    {
    }

    /** `log_error_detail`: the text is only echoed to standard output, returned here as the line
        written; nothing is sent and no field changes. */
    method LogErrorDetail(detail: string) returns (console: string)
      ensures console == detail + "\n"
      ensures unchanged(this, base)
    {
      console := detail + "\n";
    }

    /** `log_info_detail`: an empty body. */
    method LogInfoDetail(detail: string)
      ensures unchanged(this, base)
    {
    }
  }

  /** Over a run, the datagrams after the header are the `#IT` lines of the iterations whose
      number is a multiple of the print interval: each one names its iteration. */
  lemma SentLineNamesIteration(n: usize, interval: usize, kernelTime: real, accTime: real, render: real -> string)
    requires interval >= 1
    ensures var s := EndIterationString(n, interval, kernelTime, accTime, render);
            s != "" ==> ParseDatagram(Datagram(s, IterationTime)) == Some((IterationTime, s))
                        && ParseIterationNumber(s) == Some(n as nat)
  {
    var s := EndIterationString(n, interval, kernelTime, accTime, render);
    DatagramRoundTrip(s, IterationTime);
    PrintedLineNamesIteration(n, interval, kernelTime, accTime, render);
  }

  /** When the durations render in at most 400 characters, an `#IT` datagram fits the buffer and
      goes out whole. */
  lemma IterationDatagramWhole(n: usize, interval: usize, kernelTime: real, accTime: real, render: real -> string)
    requires interval >= 1
    requires |render(kernelTime)| <= 400 && |render(accTime)| <= 400
    ensures var d := Datagram(EndIterationString(n, interval, kernelTime, accTime, render), IterationTime);
            Transmitted(d) == d
  {
    IterationLineLength(n, kernelTime, accTime, render);
  }
}
