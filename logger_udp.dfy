/** `log_helper_tcp` in logger/include/log_helper_udp.h (the logger/ draft): telemetry sent as
    fixed 1024-byte datagrams built in one shared buffer, zero-filled, with the raw message type in
    byte 0 and the text from byte 1. No header is sent. The socket is modelled by the sequence of
    buffers handed to `sendto`; whether `sendto` succeeds is an input. */
module LoggerUdp {
  import opened Basics
  import opened Wire
  import opened Decimal
  import opened IterationState
  import ConfigFile
  import LoggerBase

  /** `n` zero bytes. */
  function Zeros(n: nat): (z: seq<byte>)
    ensures |z| == n && forall i :: 0 <= i < n ==> z[i] == 0
  {
    if n == 0 then [] else [0] + Zeros(n - 1)
  }

  /** The text as the bytes `std::copy` stores into a vector of `uint8_t`: each character's code,
      truncated to 8 bits. */
  function Bytes(s: string): (b: seq<byte>)
    ensures |b| == |s|
    ensures forall i :: 0 <= i < |s| ==> b[i] == s[i] as int % 256
  {
    seq(|s|, i requires 0 <= i < |s| => s[i] as int % 256)
  }

  /** The datagram for `payload` under message type `tag`: exactly `BufferSize` bytes, the tag in
      byte 0, the payload from byte 1, and zeros in every byte after it. */
  function Frame(tag: byte, payload: seq<byte>): (f: seq<byte>)
    requires |payload| <= BufferSize - 1
    ensures |f| == BufferSize
    ensures f[0] == tag
    ensures f[1..|payload| + 1] == payload
    ensures forall i :: |payload| < i < BufferSize ==> f[i] == 0
  {
    [tag] + payload + Zeros(BufferSize - 1 - |payload|)
  }

  /** Index of the first zero byte of `s`, or |s|. */
  function ZeroIndex(s: seq<byte>): (i: nat)
    ensures i <= |s|
    ensures forall k :: 0 <= k < i ==> s[k] != 0
    ensures i < |s| ==> s[i] == 0
  {
    if s == [] || s[0] == 0 then 0 else 1 + ZeroIndex(s[1..])
  }

  /** The collector's reading of a datagram: the tag byte, then the text up to the first zero. */
  function Unframe(f: seq<byte>): Option<(byte, seq<byte>)> {
    if |f| != BufferSize then None
    else
      var body := f[1..];
      Some((f[0], body[..ZeroIndex(body)]))
  }

  /** A payload without zero bytes is read back whole, together with its tag. */
  lemma UnframeFrame(tag: byte, payload: seq<byte>)
    requires |payload| <= BufferSize - 1
    requires forall i :: 0 <= i < |payload| ==> payload[i] != 0
    ensures Unframe(Frame(tag, payload)) == Some((tag, payload))
  {
    var f := Frame(tag, payload);
    var body := f[1..];
    assert body[..|payload|] == payload;
    assert ZeroIndex(body) == |payload| by {
      ZeroIndexAt(body, |payload|);
    }
  }

  /** The first zero is at `k` when there is none before it and `k` ends the text or holds a zero. */
  lemma {:induction false} ZeroIndexAt(s: seq<byte>, k: nat)
    requires k <= |s|
    requires forall i :: 0 <= i < k ==> s[i] != 0
    requires k == |s| || s[k] == 0
    ensures ZeroIndex(s) == k
  {
    if k > 0 {
      assert s[0] != 0;
      ZeroIndexAt(s[1..], k - 1);
    }
  }

  /** `std::fill` with 0, `buffer[0] = tag`, then `std::copy` of the payload from index 1. Whatever
      the buffer held before (an earlier message included) is overwritten. */
  method FillFrame(buffer: array<byte>, tag: byte, payload: seq<byte>)
    requires buffer.Length == BufferSize && |payload| <= BufferSize - 1
    modifies buffer
    ensures buffer[..] == Frame(tag, payload)
  {
    var i := 0;
    while i < buffer.Length
      invariant 0 <= i <= buffer.Length
      invariant forall k :: 0 <= k < i ==> buffer[k] == 0
    {
      buffer[i] := 0;
      i := i + 1;
    }
    buffer[0] := tag;
    var j := 0;
    while j < |payload|
      invariant 0 <= j <= |payload|
      invariant buffer[0] == tag
      invariant forall k :: 0 <= k < j ==> buffer[k + 1] == payload[k]
      invariant forall k :: j < k < buffer.Length ==> buffer[k] == 0
    {
      buffer[j + 1] := payload[j];
      j := j + 1;
    }
    assert forall k :: 0 <= k < BufferSize ==> buffer[k] == Frame(tag, payload)[k] by {
      forall k | 0 <= k < BufferSize
        ensures buffer[k] == Frame(tag, payload)[k]
      {
        if 1 <= k <= |payload| {
          assert Frame(tag, payload)[1..|payload| + 1][k - 1] == payload[k - 1];
        }
      }
    }
  }

  /** `send_message` throws when `sendto` reports an error. */
  datatype SendError = CouldNotSend

  class UdpSession {
    /** The `log_helper_base` part of the object. */
    const base: LoggerBase.Session
    /** The function-local `static` buffer of `end_iteration`, shared by every session. */
    const buffer: array<byte>
    var configurationParameters: ConfigFile.ConfigMap
    var serverIp: string
    var port: int
    /** Every buffer handed to `sendto`, oldest first. */
    var sent: seq<seq<byte>>

    ghost predicate Valid()
      reads this, base
    {
      base.Valid() && buffer.Length == BufferSize && IntMin <= port <= IntMax
    }

    constructor (base: LoggerBase.Session, buffer: array<byte>, configuration: ConfigFile.ConfigMap,
                 serverIp: string, port: int)
      ensures this.base == base && this.buffer == buffer
      ensures configurationParameters == configuration && this.serverIp == serverIp && this.port == port
      ensures sent == []
    {
      this.base := base;
      this.buffer := buffer;
      this.configurationParameters := configuration;
      this.serverIp := serverIp;
      this.port := port;
      this.sent := [];
    }

    /** `log_helper_tcp(benchmark_name, test_info)`, given the configuration map the draft refers
        to and the shared buffer: `server_ip` and `port` are looked up with `operator[]` (inserting
        an empty entry when absent), the port is converted with `std::stoi`, and nothing is sent. */
    static method Open(benchmarkName: string, testInfo: string, configuration: ConfigFile.ConfigMap,
                       buffer: array<byte>)
      returns (r: Result<UdpSession, StoiError>)
      requires buffer.Length == BufferSize
      ensures
        var (withIp, ip) := ConfigFile.Subscript(configuration, "server_ip");
        var (withPort, portText) := ConfigFile.Subscript(withIp, "port");
        && (Stoi(portText).Failure? ==> r == Failure(Stoi(portText).error))
        && (Stoi(portText).Success? ==>
              && r.Success? && fresh(r.value) && fresh(r.value.base) && r.value.Valid()
              && r.value.base.Initial(benchmarkName, testInfo) && r.value.buffer == buffer
              && r.value.configurationParameters == withPort
              && r.value.serverIp == ip && r.value.port == Stoi(portText).value
              && r.value.sent == [])
    {
      var (withIp, ip) := ConfigFile.Subscript(configuration, "server_ip");
      var (withPort, portText) := ConfigFile.Subscript(withIp, "port");
      var port := Stoi(portText);
      if port.Failure? {
        return Failure(port.error);
      }
      var base := new LoggerBase.Session(benchmarkName, testInfo);
      var session := new UdpSession(base, buffer, withPort, ip, port.value);
      return Success(session);
    }

    /** `send_message`: the whole 1024-byte buffer is handed to the socket; 1 on success, the
        exception when `sendto` fails (`sendSucceeds` is its outcome). */
    method SendMessage(message: array<byte>, sendSucceeds: bool) returns (r: Result<byte, SendError>)
      requires message.Length == BufferSize
      modifies this`sent
      ensures sent == old(sent) + [message[..]]
      ensures r == if sendSucceeds then Success(1) else Failure(CouldNotSend)
    {
      sent := sent + [message[..]];
      if !sendSucceeds {
        return Failure(CouldNotSend);
      }
      return Success(1);
    }

    method StartIteration(now: real) returns (status: byte)
      requires Valid()
      modifies base`logErrorDetailCounter, base`logInfoDetailCounter, base`itTimeStart
      ensures Valid()
      ensures status == 0
      ensures base.logErrorDetailCounter == 0 && base.logInfoDetailCounter == 0 && base.itTimeStart == now
    {
      status := base.StartIteration(now);
    }

    /** `end_iteration`: the base update, then, only when the generated string is not empty, the
        buffer is framed with `ITERATION_TIME` and sent. `render` stands for `std::to_string` on a
        `double`, whose text is at most 317 characters, so the line always fits the buffer. */
    method EndIteration(now: real, render: real -> string, sendSucceeds: bool) returns (r: Result<byte, SendError>)
      requires Valid()
      requires forall t :: |render(t)| <= 400
      modifies base`kernelTime, base`kernelTimeAcc, base`logErrorDetailCounter, base`logInfoDetailCounter
      modifies base`endIterationGeneratedString, base`iterationNumber, base`completed
      modifies buffer, this`sent
      ensures Valid()
      ensures base.kernelTime == now - old(base.itTimeStart)
      ensures base.kernelTimeAcc == old(base.kernelTimeAcc) + base.kernelTime
      ensures base.logErrorDetailCounter == 0 && base.logInfoDetailCounter == 0
      ensures base.endIterationGeneratedString ==
        EndIterationString(old(base.iterationNumber), base.iterIntervalPrint, base.kernelTime, base.kernelTimeAcc, render)
      ensures base.iterationNumber == WrappingIncrement(old(base.iterationNumber))
      ensures base.completed == old(base.completed) + 1
      ensures base.endIterationGeneratedString == "" ==>
        r == Success(1) && sent == old(sent) && buffer[..] == old(buffer[..])
      ensures base.endIterationGeneratedString != "" ==>
        && |base.endIterationGeneratedString| <= BufferSize - 1
        && buffer[..] == Frame(Tag(IterationTime), Bytes(base.endIterationGeneratedString))
        && sent == old(sent) + [buffer[..]]
        && r == if sendSucceeds then Success(1) else Failure(CouldNotSend)
    {
      ghost var n := base.iterationNumber;
      var ignored := base.EndIteration(now, render);
      if base.endIterationGeneratedString != "" {
        IterationLineLength(n, base.kernelTime, base.kernelTimeAcc, render);
        FillFrame(buffer, Tag(IterationTime), Bytes(base.endIterationGeneratedString));
        r := SendMessage(buffer, sendSucceeds);
        return;
      }
      return Success(1);
    }

    /** `log_error_count`: returns 0 and does nothing else. */
    method LogErrorCount(kernelErrors: usize) returns (status: byte)
      ensures status == 0
    {
      return 0;
    }

    /** `log_info_count`: returns 0 and does nothing else. */
    method LogInfoCount(infoCount: usize) returns (status: byte)
      ensures status == 0
    {
      return 0;
    }

    /** `log_error_detail`: the text is only echoed to standard output, returned here as the line
        written; returns 0. */
    method LogErrorDetail(detail: string) returns (status: byte, console: string)
      ensures status == 0 && console == detail + "\n"
    {
      return 0, detail + "\n";
    }

    /** `log_info_detail`: returns 0 and does nothing else. */
    method LogInfoDetail(detail: string) returns (status: byte)
      ensures status == 0
    {
      return 0;
    }
  }
}
