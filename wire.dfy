/** The message kinds the telemetry collector understands and the datagram size, shared by both drafts. */
module Wire {
  import opened Basics

  /** Size of every datagram buffer handed to the socket. */
  const BufferSize: nat := 1024

  datatype MessageType =
    | CreateHeader
    | IterationTime
    | ErrorDetail
    | InfoDetail
    | SdcEnd
    | TooManyErrorsPerIteration
    | TooManyInfosPerIteration
    | NormalEnd
    | SameErrorLastIteration

  /** The enumerator's numeric value. */
  function Tag(t: MessageType): (n: nat)
    ensures n <= 8
  {
    match t
    case CreateHeader => 0
    case IterationTime => 1
    case ErrorDetail => 2
    case InfoDetail => 3
    case SdcEnd => 4
    case TooManyErrorsPerIteration => 5
    case TooManyInfosPerIteration => 6
    case NormalEnd => 7
    case SameErrorLastIteration => 8
  }

  /** The receiver's view: which message type a numeric value names, if any. */
  function FromTag(n: int): (r: Option<MessageType>)
    ensures r.Some? <==> 0 <= n <= 8
    ensures r.Some? ==> Tag(r.value) == n
  {
    if n == 0 then Some(CreateHeader)
    else if n == 1 then Some(IterationTime)
    else if n == 2 then Some(ErrorDetail)
    else if n == 3 then Some(InfoDetail)
    else if n == 4 then Some(SdcEnd)
    else if n == 5 then Some(TooManyErrorsPerIteration)
    else if n == 6 then Some(TooManyInfosPerIteration)
    else if n == 7 then Some(NormalEnd)
    else if n == 8 then Some(SameErrorLastIteration)
    else None
  }

  /** Distinct message types have distinct tags, so a tag identifies its type. */
  lemma TagRoundTrip(t: MessageType)
    ensures FromTag(Tag(t)) == Some(t)
  {
  }
}
