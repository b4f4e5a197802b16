# Iteration telemetry helper and command rotation

This project models the radiation-test telemetry helper that benchmarks link against, and the
server-side command rotation that picks the next benchmark to run.

The benchmark side has two drafts:

- **log_helper/** (draft A). `log_helper_base` holds the per-run state: the caps, the print
  interval, the iteration counter, the detail counters and the double-error-kill flag. Its
  constructor reads `key=value` lines from `/etc/radiation-benchmarks.conf`. `log_helper_udp`
  sends text datagrams. Each datagram is the decimal text of the message type followed by the
  message. The first one of a session is a header: the decimal length of the benchmark name,
  the name, then the test information.
- **logger/** (draft B). The same state machine without a configuration file. Its methods
  return status bytes, its setters return what they stored, and it can report the iteration
  number. Its UDP class frames each `#IT` line in a shared, zero-filled 1024-byte buffer: the
  raw message type in byte 0 and the text from byte 1.

At the end of every iteration both drafts record the kernel time and accumulate it, and reset
the two detail counters. On multiples of the print interval they also produce the line
`#IT Ite:<n> KerTime:<t> AccTime:<acc>`. The iteration number then advances as a `size_t`.
The UDP classes forward that line when it is not empty.

On the server, `CommandFactory` loads command objects from JSON files. It serves them one per
request from the right end of a deque, which it refills from the loaded list whenever the deque
runs empty.

Modules:

- Shared vocabulary:
  - `Basics`: results, `size_t` and `uint8_t`.
  - `Text`: whitespace and `find`.
  - `Decimal`: `std::to_string` on unsigned values, and `std::stoi`.
  - `Wire`: the message types and the buffer size.
  - `IterationState`: the `#IT` line and the wrapping counter, shared by both drafts.
- Draft A:
  - `ConfigFile`: the configuration reader.
  - `LogHelperBase`: the base session class.
  - `LogHelperUdp`: the UDP session class.
- Draft B:
  - `LoggerBase`: the base session class.
  - `LoggerUdp`: the UDP session class.
- Server:
  - `CommandQueue`: the command rotation.

Dafny has no class inheritance without traits, so each UDP session holds its base session in a
`base` field. Clock readings are `now: real` parameters. `std::to_string` on a `double` is
close to an opaque `render` function: the model assumes only, as a precondition in draft B,
that its text is at most 400 characters long. The socket is the `sent` field: the sequence of
datagrams handed to `sendto`. In draft A that is each datagram cut to its first 1024 characters,
since `sendto` is always given `BUFFER_SIZE` bytes. In draft B it is the whole 1024-byte buffer,
and whether `sendto` succeeds is a parameter of the sending methods.

A C++ `std::string` is a sequence of bytes. The model writes it as a Dafny `string` whose
characters are those bytes, each below 256. So `|s|` is `size()`, and a character's code is the
byte `std::copy` stores.

Where the code does something other than its own comments and diagnostics describe, or leaves
behaviour undefined, the model follows the code:

- **Header length.** The header's name length is written as decimal text, not as one byte, as
  the comment at log_helper/include/log_helper_udp.h:55 says. `HeaderRoundTrip` and
  `HeaderAmbiguous` show what this means for a reader.
- **Long names.** A name longer than 255 characters only draws the diagnostic at
  log_helper/include/log_helper_udp.h:58. The session is still created and the header is
  still sent.
- **Payload length.** Draft B does not truncate a long payload: `std::copy` writes past the
  buffer. The model therefore has to show that the `#IT` line always fits.
- **Send failures.** In draft B a failed `sendto` throws; it is not just reported.
- **Log file name.** Neither draft ever assigns the log file name, so it is always empty.
- **Malformed configuration lines.** A configuration line that does not split into two
  `=`-separated pieces is undefined behaviour in the code (`split_line[1]` is out of range).
  The model stops the read with `MalformedLine` instead.
- **Missing draft B members.** Draft B's UDP class refers to `configuration_parameters` and
  `end_iteration_string`, which its base does not declare. The model reads the base's
  `end_iteration_generated_string` instead, and takes the configuration map as a parameter of
  `Open`.

## Model

| member | source | states |
|---|---|---|
| Basics.WrappingIncrement | log_helper/include/log_helper_base.h:51 | `size_t` increment: one more, except the largest value wraps to 0 |
| Wire.Tag | log_helper/include/log_helper_udp.h:18-32 | each message type's enumerator value, all of them at most 8 |
| Wire.FromTag | log_helper/include/log_helper_udp.h:18-32 | a number names a message type exactly when it is 0..8, and then the type whose value it is |
| Text.LeadingWhitespace | log_helper/include/log_helper_base.h:119 | `find_first_not_of` the whitespace set: whitespace before the index, non-whitespace at it, or the length when there is none |
| Text.ContentEnd | log_helper/include/log_helper_base.h:129 | one past `find_last_not_of`: only whitespace after it, non-whitespace just before it, 0 when all is whitespace |
| Decimal.ToString | log_helper/include/log_helper_udp.h:60 | `std::to_string` of a count: non-empty, all digits, no leading zero |
| Decimal.ValueOfToString | log_helper/include/log_helper_udp.h:60 | reading the decimal text back gives the number |
| Decimal.ToStringOfValue | log_helper/include/log_helper_udp.h:60 | conversely, a digit string without a redundant leading zero is the text of its value |
| Decimal.SizeToStringLength | log_helper/include/log_helper_base.h:44 | the decimal text of any `size_t` has at most 20 characters |
| Decimal.Stoi | log_helper/include/log_helper_udp.h:70 | `std::stoi`: a success is always within the 32-bit `int` range |
| Decimal.StoiOfToString | log_helper/include/log_helper_udp.h:70 | `stoi` returns the number written by `to_string`, whatever whitespace precedes it and whatever non-digit suffix follows it |
| Decimal.StoiRefusesNoDigits | log_helper/include/log_helper_udp.h:70 | text with no digit at all throws `invalid_argument` |
| IterationState.ClampInterval | log_helper/include/log_helper_base.h:70-76 | the stored print interval is at least 1, and any interval of at least 1 is kept as given |
| IterationState.IterationLine | log_helper/include/log_helper_base.h:44-46 | the `#IT` line starts with `#IT Ite:` followed by the decimal iteration number, and is 26 characters longer than the number and the two rendered durations |
| IterationState.IterationNumberRoundTrip | log_helper/include/log_helper_base.h:44-46 | the iteration number can be read back from the `#IT` line, whatever the durations render as |
| IterationState.IterationLineLength | logger/include/log_helper_udp.h:86-88 | with durations of at most 400 characters, the `#IT` line has at most 846 characters, so it fits the 1023 bytes after the tag |
| IterationState.EndIterationString | log_helper/include/log_helper_base.h:43-50 | the stored string is non-empty exactly when the number before the increment is a multiple of the print interval |
| IterationState.PrintedLineNamesIteration | log_helper/include/log_helper_base.h:43-50 | a non-empty stored string names the iteration it closes |
| IterationState.WrapCount | log_helper/include/log_helper_base.h:181 | a `size_t` counter after fewer than 2^64 increments from 0 equals their number |
| IterationState.WrapCountIsMod | log_helper/include/log_helper_base.h:51 | after any number of increments the counter is that number modulo 2^64 |
| IterationState.PrintedCountStep | log_helper/include/log_helper_base.h:43-50 | `PrintedCount` grows by one at iteration n exactly when `end_iteration` stores a non-empty string for n |
| IterationState.PrintedCountIsCeiling | log_helper/include/log_helper_base.h:43 | of n iterations under print interval k, exactly ceil(n / k) produce an `#IT` line |
| ConfigFile.LTrim | log_helper/include/log_helper_base.h:118-125 | `ltrim`: an all-whitespace string is returned unchanged; otherwise the result is a suffix starting with non-whitespace, and only whitespace is cut |
| ConfigFile.RTrim | log_helper/include/log_helper_base.h:128-135 | `rtrim`: an all-whitespace string is returned unchanged; otherwise the result is a non-empty prefix ending in non-whitespace, and only whitespace is cut |
| ConfigFile.Trim | log_helper/include/log_helper_base.h:141-147 | `ltrim` then `rtrim`: never longer than its input, and non-empty whenever its input is (see `TrimCutsWhitespace` for what is cut) |
| ConfigFile.TrimCutsWhitespace | log_helper/include/log_helper_base.h:115-135 | trimming both ends keeps exactly the text from the first to the last non-whitespace character, or leaves an all-whitespace string alone |
| ConfigFile.TrimBounds | log_helper/include/log_helper_base.h:115-135 | gives the bounds of the text kept by trimming a string that has some non-whitespace |
| ConfigFile.TrimIdempotent | log_helper/include/log_helper_base.h:141-147 | trimming again changes nothing |
| ConfigFile.Tokens | log_helper/include/log_helper_base.h:106-114 | the pieces `getline` delivers: none exactly when the text is empty |
| ConfigFile.TokensLackDelimiter | log_helper/include/log_helper_base.h:110 | no piece contains the delimiter |
| ConfigFile.JoinTokens | log_helper/include/log_helper_base.h:106-114 | joining the pieces with the delimiter gives the text back, without a final delimiter |
| ConfigFile.TokensOfJoin | log_helper/include/log_helper_base.h:106-114 | splitting a join of delimiter-free pieces, the last non-empty, gives the pieces back |
| ConfigFile.Getline | log_helper/include/log_helper_base.h:110 | one `std::getline` call: nothing when the stream is exhausted, otherwise the next piece and a strictly shorter unread rest |
| ConfigFile.Split | log_helper/include/log_helper_base.h:106-114 | the `split` loop returns exactly the `=` pieces |
| ConfigFile.ParseLine | log_helper/include/log_helper_base.h:140-147 | a line is skipped exactly when it is empty or its first character is `#`; a malformed line is reported as it was read |
| ConfigFile.LineFields | log_helper/include/log_helper_base.h:140-147 | the key is the trimmed text before the first `=`; the value is the trimmed text between the first and second `=` (or the end); a line with nothing after its first `=` is malformed |
| ConfigFile.FirstTwoPieces | log_helper/include/log_helper_base.h:143-146 | the first two pieces of a text are located by the delimiter's first two occurrences |
| ConfigFile.Classify | log_helper/include/log_helper_base.h:139-140 | every line of the file is classified on its own, in order |
| ConfigFile.Apply | log_helper/include/log_helper_base.h:148 | storing the lines into the map: no lines leave the map as it was, and the only failure is a malformed line |
| ConfigFile.ApplySucceeds | log_helper/include/log_helper_base.h:139-150 | the read succeeds exactly when no line is malformed |
| ConfigFile.ApplyLookup | log_helper/include/log_helper_base.h:148 | after a successful read each key holds the value of its last entry; keys that no line sets keep their previous state |
| ConfigFile.SkippedLineIgnored | log_helper/include/log_helper_base.h:140 | an empty or `#` line can be removed anywhere without changing the outcome |
| ConfigFile.LaterLinesWin | log_helper/include/log_helper_base.h:148 | a key set in a later part of the file overrides what an earlier part set |
| ConfigFile.ParseConfiguration | log_helper/include/log_helper_base.h:103-154 | the file's configuration: `CouldNotOpen` with the default path exactly when the file cannot be opened, otherwise a map or a malformed line |
| ConfigFile.ReadConfigurationFile | log_helper/include/log_helper_base.h:103-154 | the line loop computes the configuration the file denotes; a file that cannot be opened gives `CouldNotOpen` with the default path |
| ConfigFile.Subscript | log_helper/include/log_helper_udp.h:69-70 | `operator[]` reads the stored value, first inserting an empty one for an absent key; the map changes only by that insertion |
| LogHelperBase.Session.constructor | log_helper/include/log_helper_base.h:159-189 | the member initialisers: caps 500, interval 1, every counter 0, flag on, no log file name; the configuration is as read |
| LogHelperBase.Session.Create | log_helper/include/log_helper_base.h:94-98 | construction reads the configuration file; when the read fails no session is built and the error comes back |
| LogHelperBase.Session.StartIteration | log_helper/include/log_helper_base.h:29-33 | both detail counters become 0 and the start time is the clock reading; nothing else changes |
| LogHelperBase.Session.EndIteration | log_helper/include/log_helper_base.h:35-52 | records the duration and accumulates it, zeroes both detail counters, stores the `#IT` line only on multiples of the interval (numbered before the increment), and advances the counter by exactly one with `size_t` wrap-around |
| LogHelperBase.Session.SetMaxErrorsIter | log_helper/include/log_helper_base.h:62-64 | stores the error cap and changes no other field |
| LogHelperBase.Session.SetMaxInfosIter | log_helper/include/log_helper_base.h:66-68 | stores the info cap and changes no other field |
| LogHelperBase.Session.SetIterIntervalPrint | log_helper/include/log_helper_base.h:70-76 | stores the interval raised to at least 1 and changes no other field |
| LogHelperBase.Session.DisableDoubleErrorKill | log_helper/include/log_helper_base.h:78-80 | clears the flag and changes no other field; no method sets it again |
| LogHelperBase.Session.GetLogFileName | log_helper/include/log_helper_base.h:82-84 | always the empty string, since nothing assigns it |
| LogHelperUdp.Datagram | log_helper/include/log_helper_udp.h:41-42 | the datagram is one digit naming the message type, then the message |
| LogHelperUdp.Transmitted | log_helper/include/log_helper_udp.h:44 | what `sendto` transmits with `BUFFER_SIZE` bytes: a prefix of at most 1024 characters, the whole datagram when it fits |
| LogHelperUdp.DatagramRoundTrip | log_helper/include/log_helper_udp.h:41-42 | a datagram gives back its type and its message |
| LogHelperUdp.HeaderPayload | log_helper/include/log_helper_udp.h:53-62 | the header is the decimal length of the name, then the name followed by the test information |
| LogHelperUdp.HeaderRoundTrip | log_helper/include/log_helper_udp.h:53-62 | a reader that trusts the leading digits recovers the name and the test information when the text after the length does not start with a digit |
| LogHelperUdp.HeaderAmbiguous | log_helper/include/log_helper_udp.h:60 | without that condition two different sessions can send the same header |
| LogHelperUdp.UdpSession.constructor | log_helper/include/log_helper_udp.h:67-85 | the constructor sends exactly one datagram, the `CREATE_HEADER` header as `sendto` transmits it (cut to 1024 characters) |
| LogHelperUdp.UdpSession.Open | log_helper/include/log_helper_udp.h:67-70 | a configuration error comes back unchanged; otherwise `server_ip` and `port` are read with `operator[]`, a `port` that `stoi` refuses fails, and a session is built that has sent only the header, cut to 1024 characters |
| LogHelperUdp.UdpSession.SendMessage | log_helper/include/log_helper_udp.h:41-51 | appends the datagram as transmitted, cut to 1024 characters; a failed send changes nothing else |
| LogHelperUdp.UdpSession.StartLogFile | log_helper/include/log_helper_udp.h:53-63 | sends the header with `CREATE_HEADER`, also for names longer than 255, cut to 1024 characters like every datagram |
| LogHelperUdp.UdpSession.StartIteration | log_helper/include/log_helper_udp.h:87-89 | the base's iteration start, and nothing is sent |
| LogHelperUdp.UdpSession.EndIteration | log_helper/include/log_helper_udp.h:91-96 | the base update, then an `ITERATION_TIME` datagram with the stored string, as transmitted, exactly when that string is not empty |
| LogHelperUdp.UdpSession.LogErrorCount | log_helper/include/log_helper_udp.h:98-99 | changes no state and sends nothing |
| LogHelperUdp.UdpSession.LogInfoCount | log_helper/include/log_helper_udp.h:101-102 | changes no state and sends nothing |
| LogHelperUdp.UdpSession.LogErrorDetail | log_helper/include/log_helper_udp.h:104-106 | only writes the text and a newline to standard output |
| LogHelperUdp.UdpSession.LogInfoDetail | log_helper/include/log_helper_udp.h:108-109 | changes no state and sends nothing |
| LogHelperUdp.SentLineNamesIteration | log_helper/include/log_helper_udp.h:91-96 | every `ITERATION_TIME` datagram decodes to its line, which names the iteration it closes |
| LogHelperUdp.IterationDatagramWhole | log_helper/include/log_helper_udp.h:91-96 | with durations of at most 400 characters, an `#IT` datagram fits the buffer and goes out uncut |
| LoggerBase.Session.constructor | logger/include/log_helper_base.h:86-123 | the member initialisers: caps 500, interval 1, every counter 0, flag on |
| LoggerBase.Session.StartIteration | logger/include/log_helper_base.h:17-22 | returns 0, zeroes both detail counters and records the start time; nothing else changes |
| LoggerBase.Session.EndIteration | logger/include/log_helper_base.h:24-42 | returns 0; records and accumulates the duration, zeroes both counters, stores the `#IT` line only on multiples of the interval, and advances the counter by one with wrap-around |
| LoggerBase.Session.SetMaxErrorsIter | logger/include/log_helper_base.h:52-55 | stores the cap and returns it; no other field changes |
| LoggerBase.Session.SetMaxInfosIter | logger/include/log_helper_base.h:57-60 | stores the cap and returns it; no other field changes |
| LoggerBase.Session.SetIterIntervalPrint | logger/include/log_helper_base.h:62-69 | stores and returns the interval raised to at least 1 |
| LoggerBase.Session.DisableDoubleErrorKill | logger/include/log_helper_base.h:71-73 | clears the flag; no other field changes |
| LoggerBase.Session.GetLogFileName | logger/include/log_helper_base.h:75-77 | always the empty string |
| LoggerBase.Session.GetIterationNumber | logger/include/log_helper_base.h:79-81 | the number of `end_iteration` calls since construction (modulo 2^64) |
| LoggerUdp.Bytes | logger/include/log_helper_udp.h:86-88 | `std::copy` into `uint8_t`: one byte per character, its code truncated to 8 bits |
| LoggerUdp.Frame | logger/include/log_helper_udp.h:83-88 | exactly 1024 bytes: the tag in byte 0, the payload in bytes 1..|payload|, zero everywhere after |
| LoggerUdp.UnframeFrame | logger/include/log_helper_udp.h:83-88 | a payload without zero bytes is recovered from its frame together with the tag |
| LoggerUdp.FillFrame | logger/include/log_helper_udp.h:84-88 | the fill, tag write and copy leave exactly the frame in the buffer, whatever it held before |
| LoggerUdp.UdpSession.Open | logger/include/log_helper_udp.h:53-74 | `server_ip` and `port` are read with `operator[]`; a `port` that `stoi` refuses fails; a new session has sent nothing |
| LoggerUdp.UdpSession.SendMessage | logger/include/log_helper_udp.h:41-49 | hands the whole 1024-byte buffer to the socket; returns 1 on success and throws when `sendto` fails |
| LoggerUdp.UdpSession.StartIteration | logger/include/log_helper_udp.h:76-78 | the base's iteration start; returns 0 |
| LoggerUdp.UdpSession.EndIteration | logger/include/log_helper_udp.h:80-94 | the base update; with an empty string it returns 1, sends nothing and leaves the buffer alone; otherwise the buffer holds the `ITERATION_TIME` frame of the line, which fits, and is sent, and the send's result is returned |
| LoggerUdp.UdpSession.LogErrorCount | logger/include/log_helper_udp.h:96-98 | returns 0 and changes nothing |
| LoggerUdp.UdpSession.LogInfoCount | logger/include/log_helper_udp.h:100-102 | returns 0 and changes nothing |
| LoggerUdp.UdpSession.LogErrorDetail | logger/include/log_helper_udp.h:104-107 | returns 0 and only writes the text and a newline to standard output |
| LoggerUdp.UdpSession.LogInfoDetail | logger/include/log_helper_udp.h:109-111 | returns 0 and changes nothing |
| CommandQueue.LoadedEntries | server/command_factory.py:15-22 | the commands of the files found, in file order; nothing when no file is found |
| CommandQueue.LoadedEntriesAppend | server/command_factory.py:15-20 | loading files one group after another loads the concatenation, in file order |
| CommandQueue.MissingFileIgnored | server/command_factory.py:21-22 | a file that is not found contributes nothing, wherever it is |
| CommandQueue.Refill | server/command_factory.py:28-34 | a missing or empty deque becomes a copy of the loaded list; any other deque is kept |
| CommandQueue.Pop | server/command_factory.py:45-46 | a request takes the last element, and with commands loaded the deque is never left empty |
| CommandQueue.Serve | server/command_factory.py:45-46 | k requests serve k entries and leave a non-empty deque |
| CommandQueue.ReverseAt | server/command_factory.py:45 | reading from the right end serves element n-1-i at step i |
| CommandQueue.ReversePermutes | server/command_factory.py:45 | reading from the right end only reorders the entries |
| CommandQueue.ServeDrains | server/command_factory.py:45-46 | draining a deque of the first m loaded entries serves them last-first and refills the deque |
| CommandQueue.FullCycle | server/command_factory.py:34 | from a full deque, n requests serve every loaded entry exactly once, in reverse list order, and the deque is full again |
| CommandQueue.QueueAfter | server/command_factory.py:45-46 | the deque after k requests is a non-empty prefix of the loaded list |
| CommandQueue.PopAfter | server/command_factory.py:45-46 | one request from the deque after k requests serves entry n-1-(k mod n) and leaves the deque after k+1 |
| CommandQueue.Turn | server/command_factory.py:45-46 | request k serves a loaded entry; the first n requests serve entries n-1 down to 0 |
| CommandQueue.TurnPeriodic | server/command_factory.py:45-46 | request k + n serves the same entry as request k |
| CommandQueue.TurnInBlock | server/command_factory.py:45-46 | in each block of n requests starting at a multiple of n, request i serves entry n-1-i |
| CommandQueue.ServeFrom | server/command_factory.py:45-46 | running the deque for any number of requests agrees with the closed form, entry by entry and for the final deque |
| CommandQueue.EncodeAscii | server/command_factory.py:47-48 | `encode('ascii')` succeeds exactly when every character is below 128, then one byte per character; otherwise `UnicodeEncodeError` |
| CommandQueue.DecodeAscii | server/command_factory.py:47-48 | decoding succeeds exactly on bytes below 128 |
| CommandQueue.AsciiRoundTrip | server/command_factory.py:47-48 | an encoded command decodes back to its text |
| CommandQueue.Response | server/command_factory.py:47-50 | `KeyError` for a missing `exec`; success exactly when both keys are present and both encode, giving the two encoded commands and two empty strings |
| CommandQueue.CommandFactory.constructor | server/command_factory.py:12-26 | the loaded list is the concatenation of the files found, in order, and the deque starts as a copy of it |
| CommandQueue.CommandFactory.FillTheQueue | server/command_factory.py:28-34 | only a missing or empty deque is replaced |
| CommandQueue.CommandFactory.GetCmdsAndTestInfo | server/command_factory.py:36-50 | with nothing loaded, `IndexError` and no change; otherwise the last entry is popped and the deque refilled, and the k-th request serves entry n-1-(k mod n) |

## Left out

- Sockets (`socket`, `inet_pton`, `htons`, `sendto`): the model records what is handed to
  `sendto`. Draft B takes the success of `sendto` as a parameter.
- Draft A passes `BUFFER_SIZE` bytes of a shorter string to `sendto`, which reads past its end.
  Only the string's own text is modelled for such a datagram. A longer datagram is recorded cut
  to its first 1024 characters, as `sendto` transmits it.
- Character encodings: every `std::string` is a Dafny string whose characters are its bytes. A
  Dafny string holding a character of 256 or more stands for no `std::string`. Text that would
  be UTF-8 encoded in C++ is modelled by its bytes, not by its Unicode characters.
- Floating point and `std::chrono`: durations are reals, and `std::to_string` on a `double` is
  the `render` parameter.
- Writes to standard output and standard error are left out. Draft A's diagnostics for a failed
  send, a name longer than 255 and a bad socket are among them. `LogErrorDetail` returns the
  line it would print.
- LogHelperUdp.UdpSession.Open: the port is kept as the `int` that `stoi` returns.
  Its conversion to `int32_t` (the same range) and through `htons` is not modelled.
- LoggerUdp.UdpSession.EndIteration: requires that `render` never produces more than 400
  characters (`std::to_string` on a `double` produces at most 317). Without this bound the
  unchecked `std::copy` could overflow the buffer, which the model does not describe.
- LoggerUdp.UdpSession.Open: the draft's base has no configuration map, so the map is a
  parameter, and the shared static buffer is passed in as an array of 1024 bytes.
- CommandQueue.CommandFactory.constructor: opening and parsing the JSON files is input. Each
  file is already either not found or a list of objects with string values. Malformed JSON,
  non-string values and the logger are left out.
- CommandQueue.CommandFactory.GetCmdsAndTestInfo: only the default `ascii` encoding is
  modelled.
- Kill policies, caps on detail messages, end messages and log file naming do not exist in the
  code: the log methods are empty or return 0. They are modelled as such.
- logger/include/log_helper_tcp.h, log_helper/include/log_helper.h and the other server files
  (machine handling, socket server, curses output, logging formatters) are not part of this
  model.
