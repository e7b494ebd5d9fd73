# libnode HTTP parser adapter, modelled in Dafny

This project models the `Parser` class of libnode's HTTP module
(`src/http/parser.h`). The class sits between a byte-level HTTP/1.x
tokenizer (`http_parser`) and the `IncomingMessage` objects handed to the
application. The tokenizer calls it back with fragments of the request
target and of header names and values, and it calls it at the end of the
header block, for each body chunk and at the end of the message. From these
callbacks the parser:

- rebuilds `(name, value)` header pairs from fragments split anywhere, in two
  parallel arrays `fields_` and `values_`;
- at the end of the header block, names the request method, builds the
  `"major.minor"` version string and creates the `IncomingMessage`. It copies
  the header lines onto the message and resets its accumulators. Unless the
  connection is being upgraded, it hands the message to the application's
  `onIncoming` callback, whose answer says whether to skip the body;
- routes each body chunk, and the end of stream, either straight to the
  message or onto its pending queue when the consumer has paused it or
  something is already queued;
- at the end of the message, adds trailer fields as header lines;
- turns the tokenizer's consumed-byte count into the result of `execute`
  (-1 for invalid input unless upgrading) and `finish`.

Modules:

- `Strings` (strings.dfy): nullable strings, the `LIBNODE_STR_UPDATE` macro and
  fragment concatenation.
- `HeaderPairs` (header_pairs.dfy): the header accumulator as pure functions on
  the contents of `fields_`/`values_`, and lemmas that fragments join into
  exactly one pair each. It also holds the header cap.
- `HttpMethod` (http_method.dfy): the method-code switch and its inverse.
- `HttpVersion` (http_version.dfy): the version string and a reader that
  recovers both numbers from it.
- `Incoming` (incoming.dfy): the observable record of an `IncomingMessage`,
  the backpressure coupler as functions on its delivery state, and the
  ordering lemmas.
- `HttpParser` (parser.dfy): `execute`/`finish` return codes and the `Parser`
  class. Its callback methods update its fields in place and are specified
  by the functions above.
- `Scenarios` (scenarios.dfy): short callback runs (split header, header
  hand-off, paused consumer, upgrade), checked against the method contracts
  alone.

The tokenizer is not modelled. What it reports is an input to the model: the
bytes consumed, its upgrade bit, and the values it parsed for the header block
(`TokenizerState`). The `onIncoming` callback is an input too: `reply` is
what it returns, and `None` stands for a value that is not a boolean.
`to<Boolean>` then leaves `skipBody` false. The parser records each call to
`onIncoming` in `incomingCalls`.

The `assert`s the source makes on the header arrays (parser.h:98, 114, 201,
247) become preconditions that the tokenizer's callback order guarantees:
a header value only follows a header name, and every name has a value by the
end of a header block.

## Model

| member | source | states |
|---|---|---|
| Strings.Update | src/http/parser.h:66-71 | A null string becomes the fragment; otherwise the result is the old text followed by the fragment |
| Strings.Accumulate | src/http/parser.h:81-85 | A non-empty run of `onUrl` fragments always leaves a non-null url |
| Strings.AccumulateJoins | src/http/parser.h:81-85 | However the url arrives in fragments, it ends up as the old url followed by their concatenation |
| HeaderPairs.Lines | src/http/parser.h:205-209 | One header line per field that has a value, pairing `fields[i]` with `values[i]` |
| HeaderPairs.Balanced | src/http/parser.h:87-117 | The accumulator invariant the `assert`s at parser.h:98 and 114 check between callbacks: there are as many fields as values or one more, and no slot is null |
| HeaderPairs.AddField | src/http/parser.h:87-101 | `onHeaderField` keeps the invariant and afterwards there is one more field than values. It opens a new slot only when the counts were equal and then holds just the fragment; otherwise only the last field grows by the fragment. Values are untouched |
| HeaderPairs.AddValue | src/http/parser.h:103-117 | `onHeaderValue` (after a name) keeps the invariant and afterwards there are as many values as fields. It opens a new slot only when the counts differed; otherwise only the last value grows. Fields are untouched |
| HeaderPairs.AddFieldAsWritten | src/http/parser.h:92-99 | `onHeaderField` if the getter yields a copy of the slot: a new slot is added but stays null, and an existing one keeps its text; the fragment is lost |
| HeaderPairs.AddValueAsWritten | src/http/parser.h:108-115 | `onHeaderValue` under the same reading: a new value slot stays null and the fragment is lost |
| HeaderPairs.SlotUpdateLost | src/http/parser.h:92-115 | Under that reading a name and a value leave two null slots, where the in-place update gives the pair itself |
| HeaderPairs.FeedFields | src/http/parser.h:87-101 | Any run of `onHeaderField` callbacks keeps the invariant and leaves exactly one field without a value |
| HeaderPairs.FeedValues | src/http/parser.h:103-117 | Any run of `onHeaderValue` callbacks keeps the invariant and leaves every field with a value |
| HeaderPairs.FieldFragmentsJoin | src/http/parser.h:92-99 | Name fragments f1..fk arriving when all fields have values add exactly one field, f1++..++fk |
| HeaderPairs.ValueFragmentsJoin | src/http/parser.h:108-115 | Value fragments v1..vm following a name add exactly one value, v1++..++vm |
| HeaderPairs.OnePair | src/http/parser.h:87-117 | Name fragments then value fragments add exactly one pair, both joined; earlier pairs are untouched |
| HeaderPairs.FeedBlock | src/http/parser.h:87-117 | A whole header block keeps the invariant and ends with every field paired |
| HeaderPairs.Joined | src/http/parser.h:87-117 | The lines a fragmented block stands for, one per header |
| HeaderPairs.BlockLines | src/http/parser.h:87-117 | A header block adds exactly its joined lines, in order, after the existing ones |
| HeaderPairs.FragmentationTransparent | src/http/parser.h:87-117 | Two fragmentations of the same header lines yield the same lines |
| HeaderPairs.HeaderLimit | src/http/parser.h:200-204 | The number of lines copied, as intended: all of them when the cap is 0, otherwise the smaller of the count and the cap |
| HeaderPairs.HeaderLimitAsWritten | src/http/parser.h:202-204 | The guard as written: 0 lines when the cap is 0, the full count otherwise |
| HeaderPairs.InvertedGuard | src/http/parser.h:202-204 | As written, the default cap of 0 drops every header line, and a non-zero cap is never applied |
| HttpMethod.Name | src/http/parser.h:130-160 | The name is empty exactly for codes outside DELETE, GET, HEAD, POST, PUT, CONNECT, OPTIONS and TRACE |
| HttpMethod.Code | src/http/parser.h:132-159 | A recognised name leads to a known code whose name it is |
| HttpMethod.NameRoundTrip | src/http/parser.h:132-159 | Each of the eight codes gets its own name, which leads back to it; every other code gets no code back |
| HttpMethod.NameInjective | src/http/parser.h:132-159 | Two codes share a name only if they are equal or both unknown |
| HttpVersion.VersionString | src/http/parser.h:191-194 | The version string is two runs of digits, the major's and the minor's, around one dot |
| HttpVersion.Decimal | src/http/parser.h:191-194 | A number is written as a non-empty run of digits with no leading zero |
| HttpVersion.DecimalRoundTrip | src/http/parser.h:191-194 | Reading the digits back gives the number |
| HttpVersion.FirstDot | src/http/parser.h:191-194 | The first '.' of a string, or its length when there is none |
| HttpVersion.ParseVersion | src/http/parser.h:191-194 | A version is accepted only if a '.' separates two runs of digits |
| HttpVersion.VersionRoundTrip | src/http/parser.h:191-194 | Reading back `"major.minor"` gives major and minor |
| HttpVersion.VersionStringInjective | src/http/parser.h:191-194 | Different versions give different strings |
| Incoming.Queues | src/http/parser.h:234-235 | A paused message always queues; an unpaused one queues exactly when its queue is non-empty (the same test at parser.h:260-261) |
| Incoming.Body | src/http/parser.h:232-240 | A chunk is queued when the message is paused or its queue is non-empty, and emitted otherwise; either way it is delivered once, after everything before it |
| Incoming.Eof | src/http/parser.h:258-267 | An upgraded message is left untouched. Otherwise the EOF sentinel is queued by the same rule, or READABLE is cleared and the end emitted; it comes after everything before it |
| Incoming.FeedBody | src/http/parser.h:232-240 | A run of body chunks never changes the message's flags |
| Incoming.OrderPreserved | src/http/parser.h:232-267 | Whatever the flags, emitted data followed by the queue is the input chunks in order, then one end marker unless upgraded |
| Incoming.QueuedRun | src/http/parser.h:232-240 | Once paused or non-empty, the queue receives every later chunk in order and nothing is emitted |
| Incoming.PausedMessage | src/http/parser.h:232-267 | A message paused throughout gets every chunk and then one EOF sentinel on its queue, in order, and no emission |
| Incoming.LiveRun | src/http/parser.h:232-240 | With no pause and an empty queue, every chunk is emitted directly in order and the queue stays empty |
| Incoming.BodyOnlyData | src/http/parser.h:232-240 | Body chunks only append data emissions, never an end |
| Incoming.UpgradedNoEnd | src/http/parser.h:258-267 | An upgraded message never gets an end of stream |
| Incoming.IncomingMessage.constructor | src/http/parser.h:196 | A new message is readable, with nothing set, queued or emitted |
| HttpParser.Execute | src/http/parser.h:43-54 | -1 exactly when the tokenizer is not upgrading and consumed other than `len` bytes; otherwise the consumed count |
| HttpParser.Finish | src/http/parser.h:56-63 | EOF is accepted exactly when the tokenizer consumed nothing |
| HttpParser.HeaderFlagsAsWritten | src/http/parser.h:167-172 | As written, SHOULD_KEEP_ALIVE is on after a header block when it was on before or the tokenizer says keep-alive; UPGRADE likewise; HAVE_FLUSHED is untouched |
| HttpParser.HeaderFlags | src/http/parser.h:167-172 | As intended, SHOULD_KEEP_ALIVE is on exactly when this message is keep-alive; UPGRADE stays on once set; HAVE_FLUSHED is untouched |
| HttpParser.KeepAliveSticks | src/http/parser.h:167-172 | As written, a connection once keep-alive reports every later message keep-alive, where the intended flags follow the tokenizer |
| HttpParser.Parser.constructor | src/http/parser.h:20-29 | No flags, null url and method, cap 0, empty header arrays |
| HttpParser.Parser.SetFlag | src/http/parser.h:275-281 | Turns one flag on and leaves the others |
| HttpParser.Parser.UnsetFlag | src/http/parser.h:281 | Turns one flag off and leaves the others |
| HttpParser.Parser.HasFlag | src/http/parser.h:221-226 | Whether a flag is on, the test behind the UPGRADE mark and the keep-alive argument |
| HttpParser.Parser.OnMessageBegin | src/http/parser.h:73-79 | The url becomes null and both header arrays empty; method, status, versions and flags are unchanged |
| HttpParser.Parser.OnUrl | src/http/parser.h:81-85 | The url becomes non-null and grows by the fragment |
| HttpParser.Parser.OnHeaderField | src/http/parser.h:87-101 | The arrays change exactly as `AddField` says, and the invariant holds |
| HttpParser.Parser.OnHeaderValue | src/http/parser.h:103-117 | The arrays change exactly as `AddValue` says, and the invariant holds |
| HttpParser.Parser.CopyHeaderLines | src/http/parser.h:205-209 | Adds the first `n` header lines to the message in index order |
| HttpParser.Parser.OnHeadersComplete | src/http/parser.h:119-175 | Records the method name (requests) or status (responses), the versions and the flags as `HeaderFlags` says. Then it does what `HeadersDisposition` states: `onIncoming` gets this message's own keep-alive answer unless upgrading. It returns 1 exactly when the body is to be skipped |
| HttpParser.Parser.BuildIncoming | src/http/parser.h:190-209 | A fresh message with the url, the `"major.minor"` string and the capped header lines in index order |
| HttpParser.Parser.MarkIncoming | src/http/parser.h:215-222 | The message gets the parser's method when one is set, otherwise its status code, and the UPGRADE mark exactly when the parser has UPGRADE |
| HttpParser.Parser.HeadersDisposition | src/http/parser.h:190-230 | The new message gets the method if one is set, else the status, and UPGRADE if the parser has it. Url and arrays are reset. `onIncoming` is called once with SHOULD_KEEP_ALIVE unless upgrading. The result is true only when not upgrading and `onIncoming` answered true |
| HttpParser.Parser.OnBody | src/http/parser.h:232-240 | The message's delivery state changes exactly as `Incoming.Body` says |
| HttpParser.Parser.OnMessageComplete | src/http/parser.h:242-272 | COMPLETE is set and trailer pairs are appended as header lines. The arrays end empty, and the url becomes null only when trailers were present. The end of stream is routed as `Incoming.Eof` says |

## Findings

| source | as written | input that shows it | evidently intended | confidence | as-written member | corrected member |
|---|---|---|---|---|---|---|
| src/http/parser.h:202-204 | The cap is applied only when `maxHeaderPairs_` is zero, and then caps the count to zero | `maxHeaderPairs_` = 0 (the constructor's value, never changed in this file) with one header: no header line is copied | Cap only when the cap is non-zero: copy the smaller of the count and the cap, all lines when the cap is 0 | high; not executed | HeaderPairs.InvertedGuard | HeaderPairs.HeaderLimit |
| src/http/parser.h:99 | `LIBNODE_STR_UPDATE` assigns to the result of `getCPtr<String>(k)`, the same getter that parser.h:207 uses to read a slot. If it returns the string pointer by value, the update changes a copy and the slot keeps the null pushed at parser.h:95 (likewise parser.h:111 and 115) | One header `a: b`: both slots stay null and `addHeaderLine` receives a null name and value | The fragment is concatenated into the array slot itself | plausible, depends on the array library, which is not part of this model; not executed | HeaderPairs.SlotUpdateLost | HeaderPairs.OnePair |
| src/http/parser.h:167-172 | `flags_` is never cleared: `onMessageBegin` leaves it and the header callback only sets bits | Two requests on one connection, the first keep-alive and the second `Connection: close`: `onIncoming` is told `true` for both | SHOULD_KEEP_ALIVE reflects the current message | medium; not executed | HttpParser.KeepAliveSticks | HttpParser.HeaderFlags |

The `Parser` class uses the corrected halves: `HeaderLimit` for the header cap, the in-place slot update of `AddField`/`AddValue`, and `HeaderFlags` for the flags.

## Left out

- The `http_parser` tokenizer (`http_parser_execute`, `http_parser_init`, `http_should_keep_alive`) is not part of this model. Its results are inputs: the consumed count, the upgrade bit and `TokenizerState`. The tokenizer's combined request/response mode is not modelled; a parser is either a request or a response parser.
- The one-time wiring of the static settings table in `execute` (parser.h:32-41) only installs the callbacks. Its guard is never set, which has no observable effect.
- The check of `socket_->readable()` at the end of a message does nothing (the resume is commented out), so it is left out. The socket is not modelled, and `IncomingMessage::create` does not receive it.
- `IncomingMessage` internals are not part of this model: events, draining the queue on resume, the stream. Its state is a record of what the parser sets, the pending queue and a log of `emitData`/`emitEnd` calls. Its initial state (readable, nothing queued) is assumed, because its source is not shown.
- UTF-8 decoding in `String::create` and the copy in `Buffer::create` are not modelled: fragments are character sequences and chunks byte sequences.
- `include/libnode/http/server_response.h` declares an interface with no behaviour and is not modelled.
- `LIBNODE_FLAG_METHODS` is defined in `flag.h`, which is not part of this model. The flags are the set of the three distinct bits at parser.h:275-279, with `SetFlag` and `HasFlag`, the two that the parser uses.
- HttpParser.Execute: the consumed count is returned as an unbounded integer. The narrowing of `size_t` to a 32-bit `Int` for buffers of 2^31 bytes or more is not modelled.
- The static callbacks other than `onHeadersComplete` always return 0 to the tokenizer. That return value is not modelled.
- `majorVer_`, `minorVer_` and `statusCode_` are left uninitialised by the C++ constructor. The Dafny constructor states nothing about them; they are versions and a status code, so they are modelled as non-negative.
- The tokenizer's numeric method codes are the positions of the eight named methods in its `http_method` enumeration (DELETE = 0 … TRACE = 7). All other codes map to the empty name, which the model covers for any code.
- HttpParser.Parser.BuildIncoming: copies `HeaderLimit` lines, the corrected cap, so do `HttpParser.Parser.HeadersDisposition` and `HttpParser.Parser.OnHeadersComplete`. As written (parser.h:202-204) the default cap of 0 copies no header line onto the message; `HeaderPairs.HeaderLimitAsWritten` states that behaviour and the class does not.
- HttpParser.Parser.OnHeadersComplete: clears SHOULD_KEEP_ALIVE when the tokenizer says the message is not keep-alive, as `HeaderFlags` says. As written (parser.h:171) the flag is only ever set, so a later message inherits it; `HttpParser.HeaderFlagsAsWritten` states that behaviour and the class does not.
- HeaderPairs.AddField: assumes that `getCPtr<String>(k)` at parser.h:99 and 115 designates the array slot itself, so that the update is made in place (also `HeaderPairs.AddValue`). The opposite reading is `HeaderPairs.AddFieldAsWritten`/`AddValueAsWritten`, under Findings.
- At message end the url is reset only when trailers were present (parser.h:253). The model keeps this behaviour of the code and does not reset it in every case.
