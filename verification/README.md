# nano-llm in Dafny

nano-llm is a gateway that accepts OpenAI-style chat requests, forwards them to one of
several configured providers, and streams or buffers the answer back. Without its sockets
it is a chain of small strict machines, and this project models that chain and proves what
each link promises the next.

* **JSON** (`Json`, `JsonGrammar`, `JsonParser`, `JsonSound`, `JsonComplete`, `JsonTheorems`,
  `JsonMachine`, `Utf8`, `Numerals`): the hand-written parser, the four printers and their three
  escaping tables. Sections 2 to 7 of RFC 8259 are written down as concrete syntax trees; the parser
  accepts exactly the texts that denote a value without repeated keys (and without lone
  surrogates), and returns that value. Printing and parsing are inverse.
* **Requests** (`Transcript`, `TranscriptMachine`, `Tools`, `Native`, `NativeJson`, `Compatible`, `Translators`,
  `TranslatorMachine`): the turn machine of the transcript validator is its grammar, and the
  provider translations of what it accepts lose nothing and take nothing for granted
  that validation did not establish.
* **Streams** (`Response`, `Assembler`, `AssemblerMachine`, `StreamBuffer`, `Sse`, `SseMachine`, `Access`,
  `Adapters`, `OpenAi*`, `Anthropic*`, `Gemini*`): bytes become lines, events, provider lifecycle steps and
  canonical chunks. Fragmentation does not matter, streaming agrees with buffering, and each decoder's
  private counters stay coupled to its assembler's.
* **Delivery** (`Gate`, `Delivery`, `DeliverySafety`, `Serialize`, `WireText`, `ReadBack`, `Reread`, `Gateway`): the
  commitment gate accepts a described language, the two delivery loops are one function, and
  the gateway's own output, read by its own client decoder, is itself.
* **Failover and permits** (`Deadline`, `Dispatch`, `Permits`): the polling loop and the two dispatch loops over
  arbitrary clocks, clients and providers, and the lock-free counters under arbitrary interleavings.

Code that computes a value is a function; code that works step by step is a method or a class whose
contract ties it to that function, and the theorems are lemmas about the function. Strings are sequences
of Unicode scalars, byte streams sequences of bytes. The clock, the cancellation flag, write results, the
polls of a future and the shared `NEXT_ID` counter are oracles: arbitrary functions of how often they
were asked.

The comment above the polling loop (`src/server.rs:2058-2060`) says that an exact tie is always the route-wide
timeout. The code reads the clock twice per check, so that holds exactly when the deadline does
not fall between the two readings; `Deadline.TieIsOverallExactly` states this and
`Deadline.TieLostToMovingClock` gives a clock for which it fails.

## Model

| member | source | states |
|---|---|---|
| JsonTheorems.DecodeIsGrammar | src/request.rs:152-169 | decoding returns a value if and only if the text, whitespace around it included, spells that value by the grammar of RFC 8259 and no object in it repeats a decoded key |
| JsonTheorems.GrammarIsFunctional | src/request.rs:1041-1061 | a text denotes at most one value free of repeated keys |
| JsonSound.ValueSound | src/request.rs:1041-1061 | what a successful parse consumed is whitespace and the text of a syntax tree whose meaning is the returned value, at any position and with any text after it |
| JsonComplete.ValueComplete | src/request.rs:1041-1257 | every legal text of a duplicate-free value, followed by anything that does not continue a number, parses to that value and stops at its end |
| JsonTheorems.ParseEncode | src/request.rs:1041-1257 | printed by any of the printers, a value with legal numbers and distinct keys parses back and exactly its text is consumed |
| JsonTheorems.EncodeRoundTrip | src/anthropic.rs:859-896 | decoding what `encode` printed gives the value back, for each escaping table |
| JsonTheorems.EncodeInjective | src/openai_compatible.rs:593-635 | distinct printable values never print alike |
| JsonTheorems.QuoteRoundTrip | src/server.rs:2433-2448 | an escaped string between quotes parses back to itself and the parser stops right after the quote |
| JsonTheorems.ReprintRoundTrip | src/gemini.rs:990-1026 | whatever was decoded is printable, and printing and decoding it again changes nothing |
| JsonMachine.Parser.Value | src/request.rs:1041-1061 | the recursive method moves the position exactly past what the specification parses and returns the same value or error |
| JsonMachine.Parser.ReadObject | src/request.rs:1071-1116 | the member loop, duplicate check included, is the specification of the object after its brace |
| JsonMachine.Parser.ReadArray | src/request.rs:1118-1139 | the element loop is the specification of the array after its bracket |
| JsonMachine.Parser.Number | src/request.rs:1141-1179 | the lexeme is the slice passed over, and is found where the specification finds it |
| JsonMachine.Parser.Str | src/request.rs:1181-1239 | the character loop decodes escapes and surrogate pairs as the specification does |
| JsonMachine.Parser.Hex4 | src/request.rs:1241-1257 | four hexadecimal digits are read as one code unit, or none |
| JsonMachine.DecodeJsonValue | src/request.rs:152-169 | one value and nothing but whitespace around it |
| JsonMachine.DecodeJsonObject | src/request.rs:126-145 | the same for an object |
| Utf8.DecodeIffEncode | src/request.rs:126-129 | bytes are accepted as text if and only if they are the encoding of that text |
| Numerals.ParseDecimal | src/anthropic.rs:678-686 | a printed decimal reads back as its number |
| Numerals.HexInjective | src/response.rs:289-296 | distinct counter values print distinct hexadecimal suffixes |
| Transcript.TurnMachineIsGrammar | src/request.rs:599-832 | the turn machine accepts a list of well-shaped messages if and only if it is instructions, then user, then alternating turns ending on the user side, each call answered exactly once in any order by the group right after it, with unique nonempty call IDs that name declared tools |
| Transcript.RunStaysSteady | src/request.rs:607-764 | after any accepted messages calls are unresolved exactly in the state that awaits results, and unresolved IDs are IDs in use |
| Transcript.RunFollowsLanguage | src/request.rs:607-764 | from every steady state the machine accepts exactly the language of that state |
| Transcript.PendingSettles | src/request.rs:720-742 | removing results one by one from the set of unresolved IDs succeeds exactly when the next results are a permutation of that set |
| Transcript.AddCallsIsFresh | src/request.rs:775-832 | the ID loop succeeds exactly when the new calls have distinct, nonempty, unused IDs and declared names, and then adds exactly those IDs |
| TranscriptMachine.ValidateMessages | src/request.rs:599-764 | one pass updating state and two sets in place accepts exactly the valid `messages` values |
| TranscriptMachine.Validator.Take | src/request.rs:610-755 | a message is taken exactly if its shape is allowed and it is its turn, and the fields then hold the next state |
| TranscriptMachine.Validator.TakeAssistant | src/request.rs:667-706 | the assistant arm, its calls entered in both sets |
| TranscriptMachine.Validator.TakeToolResult | src/request.rs:707-748 | the tool arm, the answered ID removed |
| TranscriptMachine.Validator.ToolCalls | src/request.rs:775-832 | the loop over the calls of one message accepts exactly fresh, well-shaped, nonempty call lists |
| Tools.ValidateTools | src/request.rs:860-924 | the names of a nonempty, well-shaped tool list with distinct names, or nothing |
| Tools.ValidatedToolsAreDeclared | src/response.rs:258-287 | the names validation accepts are exactly those responses are later checked against, and none is empty |
| Tools.ValidateRouteToolArguments | src/request.rs:556-597 | accepts exactly when the arguments of every past call are one JSON object |
| Tools.ValidatedIsTranslatable | src/request.rs:183-204 | what both validations accept satisfies the preconditions of both translators |
| TranslatorMachine.Messages | src/anthropic.rs:695-785 | for every validated transcript no `expect` or `unreachable!` is reached and the output is the rendering of the transcript's native turns |
| TranslatorMachine.Contents | src/gemini.rs:816-910 | the same for Gemini; the map lookup of each result's call name always succeeds |
| TranslatorMachine.ToolResultTurn | src/anthropic.rs:756-779 | the inner loop turns a maximal run of results into one user message |
| TranslatorMachine.FunctionResponseTurn | src/gemini.rs:874-905 | the inner loop turns a maximal run of results into one user content, each with the name of the call it answers |
| Native.NativeFormIsFaithful | src/anthropic.rs:695-785 | native roles strictly alternate from user to user, flattening the turns gives the non-instruction messages in order, and a results turn answers by name each call of the assistant turn just before it, which is the only place one stands |
| Native.GroupAlternates | src/gemini.rs:816-910 | alternation from any point of a valid transcript |
| Native.FlattenGroup | src/gemini.rs:816-910 | grouping loses and reorders nothing, for any message list |
| Native.GroupMatches | src/gemini.rs:874-905 | each call is answered once, and each answer carries the name of the call it answers in the immediately preceding turn |
| Compatible.CompatibleKeepsTheConversation | src/openai_compatible.rs:547-569 | the transcript sent to the compatible family is itself valid, with the same conversation and the same combined instruction in at most one message, and merging it again changes nothing |
| Compatible.AfterInstructions | src/request.rs:323-335 | what follows the leading instructions is the whole conversation and holds all the calls |
| NativeJson.AnthropicKeepsTheConversation | src/anthropic.rs:787-799 | two transcripts sent to Anthropic as the same document have the same conversation |
| NativeJson.GeminiKeepsTheConversation | src/gemini.rs:912-920 | the same for Gemini, function names of the responses included |
| Response.GeneratedCallId | src/response.rs:289-296 | the retry loop ends with an unused, nonempty ID, whatever other threads draw from the counter |
| AssemblerMachine.StreamAssembler.GenerateCallId | src/response.rs:289-296 | the loop over the shared counter and the set it updates |
| AssemblerMachine.StreamAssembler.AcceptCallDelta | src/response.rs:567-614 | map, ID set, next index and the rewritten part change exactly as specified; map lookups succeed because the keys are 0 up to the next index |
| AssemblerMachine.StreamAssembler.PushDelta | src/response.rs:470-517 | chunk, error and new state of one push |
| AssemblerMachine.StreamAssembler.UsageChunk | src/response.rs:533-550 | the one usage chunk, only after the end and only on request |
| AssemblerMachine.StreamAssembler.CompleteCalls | src/response.rs:616-638 | the completed calls in index order, or the first that is incomplete or undeclared |
| StreamBuffer.StreamAgreesWithBuffer | src/response.rs:211-240 | a run of pushes and a terminal push succeed exactly when buffering the concatenated content and calls does, with the same finish reason or error class, and a client that folds the emitted deltas by index recovers exactly the buffered IDs, names and arguments |
| StreamBuffer.RunKeepsStep | src/response.rs:470-517 | over any run the assembler holds the fold of what was pushed, and the client the fold of what was emitted |
| StreamBuffer.NormalizeCallsAssigns | src/response.rs:298-326 | the buffered path gives each call the ID the stream would |
| Sse.FeedIsReference | src/openai_compatible.rs:246-303 | the buffered fragment loop yields the items of reading the delivered bytes line by line |
| Sse.FragmentationIndependence | src/openai_compatible.rs:246-276 | any cutting of a byte stream that never overflows the buffer yields the items of the uncut stream |
| Sse.CutsAgree | src/anthropic.rs:468-521 | two cuttings of the same bytes that both fit yield the same items |
| Sse.ShortLinesDecodeAlike | src/gemini.rs:459-514 | fragments of at most 16 KiB and lines of at most 1 MiB + 48 KiB never overflow, so they decode alike |
| Sse.AppendData | src/openai_compatible.rs:187-197 | the event buffer never exceeds 1 MiB |
| SseMachine.SseDecoder.NextEvent | src/openai_compatible.rs:246-276 | one line or the end: input, source and pending queue together still hold exactly the remaining items |
| SseMachine.SseDecoder.NextItem | src/openai_compatible.rs:278-303 | `next` yields the head of the remaining items and leaves the tail; nothing after the last |
| Adapters.FeedPassesGate | src/server.rs:2282-2345 | for any decoder whose lines are assembler requests, and any bytes, every chunk before an error passes the gate in order, and without an error the gate has seen the end |
| Adapters.FeedIsARun | src/response.rs:453-565 | the chunks such a decoder yields are those of one assembler run, a finished one if no error follows |
| OpenAi.OpenAiPassesGate | src/openai_compatible.rs:203-303 | the compatible decoder passes the gate on all inputs |
| OpenAi.LineKeepsSound | src/openai_compatible.rs:203-244 | `[DONE]` is only ever accepted from a finished assembler |
| OpenAiMachine.OpenAiEvents.ConsumeLine | src/openai_compatible.rs:177-201 | one line: fields, chunks put out and error as specified |
| OpenAiMachine.OpenAiEvents.DispatchData | src/openai_compatible.rs:203-244 | one event: `[DONE]`, usage, or exactly one choice |
| Anthropic.LineCoupled | src/anthropic.rs:235-451 | every line from a coupled state fails or leads to a coupled one: the decoder's call counter is the assembler's, open tool blocks have distinct call indices and the assembler's arguments, stopped ones a complete object |
| Anthropic.ToolStartCoupled | src/anthropic.rs:334-362 | a well-formed tool block start is never refused by the assembler: the index-order error is unreachable |
| Anthropic.BlockTextCoupled | src/anthropic.rs:386-402 | nor is a delta of an open block; the `unwrap` of its call index is safe |
| AnthropicTheorems.TerminalCallsAreObjects | src/anthropic.rs:405-433 | once the terminal chunk is out, every call's arguments are exactly one JSON object |
| AnthropicTheorems.CleanStreamsFollowLifecycle | src/anthropic.rs:269-451 | a stream ends without an error only if its events are one message start, blocks with consecutive indices each opened, changed while open and stopped once, one message delta with none open, one message stop, and nothing after |
| AnthropicTheorems.RunTracks | src/anthropic.rs:269-451 | after any accepted lines the decoder's flags and open blocks are those of the events so far |
| AnthropicTheorems.AnthropicPassesGate | src/anthropic.rs:435-521 | the Anthropic decoder passes the gate on all inputs |
| AnthropicMachine.AnthropicEvents.ReadLine | src/anthropic.rs:235-267 | one line, all fields updated in place, as specified |
| AnthropicMachine.AnthropicEvents.HandleEvent | src/anthropic.rs:283-292 | each event type reaches its handler |
| AnthropicMachine.AnthropicEvents.StartTool | src/anthropic.rs:334-362 | the tool arm of a block start |
| AnthropicMachine.AnthropicEvents.DeltaOfBlock | src/anthropic.rs:365-403 | the block delta; the call index of an open tool block is there |
| AnthropicMachine.AnthropicEvents.StopBlock | src/anthropic.rs:405-420 | the block is removed, and a tool block's arguments must be one object |
| AnthropicMachine.AnthropicEvents.StopMessage | src/anthropic.rs:435-451 | the end, with its usage chunk |
| GeminiTheorems.RunStaysCorrelated | src/gemini.rs:315-420 | over any run the index counter is the assembler's count, a native ID keeps the one index and name it was first given, and distinct IDs have distinct indices |
| GeminiTheorems.OrdinaryContentNeverRefused | src/gemini.rs:315-337 | content of a correlated decoder without a terminal is never refused by the assembler: its index-order and ID-changed errors are unreachable |
| GeminiTheorems.SharedIdSplits | src/gemini.rs:315-408 | two parts of one event with the same native ID become two call deltas with different indices, and the ID is ambiguous after the event |
| GeminiTheorems.SharedIdSpoilsTheRun | src/gemini.rs:239-408 | once an event has used an ID for two calls, whatever lines follow, a later event that uses the ID fails |
| GeminiTheorems.EveryRunIsCorrelated | src/gemini.rs:187-208 | the correlation holds from the start of a stream after whatever lines were accepted |
| GeminiTheorems.AmbiguousIdRejected | src/gemini.rs:363-366 | an event with a part that uses an ambiguous ID is rejected, wherever in it the part stands |
| GeminiTheorems.GeminiPassesGate | src/gemini.rs:429-514 | the Gemini decoder passes the gate on all inputs |
| GeminiMachine.GeminiEvents.ReadLine | src/gemini.rs:215-237 | one line, call tables and usage updated in place, as specified |
| GeminiMachine.GeminiEvents.ReadParts | src/gemini.rs:315-337 | the loop over the parts of one event enters its calls in the tables as specified |
| GeminiMachine.GeminiEvents.EnterCall | src/gemini.rs:339-408 | one call: rejected, merged, split or new |
| GeminiMachine.GeminiEvents.Capture | src/gemini.rs:273-291 | usage counts are remembered, and a malformed one poisons them |
| GeminiMachine.GeminiEvents.Finish | src/gemini.rs:447-457 | the end of the source, with its usage chunk |
| Gate.PushPasses | src/response.rs:470-517 | every chunk a push emits is one the gate accepts next |
| Gate.EmittedPasses | src/server.rs:2282-2345 | so is everything any assembler run emits |
| Gate.StreamSuccessState.AcceptChunk | src/server.rs:2302-2345 | the flags after each chunk, and a refused chunk leaves them alone |
| DeliverySafety.GateLanguage | src/server.rs:2288-2345 | the gate lets a chunk sequence through if and only if all its chunks share their metadata, the first has the role, each carries one nonempty choice, and after the one that ends the turn comes at most one usage chunk, last, requested and adding up |
| DeliverySafety.PublicIsPublishable | src/server.rs:2177-2243 | for an arbitrary provider, clock and client the public chunks form such a sequence, and `[DONE]` is reached only after the end of the turn and the whole stream |
| DeliverySafety.PublicIsTimely | src/server.rs:2192-2237 | no chunk is made public that was read at or past the idle deadline, which only ordinary chunks renew |
| DeliverySafety.SteadyDeliveryCompletes | src/server.rs:2177-2243 | a delivery of any length in which nobody hangs up and no reading falls an idle timeout after one of the four before it completes if and only if the provider yields no error and the gate accepts the whole and has seen the end |
| DeliverySafety.DeliveryStopsForCause | src/server.rs:2198-2238 | for every clock, client and provider: the outcome is a disconnection exactly if the readings after the last chunk sent found the client gone, completion exactly if they found nothing and the stream ended after its turn, and a failure exactly if they were late or the next item is an error, an early end or a chunk that does not fit the public ones |
| DeliverySafety.DoneOnceIfCompleted | src/server.rs:2215-2243 | `[DONE]` is among the events exactly once, and last, if the delivery completed, and not at all otherwise: no chunk prints as it |
| Delivery.SseResponse | src/server.rs:2177-2243 | the body is the events of the delivery function joined, `[DONE]` included exactly on completion, with its outcome |
| Delivery.WriteSseStream | src/server.rs:2120-2175 | the events written are those of the same function up to the first failed write, which cancels and is reported as a disconnection |
| Delivery.IncrementalRefinesMaterialised | src/server.rs:2120-2243 | what was written in full is a prefix of the body the materialised loop builds from the same readings, and is that body with the same outcome if no write fails |
| Delivery.StreamRouteDispatch.Read | src/server.rs:2199-2215 | reading between the two checks on each side |
| Serialize.SerializeSseChunk | src/server.rs:2347-2421 | for every chunk, the text concatenated piece by piece is the specified event text |
| Serialize.ChunkIsDocument | src/server.rs:2347-2421 | that text is, character for character, the printed JSON document of the chunk between `data: ` and the empty line, whenever the static strings it prints bare need no escape |
| Serialize.SerializeCall | src/server.rs:2378-2403 | the optional members of one call delta, commas included |
| ReadBack.ChoiceReadsBack | src/openai_compatible.rs:369-453 | a serialized choice is parsed back to its index, delta and finish reason |
| WireText.EncodeClean | src/server.rs:2433-2448 | printed JSON contains no control character, so no event is broken across lines |
| Reread.GatewayOutputRereads | src/server.rs:2347-2421 | any finished assembler run, serialized with `[DONE]`, cut in any way that fits the buffer and read by the compatible decoder for the same request, yields exactly its chunks, changed only in ID and timestamp |
| Reread.RunMirrors | src/openai_compatible.rs:203-244 | at every event the reading assembler mirrors the writing one |
| Reread.EmittedIsSafe | src/server.rs:2347-2421 | the literals the serializer prints bare are never ones that would need escaping |
| Gateway.RunIsRelayed | src/server.rs:2177-2243 | whatever assembler run ends without error is delivered whole if nobody hangs up and no gap between readings is an idle timeout long, and its body reads back as its chunks |
| Gateway.OpenAiRelayed | src/openai_compatible.rs:203-303 | end to end for the compatible decoder |
| Gateway.AnthropicRelayed | src/anthropic.rs:269-521 | end to end for the Anthropic decoder |
| Gateway.GeminiRelayed | src/gemini.rs:239-514 | end to end for the Gemini decoder |
| Gateway.OpenAiDelivered | src/openai_compatible.rs:278-303 | without a size limit on events: so delivered, a clean stream completes with exactly its chunks |
| Gateway.AnthropicDelivered | src/anthropic.rs:497-521 | the same for Anthropic |
| Gateway.GeminiDelivered | src/gemini.rs:489-514 | the same for Gemini |
| Deadline.BlockOnUntil | src/server.rs:2041-2085 | the polling loop terminates, whatever the future does, if the attempt's or the route's deadline eventually passes, and returns what the specification does after as many readings |
| Deadline.EndsForCause | src/server.rs:2061-2085 | a value passed both deadlines' last checks; a timeout or cancellation has the reading that says so |
| Deadline.HandsOverFirstReady | src/server.rs:2073-2083 | the value returned is the first one the future had ready |
| Deadline.TieIsOverallExactly | src/server.rs:2065-2072 | under a non-decreasing clock, an attempt whose deadline is the route's is always reported as the route's timeout if and only if no check straddles that deadline |
| Deadline.TieLostToMovingClock | src/server.rs:2065-2072 | a clock for which a tie is reported as an attempt timeout |
| Dispatch.DispatchRoute | src/server.rs:1441-1530 | the loop over targets returns the attempts and result of the route function |
| Dispatch.DispatchStreamRoute | src/server.rs:1535-1693 | the same for streams, whose first chunk is read under the same deadlines |
| Dispatch.FailoverShape | src/server.rs:1450-1530 | attempts carry route indices 0, 1, 2, ... without gap or repeat, all but the last failed, success if and only if the last succeeded, plain exhaustion only after every target failed, timeout and cancellation exclude each other, and one provider was constructed per attempt and at most one more |
| Dispatch.DeadlineSafety | src/server.rs:1455-1482 | no provider is constructed and no operation invoked from a reading at or past the route's deadline, a success passed readings below both deadlines, and each other ending has its reading |
| Dispatch.CompleteRouteIsSafe | src/server.rs:1441-1530 | both for the complete loop |
| Dispatch.StreamRouteIsSafe | src/server.rs:1535-1693 | both for the stream loop |
| Dispatch.StreamPassedTheGate | src/server.rs:1648-1669 | a selected stream's first chunk passed the gate and names the requested model, and is the first the provider had ready |
| Dispatch.CompleteIsFirstReady | src/server.rs:1481-1500 | a selected response is the first thing its provider had ready |
| Dispatch.CompleteLostForCause | src/server.rs:1481-1512 | a target is given up for its provider's own first answer or for its time being up |
| Dispatch.StreamLostForCause | src/server.rs:1563-1690 | a stream is given up for an error, an early end, a refused or misnamed first chunk, or its time being up |
| Dispatch.CompleteSuccessInTime | src/server.rs:1446-1494 | under a non-decreasing clock every reading of a successful complete run lies before the route's deadline |
| Dispatch.StreamSuccessInTime | src/server.rs:1541-1669 | the same for a successful stream run, its first chunk included |
| Dispatch.StreamTieIsOverallExactly | src/server.rs:1560-1647 | with a target deadline that is the route's, connecting and reading the first chunk never give the target up for its own time being up if and only if no check from its first poll on straddles that deadline |
| Permits.InterleavingsAreAtomic | src/server.rs:1865-1890 | under every interleaving of loads, weak compare-exchanges and drops, free plus held is the limit, held never exceeds it, and the visible effects are those of an atomic semaphore that refuses only when all permits are out |
| Permits.ConnectionSlotsAreBounded | src/server.rs:143-167 | the connection count is exactly the slots held, and never exceeds 128 |
| Permits.GivingUpWasRefused | src/server.rs:143-167 | a thread that gives up was refused, when it last looked, by a counter with every permit out |
| Permits.StepRefines | src/server.rs:143-167 | each atomic step keeps the count and is at most one step of the semaphore |

## Left out

- Reread.GatewayOutputRereads: asks that each event's payload is within the 1 MiB event limit and each call index fits in 64 bits, because the reader enforces both.
- AnthropicTheorems.CleanStreamsFollowLifecycle: gives the lifecycle as a necessary condition only, because whether a stream of that shape ends without an error also depends on the contents of its events.
- Adapters.FeedIsARun: models what a decoder does up to its first error, because every consumer stops there.
- JsonMachine.Parser.Hex4: reads four characters, while `src/request.rs:1249` slices four bytes of the text; a multi-byte character inside the slice is not modelled.
- Serialize.ChunkIsDocument: asks that the static strings of a chunk (its object, roles and call types) need no escaping, because the serializer prints them between bare quotes; all chunks an assembler emits satisfy this (`Reread.EmittedIsSafe`), and the delivery methods ask nothing of the chunks.
- Permits.InterleavingsAreAtomic: treats each atomic operation as one indivisible step in a single order; memory orderings are not modelled.
- Delivery.WriteSseStream: counts events that were written in full; how much of the event whose write fails reaches the client is not modelled.
- The path and owner arguments of the parser, all error texts and diagnostics, and the choice between an invalid-JSON and a validation error: they select messages only, and acceptance and results do not depend on them here.
- Parser positions count scalars of the text, not bytes.
- `NEXT_ID` is an ever-increasing sequence; its 64-bit wrap-around is not modelled.
- The record of calls that Gemini merges across events: streamed Gemini arguments need not be one JSON object, so nothing is claimed about them beyond the assembler's concatenation.
- The `Connection`, `TLS` and HTTP layers, request heads and bodies, the disconnect watcher, signals and worker threads: I/O. What remains of them are fragments, write results, and the cancellation and clock readings.
- Futures and wakers: a poll is an oracle that finds nothing yet or the value.
- The buffered `parse_response` functions of the adapters, `safety_response` and the tables from native stop reasons to terminals: helpers with one branch per case.
- The rest of the request (`stream`, `stop`, token limits, `temperature`, `top_p`, tool choice), and outgoing request bodies other than the transcript: shape checks and field copies.
- `tools[].function.parameters` is opaque JSON; floating-point settings are opaque lexemes.
- Upstream statuses in attempt records and the diagnostics derived from the last record: copied fields.
- Configuration, YAML, secrets, the command line, authentication, media types, logging and redaction.
