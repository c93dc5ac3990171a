# A model of the streaming proxy

The proxy reads an upstream's newline-delimited JSON events and answers in the protocol its client speaks:
OpenAI chat, OpenAI Responses, Anthropic messages or Gemini. It writes its server-sent events by hand, shares
a pool of upstream keys among concurrent requests, and turns every kind of request into one chat form before
it calls the upstream. The modules follow its files:

| modules | what they cover |
|---|---|
| `Text`, `Upstream`, `Identifiers`, `Buffered`, `Sse` | small text functions; decoded upstream events and the conversions of `translate.go`; identifiers made up from random strings; what the buffered replies share; the writer that holds frames back until the stream starts |
| `ResponsesModel`, `ResponsesIds`, `ResponsesStream`, `ResponsesClient`, `ResponsesAgreement` | the Responses stream: the items and frames that events stand for, the identifiers of the items, the class that produces them step by step, a client that checks every frame, and the comparison with the buffered reply |
| `AnthropicModel`, `AnthropicStream`, `AnthropicClient`, `AnthropicAgreement` | the same for the Anthropic stream |
| `OpenAIModel`, `OpenAIStream` | the same for the chat stream |
| `GeminiStream` | the three forms of a Gemini reply (event stream, array, buffered) and their comparison |
| `Endings` | how a reply ends and fails, in all four protocols at once |
| `Json`, `JsonMembers`, `JsonPrinter`, `JsonCompact`, `JsonBuf`, `EventStream` | a reader of RFC 8259 texts as a machine over characters, looking up members by name, a printer, what json.Marshal makes of an embedded text, the buffer in which frames are put together by plain concatenation, and the client side of server-sent events |
| `Utf8Events`, `ResponsesFrames`, `AnthropicFrames`, `OpenAIFrames`, `GeminiFrames` | events whose strings are valid UTF-8; every frame as bytes, the JSON value it means, and what a client reads there |
| `LineReader` | reading lines through a bounded buffer |
| `Limiter`, `Cooldown`, `KeyPool`, `Failover` | the limit on requests in flight, the cooldown mark of a key, the rotation through the pool, and choosing and changing keys for a request |
| `Chat`, `Transcript`, `CCBuild`, `GeminiRequest`, `ResponsesRequest`, `AnthropicRequest`, `TwoPasses` | from a client's request to chat messages and on to the upstream's messages; what is said in them, line by line |

How to read the streams. A `State` is the abstract content of a stream; `Fold` computes it from the events.
The class `Stream` has the source's own fields and updates them event by event; its invariant ties them to the
state, and `Run` says what reached the wire: the beginning of the frames of the state if a write failed, and
all of them otherwise. A client (`Accept`, `Follow`) is an independent definition of a well-formed stream: it
tracks the open item or block, the next index, the next number and what the deltas add up to, and rejects
anything else. "More than 15 seconds since the last write" is a flag of the event; a write may fail at any frame;
reading may end in any of four ways. Random strings come from a supply. What is said of identifiers made up from
them holds for every supply that never repeats itself (`Injective`): `Told` is that a client is told of the
upstream's calls in order, each under the upstream's identifier or, without one, under one of its own.

How to read the frames. The source's literals are appended in pieces (a brace, a member name, a constant), so
the bytes are the same; a ghost field follows how far the JSON text has been read. A character stands for a
byte. Each `WriteFrame` says which value the data of the frame means, `Framed` that the data parses to exactly
that value and holds no line break, and `EventStream.StreamReads` that a client which parses the bytes of all
frames gets back exactly these frames. `ReadsBack` has a client look up everything under the member names of its
protocol (`Read`) and find the frame again. `Lossless` adds that the meaning determines a frame of valid strings:
nothing the stream says is lost on the way to the client. `RunSendable` says that every frame of a run over
events with valid strings is such a frame, and `AllLossless` that the meanings of a whole stream determine it.
For the frames that end a chat or Gemini stream in an error, and for the last frames of a Responses stream, the
bytes themselves are stated too (`ErrorText`, `FinalText`, `FailedText`): the source's literals with the string
literals, decimals and embedded texts between them.

How to read embedded arguments. The buffered Anthropic and Gemini forms, the Gemini chunks and the upstream's
request embed the argument text of a call as JSON. `JsonCompact` models what the encoder does with it: it
refuses a text that is no JSON text, and otherwise takes out the white space between tokens, which keeps the
value. So each of these has an outcome more than its reader may expect, an encode error or a chunk that is
passed over, and the condition is always whether the argument texts of the calls parse.

How to read the requests. `Transcript` defines what a chat says, line by line: who says which words, shows which
image, thinks what, uses a tool with which arguments, or gives its outcome. `AllHeard` reads the same off the
upstream's messages, and `BuildBody` keeps it. For each protocol `Lines` says what the request itself says, and the
`Speech` lemmas of `TwoPasses` that the upstream hears it; the user's part is also stated piece by piece.

How to read the concurrent parts. `Limiter` and `Cooldown` are state machines whose steps are the atomic
accesses; a run is any interleaving of any number of calls. In `KeyPool` the ticket counter is a 64-bit word; a
call of `next` draws its ticket in one step and looks at one key in each later step, and in between other calls
draw and look, and marks are written.

Several plain claims are false of the code. Each is stated with the exact condition under which it holds, and
the failing case is shown:

- Two neighbouring tool calls to which the upstream gives one identifier become one item of a Responses stream
  (`CallsTold`; shown by `RepeatMerges`). Calls without an identifier never do.
- The usage of the two Responses forms differs if zero output tokens were reported and calls followed
  (`ResponsesAgreement.Agreement`; `UsageCanDiffer`).
- The stop reasons of the two Anthropic forms can differ, because only the stream listens to `finish-step`
  (`AnthropicAgreement.Agreement`; `StopReasonsCanDiffer`).
- A call whose arguments are no JSON text goes through the Anthropic stream; the buffered form answers with
  an encode error (`AnthropicAgreement.Agreement`; `EncodeErrorReached`). Where both answer, the buffered form
  has trimmed and compacted the arguments: they mean the same, or are the same bytes, under two exact
  conditions (`ArgumentsAgree`; `ArgumentsCanDiffer`).
- Such a call is passed over in silence by the Gemini stream, and makes the array and the buffered form fail;
  a stream may even start and end without a frame (`AllReachTheWire`, `GeminiStream.Agreement`;
  `GeminiStream.EncodeErrorReached`). And no upstream request can be built from a chat that holds one
  (`BuildBody`; `BodyFails`).
- The finish reasons and the usages of the two chat forms can differ, because the stream prefers what a
  `finish-step` said (`OpenAIModel.Agreement`; `EndsCanDiffer`).
- The two forms of a reply do not always answer with the same JSON error or none. After a clean end without
  content, the stream ends normally where the buffered form refuses: in the chat form if a `finish` or a usage
  came, in the Responses and Anthropic forms if output tokens were reported, in the Gemini form, where the array
  refuses too, if a `finish` came. After a failure they answer alike exactly if nothing was streamed. The lemma
  `RepliesAgree` of each protocol gives the exact condition for every ending, and `RepliesCanDiffer` the case
  (`OpenAIModel`, `ResponsesAgreement`, `AnthropicAgreement`, `GeminiStream`).
- Only the buffered Gemini form always gives a finish reason; the array and the stream give one exactly if the
  upstream sent a finish. The usages differ if no output tokens were reported and content came since (`EndsAgree`;
  `FinishCanDiffer`).
- A scan of the pool inspects every key exactly once only if its ticket is at most 2^64 - n or n divides 2^64
  (`Coverage`; `WrapCounterexample`).
- The limiter can turn a request away although nothing is in flight (`SpuriousRefusal`).
- An unterminated last line that just fills its last buffer may or may not be rejected, depending on when the
  reader announces the end (`Rejected`, `Deterministic`; `BorderlineRun` reaches both outcomes).
- A request can run out of keys, and then every key called has been cooled, the last one too, although no reply
  is left to give. With coverage this happens exactly if it is not pinned to its key, may try more keys than the
  pool has, and all of them are refused (`Generate`; `PoolExhausted`).

## Model

| member | source | states |
|---|---|---|
| `Chat.ArgumentsMean` | translate.go:265-280 | the argument text of a call: the text that a string spells, `{}` for null and for a blank string, and otherwise a JSON text for the very value that was sent |
| `Buffered.NamedByUpstream` | openai.go:427-435 | when every call has an identifier, the buffered forms list the upstream's calls as they are |
| `Buffered.NamedByTold` | responses.go:522-532 | the buffered forms list the upstream's calls in order with their names and arguments, each under its own identifier, or, without one, under one that no other call is given |
| `Buffered.FinishIs` | translate.go:123-134 | the finish reason of a buffered reply: `stop` if there is none, `tool_calls` for `tool-calls`, and otherwise the upstream's own |
| `Buffered.RefusalIs` | responses.go:552-577 | the status, type, message and retry hint of every error that a buffered reply can be |
| `Buffered.Collect` | responses.go:508-550 | the accumulating loop, which all three buffered forms share, ends with the concatenated text and reasoning, the calls in order, and the last usage, error and finish reason |
| `Buffered.Refuse` | responses.go:552-577 | a buffered reply is an error exactly for an idle timeout, a broken connection, an upstream error, or no content at all |
| `Buffered.NamedJson` | anthropic.go:814-824 | whether the arguments are JSON texts does not depend on the identifiers that a buffered form makes up |
| `Buffered.ArgumentsSent` | anthropic.go:872-884 | embedded arguments mean what the trimmed text means; they mean what the upstream's text means exactly if only the white space of RFC 8259 stands around it, and are that text exactly if there is none outside of its strings |
| `Sse.SseWriter.Start` | httpx.go:182-201 | the first start hands over everything held back, or fails; later starts do nothing |
| `Sse.SseWriter.Write` | httpx.go:204-217 | before the start a frame is held back, afterwards it is handed over in order, and after a failure nothing more is |
| `ResponsesModel.FoldWellFormed` | responses.go:936-1026 | no item exists before the response was created, and every item holds at least one delta |
| `ResponsesModel.FoldGrows` | responses.go:680-795 | what has been put on the wire is never taken back by a later event |
| `ResponsesIds.FoldOwns` | responses.go:151-153 | every item is named after its kind by one of the random strings drawn so far, and no two by the same |
| `ResponsesIds.AllAdd` | responses.go:965-1026 | the frames of a run announce exactly its items, in order |
| `ResponsesIds.ItemsDistinct` | responses.go:965-1026 | no two items share an identifier: not in the list that the last frame holds, and not in what has reached the client at any moment |
| `ResponsesStream.ItemState.Append` | responses.go:642-650 | a piece goes to the arguments of a call and to the text of any other item |
| `ResponsesStream.Stream.Emit` | responses.go:885-889 | each frame takes the next sequence number, and pings take none |
| `ResponsesStream.Stream.StartResponse` | responses.go:936-959 | created and in_progress are sent once, before anything else |
| `ResponsesStream.Stream.OpenItemWith` | responses.go:965-1026 | an item continues, or is closed and followed by a new one with the next output index and an identifier made of the next random string |
| `ResponsesStream.Stream.CloseItem` | responses.go:1028-1109 | closing sends the done frames with the concatenated deltas and stores the same item |
| `ResponsesStream.Stream.Content` | responses.go:692-760 | a piece of content: the frames of the new state have been sent, or a beginning of them |
| `ResponsesStream.Stream.HandleFinish` | responses.go:761-773 | a finish replaces the reason, and the usage and the output tokens if it reports any |
| `ResponsesStream.Stream.Conclude` | responses.go:799-883 | each ending sends its terminal frame, or a JSON error if nothing was streamed |
| `ResponsesStream.Stream.Run` | responses.go:672-883 | every run: the wire holds, numbered from 0, the frames the events call for, or a prefix of them if a write failed; the client accepts them; no two items are announced under one identifier; a JSON error is sent only instead of a stream |
| `ResponsesClient.WatchNumbered` | responses.go:885-889 | frames numbered 0, 1, 2, ... are accepted just as their bodies are |
| `ResponsesClient.WatchIgnoresPings` | responses.go:780-788 | pings, which come only after the first frame, change nothing for the client |
| `ResponsesClient.AcceptPrefix` | responses.go:672-883 | what is accepted stays accepted when the connection breaks at any frame |
| `ResponsesClient.ItemAccepted` | responses.go:965-1109 | an item's frames: added, part added, deltas, done frames whose text is the sum of the deltas, item done |
| `ResponsesClient.AllAccepted` | responses.go:672-883 | a whole stream satisfies the grammar, ends with one terminal frame and no open item, and its output lists the items by output index |
| `ResponsesClient.WireAccepted` | responses.go:672-883 | whatever reaches a client is accepted, for all events, endings, pings and failing writes |
| `ResponsesAgreement.BuildResponsesOutput` | responses.go:457-491 | the buffered output list: reasoning, then the message, then the calls in order |
| `ResponsesAgreement.NonStream` | responses.go:495-631 | the buffered reply is the error or the object that the events call for, and no two of its items share an identifier |
| `ResponsesAgreement.TextsAgree` | responses.go:692-736 | streaming loses and invents no text and no reasoning |
| `ResponsesAgreement.CallsAgree` | responses.go:965-972 | the streamed calls are the upstream's calls, under the identifiers assigned to them, if and only if no call has the identifier of its direct predecessor; otherwise there are fewer |
| `ResponsesAgreement.OnlyTwinsRepeat` | responses.go:744-744 | a call without an identifier never has that of its predecessor; only calls to which the upstream gives one identifier are merged |
| `ResponsesAgreement.CallsTold` | responses.go:738-760 | unless the upstream repeats an identifier the client is told of all calls in order, each an item of its own, and of those without an identifier under different ones |
| `ResponsesAgreement.Bookkeeping` | responses.go:737-779 | finish reason, usage, token count, error and start of the response follow from the events |
| `ResponsesAgreement.Agreement` | responses.go:495-883 | streamed and buffered reply agree on texts and status; both tell of the upstream's calls, with or without identifiers, exactly if no neighbours share one; and they agree on the usage exactly under a stated condition |
| `ResponsesAgreement.EndTold` | responses.go:799-883 | how the stream ends: incomplete exactly if the last finish says `length`, with the text of the events and the counts that the upstream reported or 20 tokens for each call since; or with the error |
| `ResponsesAgreement.BufferedUsageTold` | responses.go:366-392 | the counts of the buffered reply are those reported, no input counts for a report of no output, and the total is the sum |
| `ResponsesAgreement.BufferedItems` | responses.go:457-491 | read like a streamed list, the buffered list has the same texts and calls; reasoning comes first, then the message, then the calls |
| `ResponsesAgreement.RepliesAgree` | responses.go:799-858 | for every ending, whether both forms answer with the same JSON error or neither with one: after a clean end exactly if there is content or no output tokens were reported, after a failure exactly if there was no content |
| `ResponsesAgreement.RepeatMerges` | responses.go:965-972 | two neighbouring calls with one identifier are merged |
| `ResponsesAgreement.UsageCanDiffer` | responses.go:737-773 | a call after a report of zero output tokens: 20 tokens in the stream, none in the buffered form |
| `ResponsesAgreement.RepliesCanDiffer` | responses.go:851-858 | tokens without content: the stream ends normally, the buffered form refuses |
| `AnthropicModel.FoldWellFormed` | anthropic.go:664-708 | closed and open blocks hold text, and an open block is never a tool's |
| `AnthropicModel.FoldGrows` | anthropic.go:424-545 | what has been put on the wire is never taken back by a later event |
| `AnthropicStream.Stream.StartBlock` | anthropic.go:664-681 | a block continues, or is closed and followed by a new one with the next index |
| `AnthropicStream.Stream.CloseBlock` | anthropic.go:683-708 | a thinking block gets one signature of its own text, directly before its stop |
| `AnthropicStream.Stream.Tool` | anthropic.go:472-499 | a tool call is a block of its own: start, one delta, stop |
| `AnthropicStream.Stream.DeltaToolInput` | anthropic.go:728-742 | the one delta of a tool block, and its stop |
| `AnthropicStream.Stream.HandleReport` | anthropic.go:501-522 | a finish or finish-step updates the stop reason and the token counts that it reports |
| `AnthropicStream.Stream.Conclude` | anthropic.go:549-648 | each ending sends its closing frames, or a JSON error if nothing was streamed |
| `AnthropicStream.Stream.Run` | anthropic.go:418-648 | every run: the wire holds the frames the events call for, or a prefix of them if a write failed; the client accepts them; a JSON error is sent only if nothing reached the wire |
| `AnthropicClient.FollowIgnoresPings` | anthropic.go:529-537 | pings after the start change nothing for the client |
| `AnthropicClient.FollowPrefix` | anthropic.go:418-648 | what is accepted stays accepted when the connection breaks at any frame |
| `AnthropicClient.BlockFollowed` | anthropic.go:664-742 | a block's frames: start, deltas, the signature of the concatenated thinking if it is a thinking block, stop |
| `AnthropicClient.AllFollowed` | anthropic.go:418-648 | a whole stream satisfies the grammar, with indices 0, 1, 2, ..., and ends with the two closing frames or one error |
| `AnthropicClient.WireFollowed` | anthropic.go:418-648 | whatever reaches a client is accepted, for all events, endings, pings and failing writes |
| `AnthropicAgreement.NonStream` | anthropic.go:782-918 | the buffered reply is the error or the message that the events call for, or an encode error exactly if some call's arguments are no JSON text; read as a client does, the content has the text, the thinking with its signature, and the calls of the events, in this order |
| `AnthropicAgreement.Encode` | httpx.go:89-98 | encoding the content succeeds exactly if all embedded arguments are JSON texts, and then compacts them |
| `AnthropicAgreement.BuildContent` | anthropic.go:865-884 | thinking with its signature, then text, then tool uses with trimmed arguments |
| `AnthropicAgreement.ContentSays` | anthropic.go:865-884 | what a client reads off the content: the whole text, the whole thinking, each thought signed, no empty part, thoughts before texts before tools, and the calls in order by identifier, name and value |
| `AnthropicAgreement.BlocksAgree` | anthropic.go:436-499 | streaming loses and invents no text, no thinking and no call; calls without an identifier get different ones |
| `AnthropicAgreement.StopReasonTracked` | anthropic.go:501-522 | the streamed stop reason is that of the last non-empty reason of any kind |
| `AnthropicAgreement.Agreement` | anthropic.go:782-884 | folding the stream gives the text, the thinking and the calls of the events, with or without identifiers; the stop reasons agree, and the buffered form does not fail, exactly under stated conditions |
| `AnthropicAgreement.ContentAgrees` | anthropic.go:865-884 | what the client of the stream has put together is what a client reads off the buffered content: text, thinking, and calls by value |
| `AnthropicAgreement.UsageTold` | translate.go:67-121 | the token counts that the stream tells of, read off the events; what came from a cache, what went into one and the rest add up to the input reported |
| `AnthropicAgreement.BufferedTold` | anthropic.go:886-903 | the token counts of the buffered reply: those reported, or for the output a guess from the content |
| `AnthropicAgreement.TroubleTold` | anthropic.go:549-612 | the type, message and retry hint of the error that the client of the stream is told of |
| `AnthropicAgreement.ArgumentsAgree` | anthropic.go:872-882 | the calls of the two forms have equal JSON values exactly if only the white space of RFC 8259 stands around the streamed arguments, and equal bytes exactly if there is none outside of strings either |
| `AnthropicAgreement.EncodeErrorReached` | anthropic.go:872-884 | arguments `hello`: the stream passes them on and ends normally, the buffered reply is the encode error |
| `AnthropicAgreement.ArgumentsCanDiffer` | anthropic.go:872-882 | a leading blank is gone from the buffered arguments; a leading vertical tab makes a JSON text of what was none |
| `AnthropicAgreement.StopReasonsCanDiffer` | anthropic.go:501-522 | a finish-step before a finish without a reason makes the stop reasons differ |
| `AnthropicAgreement.TokensTracked` | anthropic.go:501-522 | without content the stream counts output tokens exactly if some finish or finish-step reports them |
| `AnthropicAgreement.RepliesAgree` | anthropic.go:549-615 | for every ending, whether both forms answer with the same JSON error or neither with one: after a clean end exactly if there is content whose calls are JSON, or no content and no reported output tokens; after a failure exactly if there was no content |
| `AnthropicAgreement.RepliesCanDiffer` | anthropic.go:602-615 | tokens without content: the stream sends its first and last frames, the buffered form refuses |
| `OpenAIModel.FoldGrows` | openai.go:116-264 | what has been put on the wire is never taken back by a later event |
| `OpenAIModel.FollowPrefix` | openai.go:107-348 | what is accepted stays accepted when the connection breaks at any frame |
| `OpenAIModel.FollowIgnoresPings` | openai.go:250-259 | keep-alive comments change nothing for the client |
| `OpenAIModel.AllFollowed` | openai.go:107-348 | the role comes in the first content chunk only, tool indices are 0, 1, 2, ..., the end mark comes last on success and the error's type, message and retry hint on failure; the chunks add up to the text, the reasoning and the calls of the events, the latter with or without identifiers |
| `OpenAIModel.Remembered` | openai.go:201-242 | the reason and the usage that the stream keeps are the last ones reported, by a finish-step or, for the usage, a finish |
| `OpenAIModel.Agreement` | openai.go:399-506 | folding the stream gives content, reasoning and calls of the buffered reply; finish reason and usage agree exactly under stated conditions on the events |
| `OpenAIModel.EndTold` | openai.go:201-242 | the finish reason and the token counts that the client of the stream is told, read off the events |
| `OpenAIModel.UsageFromFinishes` | openai.go:201-242 | if no finish-step reports usage, the stream shows the usage that the buffered form keeps |
| `OpenAIModel.EndsCanDiffer` | openai.go:201-242 | a finish-step with a reason and a usage of its own: both differ from the buffered form's |
| `OpenAIModel.RepliesAgree` | openai.go:275-323 | for every ending, whether both forms answer with the same JSON error or neither with one: after a clean end exactly if there is content, or neither a finish nor a finish-step that reports usage; after a failure exactly if there was neither content nor a finish |
| `OpenAIModel.RepliesCanDiffer` | openai.go:317-323 | a lone finish: the stream ends normally, the buffered form refuses |
| `OpenAIModel.NonStream` | openai.go:399-521 | the buffered reply is the error or the message that the events call for |
| `OpenAIStream.Stream.EmitDelta` | openai.go:128-173 | a content chunk carries the role exactly if it is the first |
| `OpenAIStream.Stream.EmitCall` | openai.go:174-200 | a call takes the next index and, if it has none, an identifier |
| `OpenAIStream.Stream.HandleFinish` | openai.go:212-242 | the finishing chunk carries the reason and, unless it is sent apart, the usage |
| `OpenAIStream.Stream.Run` | openai.go:107-348 | every run: the wire holds the frames the events call for, or a prefix of them if a write failed; the client accepts them; a JSON error is sent only if nothing reached the wire |
| `GeminiStream.StreamState.Consume` | gemini.go:589-613 | each event changes the counts, the finish and the usage as it should, in place |
| `GeminiStream.StreamState.MakeChunk` | gemini.go:570-587 | a chunk carries the finish reason once a finish was consumed, `MAX_TOKENS` exactly if it said `length`, and the usage so far |
| `GeminiStream.StreamSSE` | gemini.go:615-743 | every run: the wire holds the frames that the events call for, those left out that cannot be encoded, or a prefix of them if a write failed; a JSON error is sent only if nothing reached the wire; the last branch is dead |
| `GeminiStream.AllReachTheWire` | gemini.go:680-685 | every chunk that is due reaches the wire if and only if every call's arguments are a JSON text |
| `GeminiStream.StreamArray` | gemini.go:745-829 | the array is the chunks of the parts and one last chunk, compacted; the run is refused, or ends in an encode error, exactly when the events say so or some call's arguments are no JSON text |
| `GeminiStream.EncodeAll` | httpx.go:89-98 | encoding the array succeeds exactly if every chunk can be encoded |
| `GeminiStream.ArrayEncodes` | gemini.go:767-829 | the array can be encoded exactly if every call's arguments are a JSON text |
| `GeminiStream.BuildParts` | gemini.go:430-462 | thoughts, then text, then functions with trimmed arguments, and never no part |
| `GeminiStream.NonStream` | gemini.go:466-557 | the buffered reply is the error or the candidate that the events call for, or an encode error exactly if some call's trimmed arguments are no JSON text |
| `GeminiStream.CandidateEncodes` | gemini.go:430-462 | the candidate can be encoded exactly if every call's trimmed arguments are a JSON text |
| `GeminiStream.BegunWhen` | gemini.go:724-741 | the stream starts exactly if there was content or a finish |
| `GeminiStream.StreamedFinish` | gemini.go:570-587 | some chunk of the stream tells the finish reason if and only if the upstream sent a finish |
| `GeminiStream.StreamEnd` | gemini.go:401-410 | the last chunk sent after a finish says `MAX_TOKENS` exactly if the last finish said `length`, and `STOP` otherwise |
| `GeminiStream.EndTold` | gemini.go:401-410 | the three forms tell that the reply was cut exactly if the last finish says `length`: the buffered form always, the other two in their last chunk once the upstream sent a finish |
| `GeminiStream.CountsTold` | gemini.go:412-428 | the counts of the three forms are the upstream's own once output tokens were reported; a report of none counts as nothing |
| `GeminiStream.CandidateSays` | gemini.go:430-462 | the buffered candidate says the thoughts, the text and the functions of the events, in this order |
| `GeminiStream.Agreement` | gemini.go:466-829 | the three forms say the same text and thoughts; the stream has the functions whose arguments are JSON texts, the array and the buffered form have all of them or fail; the values agree exactly if every argument text parses as it stands |
| `GeminiStream.EndsAgree` | gemini.go:570-587 | finish reason and usage of the three forms agree exactly under stated conditions: a finish was sent; output tokens were reported or nothing was counted since |
| `GeminiStream.RepliesAgree` | gemini.go:687-829 | for every ending, when the event stream, the array and the buffered form answer with the same JSON error or none with one |
| `GeminiStream.RepliesCanDiffer` | gemini.go:724-741 | a lone finish: the event stream sends a chunk, the array and the buffered form refuse |
| `GeminiStream.EncodeErrorReached` | gemini.go:677-685 | a lone call with the arguments `hello`: the stream starts and says nothing, the array and the buffered form cannot be encoded |
| `GeminiStream.FinishCanDiffer` | gemini.go:570-587 | text without a finish: only the buffered form gives a finish reason |
| `Endings.CutTold` | gemini.go:401-410 | all protocols tell that the answer was cut exactly if the last finish says `length`, and the chat and Anthropic forms that it stopped for a tool call exactly if it says so |
| `Endings.FailureTold` | responses.go:799-848 | the last frame of each of the four streams after content and then a timeout, a broken connection or an upstream error |
| `Endings.RefusalTold` | gemini.go:687-722 | the errors that a Gemini client gets instead of a reply are those of the other protocols |
| `Json.QuoteReads` | jsonx.go:95-136 | the string literal reads back as the string, its malformed bytes replaced by U+FFFD |
| `Json.EscapeSpells` | jsonx.go:95-131 | the per-byte escape reads back as exactly the string |
| `Json.MarshalSpells` | jsonx.go:133-135 | the fallback for malformed strings reads back with the malformed bytes replaced |
| `Json.ValidIsRepaired` | jsonx.go:96-97 | valid UTF-8 has no malformed bytes |
| `Json.PairSpells` | ccbuild.go:464-469 | an escaped pair of surrogates spells the one character it stands for |
| `Json.LoneSurrogate` | ccbuild.go:464-469 | an escaped surrogate without its partner is read as U+FFFD, whatever text follows it |
| `Json.PairRead` | ccbuild.go:464-469 | in the one remaining case, an escaped low surrogate after a high one, the two are read as one character, however the digits are written |
| `JsonCompact.CompactKeepsValue` | httpx.go:89-98 | compacting a JSON text, with or without escapes for HTML, keeps its value |
| `JsonCompact.CompactSame` | httpx.go:89-98 | a text comes out as it went in exactly if it has no white space between tokens, and shorter otherwise |
| `JsonCompact.ParseTrimmed` | anthropic.go:873-876 | trimming keeps the value of a text exactly if it takes away only the white space of RFC 8259, or no JSON text is left |
| `JsonPrinter.DecimalReads` | jsonx.go:57-60 | a decimal reads back as its number |
| `JsonPrinter.PrintReads` | jsonx.go:42-136 | a printed value completes itself wherever a value may stand |
| `JsonPrinter.RoundTrip` | jsonx.go:42-136 | a printed value parses to itself |
| `JsonBuf.JsonBuf.Raw` | jsonx.go:47-50 | appending continues the reading of the JSON text where it was |
| `JsonBuf.JsonBuf.Str` | jsonx.go:95-136 | appends the string literal, which completes a string value |
| `JsonBuf.JsonBuf.WriteEscaped` | jsonx.go:97-131 | the loop that copies whole stretches writes the same as the per-byte escape |
| `JsonBuf.JsonBuf.Int` | jsonx.go:57-60 | appends a decimal, which completes a number value once something follows |
| `JsonBuf.JsonBuf.RawJSON` | jsonx.go:86-92 | an embedded JSON text completes its value; an empty one stands for null |
| `JsonBuf.JsonBuf.EndFrame` | jsonx.go:192-194 | a finished frame holds one JSON text on one line, and that text parses to the value put together |
| `JsonBuf.PlainQuote` | jsonx.go:152-190 | the constants in the literals need no escaping |
| `JsonBuf.QuoteClean` | jsonx.go:95-136 | a string literal holds no line break |
| `JsonBuf.PrintDenotes` | responses.go:927-934 | every proper value has a JSON text such as json.Marshal is relied on to give |
| `EventStream.TakeFrame` | jsonx.go:181-194 | one frame, after any others, is dispatched as one event with its name and data |
| `EventStream.StreamReads` | jsonx.go:181-194 | the bytes of any frames are dispatched as exactly these frames, and the data of each parses to exactly the value meant |
| `OpenAIFrames.Choice` | openai.go:137-149 | the delta, with or without the role, and the finish reason |
| `OpenAIFrames.WriteCounts` | jsonx.go:169-175 | the usage member |
| `OpenAIFrames.ErrorFrame` | openai.go:351-362 | the error frame, byte for byte and by its meaning, with the retry hint only if there is one |
| `OpenAIFrames.WriteFrame` | jsonx.go:152-179 | every chunk, usage chunk, error frame, end mark and comment of the chat stream means what it should |
| `OpenAIFrames.WriteAll` | openai.go:107-348 | a client reading the bytes of a whole chat stream gets exactly its frames |
| `OpenAIFrames.Lossless` | jsonx.go:152-179 | two frames of the chat stream, their strings valid UTF-8, with the same meaning are the same frame |
| `OpenAIFrames.ReadsBack` | jsonx.go:152-179 | a client of the chat stream that looks everything up by member name reads the frame that was sent |
| `OpenAIFrames.RunSendable` | openai.go:107-348 | every frame of a chat run over events with valid strings is one of those that `Lossless` is about |
| `OpenAIFrames.AllLossless` | openai.go:107-348 | the meanings of all frames of a chat stream determine the frames |
| `AnthropicFrames.MessageStart` | anthropic.go:650-662 | the first frame |
| `AnthropicFrames.PlainBlockStart` | anthropic.go:664-681 | the start of a text or thinking block |
| `AnthropicFrames.ToolBlockStart` | anthropic.go:488-493 | the start of a tool block |
| `AnthropicFrames.MessageDelta` | anthropic.go:617-638 | the stop reason and the token counts |
| `AnthropicFrames.WriteFrame` | anthropic.go:650-742 | every frame of the Anthropic stream means what it should |
| `AnthropicFrames.WriteAll` | anthropic.go:418-648 | a client reading the bytes of a whole Anthropic stream gets exactly its frames |
| `AnthropicFrames.Lossless` | anthropic.go:650-742 | two frames of the Anthropic stream, their strings valid UTF-8, with the same meaning are the same frame |
| `AnthropicFrames.ReadsBack` | anthropic.go:650-742 | a client of the Anthropic stream that looks everything up by member name reads the frame that was sent; the event is named after the type in its data |
| `AnthropicFrames.RunSendable` | anthropic.go:418-648 | every frame of a Anthropic run over events with valid strings is one of those that `Lossless` is about |
| `AnthropicFrames.AllLossless` | anthropic.go:418-648 | the meanings of all frames of a Anthropic stream determine the frames |
| `GeminiFrames.ErrorFrame` | gemini.go:698-720 | an error frame around the JSON text of its message, byte for byte and by its meaning |
| `GeminiFrames.IdleFrame` | gemini.go:698-698 | the timeout message goes in unescaped, and the frame still means what it should |
| `GeminiFrames.BrokenFrame` | gemini.go:710-710 | the frame of a broken stream |
| `GeminiFrames.UpstreamErrorFrame` | gemini.go:719-720 | the error frame of an upstream error, for every message |
| `GeminiFrames.EncodedDenotes` | anthropic.go:378-384 | a marshalled string is a JSON text for the string, its malformed bytes replaced |
| `GeminiFrames.FixedMessages` | gemini.go:698-710 | the two messages that go in unescaped are what encoding would have made of them |
| `GeminiFrames.WriteFrame` | gemini.go:680-720 | every chunk and error frame of the Gemini stream means what it should |
| `GeminiFrames.WriteAll` | gemini.go:615-743 | a client reading the bytes of a whole Gemini stream gets exactly its frames |
| `GeminiFrames.Lossless` | gemini.go:570-587 | two frames of the Gemini stream with the same meaning are the same frame, up to how the JSON text of arguments is written |
| `GeminiFrames.ReadsBack` | gemini.go:570-587 | a client of the Gemini stream that looks everything up by member name reads the parts in order, the finish reason and the counts, or the error |
| `GeminiFrames.RunSendable` | gemini.go:615-743 | every frame of a Gemini run over events with valid strings is one of those that `Lossless` is about |
| `GeminiFrames.AllLossless` | gemini.go:615-743 | the meanings of all frames of a Gemini stream determine the frames, up to how arguments are written |
| `ResponsesFrames.BeginEvent` | jsonx.go:187-190 | each numbered event begins with its type and its number |
| `ResponsesFrames.CallAdded` | responses.go:1013-1024 | the frame that announces a function call |
| `ResponsesFrames.ItemDone` | responses.go:1101-1108 | the frame that ends an item, around the marshalled item |
| `ResponsesFrames.Final` | responses.go:864-881 | the terminal frame of a completed or incomplete response, byte for byte around the marshalled response and usage, and by its meaning |
| `ResponsesFrames.Failed` | responses.go:841-848 | the frame of a failed response, byte for byte around the marshalled response, and by its meaning |
| `ResponsesFrames.WriteFrame` | responses.go:936-1109 | every frame of the Responses stream means what it should |
| `ResponsesFrames.WriteAll` | responses.go:672-883 | a client reading the bytes of a whole Responses stream gets exactly its frames |
| `ResponsesFrames.Lossless` | responses.go:936-1109 | two frames of the Responses stream, their strings valid UTF-8, with the same meaning are the same frame |
| `ResponsesFrames.ReadsBack` | responses.go:936-1109 | a client of the Responses stream that looks everything up by member name reads the frame that was sent, and its number; the event is named after the type in its data |
| `ResponsesFrames.StatusRead` | responses.go:864-881 | the status of the response in its first frames and in the last one, and the reason why it is incomplete |
| `ResponsesFrames.RunSendable` | responses.go:672-883 | every frame of a Responses run over events with valid strings is one of those that `Lossless` is about |
| `ResponsesFrames.AllLossless` | responses.go:672-883 | the meanings of all frames of a Responses stream determine the frames |
| `LineReader.TrimLine` | cc.go:655-663 | the loops compute the trimmed line |
| `LineReader.TrimmedIsOnly` | cc.go:655-663 | blanks are taken from the front, blanks and line ends from the back, until neither is possible; that determines the result |
| `LineReader.LinesAddUp` | cc.go:619-653 | the lines put together are the input; none is empty, and a newline ends each, except that the last one may lack it |
| `LineReader.LinesAreOnly` | cc.go:619-653 | there is no other way to cut the input |
| `LineReader.BufReader.ReadSlice` | cc.go:629-636 | up to a newline, a full buffer, or what is left, however the source hands out its bytes |
| `LineReader.NextLine` | cc.go:629-640 | one line put together from as many buffers as it takes, or rejected when the buffers read exceed the limit |
| `LineReader.ReadLines` | cc.go:619-653 | the callback gets exactly the trimmed lines in order, a final unterminated one too; all earlier lines were delivered before a rejection, an error or a refusal |
| `LineReader.LimitsHold` | cc.go:630-640 | no line within the limit is rejected, and every line longer than the limit plus one buffer is, whenever the end is announced |
| `LineReader.Deterministic` | cc.go:619-653 | neither outcome nor lines depend on how the bytes arrive; on when the end is announced they depend only if the input ends in a line of one borderline length |
| `LineReader.BorderlineRun` | cc.go:629-640 | at the borderline length the announcement of the end decides: both outcomes are reached |
| `Limiter.Safety` | httpx.go:261-279 | under every interleaving the number admitted stays within the limit, the counter is exact, and the reset of a negative counter never happens |
| `Limiter.RefusedWhen` | httpx.go:261-270 | a request is turned away exactly when admitted and undoing requests fill the limit |
| `Limiter.DrainsToZero` | httpx.go:272-279 | when all requests are done the counter is zero |
| `Limiter.SpuriousRefusal` | httpx.go:261-270 | a request can be turned away although none is admitted |
| `Limiter.InflightLimiter.Acquire` | httpx.go:261-270 | undisturbed, it admits exactly while there is room |
| `Limiter.InflightLimiter.Release` | httpx.go:272-279 | undisturbed, it counts down and never below zero |
| `Cooldown.RunInv` | keys.go:97-118 | under every interleaving each pending swap expects a value that was current when it was read |
| `Cooldown.MarkIsLatest` | keys.go:97-118 | the mark is the latest deadline among the cooldowns since the last clearing, or 0 |
| `Cooldown.OnlyClearingLowers` | keys.go:106-118 | no cooldown shortens another, and a finished cooldown has its deadline respected |
| `Cooldown.FailedSwapHasCause` | keys.go:106-112 | a swap fails only because another call has changed the mark since |
| `Cooldown.UpstreamKey.Cool` | keys.go:97-114 | undisturbed, the mark becomes the later of the old mark and the new deadline |
| `Cooldown.UpstreamKey.MarkHealthy` | keys.go:116-118 | the mark is cleared |
| `KeyPool.Coverage` | keys.go:174-183 | a scan inspects every key exactly once if and only if its ticket is at most 2^64 - n or n divides 2^64 |
| `KeyPool.WrapMisses` | keys.go:182-183 | which key a scan across the wrap never inspects |
| `KeyPool.WrapCounterexample` | keys.go:182-183 | three keys and the last ticket: the third key is never inspected |
| `KeyPool.NilExactlyWhenExcluded` | keys.go:169-196 | coverage is exactly what "nil only if all are excluded" needs |
| `KeyPool.Pool.Scan` | keys.go:180-195 | the first healthy key left in rotation order, else the first key left, else none; the first key looked at, if nothing is against it |
| `KeyPool.Pool.Draw` | keys.go:174-178 | the ticket drawn is the counter before the addition, across the wrap too |
| `KeyPool.Pool.Next` | keys.go:169-196 | draws the next ticket; with coverage it returns a key exactly if one is left, and a healthy one if there is one; with nothing excluded and the ticket's key healthy it returns that key |
| `KeyPool.Fairness` | keys.go:174-189 | any m consecutive tickets give each of n keys the floor or the ceiling of m / n |
| `KeyPool.RunEven` | keys.go:169-196 | at every point of every interleaving, the calls that have drawn a ticket are spread over the keys as their tickets are |
| `KeyPool.ConcurrentFairness` | keys.go:169-196 | however calls interleave their draws and their looks while no key cools down and none is excluded: each key has been returned by the floor or the ceiling of m / n of the m calls that drew a ticket |
| `Failover.Authenticator.ByoKey` | keys.go:278-288 | a key a client brings is created once and then remembered |
| `Failover.Resolve` | keys.go:383-432 | exactly who is turned away and why; a brought or bound key is used as it is and draws no ticket; nothing else leaves the pool |
| `Failover.TracksCount` | server.go:50-64 | as many keys are excluded as calls were made |
| `Failover.Another` | server.go:56-61 | the next key was not called before; with full coverage there is none only when all were |
| `Failover.Reply` | server.go:67-83 | what one reply does to the mark of its key, and whether it ends the request |
| `Failover.CooledStaysOut` | keys.go:97-118 | a key moved past is unhealthy until the deadline of its reply |
| `Failover.Generate` | server.go:39-85 | no key twice, only refused replies are retried, one call if pinned; on the marks themselves: right after its reply the mark of a key moved past is the later of the mark before and the deadline of that reply, that of a key that answered 2xx is 0, and any other is unchanged, and undisturbed those are the marks at the end; with coverage it makes min(1 + KeyFailover, n) calls exactly if all before the last of these are refused, and runs out of keys exactly if it may try more than n and all n are refused |
| `Failover.PoolExhausted` | server.go:77-84 | two keys and every reply a 429: no key is left and both are cooled |
| `Failover.MovedPast` | server.go:67-83 | a 429 and then a 200: the first key is unhealthy until the cooldown is over, the second one healthy |
| `Failover.Serve` | server.go:39-85 | from credentials to the last call: a brought or bound key gets exactly one call with that key |
| `Chat.DecodeEncoded` | anthropic.go:378-384 | an encoded string decodes to itself, its malformed bytes replaced |
| `Chat.RepairedValid` | anthropic.go:378-384 | what decoding returns is valid UTF-8 |
| `Chat.PairDecoded` | ccbuild.go:464-469 | an escaped pair of surrogates decodes to its one character |
| `Chat.ToolResultText` | ccbuild.go:459-482 | the text of a tool result: a string decoded, parts concatenated, anything else as it stands |
| `Chat.TextSurvives` | ccbuild.go:459-482 | a text that one pass encodes is what the next pass reads, as a result, a content part or a system text |
| `Chat.ContentsAgree` | ccbuild.go:459-482 | the three readings of a content agree: a system text is the texts of its parts line by line, and a result is these put together, except that a string that cannot be read stands as it is |
| `CCBuild.MakeUserParts` | ccbuild.go:438-457 | each part of a user's content becomes an image or its text, and there is at least one part |
| `CCBuild.MakeAssistantParts` | ccbuild.go:283-318 | reasoning, then the content's parts, then the calls |
| `CCBuild.CollectNames` | ccbuild.go:263-274 | the table of names holds for each identifier the name of the last call with it |
| `CCBuild.NameIsLast` | ccbuild.go:263-274 | that name is the one found by reading the whole request's calls backwards |
| `CCBuild.HasCacheMarker` | ccbuild.go:427-436 | finds a marker exactly if there is one |
| `CCBuild.Mark` | ccbuild.go:337-351 | marks the last text part of the first user message, in place |
| `CCBuild.MarkerOnce` | ccbuild.go:337-351 | one part is marked exactly if the first user message has a text part, no other, and nothing else changes |
| `CCBuild.BuildMessages` | ccbuild.go:262-351 | the loop builds the messages and system texts of the request, and marks them if a cache key is set |
| `CCBuild.BuildBody` | ccbuild.go:262-424 | the body can be encoded exactly if every call's arguments are a JSON text; it then holds the messages with compacted arguments and says exactly what the chat says |
| `CCBuild.ConvertedEmbeds` | ccbuild.go:310-317 | the calls of the built messages can be embedded exactly if those of the chat can |
| `CCBuild.SentMeans` | ccbuild.go:424-424 | a call is sent with its identifier, its name and the value of its arguments |
| `CCBuild.BodyFails` | ccbuild.go:310-424 | a call with the arguments `hello`: there is no body |
| `CCBuild.TrailKept` | ccbuild.go:278-333 | the upstream is told of exactly the calls and results of the chat, in order, each result under the name of the last call with its identifier |
| `CCBuild.SpeechKept` | ccbuild.go:276-333 | the upstream hears exactly what the chat says: every text, image, thought, call and result, under its role and in order |
| `CCBuild.MarkerSilent` | ccbuild.go:337-351 | the cache marker changes nothing of what is said |
| `CCBuild.ResultPlaced` | ccbuild.go:319-328 | a result stands alone in its message, after everything called or returned before it |
| `GeminiRequest.AddText` | gemini.go:342-350 | decoding, extending and encoding again concatenates |
| `GeminiRequest.Handle` | gemini.go:296-357 | one part: the loop's variables are what reading run by run gives |
| `GeminiRequest.Convert` | gemini.go:265-360 | each run between flush points becomes at most one assistant message, with concatenated text and thoughts and the calls in order; thoughts alone become none |
| `GeminiRequest.TrailKept` | gemini.go:275-360 | the chat has exactly the calls and responses of the request, in order |
| `GeminiRequest.Paired` | gemini.go:306-323 | a response carries the identifier of the most recent earlier call with its name |
| `GeminiRequest.ImageReads` | gemini.go:298-304 | an image of the request is sent as a list that holds its type and its data as one URL |
| `GeminiRequest.SpeechKept` | gemini.go:275-360 | the chat says what the contents say, run by run |
| `GeminiRequest.ResultPlaced` | gemini.go:317-329 | the message of a response comes after everything called or returned before it |
| `ResponsesRequest.Handle` | responses.go:228-314 | one item: the loop's variables are what reading run by run gives |
| `ResponsesRequest.Convert` | responses.go:224-314 | each run of the assistant's items becomes at most one message, with the last text, the last reasoning and all calls in order |
| `ResponsesRequest.TrailKept` | responses.go:228-314 | the chat has exactly the calls and outputs of the request, in order |
| `ResponsesRequest.ResultPlaced` | responses.go:297-309 | the message of an output comes after everything called or returned before it |
| `ResponsesRequest.OutputSurvives` | responses.go:297-309 | what the second pass reads of an output: nothing, the string it spells, or its JSON text |
| `ResponsesRequest.LastTextIs` | responses.go:270-281 | of several answers in a run the last one is sent, and none only if there is none |
| `ResponsesRequest.SpeechKept` | responses.go:228-314 | the chat says what the items say: per run the last thought, the last answer and all calls |
| `ResponsesRequest.SystemKept` | responses.go:228-314 | the system texts of the chat are those of the request, in order |
| `AnthropicRequest.ReadAssistant` | anthropic.go:178-209 | one message with the concatenated text and thinking and the calls in order |
| `AnthropicRequest.ReadUser` | anthropic.go:210-254 | the results in order, then what the user says |
| `AnthropicRequest.Convert` | anthropic.go:166-255 | the loops build the messages of the request one by one |
| `AnthropicRequest.TrailKept` | anthropic.go:173-255 | the chat has exactly the calls and results of the request, in order, and the results' texts survive |
| `AnthropicRequest.ResultsPlaced` | anthropic.go:229-254 | the results of a message follow all that was said before it and precede its text |
| `AnthropicRequest.SpeechKept` | anthropic.go:173-255 | the chat says what the messages say, the user's images among it |
| `TwoPasses.ResponsesTrail` | responses.go:208-314 | from items to upstream messages the calls and results keep their order |
| `TwoPasses.ResponsesPair` | ccbuild.go:262-333 | a call and a later output with its identifier: the call's message comes first, and the result goes under the name of the last such call |
| `TwoPasses.ResponsesSpeech` | responses.go:208-314 | the upstream hears what the items say; of the user exactly the texts, in order, their malformed bytes replaced; and the system texts are the instructions |
| `TwoPasses.DefaultsAgree` | anthropic.go:195-205 | filling in empty arguments changes nothing for the second pass |
| `TwoPasses.AnthropicTrail` | anthropic.go:148-255 | from messages to upstream messages the calls and results keep their order |
| `TwoPasses.AnthropicPair` | ccbuild.go:262-333 | a tool use and a later result for it: the call's message comes first |
| `TwoPasses.AnthropicSpeech` | anthropic.go:148-255 | the upstream hears what the messages say; of the user exactly the texts and images, in order |
| `TwoPasses.GeminiTrail` | gemini.go:241-360 | from contents to upstream messages the calls and responses keep their order |
| `TwoPasses.GeminiPair` | ccbuild.go:262-333 | a call and the next response with its name: same identifier, and the call's message comes first |
| `TwoPasses.GeminiSpeech` | gemini.go:241-360 | the upstream hears what the contents say; of the user exactly the texts and images, in order; and the model's text whole |

## Left out

- HTTP, TLS, proxies, listening, signals, logging, timers, configuration, CORS and routing: input and output around the core. Timeouts and cancellation are endings of the event sequence.
- Device fingerprints, lifecycle events, session identifiers, plan tables, model lists and the block list: opaque or constant data.
- The bytes of the thinking signature: an arbitrary function of the text.
- Decoding of JSON into structs, and the texts of encoded structs and of lists of content parts: events and requests are taken as decoded; a marshalled struct is only assumed to be a JSON text for its value (`Marshals`, `Denotes`), and a list of parts is decoded by an arbitrary function; where a list that the first pass encodes matters, it is only assumed that the second pass reads it back (`Faithful`, `ReadsImages`). Embedded argument texts are not covered by this: they are modelled, with their encode errors.
- The nesting depth and the number ranges that the decoder accepts: `Json` has no bounds.
- The shape that an encode error of the request takes at each endpoint: `BuildBody` says only when it fails.
- A frame that is cut off within its bytes when a write fails, and failing flushes: the wire is the list of frames handed to the buffered connection.
- The message of a failed write: it is a fixed text, where the source uses the error's own.
- Sums of token counts and deadlines beyond 64 bits.
- A source that hands out no bytes a hundred times in a row: bufio gives up with an error of its own.
- White space other than ASCII in the trimming of raw JSON.
- The message identifier, model and creation time in the stream models: they are constants of a stream and appear in the frames' bytes only.
- The token counts of the Anthropic stream against the buffered reply: the two are computed by different rules on purpose; each is stated on its own (`UsageTold`, `BufferedTold`).
- The uniqueness of random strings themselves: that two made-up identifiers differ is stated for a supply that does not repeat itself.
- `extractPresentedKey`: which header holds the key; `Resolve` starts from the key presented.
- Tools, tool choice, token limits and reasoning effort of a request: field-by-field copies.
- The janitor that drops keys clients have brought long ago.
- Failover.Generate: the calls of one request are sequential; other requests may change any key's mark and draw tickets between its steps, which the `World` and `Interfere` stand for.
