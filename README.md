# Gobot tools and agent loop, modelled in Dafny

This project models the core of Gobot, a small command-line coding agent
written in Go. The agent sends a prompt to a chat-completion provider. It
runs the tool calls the provider asks for, appends the calls and their
results to the conversation, and asks again, until a reply carries no tool
call. The parts modelled are:

- the `read_file` tool of the `tools` package (`ReadTool.Execute`). It
  resolves the requested path against the working directory and refuses a
  cleaned path that contains "..". It then reads the file and returns a
  window of its lines, selected by `offset` and `limit` and formatted as
  `%5d\t%s\n` with numbers counted from 1;
- the tool registry (`Manager`: `NewManager`, `Register`, `Get`, `List`,
  `ExecuteCall`) and its projection to provider tool definitions
  (`ToDefinitions`);
- the conversation loop of `main` and its own dispatcher `executeToolCall`
  with the `Read`, `Write` and `Bash` handlers. This dispatcher does not use
  the registry.

The library behaviour the core relies on is modelled where a property
depends on it:

- `strings.Split`, `strings.Join` and `strings.Contains`;
- `strconv.Atoi` on a 64-bit platform, including its range clamp and the
  value 0 returned with a discarded error;
- `%5d` formatting;
- `filepath.IsAbs`, `filepath.Clean` and `filepath.Join`, lexically, for '/'
  paths;
- what `json.Unmarshal` does when filling a struct whose fields are all
  strings.

Modules, one per file:

- `Results`: `Option` and `Result`. `Result` stands for Go's
  `(value, error)`.
- `Text`: the string and number functions above.
- `Json`: JSON values, raw documents, and decoding into string fields.
- `FilePaths`: `IsAbs`, `Clean` and `Join`.
- `Environment`: the host oracles for reading files, writing files and
  running a shell.
- `ToolRegistry`: the `Tool` datatype and the `Manager` class.
- `Converter`: `ToolDefinition` and `ToDefinitions`.
- `ReadTool`: the read tool. `ReadResult` specifies it and `Execute` is
  the imperative version. Both use the corrected window described under
  "## Findings". The lemmas are stated about the window and the listing.
- `Agent`: messages, handlers, the `Converse` specification, and `Run`, the
  imperative loop.

Effects are parameters:

- `os.Getwd` is a `Result<string>`;
- `os.ReadFile`, `os.Create` with `WriteString`, and `sh -c` are the
  functions of a `Host`;
- the provider is a function from the conversation to a reply.

## Model

| member | source | states |
|---|---|---|
| Text.Split | internal/tools/read.go:93 | `strings.Split` on a one-character separator returns at least one piece, and no piece contains the separator |
| Text.JoinSplit | internal/tools/read.go:93 | joining the pieces of `Split(s)` with the separator gives back `s` |
| Text.SplitJoin | internal/tools/read.go:93 | splitting the join of separator-free pieces gives back the pieces |
| Text.SplitCount | internal/tools/read.go:93 | the number of lines is the number of newlines plus one |
| Text.SplitAfterPiece | internal/tools/read.go:93 | a separator-free piece followed by the separator splits off as the first piece |
| Text.SplitConcat | internal/tools/read.go:93 | splitting a concatenation merges the last piece of the first part with the first piece of the second |
| Text.Contains | internal/tools/read.go:81 | `strings.Contains`: the substring occurs at some index; a substring longer than the string never occurs, and the empty substring always does |
| Text.ParseDigits | internal/tools/read.go:95-104 | the digit loop of `strconv.ParseUint` in base 10: a value it accepts never exceeds 2^64-1, the largest uint64; past that it reports a range error |
| Text.ContainsAcross | internal/tools/read.go:81 | an occurrence of a substring that does not contain `c` lies entirely on one side of a `c` |
| Text.ContainsInPiece | internal/tools/read.go:81 | an occurrence of a separator-free substring in a joined path lies within one of its segments |
| Text.Atoi | internal/tools/read.go:95 | `strconv.Atoi` with its error discarded always yields an int64 value |
| Text.AtoiDecimal | internal/tools/read.go:95 | every decimal numeral of an int64 parses back to its value |
| Text.ParseShort | internal/tools/read.go:104 | a digit string shorter than 19 characters never overflows, and it is a syntax error exactly when a character is not a digit |
| Text.NonNumeralIsZero | internal/tools/read.go:95 | a short offset or limit that is not a numeral (such as "", "abc", "+" or "1.5") is read as 0 |
| Text.RangeErrorFirst | internal/tools/read.go:104 | the digit loop reports an overflow as soon as it occurs, so whatever follows the overflowing digit is never examined |
| Text.OverflowBeforeSyntax | internal/tools/read.go:104 | an unsigned digit string that overflows reads as the largest int64, whatever follows it, non-digits included |
| Text.NinesOverflowAtTwenty | internal/tools/read.go:104 | nineteen nines still parse; a twentieth overflows the 64-bit accumulator |
| Text.TwentyNinesThenLetter | internal/tools/read.go:95 | "99999999999999999999x" is not a numeral, yet it reads as the largest int64, not as 0 |
| Text.Decimal | internal/tools/read.go:111 | the `%d` rendering of a natural number is a non-empty string of digits |
| Text.PadLeft | internal/tools/read.go:111 | `%5d` pads on the left with spaces to width 5 and keeps the number as the suffix |
| Json.DecodeStrings | internal/tools/read.go:64 | a successful decode yields one value per field; a document of the wrong kind is reported with the full type name, and a field of the wrong kind with the bare struct name |
| Json.DecodeStringsSpec | internal/tools/read.go:63-66 | decoding succeeds exactly when the document parses and each named member is a string or null; each field then holds its member's text, with "" when the member is absent; a syntax error is reported with the parser's message |
| Json.DecodeMembersSpec | internal/tools/read.go:64 | member by member: the decode succeeds if and only if every present member fits a string field, and each field then carries its member's text |
| Json.FirstBadField | internal/tools/read.go:64 | the first field, in declaration order, whose member cannot fill a string decides the error, which names `<struct>.<key>` and the member's kind |
| FilePaths.ResolveKeepsProperNames | internal/tools/read.go:80 | `Clean` of a rooted path keeps only proper names, never "", "." or ".." |
| FilePaths.CleanAbsolute | internal/tools/read.go:80 | the cleaned form of an absolute path is the root followed by proper names |
| FilePaths.CleanAbsoluteSegments | internal/tools/read.go:80 | the '/'-segments of a cleaned absolute path are the empty root segment followed by its names, and none of them is ".." |
| FilePaths.JoinPathAbsolute | internal/tools/read.go:77 | joining onto an absolute working directory gives an absolute path |
| ToolRegistry.Manager.constructor | internal/tools/tool.go:19-25 | `NewManager` creates a registry with no tools |
| ToolRegistry.Manager.Register | internal/tools/tool.go:27-29 | the tool is filed under its own name, replacing any earlier tool of that name, and every other entry is unchanged |
| ToolRegistry.Manager.Get | internal/tools/tool.go:31-34 | a tool is found if and only if its name is registered, and the tool found is the registered one |
| ToolRegistry.Manager.List | internal/tools/tool.go:36-43 | every registered tool appears exactly once, in no particular order, and nothing else appears |
| ToolRegistry.Manager.ExecuteCall | internal/tools/tool.go:46-51 | an unknown name gives `unknown tool: <name>` and runs nothing; a known name gives exactly that tool's `Execute` result |
| ToolRegistry.RegisterScenario | internal/tools/tool.go:27-34 | in a fixed scenario (register a tool, another under a second name, then a replacement under the first), `Get` finds each tool right after it is registered, and the final map holds the replacement and the second tool |
| ToolRegistry.EmptyRegistryRefuses | internal/tools/tool.go:46-51 | a fresh registry refuses every call as an unknown tool |
| Converter.Define | internal/tools/converter.go:14-19 | a definition is of kind "function" and copies the tool's name, description and schema |
| Converter.ToDefinitions | internal/tools/converter.go:11-22 | there is one definition per registered tool, each built from that tool, and the names of the definitions are exactly the registered names |
| FilePaths.IsAbs | internal/tools/read.go:74 | `filepath.IsAbs` on '/' paths: the path begins with '/' |
| FilePaths.Clean | internal/tools/read.go:80 | `filepath.Clean` never returns the empty path, and the cleaned form of an absolute path is absolute |
| FilePaths.JoinPath | internal/tools/read.go:77 | `filepath.Join` is empty only when both of its arguments are, and is absolute whenever the directory is |
| ReadTool.Window | internal/tools/read.go:95-107 | the offset is clamped into [0, number of lines]; a positive limit that ends before the last line selects exactly `limit` lines; otherwise the window runs to the last line |
| ReadTool.AddInt64 | internal/tools/read.go:105 | Go's `int` addition: the sum modulo 2^64, within the int64 range |
| ReadTool.DecodeInput | internal/tools/read.go:63-66 | decoding into `ReadInput` succeeds exactly when each of `file_path`, `offset` and `limit` is a string, null or absent, and then each field holds its member's text ("" when absent) |
| ReadTool.ResolvePath | internal/tools/read.go:73-80 | the checked path is never empty, and it is absolute whenever `file_path` or the working directory is |
| ReadTool.WindowAsWritten | internal/tools/read.go:103-107 | the window as Go computes it: the same clamped start as `Window`, and an end that stays within the int64 range and never passes the line count, though it may be negative after wrap-around |
| ReadTool.WindowAsWrittenWithoutOverflow | internal/tools/read.go:103-107 | when the clamped start plus `limit` fits in an int64, the window computed in 64-bit arithmetic equals the intended window |
| ReadTool.WindowAsWrittenOverflows | internal/tools/read.go:103-107 | limit 9223372036854775807 with offset 1 makes `start+limit` wrap to a negative `end`, so no line is emitted, whereas the intended window runs from line 2 to the end |
| ReadTool.DecimalMaxInt64 | internal/tools/read.go:104 | `%d` of the largest int64 is "9223372036854775807" |
| ReadTool.WindowAsWrittenOverflowsOnLiterals | internal/tools/read.go:95-110 | offset "1" and limit "9223372036854775807" parse to 1 and the largest int64, so on any file of two or more lines the source emits no line, whereas the intended window is lines 2 to the last |
| ReadTool.Rows | internal/tools/read.go:109-112 | the k-th row of a window is numbered `start+k+1` and carries line `start+k` |
| ReadTool.RowText | internal/tools/read.go:111 | the text after the first tab of a row is exactly the line, and a row holds no newline |
| ReadTool.AppendRow | internal/tools/read.go:111 | writing one more `...\n` row adds exactly that row to the split output |
| ReadTool.ListingRows | internal/tools/read.go:109-114 | the builder's output splits on newlines into exactly the rows of the window, in order, then one empty piece |
| ReadTool.UnnumberListing | internal/tools/read.go:109-114 | removing numbers and tabs from the listing gives back exactly the lines of the window |
| ReadTool.RenderRows | internal/tools/read.go:93-114 | for any offset and limit, the output has one row per line of the clamped window |
| ReadTool.OffsetPastEndIsEmpty | internal/tools/read.go:99-112 | an offset at or past the number of lines gives an empty result |
| ReadTool.WholeFileRoundTrip | internal/tools/read.go:93-114 | with no offset and no limit, stripping the numbers and joining the lines with newlines restores the file |
| ReadTool.OffsetThreeLimitTwo | internal/tools/read.go:95-112 | offset "3" and limit "2" on a ten-line file emit exactly lines 4 and 5, numbered 4 and 5 |
| ReadTool.NumberLines | internal/tools/read.go:93-114 | the split, the clamping and the builder loop produce exactly `Render`: the numbered rows of the clamped window |
| ReadTool.ReadResult | internal/tools/read.go:62-115 | the tool succeeds exactly when the input decodes, the working directory is known, the resolved path contains no "..", and the file at that path is read |
| ReadTool.Execute | internal/tools/read.go:62-115 | the step-by-step tool (decode, working directory, resolve, ".." check, read, window, builder loop) returns exactly `ReadResult`, the error cases included |
| ReadTool.UndecodableInputRejected | internal/tools/read.go:63-66 | input that does not decode is refused with `invalid input: ` and the decoder's message |
| ReadTool.NumericWindowRejected | internal/tools/read.go:12-16 | the schema advertises `offset` and `limit` as integers, yet a JSON number in either field makes the call fail with `invalid input:` |
| ReadTool.OffsetErrorText | internal/tools/read.go:64-65 | a number in `offset` gives the message `json: cannot unmarshal number into Go struct field ReadInput.offset of type string` |
| ReadTool.NumericOffsetMessage | internal/tools/read.go:63-66 | `{"offset": 3}` is refused with `invalid input: ` followed by that message |
| ReadTool.TraversalRejectedBeforeRead | internal/tools/read.go:80-85 | a resolved path containing ".." is refused with the security error, whatever the file system holds |
| ReadTool.TraversalCheckSeesOnlyNames | internal/tools/read.go:73-83 | from an absolute working directory the checked path is absolute and has no ".." segment, so the check refuses only names containing "..", never a climb out of the directory |
| ReadTool.ReadRoundTrip | internal/tools/read.go:62-115 | a successful whole-file read, with its numbers removed, gives back the file's contents |
| ReadTool.AsTool | internal/tools/read.go:20-22 | the read tool is registered as "read_file", and its `Execute` is `ReadResult` |
| ReadTool.RegisteredRead | internal/tools/tool.go:27-51 | once registered, a call to "read_file" through the registry answers as `Execute` does |
| Agent.ExecuteToolCall | app/main.go:109-120 | dispatch on the exact function name: Read, Write and Bash reach their handlers, any other name gives `unknown tool: <name>` (stated by `UnknownNameReported` and `KnownNamesRouted`) |
| Agent.ExecuteRead | app/main.go:122-137 | when the arguments decode and the file at `file_path` is read, the result is its contents, exactly as given |
| Agent.ExecuteWrite | app/main.go:139-160 | when the arguments decode and the write succeeds, the result is `successfully written to: <file_path>` |
| Agent.ExecuteBash | app/main.go:162-176 | when the arguments decode, the result is the combined output of running `command` |
| Agent.UnknownNameReported | app/main.go:109-120 | a name other than Read, Write and Bash gives `unknown tool: <name>` and does not use the host |
| Agent.KnownNamesRouted | app/main.go:110-116 | Read, Write and Bash each reach their own handler |
| Agent.ParseFailureReported | app/main.go:122-169 | for each handler on its own, arguments that do not decode into that handler's struct give `error parsing arguments: ` and the decoder's message, whatever the host holds: no file is read or written and no command runs |
| Agent.MalformedArgumentsReported | app/main.go:127-169 | each handler reports a JSON syntax error as `error parsing arguments: ` followed by the parser's message |
| Agent.WriteReportsPath | app/main.go:139-160 | a write that succeeds writes the `content` argument to `file_path` and reports `successfully written to: <file_path>` |
| Agent.ReadHasNoPathCheck | app/main.go:122-137 | the agent's own Read neither cleans nor checks the path: any readable path, ".." included, returns its contents verbatim |
| Agent.PathErrorText | app/main.go:127-128 | a number in `file_path` gives the message `json: cannot unmarshal number into Go struct field .file_path of type string`, since the argument struct is anonymous |
| Agent.NumericPathMessage | app/main.go:122-129 | `{"file_path": 1}` gives `error parsing arguments: ` followed by that message |
| Agent.ToolReplies | app/main.go:101-105 | there is one tool message per call, in call order, each tagged with its call's id and holding that call's result |
| Agent.BatchIsRound | app/main.go:95-105 | the assistant message followed by the replies to its calls forms one complete round |
| Agent.RoundsExtend | app/main.go:95-105 | appending a round to a sequence of rounds keeps it well formed and adds one to the round count |
| Agent.TranscriptAppend | app/main.go:95-105 | appending a round to a transcript keeps it a transcript with one more round |
| Agent.ExtendTranscript | app/main.go:90-105 | a batch of k calls grows the conversation by exactly k+1 messages and keeps every tool message paired with its call's id |
| Agent.Converse | app/main.go:63-106 | the loop from a conversation, bounded by the number of requests: the conversation it ends with begins with the one it started from |
| Agent.ConverseKeepsTranscript | app/main.go:63-106 | the loop only appends, keeps the conversation a well-formed transcript, and adds at most one round per request |
| Agent.ConverseEnding | app/main.go:75-88 | a provider error, a reply with no choices, or a first choice without tool calls (whose content is the answer) ends the run, decided by the reply to the final conversation |
| Agent.OnlyFirstChoiceUsed | app/main.go:79-85 | only the first choice is used: providers whose replies agree on the error, on having no choices, or on the first choice give the same outcome and the same conversation |
| Agent.FirstBatch | app/main.go:90-105 | the first batch puts the assistant message with the calls in order right after the prompt, and then the i-th result tagged with the i-th call's id |
| Agent.CopyCalls | app/main.go:90-93 | the array filled by index holds every call of the batch, in order |
| Agent.AnswerCalls | app/main.go:101-105 | the inner loop appends exactly the replies to the calls, in order |
| Agent.Run | app/main.go:63-106 | the imperative loop, seeded with the one user message and with the tool-call array filled by index, ends as `Converse` says, with a well-formed transcript |

## Left out

- Network, process and file-system effects are oracles: `os.Getwd` and `os.ReadFile` in the read tool, and `os.ReadFile`, `os.Create`, `WriteString` and `sh -c` in the agent. A `Host` is a fixed function, so a write does not change what a later read returns, and the order in which the calls of a batch run is visible only through the order of their messages.
- The chat-completion client, model name and request parameters (app/main.go:61, 68-74) are a provider function from the conversation to a reply.
- Flag and environment handling and the loading of the embedded tool schemas (app/main.go:16-59) are left out. The one exception is the empty-prompt panic, which is `Run`'s precondition.
- internal/adapter/openai.go is left out, because it only converts to types of the OpenAI client library.
- stderr logging of tool calls (app/main.go:102) and printing the answer (app/main.go:86) are left out. The answer is the `Answered` outcome.
- Agent.Run: the Go loop has no bound. The model stops with `OutOfFuel` after `fuel` provider requests, and its contract says nothing about the conversation after that point.
- Agent.ConverseEnding: says nothing about an `OutOfFuel` ending, which the program itself never reaches.
- ToolRegistry.Manager.List: Go's map iteration order is random. The contract fixes only which tools appear, not their order.
- Tool results are `Result<string>`: a Go error is kept only by its `Error()` text.
- ReadTool.Execute: like `ReadResult`, it computes `start + limit` without bounds. It uses the corrected window, and so it can differ from internal/tools/read.go:105 only when `start + limit` exceeds the largest int64 and the clamped start is before the last line, as `WindowAsWrittenOverflows` shows. When the sum fits, `WindowAsWrittenWithoutOverflow` proves that the two windows agree.
- Json.DecodeStrings: `encoding/json` matches keys case-insensitively, and the model matches them exactly. The model reports the first ill-typed field in declaration order, where Go reports the first one in document order. Syntax-error messages are whatever the parser says, carried in `Malformed`.
- ReadTool.Description and ReadTool.Parameters are constants. The description is paraphrased, and the schema's `description` strings are dropped.
- FilePaths.Clean models '/' paths only (no volume names or Windows separators), as on the Unix systems the tool runs on.

## Findings

| source | as written | input that shows it | evidently intended | confidence | as-written member | corrected member |
|---|---|---|---|---|---|---|
| internal/tools/read.go:105 | `start+limit` is computed in Go's 64-bit `int`, so a very large limit wraps to a negative `end` | offset "1", limit "9223372036854775807", a file of at least two lines: `end` becomes -9223372036854775808 and nothing is returned | a limit beyond the file reads to the last line, as it does for smaller large limits | high; not executed | ReadTool.WindowAsWrittenOverflows | ReadTool.Window |
