/** The agent program: it sends the conversation to a chat-completion
    provider, runs the tool calls of the first choice of each reply with its
    own three handlers, appends the calls and their results to the
    conversation, and repeats until a reply asks for no tool. */
module Agent {
  import opened Results
  import opened Json
  import opened Environment

  // ---------------------------------------------------------------------
  // Messages and replies

  /** A tool call of the provider: its id, the name of the function to run
      and its JSON-encoded arguments. */
  datatype ToolCall = ToolCall(id: string, name: string, arguments: Raw)

  /** The messages of the conversation: the user's prompt, an assistant
      message that carries the tool calls it asked for, and the result of one
      tool call, tagged with that call's id. */
  datatype Message =
    | UserMessage(content: string)
    | AssistantMessage(toolCalls: seq<ToolCall>)
    | ToolMessage(content: string, toolCallId: string)

  /** One choice of a reply: its text and the tool calls it asks for. */
  datatype Choice = Choice(content: string, toolCalls: seq<ToolCall>)

  /** What one provider request yields: an error, or a completion with its
      choices. */
  datatype Reply = Failure(error: string) | Completion(choices: seq<Choice>)

  /** How a run ends: the answer printed, the provider's error (the program
      exits with status 1), the "No choices in response" panic, or, in the
      model only, the bound on the number of requests reached. */
  datatype Outcome = Answered(text: string) | ProviderFailed(error: string) | NoChoices | OutOfFuel

  /** The provider as the program sees it: the reply to a conversation. */
  type Provider = seq<Message> -> Reply

  // ---------------------------------------------------------------------
  // The tool handlers

  const ReadName: string := "Read"
  const WriteName: string := "Write"
  const BashName: string := "Bash"

  const ParseErrorPrefix: string := "error parsing arguments: "
  const ReadErrorPrefix: string := "error reading file: "
  const CreateErrorPrefix: string := "error creating or truncating file: "
  const WriteErrorPrefix: string := "error writing to file: "
  const WrittenPrefix: string := "successfully written to: "
  const UnknownToolPrefix: string := "unknown tool: "

  /** The anonymous argument structs of the three handlers, as Go names
      their types (an anonymous struct has no bare name), and the JSON names
      of their fields. */
  const ReadArgsType: StructType := StructType("struct { FilePath string \"json:\\\"file_path\\\"\" }", "")
  const ReadArgsKeys: seq<string> := ["file_path"]
  const WriteArgsType: StructType := StructType("struct { FilePath string \"json:\\\"file_path\\\"\"; Content string \"json:\\\"content\\\"\" }", "")
  const WriteArgsKeys: seq<string> := ["file_path", "content"]
  const BashArgsType: StructType := StructType("struct { Command string \"json:\\\"command\\\"\" }", "")
  const BashArgsKeys: seq<string> := ["command"]

  /** `executeReadTool`: the file at `file_path`, exactly as given, or the
      read error. */
  function ExecuteRead(arguments: Raw, host: Host): (r: string)
    ensures Decodable(arguments, ReadArgsKeys) && host.readFile(FieldText(arguments, "file_path")).Contents? ==>
              r == host.readFile(FieldText(arguments, "file_path")).data
  {
    DecodeStringsSpec(arguments, ReadArgsType, ReadArgsKeys);
    match DecodeStrings(arguments, ReadArgsType, ReadArgsKeys)
    case Err(e) => ParseErrorPrefix + e
    case Ok(fields) =>
      match host.readFile(fields[0])
      case Contents(data) => data
      case Missing(detail) => ReadErrorPrefix + detail
      case Unreadable(detail) => ReadErrorPrefix + detail
  }

  /** `executeWriteTool`: create or truncate `file_path`, write `content`,
      and report which step failed or that the write succeeded. */
  function ExecuteWrite(arguments: Raw, host: Host): (r: string)
    ensures Decodable(arguments, WriteArgsKeys) &&
            host.writeFile(FieldText(arguments, "file_path"), FieldText(arguments, "content")).Written? ==>
              r == WrittenPrefix + FieldText(arguments, "file_path")
  {
    DecodeStringsSpec(arguments, WriteArgsType, WriteArgsKeys);
    match DecodeStrings(arguments, WriteArgsType, WriteArgsKeys)
    case Err(e) => ParseErrorPrefix + e
    case Ok(fields) =>
      match host.writeFile(fields[0], fields[1])
      case CreateFailed(detail) => CreateErrorPrefix + detail
      case WriteFailed(detail) => WriteErrorPrefix + detail
      case Written => WrittenPrefix + fields[0]
  }

  /** `executeBashTool`: the combined output of `sh -c command`; the exit
      status is discarded. */
  function ExecuteBash(arguments: Raw, host: Host): (r: string)
    ensures Decodable(arguments, BashArgsKeys) ==> r == host.runShell(FieldText(arguments, "command"))
  {
    DecodeStringsSpec(arguments, BashArgsType, BashArgsKeys);
    match DecodeStrings(arguments, BashArgsType, BashArgsKeys)
    case Err(e) => ParseErrorPrefix + e
    case Ok(fields) => host.runShell(fields[0])
  }

  /** `executeToolCall`: dispatch on the exact function name. */
  function ExecuteToolCall(name: string, arguments: Raw, host: Host): string {
    if name == ReadName then ExecuteRead(arguments, host)
    else if name == WriteName then ExecuteWrite(arguments, host)
    else if name == BashName then ExecuteBash(arguments, host)
    else UnknownToolPrefix + name
  }

  // ---------------------------------------------------------------------
  // The conversation

  /** The tool messages answering `calls`, one per call and in the same
      order, each carrying the result of running that call and its id. */
  function ToolReplies(calls: seq<ToolCall>, host: Host): (replies: seq<Message>)
    ensures |replies| == |calls|
    ensures forall i :: 0 <= i < |calls| ==>
              replies[i] == ToolMessage(ExecuteToolCall(calls[i].name, calls[i].arguments, host), calls[i].id)
    decreases |calls|
  {
    if calls == [] then []
    else
      var rest := ToolReplies(calls[1..], host);
      assert forall i :: 1 <= i < |calls| ==> calls[i] == calls[1..][i - 1];
      [ToolMessage(ExecuteToolCall(calls[0].name, calls[0].arguments, host), calls[0].id)] + rest
  }

  /** The conversation after one batch of tool calls: the assistant message
      carrying the calls, then one tool message per call. */
  function Extend(history: seq<Message>, calls: seq<ToolCall>, host: Host): seq<Message> {
    history + [AssistantMessage(calls)] + ToolReplies(calls, host)
  }

  /** Where a run ends and the conversation it has built by then. */
  datatype Session = Session(outcome: Outcome, history: seq<Message>)

  /** The loop of `main` from `history`, allowed at most `fuel` more
      provider requests. */
  function Converse(history: seq<Message>, provider: Provider, host: Host, fuel: nat): (r: Session)
    ensures history <= r.history
    decreases fuel
  {
    if fuel == 0 then Session(OutOfFuel, history)
    else
      match provider(history)
      case Failure(e) => Session(ProviderFailed(e), history)
      case Completion(choices) =>
        if |choices| == 0 then Session(NoChoices, history)
        else if |choices[0].toolCalls| == 0 then Session(Answered(choices[0].content), history)
        else Converse(Extend(history, choices[0].toolCalls, host), provider, host, fuel - 1)
  }

  /** `ms` begins with one tool message per call of `calls`, in order, the
      i-th tagged with the id of the i-th call. */
  predicate Answers(ms: seq<Message>, calls: seq<ToolCall>) {
    |calls| <= |ms| &&
    forall i :: 0 <= i < |calls| ==> ms[i].ToolMessage? && ms[i].toolCallId == calls[i].id
  }

  /** A sequence of rounds, each an assistant message with at least one tool
      call followed by the tool messages that answer its calls. */
  predicate Rounds(ms: seq<Message>)
    decreases |ms|
  {
    ms == [] ||
    (&& ms[0].AssistantMessage?
     && |ms[0].toolCalls| > 0
     && Answers(ms[1..], ms[0].toolCalls)
     && Rounds(ms[1 + |ms[0].toolCalls|..]))
  }

  /** A well-formed conversation for `prompt`: the user's prompt, then
      complete rounds of tool calls and their results. */
  predicate Transcript(ms: seq<Message>, prompt: string) {
    |ms| >= 1 && ms[0] == UserMessage(prompt) && Rounds(ms[1..])
  }

  /** The number of rounds in a sequence of rounds. */
  function RoundCount(ms: seq<Message>): nat
    requires Rounds(ms)
    decreases |ms|
  {
    if ms == [] then 0 else 1 + RoundCount(ms[1 + |ms[0].toolCalls|..])
  }

  // ---------------------------------------------------------------------
  // Properties of the handlers

  /** `executeToolCall` never fails: every name yields a string, and a name
      other than the three known ones yields `unknown tool: <name>` without
      looking at the arguments or touching the host. */
  lemma UnknownNameReported(name: string, arguments: Raw, host: Host, other: Host)
    requires name != ReadName && name != WriteName && name != BashName
    ensures ExecuteToolCall(name, arguments, host) == UnknownToolPrefix + name
    ensures ExecuteToolCall(name, arguments, other) == ExecuteToolCall(name, arguments, host)
  {
  }

  /** Each known name reaches its own handler. */
  lemma KnownNamesRouted(arguments: Raw, host: Host)
    ensures ExecuteToolCall(ReadName, arguments, host) == ExecuteRead(arguments, host)
    ensures ExecuteToolCall(WriteName, arguments, host) == ExecuteWrite(arguments, host)
    ensures ExecuteToolCall(BashName, arguments, host) == ExecuteBash(arguments, host)
  {
  }

  /** Arguments that do not decode into a handler's struct give
      `error parsing arguments: <decoder message>`, and the host is not
      used: no file is read or written and no command runs. */
  lemma ParseFailureReported(arguments: Raw, host: Host, other: Host)
    ensures !Decodable(arguments, ReadArgsKeys) ==>
              ExecuteRead(arguments, host) == ParseErrorPrefix + DecodeStrings(arguments, ReadArgsType, ReadArgsKeys).message &&
              ExecuteRead(arguments, other) == ExecuteRead(arguments, host)
    ensures !Decodable(arguments, WriteArgsKeys) ==>
              ExecuteWrite(arguments, host) == ParseErrorPrefix + DecodeStrings(arguments, WriteArgsType, WriteArgsKeys).message &&
              ExecuteWrite(arguments, other) == ExecuteWrite(arguments, host)
    ensures !Decodable(arguments, BashArgsKeys) ==>
              ExecuteBash(arguments, host) == ParseErrorPrefix + DecodeStrings(arguments, BashArgsType, BashArgsKeys).message &&
              ExecuteBash(arguments, other) == ExecuteBash(arguments, host)
  {
    DecodeStringsSpec(arguments, ReadArgsType, ReadArgsKeys);
    DecodeStringsSpec(arguments, WriteArgsType, WriteArgsKeys);
    DecodeStringsSpec(arguments, BashArgsType, BashArgsKeys);
  }

  /** A syntax error in the arguments is reported by every handler with
      the parser's message. */
  lemma MalformedArgumentsReported(reason: string, host: Host)
    ensures ExecuteRead(Malformed(reason), host) == ParseErrorPrefix + reason
    ensures ExecuteWrite(Malformed(reason), host) == ParseErrorPrefix + reason
    ensures ExecuteBash(Malformed(reason), host) == ParseErrorPrefix + reason
  {
  }

  /** A write whose file is created and written reports the path it was
      given, having written exactly the `content` argument there. */
  lemma WriteReportsPath(arguments: Raw, host: Host)
    requires Decodable(arguments, WriteArgsKeys)
    requires host.writeFile(FieldText(arguments, "file_path"), FieldText(arguments, "content")) == Written
    ensures ExecuteWrite(arguments, host) == WrittenPrefix + FieldText(arguments, "file_path")
  {
    DecodeStringsSpec(arguments, WriteArgsType, WriteArgsKeys);
  }

  /** The agent's own `Read` reads `file_path` exactly as given: it neither
      cleans the path nor refuses "..", so the contents of any path the host
      can read come back verbatim. */
  lemma ReadHasNoPathCheck(path: string, host: Host)
    requires host.readFile(path).Contents?
    ensures ExecuteToolCall(ReadName, WellFormed(Object(map["file_path" := String(path)])), host) == host.readFile(path).data
  {
    var arguments := WellFormed(Object(map["file_path" := String(path)]));
    DecodeStringsSpec(arguments, ReadArgsType, ReadArgsKeys);
    assert FieldText(arguments, "file_path") == path;
  }

  // ---------------------------------------------------------------------
  // Properties of the conversation

  /** Text after the answers to some calls does not disturb them. */
  lemma AnswersPrefix(ms: seq<Message>, more: seq<Message>, calls: seq<ToolCall>)
    requires Answers(ms, calls)
    ensures Answers(ms + more, calls)
  {
    assert forall i :: 0 <= i < |ms| ==> (ms + more)[i] == ms[i];
  }

  /** The messages the program appends for a batch of calls are one round. */
  lemma BatchIsRound(calls: seq<ToolCall>, host: Host)
    requires |calls| > 0
    ensures Rounds([AssistantMessage(calls)] + ToolReplies(calls, host))
    ensures RoundCount([AssistantMessage(calls)] + ToolReplies(calls, host)) == 1
  {
    var round := [AssistantMessage(calls)] + ToolReplies(calls, host);
    assert round[1..] == ToolReplies(calls, host);
    assert round[1 + |calls|..] == [];
  }

  /** A batch of calls answered as the program answers it is one more
      round. */
  lemma {:induction false} RoundsExtend(ms: seq<Message>, round: seq<Message>)
    requires Rounds(ms) && Rounds(round) && RoundCount(round) == 1
    ensures Rounds(ms + round)
    ensures RoundCount(ms + round) == RoundCount(ms) + 1
    decreases |ms|
  {
    if ms == [] {
      assert ms + round == round;
    } else {
      var k := |ms[0].toolCalls|;
      var tail := ms[1 + k..];
      RoundsExtend(tail, round);
      assert (ms + round)[1 + k..] == tail + round;
      assert (ms + round)[0] == ms[0];
      assert (ms + round)[1..] == ms[1..] + round;
      AnswersPrefix(ms[1..], round, ms[0].toolCalls);
    }
  }

  /** Appending one round to a transcript gives a transcript with one
      more round. */
  lemma TranscriptAppend(history: seq<Message>, prompt: string, round: seq<Message>)
    requires Transcript(history, prompt) && Rounds(round) && RoundCount(round) == 1
    ensures Transcript(history + round, prompt)
    ensures RoundCount((history + round)[1..]) == RoundCount(history[1..]) + 1
  {
    RoundsExtend(history[1..], round);
    assert (history + round)[1..] == history[1..] + round;
  }

  /** A transcript stays a transcript, one round longer, when a batch of
      calls is answered; the batch adds exactly one message per call and
      the assistant message. */
  lemma ExtendTranscript(history: seq<Message>, prompt: string, calls: seq<ToolCall>, host: Host)
    requires Transcript(history, prompt) && |calls| > 0
    ensures Transcript(Extend(history, calls, host), prompt)
    ensures RoundCount(Extend(history, calls, host)[1..]) == RoundCount(history[1..]) + 1
    ensures |Extend(history, calls, host)| == |history| + |calls| + 1
  {
    var round := [AssistantMessage(calls)] + ToolReplies(calls, host);
    BatchIsRound(calls, host);
    TranscriptAppend(history, prompt, round);
    assert Extend(history, calls, host) == history + round;
  }

  /** Whatever the provider and the host do, the loop only appends to the
      conversation, keeps it a transcript, and adds at most one round per
      request it makes. */
  lemma {:induction false} ConverseKeepsTranscript(history: seq<Message>, prompt: string, provider: Provider, host: Host, fuel: nat)
    requires Transcript(history, prompt)
    ensures var s := Converse(history, provider, host, fuel);
            && Transcript(s.history, prompt)
            && history <= s.history
            && RoundCount(s.history[1..]) <= RoundCount(history[1..]) + fuel
    decreases fuel
  {
    if fuel > 0 {
      var reply := provider(history);
      if reply.Completion? && |reply.choices| > 0 && |reply.choices[0].toolCalls| > 0 {
        var next := Extend(history, reply.choices[0].toolCalls, host);
        ExtendTranscript(history, prompt, reply.choices[0].toolCalls, host);
        ConverseKeepsTranscript(next, prompt, provider, host, fuel - 1);
      }
    }
  }

  /** How a run that did not exhaust its bound ended is decided by the
      provider's reply to the final conversation: its error, its lack of
      choices, or a first choice with no tool calls whose content is the
      answer. Only the first choice is ever consulted. */
  lemma {:induction false} ConverseEnding(history: seq<Message>, provider: Provider, host: Host, fuel: nat)
    ensures var s := Converse(history, provider, host, fuel);
            match s.outcome
            case Answered(text) =>
              provider(s.history).Completion? && |provider(s.history).choices| > 0 &&
              provider(s.history).choices[0] == Choice(text, [])
            case ProviderFailed(e) => provider(s.history) == Failure(e)
            case NoChoices => provider(s.history) == Completion([])
            case OutOfFuel => true
    decreases fuel
  {
    if fuel > 0 {
      var reply := provider(history);
      if reply.Completion? && |reply.choices| > 0 && |reply.choices[0].toolCalls| > 0 {
        ConverseEnding(Extend(history, reply.choices[0].toolCalls, host), provider, host, fuel - 1);
      }
    }
  }

  /** Two replies the program cannot tell apart: the same error, both
      without choices, or the same first choice, whatever else follows it. */
  predicate SameFirstChoice(a: Reply, b: Reply) {
    || (a.Failure? && b == a)
    || (a.Completion? && b.Completion? && |a.choices| == 0 && |b.choices| == 0)
    || (a.Completion? && b.Completion? && |a.choices| > 0 && |b.choices| > 0 && a.choices[0] == b.choices[0])
  }

  /** Only the first choice of a reply is used: two providers whose replies
      agree on every conversation up to the choices after the first give the
      same run, outcome and conversation alike. */
  lemma {:induction false} OnlyFirstChoiceUsed(history: seq<Message>, p: Provider, q: Provider, host: Host, fuel: nat)
    requires forall h :: SameFirstChoice(p(h), q(h))
    ensures Converse(history, p, host, fuel) == Converse(history, q, host, fuel)
    decreases fuel
  {
    if fuel > 0 {
      assert SameFirstChoice(p(history), q(history));
      var reply := p(history);
      if reply.Completion? && |reply.choices| > 0 && |reply.choices[0].toolCalls| > 0 {
        OnlyFirstChoiceUsed(Extend(history, reply.choices[0].toolCalls, host), p, q, host, fuel - 1);
      }
    }
  }

  /** The error for a JSON number in `file_path` names the field of an
      anonymous struct, which has no type name. */
  lemma PathErrorText()
    ensures FieldError(Number("1"), ReadArgsType, "file_path") ==
            "json: cannot unmarshal number into Go struct field .file_path of type string"
  {
    // the message, evaluated piece by piece
    assert "json: cannot unmarshal " + "number" == "json: cannot unmarshal number";
    assert "json: cannot unmarshal number" + " into Go struct field " + "" == "json: cannot unmarshal number into Go struct field ";
    assert "json: cannot unmarshal number into Go struct field " + "." + "file_path" == "json: cannot unmarshal number into Go struct field .file_path";
    assert "json: cannot unmarshal number into Go struct field .file_path" + " of type string" ==
           "json: cannot unmarshal number into Go struct field .file_path of type string";
  }

  /** `{"file_path": 1}` gets the parse-error result with that message. */
  lemma NumericPathMessage(host: Host)
    ensures ExecuteRead(WellFormed(Object(map["file_path" := Number("1")])), host) ==
            ParseErrorPrefix + "json: cannot unmarshal number into Go struct field .file_path of type string"
  {
    FirstBadField(map["file_path" := Number("1")], ReadArgsType, ReadArgsKeys, 0);
    PathErrorText();
  }

  /** A run whose first reply asks for `k` tool calls continues from the
      conversation grown by exactly `k + 1` messages: the assistant message
      with those calls in order, then the i-th call's result tagged with the
      i-th call's id. */
  lemma FirstBatch(prompt: string, provider: Provider, host: Host, fuel: nat)
    requires fuel > 0
    requires provider([UserMessage(prompt)]).Completion?
    requires |provider([UserMessage(prompt)]).choices| > 0
    requires |provider([UserMessage(prompt)]).choices[0].toolCalls| > 0
    ensures var calls := provider([UserMessage(prompt)]).choices[0].toolCalls;
            var s := Converse([UserMessage(prompt)], provider, host, fuel);
            && |s.history| >= |calls| + 2
            && s.history[1] == AssistantMessage(calls)
            && forall i :: 0 <= i < |calls| ==>
                 s.history[2 + i] == ToolMessage(ExecuteToolCall(calls[i].name, calls[i].arguments, host), calls[i].id)
  {
    var calls := provider([UserMessage(prompt)]).choices[0].toolCalls;
    var next := Extend([UserMessage(prompt)], calls, host);
    ExtendTranscript([UserMessage(prompt)], prompt, calls, host);
    ConverseKeepsTranscript(next, prompt, provider, host, fuel - 1);
    assert next[1] == AssistantMessage(calls);
    assert forall i :: 0 <= i < |calls| ==> next[2 + i] == ToolReplies(calls, host)[i];
  }

  /** The inner loop of `main`: run each call of the batch in order and
      append its result, tagged with the call's id. */
  method AnswerCalls(history: seq<Message>, calls: seq<ToolCall>, host: Host) returns (messages: seq<Message>)
    ensures messages == history + ToolReplies(calls, host)
  {
    messages := history;
    ghost var replies := ToolReplies(calls, host);
    for j := 0 to |calls|
      invariant messages == history + replies[..j]
    {
      var result := ExecuteToolCall(calls[j].name, calls[j].arguments, host);
      assert replies[j] == ToolMessage(result, calls[j].id);
      assert replies[..j + 1] == replies[..j] + [replies[j]];
      messages := messages + [ToolMessage(result, calls[j].id)];
    }
    assert replies[..|calls|] == replies;
  }

  /** The copy of the batch into the `[]openai.ChatCompletionMessageToolCall`
      of the assistant message, element by element. */
  method CopyCalls(calls: seq<ToolCall>) returns (copy: seq<ToolCall>)
    ensures copy == calls
  {
    var toolCallParams := new ToolCall[|calls|];
    for i := 0 to |calls|
      invariant toolCallParams[..i] == calls[..i]
    {
      toolCallParams[i] := calls[i];
    }
    assert toolCallParams[..] == calls[..|calls|] == calls;
    copy := toolCallParams[..];
  }

  /** The main loop: seed the conversation with the prompt, then request,
      check the reply, and answer each batch of tool calls, in order, by
      appending to the conversation. `fuel` bounds the number of requests;
      the program itself has no bound. */
  method Run(prompt: string, provider: Provider, host: Host, fuel: nat) returns (outcome: Outcome, messages: seq<Message>)
    requires prompt != ""
    ensures Session(outcome, messages) == Converse([UserMessage(prompt)], provider, host, fuel)
    ensures Transcript(messages, prompt)
  {
    messages := [UserMessage(prompt)];
    ConverseKeepsTranscript(messages, prompt, provider, host, fuel);
    var remaining := fuel;
    while remaining > 0
      invariant Converse(messages, provider, host, remaining) == Converse([UserMessage(prompt)], provider, host, fuel)
      decreases remaining
    {
      var reply := provider(messages);
      if reply.Failure? {
        return ProviderFailed(reply.error), messages;
      }
      if |reply.choices| == 0 {
        return NoChoices, messages;
      }
      var choice := reply.choices[0];
      if |choice.toolCalls| == 0 {
        return Answered(choice.content), messages;
      }
      var calls := choice.toolCalls;
      ghost var before := messages;
      var toolCallParams := CopyCalls(calls);
      messages := messages + [AssistantMessage(toolCallParams)];
      messages := AnswerCalls(messages, calls, host);
      assert messages == Extend(before, calls, host);
      remaining := remaining - 1;
    }
    outcome := OutOfFuel;
  }
}
