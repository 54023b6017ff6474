/** The `read_file` tool: resolve the requested path against the working
    directory, refuse any resolved path containing "..", read the file and
    return the requested window of its lines, each numbered from 1. */
module ReadTool {
  import opened Results
  import opened Text
  import opened Json
  import opened FilePaths
  import opened Environment
  import ToolRegistry

  const Name: string := "read_file"

  const Description: string := "Reads a file from the local filesystem; returns its lines numbered from 1."

  /** The advertised parameter schema. It declares `offset` and `limit` as
      JSON integers, although the input record holds them as strings. */
  const Parameters: Value := Object(map[
    "type" := String("object"),
    "properties" := Object(map[
      "file_path" := Object(map["type" := String("string")]),
      "offset" := Object(map["type" := String("integer")]),
      "limit" := Object(map["type" := String("integer")])]),
    "required" := Array([String("file_path")])])

  /** `ReadInput`: all three fields are Go strings. */
  datatype ReadInput = ReadInput(filePath: string, offset: string, limit: string)

  const InputType: StructType := StructType("tools.ReadInput", "ReadInput")
  const InputKeys: seq<string> := ["file_path", "offset", "limit"]

  const InvalidInputPrefix: string := "invalid input: "
  const WorkingDirPrefix: string := "failed to get working directory: "
  const TraversalError: string := "file_path cannot contain '..' for security reasons"
  const NotExistPrefix: string := "file does not exist: "
  const ReadFailedPrefix: string := "failed to read file: "

  /** `json.Unmarshal(input, &params)`. */
  function DecodeInput(input: Raw): (r: Result<ReadInput>)
    ensures r.Ok? <==> Decodable(input, InputKeys)
    ensures r.Ok? ==> r.value == ReadInput(FieldText(input, "file_path"), FieldText(input, "offset"), FieldText(input, "limit"))
  {
    DecodeStringsSpec(input, InputType, InputKeys);
    match DecodeStrings(input, InputType, InputKeys)
    case Err(e) => Err(e)
    case Ok(fields) => Ok(ReadInput(fields[0], fields[1], fields[2]))
  }

  /** The path the tool reads: an absolute `file_path` as given, a relative
      one joined onto the working directory, cleaned either way. */
  function ResolvePath(filePath: string, wd: string): (r: string)
    ensures r != ""
    ensures IsAbs(filePath) || IsAbs(wd) ==> IsAbs(r)
  {
    Clean(if IsAbs(filePath) then filePath else JoinPath(wd, filePath))
  }

  // ---------------------------------------------------------------------
  // The window of lines

  /** The half-open window `[start, end)` of line indices emitted for a
      parsed offset and limit over `count` lines: the offset clamped into
      `[0, count]`, then `limit` lines from there when a positive limit ends
      before the last line, otherwise every line to the end. */
  function Window(offset: int, limit: int, count: nat): (w: (nat, nat))
    ensures w.0 <= w.1 <= count
    ensures w.0 == if offset < 0 then 0 else if offset > count then count else offset
    ensures 0 < limit < count - w.0 ==> w.1 - w.0 == limit
    ensures !(0 < limit < count - w.0) ==> w.1 == count
  {
    var start := if offset < 0 then 0 else if offset > count then count else offset;
    var end := if limit > 0 && start + limit < count then start + limit else count;
    (start, end)
  }

  /** Go's `int` addition on a 64-bit platform: wraps around modulo 2^64. */
  function AddInt64(a: int, b: int): (s: int)
    requires MinInt64 <= a <= MaxInt64 && MinInt64 <= b <= MaxInt64
    ensures MinInt64 <= s <= MaxInt64
    ensures (s - (a + b)) % 0x1_0000_0000_0000_0000 == 0
  {
    var t := a + b;
    if t > MaxInt64 then t - 0x1_0000_0000_0000_0000
    else if t < MinInt64 then t + 0x1_0000_0000_0000_0000
    else t
  }

  /** The window as the source computes it, with `start+limit` evaluated in
      Go's 64-bit `int`. */
  function WindowAsWritten(offset: int, limit: int, count: nat): (w: (int, int))
    requires MinInt64 <= offset <= MaxInt64 && MinInt64 <= limit <= MaxInt64 && count <= MaxInt64
    ensures w.0 == Window(offset, limit, count).0
    ensures MinInt64 <= w.1 <= MaxInt64
    ensures w.1 <= count
  {
    var start := if offset < 0 then 0 else if offset > count then count else offset;
    var end := if limit > 0 && AddInt64(start, limit) < count then AddInt64(start, limit) else count;
    (start, end)
  }

  /** How many lines `for i := start; i < end; i++` visits. */
  function Visited(w: (int, int)): nat {
    if w.0 < w.1 then w.1 - w.0 else 0
  }

  /** Where `start+limit` fits in an int64 the two windows agree. */
  lemma WindowAsWrittenWithoutOverflow(offset: int, limit: int, count: nat)
    requires MinInt64 <= offset <= MaxInt64 && MinInt64 <= limit <= MaxInt64 && count <= MaxInt64
    requires Window(offset, limit, count).0 + limit <= MaxInt64
    ensures WindowAsWritten(offset, limit, count) == Window(offset, limit, count)
  {
  }

  /** Offset "1" and limit "9223372036854775807" (any strings that parse to
      1 and to the largest int64) on a file of at least two lines: the
      source's `start+limit` wraps to a negative `end`, so no line is
      emitted, where the intended window is lines 2 to the last. */
  lemma WindowAsWrittenOverflows(offset: string, limit: string, count: nat)
    requires Atoi(offset) == 1 && Atoi(limit) == MaxInt64
    requires 2 <= count <= MaxInt64
    ensures var w := WindowAsWritten(Atoi(offset), Atoi(limit), count);
            w == (1, MinInt64) && Visited(w) == 0
    ensures Window(Atoi(offset), Atoi(limit), count) == (1, count)
  {
  }

  /** `%d` of the largest int64 is the limit string of the finding. */
  lemma DecimalMaxInt64()
    ensures Decimal(MaxInt64) == "9223372036854775807"
  {
    assert Decimal(9) == "9";
    assert Decimal(92) == "92";
    assert Decimal(922) == "922";
    assert Decimal(9223) == "9223";
    assert Decimal(92233) == "92233";
    assert Decimal(922337) == "922337";
    assert Decimal(9223372) == "9223372";
    assert Decimal(92233720) == "92233720";
    assert Decimal(922337203) == "922337203";
    assert Decimal(9223372036) == "9223372036";
    assert Decimal(92233720368) == "92233720368";
    assert Decimal(922337203685) == "922337203685";
    assert Decimal(9223372036854) == "9223372036854";
    assert Decimal(92233720368547) == "92233720368547";
    assert Decimal(922337203685477) == "922337203685477";
    assert Decimal(9223372036854775) == "9223372036854775";
    assert Decimal(92233720368547758) == "92233720368547758";
    assert Decimal(922337203685477580) == "922337203685477580";
    assert Decimal(9223372036854775807) == "9223372036854775807";
  }

  /** The literal inputs of the finding meet the premises of
      `WindowAsWrittenOverflows`: "1" parses to 1 and
      "9223372036854775807" to the largest int64, so on any file of two or
      more lines the source emits nothing where lines 2 to the last are
      intended. */
  lemma WindowAsWrittenOverflowsOnLiterals(count: nat)
    requires 2 <= count <= MaxInt64
    ensures Atoi("1") == 1 && Atoi("9223372036854775807") == MaxInt64
    ensures Visited(WindowAsWritten(Atoi("1"), Atoi("9223372036854775807"), count)) == 0
    ensures Window(Atoi("1"), Atoi("9223372036854775807"), count) == (1, count)
  {
    assert Decimal(1) == "1";
    AtoiDecimal(1);
    DecimalMaxInt64();
    AtoiDecimal(MaxInt64);
    WindowAsWrittenOverflows("1", "9223372036854775807", count);
  }

  // ---------------------------------------------------------------------
  // The numbered listing

  /** One emitted line without its newline: `%5d\t%s` of `n` and `text`. */
  function Row(n: nat, text: string): string {
    PadLeft(Decimal(n), 5) + "\t" + text
  }

  /** The rows for the lines with indices in `[start, end)`. */
  function Rows(lines: seq<string>, start: nat, end: nat): (rows: seq<string>)
    requires start <= end <= |lines|
    ensures |rows| == end - start
    ensures forall k :: 0 <= k < end - start ==> rows[k] == Row(start + k + 1, lines[start + k])
  {
    seq(end - start, k requires 0 <= k < end - start => Row(start + k + 1, lines[start + k]))
  }

  /** What the loop writes into its builder: each line of the window in
      order, numbered from 1, and ended by a newline. */
  function Listing(lines: seq<string>, start: nat, end: nat): string
    requires start <= end <= |lines|
    decreases end - start
  {
    if end == start then "" else Listing(lines, start, end - 1) + Row(end, lines[end - 1]) + "\n"
  }

  /** The listing of `content` for the raw offset and limit strings. */
  function Render(content: string, offset: string, limit: string): string {
    var lines := Split(content, '\n');
    var w := Window(Atoi(offset), Atoi(limit), |lines|);
    Listing(lines, w.0, w.1)
  }

  /** The text after the first tab of a row. */
  function AfterTab(row: string): string
    decreases |row|
  {
    if row == [] then [] else if row[0] == '\t' then row[1..] else AfterTab(row[1..])
  }

  /** The inverse of a listing: the text of each newline-terminated row with
      its number and tab removed. */
  function Unnumber(listing: string): seq<string> {
    var rows := Split(listing, '\n');
    seq(|rows| - 1, k requires 0 <= k < |rows| - 1 => AfterTab(rows[k]))
  }

  lemma {:induction false} AfterTabPrefix(a: string, b: string)
    requires '\t' !in a
    ensures AfterTab(a + "\t" + b) == b
  {
    if a != [] {
      AfterTabPrefix(a[1..], b);
      assert (a + "\t" + b)[1..] == a[1..] + "\t" + b;
    }
  }

  lemma RowText(n: nat, text: string)
    ensures AfterTab(Row(n, text)) == text
    ensures '\n' !in text ==> '\n' !in Row(n, text)
  {
    var pad := PadLeft(Decimal(n), 5);
    assert forall i :: 0 <= i < |pad| ==> pad[i] == ' ' || IsDigit(pad[i]) by {
      forall i | 0 <= i < |pad|
        ensures pad[i] == ' ' || IsDigit(pad[i])
      {
        if i >= |pad| - |Decimal(n)| {
          assert pad[i] == pad[|pad| - |Decimal(n)|..][i - (|pad| - |Decimal(n)|)];
        }
      }
    }
    AfterTabPrefix(pad, text);
  }

  /** A listing splits on newlines into exactly its rows, in order, and one
      final empty piece: `end - start` lines are emitted, the k-th numbered
      `start + k + 1` and carrying `lines[start + k]`. */
  lemma {:induction false} ListingRows(lines: seq<string>, start: nat, end: nat)
    requires start <= end <= |lines|
    requires forall i :: 0 <= i < |lines| ==> '\n' !in lines[i]
    ensures Split(Listing(lines, start, end), '\n') == Rows(lines, start, end) + [""]
    decreases end - start
  {
    if end > start {
      ListingRows(lines, start, end - 1);
      RowText(end, lines[end - 1]);
      AppendRow(Listing(lines, start, end - 1), Row(end, lines[end - 1]), Rows(lines, start, end - 1));
      assert Rows(lines, start, end) == Rows(lines, start, end - 1) + [Row(end, lines[end - 1])];
    }
  }

  /** Appending a newline-terminated row to text whose pieces are `rows`
      and a final empty piece adds that row before the empty piece. */
  lemma AppendRow(prefix: string, row: string, rows: seq<string>)
    requires '\n' !in row
    requires Split(prefix, '\n') == rows + [""]
    ensures Split(prefix + row + "\n", '\n') == rows + [row] + [""]
  {
    SplitAfterPiece(row, "", '\n');
    assert row + ['\n'] + "" == row + "\n";
    SplitConcat(prefix, row + "\n", '\n');
    assert "" + row == row;
    assert prefix + row + "\n" == prefix + (row + "\n");
  }

  /** Removing the numbers from a listing gives back exactly the lines of
      its window. */
  lemma UnnumberListing(lines: seq<string>, start: nat, end: nat)
    requires start <= end <= |lines|
    requires forall i :: 0 <= i < |lines| ==> '\n' !in lines[i]
    ensures Unnumber(Listing(lines, start, end)) == lines[start..end]
  {
    ListingRows(lines, start, end);
    var u := Unnumber(Listing(lines, start, end));
    assert |u| == end - start;
    forall k | 0 <= k < end - start
      ensures u[k] == lines[start + k]
    {
      RowText(start + k + 1, lines[start + k]);
    }
    assert u == lines[start..end];
  }

  /** The shape of every successful read: the output splits into one row per
      line of the window and a final empty piece. */
  lemma RenderRows(content: string, offset: string, limit: string)
    ensures var lines := Split(content, '\n');
            var w := Window(Atoi(offset), Atoi(limit), |lines|);
            Split(Render(content, offset, limit), '\n') == Rows(lines, w.0, w.1) + [""]
  {
    var lines := Split(content, '\n');
    var w := Window(Atoi(offset), Atoi(limit), |lines|);
    ListingRows(lines, w.0, w.1);
  }

  /** An offset at or past the number of lines yields the empty string. */
  lemma OffsetPastEndIsEmpty(content: string, offset: string, limit: string)
    requires Atoi(offset) >= |Split(content, '\n')|
    ensures Render(content, offset, limit) == ""
  {
  }

  /** With neither offset nor limit, stripping the numbers and joining the
      lines with newlines restores the file's contents. */
  lemma WholeFileRoundTrip(content: string)
    ensures Join(Unnumber(Render(content, "", "")), '\n') == content
  {
    var lines := Split(content, '\n');
    UnnumberListing(lines, 0, |lines|);
    assert lines[0..|lines|] == lines;
    JoinSplit(content, '\n');
  }

  /** Offset "3" and limit "2" over ten lines emit exactly the 4th and 5th
      lines, numbered 4 and 5. */
  lemma OffsetThreeLimitTwo(content: string)
    requires |Split(content, '\n')| == 10
    ensures var lines := Split(content, '\n');
            Split(Render(content, "3", "2"), '\n') == [Row(4, lines[3]), Row(5, lines[4]), ""]
  {
    assert Decimal(3) == "3" && Decimal(2) == "2";
    AtoiDecimal(3);
    AtoiDecimal(2);
    var lines := Split(content, '\n');
    assert Window(Atoi("3"), Atoi("2"), |lines|) == (3, 5);
    RenderRows(content, "3", "2");
    var rows := Rows(lines, 3, 5);
    assert rows == [Row(4, lines[3]), Row(5, lines[4])];
  }

  // ---------------------------------------------------------------------
  // The tool

  /** The result of `Execute` for `input`, given what `os.Getwd` returns and
      what reading each path yields. */
  function ReadResult(input: Raw, wd: Result<string>, readFile: string -> FileOutcome): (r: Result<string>)
    ensures r.Ok? <==>
              Decodable(input, InputKeys) && wd.Ok? &&
              !Contains(ResolvePath(FieldText(input, "file_path"), wd.value), "..") &&
              readFile(ResolvePath(FieldText(input, "file_path"), wd.value)).Contents?
  {
    match DecodeInput(input)
    case Err(e) => Err(InvalidInputPrefix + e)
    case Ok(params) =>
      match wd
      case Err(e) => Err(WorkingDirPrefix + e)
      case Ok(dir) =>
        var path := ResolvePath(params.filePath, dir);
        if Contains(path, "..") then Err(TraversalError)
        else
          match readFile(path)
          case Missing(_) => Err(NotExistPrefix + path)
          case Unreadable(detail) => Err(ReadFailedPrefix + detail)
          case Contents(data) => Ok(Render(data, params.offset, params.limit))
  }

  /** The second half of `Execute`: split the contents into lines, clamp
      the window, and write the numbered lines into a builder. */
  method NumberLines(content: string, offset: string, limit: string) returns (result: string)
    ensures result == Render(content, offset, limit)
  {
    var lines := Split(content, '\n');
    var start := Atoi(offset);
    if start < 0 {
      start := 0;
    }
    if start > |lines| {
      start := |lines|;
    }
    var end := |lines|;
    var count := Atoi(limit);
    if count > 0 && start + count < |lines| {
      end := start + count;
    }
    result := "";
    var i := start;
    while i < end
      invariant start <= i <= end <= |lines|
      invariant result == Listing(lines, start, i)
    {
      result := result + Row(i + 1, lines[i]) + "\n";
      i := i + 1;
    }
    assert (start, end) == Window(Atoi(offset), Atoi(limit), |lines|);
    assert result == Render(content, offset, limit);
  }

  /** `ReadTool.Execute`, step by step: decode, get the working directory,
      resolve, check, read, then number the window of lines. */
  method Execute(input: Raw, wd: Result<string>, readFile: string -> FileOutcome) returns (r: Result<string>)
    ensures r == ReadResult(input, wd, readFile)
  {
    var decoded := DecodeInput(input);
    if decoded.Err? {
      return Err(InvalidInputPrefix + decoded.message);
    }
    var params := decoded.value;
    if wd.Err? {
      return Err(WorkingDirPrefix + wd.message);
    }
    var fullPath: string;
    if IsAbs(params.filePath) {
      fullPath := params.filePath;
    } else {
      fullPath := JoinPath(wd.value, params.filePath);
    }
    var cleanPath := Clean(fullPath);
    if Contains(cleanPath, "..") {
      return Err(TraversalError);
    }
    var content: string;
    match readFile(cleanPath) {
      case Missing(_) =>
        return Err(NotExistPrefix + cleanPath);
      case Unreadable(detail) =>
        return Err(ReadFailedPrefix + detail);
      case Contents(data) =>
        content := data;
    }
    assert cleanPath == ResolvePath(params.filePath, wd.value);
    var result := NumberLines(content, params.offset, params.limit);
    return Ok(result);
  }

  // ---------------------------------------------------------------------
  // Properties of the tool

  /** Input that does not decode into `ReadInput` is refused with an
      `invalid input:` error carrying the decoder's message. */
  lemma UndecodableInputRejected(input: Raw, wd: Result<string>, readFile: string -> FileOutcome)
    requires !Decodable(input, InputKeys)
    ensures DecodeStrings(input, InputType, InputKeys).Err?
    ensures ReadResult(input, wd, readFile) == Err(InvalidInputPrefix + DecodeStrings(input, InputType, InputKeys).message)
  {
    DecodeStringsSpec(input, InputType, InputKeys);
  }

  /** An `offset` or `limit` sent as a JSON number, as the schema advertises,
      makes decoding fail, because both fields are strings. */
  lemma NumericWindowRejected(members: map<string, Value>, key: string, wd: Result<string>, readFile: string -> FileOutcome)
    requires key == "offset" || key == "limit"
    requires key in members && members[key].Number?
    ensures Parameters.members["properties"].members[key].members["type"] == String("integer")
    ensures ReadResult(WellFormed(Object(members)), wd, readFile).Err?
    ensures InvalidInputPrefix <= ReadResult(WellFormed(Object(members)), wd, readFile).message
  {
    var input := WellFormed(Object(members));
    var i := if key == "offset" then 1 else 2;
    assert InputKeys[i] == key;
    assert !Decodable(input, InputKeys);
    UndecodableInputRejected(input, wd, readFile);
  }

  /** The error for a JSON number in `offset` names the field by the
      struct's bare type name. */
  lemma OffsetErrorText()
    ensures FieldError(Number("3"), InputType, "offset") ==
            "json: cannot unmarshal number into Go struct field ReadInput.offset of type string"
  {
    // the message, evaluated piece by piece
    assert "json: cannot unmarshal " + "number" == "json: cannot unmarshal number";
    assert "json: cannot unmarshal number" + " into Go struct field " + "ReadInput" == "json: cannot unmarshal number into Go struct field ReadInput";
    assert "json: cannot unmarshal number into Go struct field ReadInput" + "." + "offset" == "json: cannot unmarshal number into Go struct field ReadInput.offset";
    assert "json: cannot unmarshal number into Go struct field ReadInput.offset" + " of type string" ==
           "json: cannot unmarshal number into Go struct field ReadInput.offset of type string";
  }

  /** `{"offset": 3}` is refused with the error `encoding/json` gives. */
  lemma NumericOffsetMessage(wd: Result<string>, readFile: string -> FileOutcome)
    ensures ReadResult(WellFormed(Object(map["offset" := Number("3")])), wd, readFile) ==
            Err(InvalidInputPrefix + "json: cannot unmarshal number into Go struct field ReadInput.offset of type string")
  {
    var members := map["offset" := Number("3")];
    FirstBadField(members, InputType, InputKeys, 1);
    OffsetErrorText();
  }

  /** A resolved path containing ".." is refused whatever the file system
      holds: the refusal comes before any read. */
  lemma TraversalRejectedBeforeRead(input: Raw, dir: string, readFile: string -> FileOutcome, otherFiles: string -> FileOutcome)
    requires DecodeInput(input).Ok?
    requires Contains(ResolvePath(DecodeInput(input).value.filePath, dir), "..")
    ensures ReadResult(input, Ok(dir), readFile) == Err(TraversalError)
    ensures ReadResult(input, Ok(dir), otherFiles) == ReadResult(input, Ok(dir), readFile)
  {
  }

  /** From an absolute working directory the resolved path is absolute and
      cleaned, so none of its segments is ".."; the check therefore refuses
      only paths with a name that contains ".." (such as "a..b"), and a
      `file_path` that climbs out with ".." segments is not refused. */
  lemma TraversalCheckSeesOnlyNames(filePath: string, dir: string)
    requires IsAbs(dir)
    ensures IsAbs(ResolvePath(filePath, dir))
    ensures forall i :: 0 <= i < |Split(ResolvePath(filePath, dir), '/')| ==> Split(ResolvePath(filePath, dir), '/')[i] != ".."
    ensures Contains(ResolvePath(filePath, dir), "..") ==>
              exists i :: 0 <= i < |Split(ResolvePath(filePath, dir), '/')| &&
                          Split(ResolvePath(filePath, dir), '/')[i] != ".." &&
                          Contains(Split(ResolvePath(filePath, dir), '/')[i], "..")
  {
    var full := if IsAbs(filePath) then filePath else JoinPath(dir, filePath);
    if !IsAbs(filePath) {
      JoinPathAbsolute(dir, filePath);
    }
    CleanAbsoluteSegments(full);
    var path := ResolvePath(filePath, dir);
    if Contains(path, "..") {
      JoinSplit(path, '/');
      ContainsInPiece(Split(path, '/'), '/', "..");
    }
  }

  /** With no offset or limit, a successful read returns the whole file,
      numbered, and stripping the numbers gives the contents back. */
  lemma ReadRoundTrip(input: Raw, dir: string, readFile: string -> FileOutcome, content: string)
    requires DecodeInput(input).Ok?
    requires DecodeInput(input).value.offset == "" && DecodeInput(input).value.limit == ""
    requires !Contains(ResolvePath(DecodeInput(input).value.filePath, dir), "..")
    requires readFile(ResolvePath(DecodeInput(input).value.filePath, dir)) == Contents(content)
    ensures ReadResult(input, Ok(dir), readFile).Ok?
    ensures Join(Unnumber(ReadResult(input, Ok(dir), readFile).value), '\n') == content
  {
    WholeFileRoundTrip(content);
  }

  /** The read tool as a registry entry, bound to its environment. */
  function AsTool(wd: Result<string>, readFile: string -> FileOutcome): (tool: ToolRegistry.Tool)
    ensures tool.name == Name
    ensures forall input :: tool.execute(input) == ReadResult(input, wd, readFile)
  {
    ToolRegistry.Tool(Name, Description, Parameters, input => ReadResult(input, wd, readFile))
  }

  /** Once registered, the tool is reached through the registry under
      "read_file" and answers as `Execute` does. */
  method RegisteredRead(m: ToolRegistry.Manager, input: Raw, wd: Result<string>, readFile: string -> FileOutcome)
    returns (r: Result<string>)
    requires m.Valid()
    modifies m
    ensures m.Valid()
    ensures m.tools == old(m.tools)[Name := AsTool(wd, readFile)]
    ensures r == ReadResult(input, wd, readFile)
  {
    m.Register(AsTool(wd, readFile));
    r := m.ExecuteCall(Name, input);
    var direct := Execute(input, wd, readFile);
    assert r == direct;
  }
}
