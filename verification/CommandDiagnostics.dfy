/** Diagnostics derived from the recorded evidence of a Cargo command (src/diagnostics.rs). */
module CommandDiagnostics {
  import opened CargoActions
  import opened Common
  import opened OutputCapture
  import Utf8

  const MAX_CARGO_MESSAGE_BYTES := 256 * 1024
  const MAX_DIAGNOSTICS := 256
  const MAX_ARTIFACTS := 256
  const MAX_OUTPUT_LINES := 128
  const MAX_OUTPUT_LINE_BYTES := 4 * 1024

  datatype Stream = Stdout | Stderr

  /** What was wrong with the evidence. */
  datatype Issue =
    | Missing
    | Malformed
    | Oversized
    | Unexpected
    | InvalidUtf8
    | TruncatedOutput
    | UnreadOutput
    | UnavailableOutput
    | NotExecuted

  datatype CommandOutcome = Exited(code: int) | LaunchFailed | Terminated

  /** The workspace as a command saw it. */
  datatype Tree = Tree(hash: nat, version: nat)

  /** `natural` marks a console command whose output is not structured. */
  datatype Start = Start(id: nat, action: Action, outputLimit: nat, natural: bool, before: Tree)

  /** One recorded piece of output; `original` is None when its encoding is broken. */
  datatype Chunk = Chunk(id: nat, stream: Stream, offset: nat, original: Option<Bytes>)

  datatype Capture = Capture(completeness: Completeness, bytes: nat)

  datatype Finish = Finish(id: nat, outcome: CommandOutcome, stdout: Capture, stderr: Capture, after: Tree)

  /**
   * What JSON parsing makes of a line: nothing usable, or a record by its reason. The complaints are the issues
   * the parser raised about parts of the record.
   */
  datatype Record =
    | Unparsed
    | NotObject
    | WithoutReason
    | CompilerMessage(isError: Option<bool>, complaints: seq<Issue>)
    | CompilerArtifact(parsed: bool, complaints: seq<Issue>)
    | BuildScript(parsed: bool, complaints: seq<Issue>)
    | BuildFinished(success: Option<bool>)
    | OtherReason

  /** Parsing depends on a line and on its place, because spans and children are limited over all records. */
  type Parser = (nat, Bytes) -> Record

  // ----- Issues -----

  /** Each issue is kept once, where it was first raised. */
  function Raised(issues: seq<Issue>, issue: Issue): seq<Issue> {
    if issue in issues then issues else issues + [issue]
  }

  function RaisedAll(issues: seq<Issue>, more: seq<Issue>): seq<Issue>
    decreases |more|
  {
    if more == [] then issues else RaisedAll(Raised(issues, more[0]), more[1..])
  }

  predicate Distinct(issues: seq<Issue>) {
    forall i, j | 0 <= i < j < |issues| :: issues[i] != issues[j]
  }

  /** Raising more keeps what was raised in its place, adds exactly the new kinds, and repeats none. */
  lemma {:induction false} RaisedAllMeans(issues: seq<Issue>, more: seq<Issue>)
    ensures issues <= RaisedAll(issues, more)
    ensures forall issue :: issue in RaisedAll(issues, more) <==> issue in issues || issue in more
    ensures Distinct(issues) ==> Distinct(RaisedAll(issues, more))
    decreases |more|
  {
    if more != [] {
      RaisedAllMeans(Raised(issues, more[0]), more[1..]);
      assert forall issue :: issue in more <==> issue == more[0] || issue in more[1..];
    }
  }

  function CaptureIssues(capture: Capture): seq<Issue> {
    match capture.completeness
    case Complete => []
    case Truncated => [TruncatedOutput]
    case ReadFailed => [UnreadOutput]
    case Unavailable => [UnavailableOutput]
  }

  // ----- Streams -----

  /** The bytes put together so far, the issues raised so far, and whether the stream passed its limit. */
  datatype Collection = Collection(bytes: Bytes, issues: seq<Issue>, stopped: bool)

  function CollectedOne(c: Collection, start: Start, chunk: Chunk, stream: Stream, maximum: nat): Collection {
    if chunk.stream != stream || c.stopped then c
    else if chunk.id != start.id || chunk.offset != |c.bytes| then c.(issues := Raised(c.issues, Missing))
    else if chunk.original.None? then c.(issues := Raised(c.issues, Malformed))
    else if |c.bytes| + |chunk.original.value| > maximum then c.(issues := Raised(c.issues, Oversized), stopped := true)
    else c.(bytes := c.bytes + chunk.original.value)
  }

  function CollectedAll(issues: seq<Issue>, start: Start, chunks: seq<Chunk>, stream: Stream,
                        maximum: nat): Collection {
    if chunks == [] then Collection([], issues, false)
    else
      var init, last := chunks[..|chunks| - 1], chunks[|chunks| - 1];
      CollectedOne(CollectedAll(issues, start, init, stream, maximum), start, last, stream, maximum)
  }

  function Maximum(start: Start): nat {
    Min(start.outputLimit, MAX_COMMAND_OUTPUT_BYTES)
  }

  /** A stream put together from its chunks, and the issues raised by then. */
  function Collected(issues: seq<Issue>, start: Start, chunks: seq<Chunk>, stream: Stream, capture: Capture)
    : (Bytes, seq<Issue>)
  {
    var c := CollectedAll(issues, start, chunks, stream, Maximum(start));
    (c.bytes, if |c.bytes| != capture.bytes then Raised(c.issues, Missing) else c.issues)
  }

  method CollectStream(before: seq<Issue>, start: Start, chunks: seq<Chunk>, stream: Stream, capture: Capture)
    returns (bytes: Bytes, issues: seq<Issue>)
    ensures (bytes, issues) == Collected(before, start, chunks, stream, capture)
  {
    var maximum := Maximum(start);
    bytes, issues := [], before;
    var i := 0;
    var stopped := false;
    while i < |chunks| && !stopped
      invariant i <= |chunks|
      invariant CollectedAll(before, start, chunks[..i], stream, maximum) == Collection(bytes, issues, stopped)
    {
      var chunk := chunks[i];
      assert chunks[..i + 1][..i] == chunks[..i];
      if chunk.stream == stream {
        if chunk.id != start.id || chunk.offset != |bytes| {
          issues := Raised(issues, Missing);
        } else if chunk.original.None? {
          issues := Raised(issues, Malformed);
        } else if |bytes| + |chunk.original.value| > maximum {
          issues, stopped := Raised(issues, Oversized), true;
        } else {
          bytes := bytes + chunk.original.value;
        }
      }
      i := i + 1;
    }
    if stopped {
      StoppedStays(before, start, chunks, i, stream, maximum);
    }
    assert stopped || chunks[..i] == chunks;
    if |bytes| != capture.bytes {
      issues := Raised(issues, Missing);
    }
  }

  lemma {:induction false} StoppedStays(issues: seq<Issue>, start: Start, chunks: seq<Chunk>, i: nat, stream: Stream,
                                        maximum: nat)
    requires i <= |chunks| && CollectedAll(issues, start, chunks[..i], stream, maximum).stopped
    ensures CollectedAll(issues, start, chunks, stream, maximum)
            == CollectedAll(issues, start, chunks[..i], stream, maximum)
    decreases |chunks|
  {
    if i == |chunks| {
      assert chunks[..i] == chunks;
    } else {
      var init := chunks[..|chunks| - 1];
      assert init[..i] == chunks[..i];
      StoppedStays(issues, start, init, i, stream, maximum);
    }
  }

  /** The original bytes of the stream's chunks, one after another. */
  function Originals(chunks: seq<Chunk>, stream: Stream): Bytes {
    if chunks == [] then []
    else
      var init, last := Originals(chunks[..|chunks| - 1], stream), chunks[|chunks| - 1];
      if last.stream == stream && last.original.Some? then init + last.original.value else init
  }

  /** Each chunk of the stream belongs to the command, is readable, and continues the ones before it. */
  predicate Contiguous(start: Start, chunks: seq<Chunk>, stream: Stream) {
    forall i | 0 <= i < |chunks| && chunks[i].stream == stream ::
      chunks[i].id == start.id && chunks[i].original.Some? && chunks[i].offset == |Originals(chunks[..i], stream)|
  }

  /** No issue is raised exactly when the chunks are contiguous and fit; then the stream is all of them. */
  lemma {:induction false} CollectedWhole(issues: seq<Issue>, start: Start, chunks: seq<Chunk>, stream: Stream,
                                          maximum: nat)
    ensures var c := CollectedAll(issues, start, chunks, stream, maximum);
      var whole := Contiguous(start, chunks, stream) && |Originals(chunks, stream)| <= maximum;
      && (c.issues == [] <==> issues == [] && whole)
      && (whole ==> c.bytes == Originals(chunks, stream) && !c.stopped && c.issues == issues)
  {
    if chunks != [] {
      var init, last := chunks[..|chunks| - 1], chunks[|chunks| - 1];
      CollectedWhole(issues, start, init, stream, maximum);
      ContiguousSnoc(start, chunks, stream);
    }
  }

  lemma {:induction false} ContiguousSnoc(start: Start, chunks: seq<Chunk>, stream: Stream)
    requires chunks != []
    ensures var init, last := chunks[..|chunks| - 1], chunks[|chunks| - 1];
      Contiguous(start, chunks, stream) <==>
        Contiguous(start, init, stream)
        && (last.stream == stream ==>
              last.id == start.id && last.original.Some? && last.offset == |Originals(init, stream)|)
  {
    var init := chunks[..|chunks| - 1];
    assert forall i | 0 <= i < |init| :: init[i] == chunks[i] && init[..i] == chunks[..i];
  }

  // ----- Lines -----

  function FirstLineFeed(bytes: Bytes, from: nat): (n: nat)
    requires from <= |bytes|
    ensures from <= n <= |bytes|
    decreases |bytes| - from
  {
    if from == |bytes| || bytes[from] == LF then from else FirstLineFeed(bytes, from + 1)
  }

  function WithoutReturn(line: Bytes): Bytes {
    if line != [] && line[|line| - 1] == CR then line[..|line| - 1] else line
  }

  /** The lines of a stream without their ends. */
  function ByteLines(bytes: Bytes): seq<Bytes>
    decreases |bytes|
  {
    if bytes == [] then []
    else
      var n := FirstLineFeed(bytes, 0);
      [WithoutReturn(bytes[..n])] + (if n < |bytes| then ByteLines(bytes[n + 1..]) else [])
  }

  predicate EndsInReturn(line: Bytes) {
    line != [] && line[|line| - 1] == CR
  }

  /** Ends of lines: a line feed, or a carriage return and one; the last line may lack the line feed. */
  predicate IsEnd(end: Bytes, last: bool) {
    end == [LF] || end == [CR, LF] || (last && (end == [] || end == [CR]))
  }

  /** The lines with their ends after them. */
  function PutBack(lines: seq<Bytes>, ends: seq<Bytes>): Bytes
    requires |ends| == |lines|
  {
    if lines == [] then [] else lines[0] + ends[0] + PutBack(lines[1..], ends[1..])
  }

  /** No line holds a line feed, a carriage return before an end belongs to it, and no end stands alone at the last. */
  predicate AreLines(lines: seq<Bytes>, ends: seq<Bytes>) {
    && |ends| == |lines|
    && (forall i | 0 <= i < |lines| :: LF !in lines[i] && IsEnd(ends[i], i == |lines| - 1))
    && (forall i | 0 <= i < |lines| && CR !in ends[i] :: !EndsInReturn(lines[i]))
    && (forall i | 0 <= i < |lines| :: lines[i] + ends[i] != [])
  }

  lemma {:induction false} FirstLineFeedIs(bytes: Bytes, from: nat, n: nat)
    requires from <= n <= |bytes| && (n < |bytes| ==> bytes[n] == LF) && forall i | from <= i < n :: bytes[i] != LF
    ensures FirstLineFeed(bytes, from) == n
    decreases n - from
  {
    if from < n {
      FirstLineFeedIs(bytes, from + 1, n);
    }
  }

  lemma {:induction false} FirstLineFeedFinds(bytes: Bytes, from: nat)
    requires from <= |bytes|
    ensures var n := FirstLineFeed(bytes, from);
      (n < |bytes| ==> bytes[n] == LF) && forall i | from <= i < n :: bytes[i] != LF
    decreases |bytes| - from
  {
    if from < |bytes| && bytes[from] != LF {
      FirstLineFeedFinds(bytes, from + 1);
    }
  }

  /** The end of a line that was cut from `raw`, which a line feed follows unless it is the last. */
  function EndOf(raw: Bytes, fed: bool): Bytes {
    (if EndsInReturn(raw) then [CR] else []) + (if fed then [LF] else [])
  }

  lemma {:induction false} AreLinesCons(line: Bytes, end: Bytes, lines: seq<Bytes>, ends: seq<Bytes>)
    requires AreLines(lines, ends) && LF !in line && IsEnd(end, lines == []) && line + end != []
    requires CR !in end ==> !EndsInReturn(line)
    ensures AreLines([line] + lines, [end] + ends)
    ensures PutBack([line] + lines, [end] + ends) == line + end + PutBack(lines, ends)
  {
    var all, after := [line] + lines, [end] + ends;
    assert all[1..] == lines && after[1..] == ends;
    assert forall i | 0 < i < |all| :: all[i] == lines[i - 1] && after[i] == ends[i - 1];
  }

  /** A raw line is a line and its end. */
  lemma {:induction false} RawSplits(raw: Bytes, fed: bool)
    requires LF !in raw && (fed || raw != [])
    ensures var line, end := WithoutReturn(raw), EndOf(raw, fed);
      && line + end == raw + (if fed then [LF] else []) && LF !in line && IsEnd(end, !fed) && line + end != []
  {
  }

  /** The first raw line, whether a line feed follows it, and the rest. */
  lemma {:induction false} FirstRaw(bytes: Bytes) returns (raw: Bytes, fed: bool, rest: Bytes)
    requires bytes != []
    ensures bytes == raw + (if fed then [LF] else []) + rest && LF !in raw && (fed || (raw != [] && rest == []))
    ensures ByteLines(bytes) == [WithoutReturn(raw)] + ByteLines(rest)
  {
    var n := FirstLineFeed(bytes, 0);
    FirstLineFeedFinds(bytes, 0);
    raw, fed, rest := bytes[..n], n < |bytes|, if n < |bytes| then bytes[n + 1..] else [];
  }

  lemma {:induction false} ByteLinesAre(bytes: Bytes) returns (ends: seq<Bytes>)
    ensures AreLines(ByteLines(bytes), ends) && PutBack(ByteLines(bytes), ends) == bytes
    decreases |bytes|
  {
    ends := [];
    if bytes != [] {
      var raw, fed, rest := FirstRaw(bytes);
      var tail := ByteLinesAre(rest);
      RawSplits(raw, fed);
      AreLinesCons(WithoutReturn(raw), EndOf(raw, fed), ByteLines(rest), tail);
      ends := [EndOf(raw, fed)] + tail;
    }
  }

  /** Where the first of such lines ends. */
  lemma {:induction false} FirstLineIs(line: Bytes, end: Bytes, rest: Bytes)
    requires LF !in line && IsEnd(end, rest == []) && line + end != [] && (CR !in end ==> !EndsInReturn(line))
    ensures ByteLines(line + end + rest) == [line] + ByteLines(rest)
  {
    var bytes, raw := line + end + rest, line + (if CR in end then [CR] else []);
    assert bytes == raw + (if LF in end then [LF] else []) + rest;
    FirstLineFeedIs(bytes, 0, |raw|);
    assert bytes[..|raw|] == raw && WithoutReturn(raw) == line;
    if LF in end {
      assert bytes[|raw| + 1..] == rest;
    }
  }

  lemma {:induction false} ByteLinesOnly(lines: seq<Bytes>, ends: seq<Bytes>)
    requires AreLines(lines, ends)
    ensures lines == ByteLines(PutBack(lines, ends))
    decreases |lines|
  {
    if lines != [] {
      var line, end, rest := lines[0], ends[0], PutBack(lines[1..], ends[1..]);
      assert forall i | 0 <= i < |lines| - 1 :: lines[1..][i] == lines[i + 1] && ends[1..][i] == ends[i + 1];
      ByteLinesOnly(lines[1..], ends[1..]);
      if |lines| > 1 {
        assert rest == lines[1] + ends[1] + PutBack(lines[1..][1..], ends[1..][1..]);
      }
      FirstLineIs(line, end, rest);
    }
  }

  /** The lines of a stream are the only ones from which putting back their ends gives it. */
  lemma {:induction false} ByteLinesExact(lines: seq<Bytes>, bytes: Bytes)
    ensures lines == ByteLines(bytes) <==> exists ends :: AreLines(lines, ends) && PutBack(lines, ends) == bytes
  {
    var own := ByteLinesAre(bytes);
    forall ends | AreLines(lines, ends) && PutBack(lines, ends) == bytes
      ensures lines == ByteLines(bytes)
    {
      ByteLinesOnly(lines, ends);
    }
  }

  function LineFeeds(bytes: Bytes): nat {
    if bytes == [] then 0 else (if bytes[0] == LF then 1 else 0) + LineFeeds(bytes[1..])
  }

  lemma {:induction false} LineFeedsConcat(a: Bytes, b: Bytes)
    ensures LineFeeds(a + b) == LineFeeds(a) + LineFeeds(b)
  {
    if a == [] {
      assert a + b == b;
    } else {
      LineFeedsConcat(a[1..], b);
      assert (a + b)[1..] == a[1..] + b;
    }
  }

  lemma {:induction false} NoLineFeeds(bytes: Bytes)
    requires LF !in bytes
    ensures LineFeeds(bytes) == 0
  {
    if bytes != [] {
      NoLineFeeds(bytes[1..]);
    }
  }

  /** As many lines as line feeds, and one more after the last of them. */
  lemma {:induction false} ByteLinesCount(bytes: Bytes)
    ensures |ByteLines(bytes)| == LineFeeds(bytes) + (if bytes != [] && bytes[|bytes| - 1] != LF then 1 else 0)
    decreases |bytes|
  {
    if bytes != [] {
      var raw, fed, rest := FirstRaw(bytes);
      ByteLinesCount(rest);
      FeedsOf(raw, fed, rest);
      if rest == [] {
        assert bytes[|bytes| - 1] == LF <==> fed;
      } else {
        assert bytes[|bytes| - 1] == rest[|rest| - 1];
      }
    }
  }

  lemma {:induction false} FeedsOf(raw: Bytes, fed: bool, rest: Bytes)
    requires LF !in raw
    ensures LineFeeds(raw + (if fed then [LF] else []) + rest) == (if fed then 1 else 0) + LineFeeds(rest)
  {
    var end: Bytes := if fed then [LF] else [];
    NoLineFeeds(raw);
    LineFeedsConcat(raw + end, rest);
    LineFeedsConcat(raw, end);
    assert fed ==> end[1..] == [];
  }

  // ----- Reading lines -----

  datatype OutputLine = OutputLine(stream: Stream, prefix: Bytes, truncated: bool)

  /** The result of the build, whether an error was reported, and the counts. */
  datatype Tally = Tally(finished: Option<bool>, errors: bool, diagnostics: nat, artifacts: nat, structured: nat)

  /** The lines shown as plain output, and how many more there were. */
  datatype Display = Display(output: seq<OutputLine>, omitted: nat)

  datatype Reading = Reading(tally: Tally, issues: seq<Issue>, shown: Display)

  /** A line as it is shown: at most the first 4096 bytes. */
  function Shown(stream: Stream, line: Bytes): OutputLine {
    OutputLine(stream, line[..Min(|line|, MAX_OUTPUT_LINE_BYTES)], |line| > MAX_OUTPUT_LINE_BYTES)
  }

  function Retained(d: Display, stream: Stream, line: Bytes): Display {
    if |d.output| == MAX_OUTPUT_LINES then d.(omitted := d.omitted + 1)
    else
      var prefix := line[..Min(|line|, MAX_OUTPUT_LINE_BYTES)];
      d.(output := d.output + [OutputLine(stream, prefix, |prefix| != |line|)])
  }

  predicate IsBlank(b: byte) {
    b in {9, 10, 12, 13, 32}
  }

  function TrimStart(line: Bytes): Bytes {
    if line != [] && IsBlank(line[0]) then TrimStart(line[1..]) else line
  }

  predicate StartsLikeJson(line: Bytes) {
    var trimmed := TrimStart(line);
    trimmed != [] && (trimmed[0] == 123 || trimmed[0] == 91)
  }

  /** The issues a record raises: the parser's complaints, and what reading it adds. */
  function RecordIssues(t: Tally, record: Record): seq<Issue> {
    match record
    case Unparsed => [Malformed]
    case NotObject => [Unexpected]
    case WithoutReason => [Malformed]
    case CompilerMessage(isError, complaints) =>
      if t.diagnostics >= MAX_DIAGNOSTICS then [Oversized] else complaints + (if isError.None? then [Malformed] else [])
    case CompilerArtifact(parsed, complaints) =>
      if t.artifacts >= MAX_ARTIFACTS then [Oversized] else complaints + (if parsed then [] else [Malformed])
    case BuildScript(parsed, complaints) => complaints + (if parsed then [] else [Malformed])
    case BuildFinished(success) => if success.None? then [Malformed] else []
    case OtherReason => [Unexpected]
  }

  /** What a record with a reason adds to the counts and the result of the build. */
  function RecordCounted(t: Tally, record: Record): Tally {
    match record
    case CompilerMessage(isError, _) =>
      if t.diagnostics >= MAX_DIAGNOSTICS || isError.None? then t
      else t.(diagnostics := t.diagnostics + 1, errors := t.errors || isError.value)
    case CompilerArtifact(parsed, _) =>
      if t.artifacts >= MAX_ARTIFACTS || !parsed then t else t.(artifacts := t.artifacts + 1)
    case BuildFinished(success) => if success.None? then t else t.(finished := success)
    case _ => t
  }

  predicate HasReason(record: Record) {
    !record.Unparsed? && !record.NotObject? && !record.WithoutReason?
  }

  predicate RunsProgram(action: Action) {
    action == Test || action == Run
  }

  /** What a line turns out to be, in the order in which it is looked at. */
  datatype Form = Plain(isText: bool) | TooLong | NotText | Json(record: Record)

  datatype Line = Line(bytes: Bytes, form: Form)

  /** A line of standard output with what parsing makes of it. */
  function Presented(line: Bytes, record: Record): Line {
    Line(line,
         if !StartsLikeJson(line) then Plain(Utf8.Valid(line))
         else if |line| > MAX_CARGO_MESSAGE_BYTES then TooLong
         else if !Utf8.Valid(line) then NotText
         else Json(record))
  }

  function AllPresented(lines: seq<Bytes>, parse: Parser): seq<Line> {
    seq(|lines|, i requires 0 <= i < |lines| => Presented(lines[i], parse(i, lines[i])))
  }

  /** A line that parses as a record with a reason. */
  predicate IsRecord(line: Line) {
    line.form.Json? && HasReason(line.form.record)
  }

  /** The issues a line raises. */
  function LineIssues(t: Tally, start: Start, line: Line): seq<Issue> {
    if t.finished.Some? then (if RunsProgram(start.action) then [] else [Unexpected])
    else match line.form
      case Plain(isText) => [if isText then Unexpected else InvalidUtf8]
      case TooLong => [Oversized]
      case NotText => [InvalidUtf8]
      case Json(record) => RecordIssues(t, record)
  }

  function Counted(t: Tally, line: Line): Tally {
    if t.finished.None? && IsRecord(line) then RecordCounted(t.(structured := t.structured + 1), line.form.record)
    else t
  }

  /** Whether a line is kept as plain output. */
  predicate Keeps(t: Tally, start: Start, line: Line) {
    t.finished.Some? || LineIssues(t, start, line) != []
  }

  /** Reading one line of standard output. */
  function LineRead(r: Reading, start: Start, line: Line): Reading {
    Reading(
      Counted(r.tally, line),
      RaisedAll(r.issues, LineIssues(r.tally, start, line)),
      if Keeps(r.tally, start, line) then Retained(r.shown, Stdout, line.bytes) else r.shown)
  }

  function NoTally(): Tally {
    Tally(None, false, 0, 0, 0)
  }

  /** What the first `n` lines add up to, which depends on nothing else that is read. */
  function Tallies(lines: seq<Line>, n: nat): Tally
    requires n <= |lines|
  {
    if n == 0 then NoTally() else Counted(Tallies(lines, n - 1), lines[n - 1])
  }

  function IssuesAfter(issues: seq<Issue>, start: Start, lines: seq<Line>, n: nat): seq<Issue>
    requires n <= |lines|
  {
    if n == 0 then issues
    else RaisedAll(IssuesAfter(issues, start, lines, n - 1), LineIssues(Tallies(lines, n - 1), start, lines[n - 1]))
  }

  function ShownAfter(start: Start, lines: seq<Line>, n: nat): Display
    requires n <= |lines|
  {
    if n == 0 then Display([], 0)
    else
      var before, line := ShownAfter(start, lines, n - 1), lines[n - 1];
      if Keeps(Tallies(lines, n - 1), start, line) then Retained(before, Stdout, line.bytes) else before
  }

  /** Reading the first `n` lines, with the issues raised before them. */
  function LinesRead(issues: seq<Issue>, start: Start, lines: seq<Line>, n: nat): Reading
    requires n <= |lines|
  {
    Reading(Tallies(lines, n), IssuesAfter(issues, start, lines, n), ShownAfter(start, lines, n))
  }

  /** Reading one line of standard error. */
  function ErrorLineRead(r: Reading, line: Bytes): Reading {
    r.(issues := if Utf8.Valid(line) then r.issues else Raised(r.issues, InvalidUtf8),
       shown := Retained(r.shown, Stderr, line))
  }

  function ErrorLinesRead(r: Reading, lines: seq<Bytes>, n: nat): Reading
    requires n <= |lines|
  {
    if n == 0 then r else ErrorLineRead(ErrorLinesRead(r, lines, n - 1), lines[n - 1])
  }

  // ----- Outcome -----

  datatype DiagnosticOutcome = ExecutionFailed | Unknown | CompilerErrors | NonzeroExit | Success

  datatype Diagnostics = Diagnostics(outcome: DiagnosticOutcome, reading: Reading)

  function IdentityIssues(start: Start, finish: Finish): seq<Issue> {
    if start.id != finish.id || start.before != finish.after then [Missing] else []
  }

  /** The issues raised before any stream is put together. */
  function CapturesIssues(start: Start, finish: Finish): seq<Issue> {
    RaisedAll(RaisedAll(IdentityIssues(start, finish), CaptureIssues(finish.stdout)), CaptureIssues(finish.stderr))
  }

  function OutCollected(start: Start, chunks: seq<Chunk>, finish: Finish): (Bytes, seq<Issue>) {
    Collected(CapturesIssues(start, finish), start, chunks, Stdout, finish.stdout)
  }

  function ErrCollected(start: Start, chunks: seq<Chunk>, finish: Finish): (Bytes, seq<Issue>) {
    Collected(OutCollected(start, chunks, finish).1, start, chunks, Stderr, finish.stderr)
  }

  /** An exit that contradicts the build record. */
  predicate Contradicts(r: Reading, action: Action, code: int) {
    || (r.tally.finished == Some(false) && code == 0)
    || (r.tally.finished == Some(true) && r.tally.errors)
    || (r.tally.finished == Some(true) && code != 0 && !RunsProgram(action))
  }

  function Judged(r: Reading, start: Start, finish: Finish): Diagnostics {
    if !finish.outcome.Exited? then Diagnostics(ExecutionFailed, r.(issues := Raised(r.issues, NotExecuted)))
    else
      var issues :=
        if Contradicts(r, start.action, finish.outcome.code) then Raised(r.issues, Unexpected) else r.issues;
      var outcome :=
        if issues != [] then Unknown
        else if r.tally.errors then CompilerErrors
        else if finish.outcome.code != 0 then NonzeroExit
        else if r.tally.finished == Some(true) then Success
        else Unknown;
      Diagnostics(outcome, r.(issues := issues))
  }

  function OutLines(start: Start, chunks: seq<Chunk>, finish: Finish, parse: Parser): seq<Line> {
    AllPresented(ByteLines(OutCollected(start, chunks, finish).0), parse)
  }

  function ErrLines(start: Start, chunks: seq<Chunk>, finish: Finish): seq<Bytes> {
    ByteLines(ErrCollected(start, chunks, finish).0)
  }

  /** Without a record of the build's end something is missing. */
  function Ended(r: Reading): Reading {
    if r.tally.finished.None? then r.(issues := Raised(r.issues, Missing)) else r
  }

  function OutRead(start: Start, chunks: seq<Chunk>, finish: Finish, parse: Parser): Reading {
    var lines := OutLines(start, chunks, finish, parse);
    LinesRead(ErrCollected(start, chunks, finish).1, start, lines, |lines|)
  }

  function AllRead(start: Start, chunks: seq<Chunk>, finish: Finish, parse: Parser): Reading {
    var lines := ErrLines(start, chunks, finish);
    ErrorLinesRead(Ended(OutRead(start, chunks, finish, parse)), lines, |lines|)
  }

  function Derived(start: Start, chunks: seq<Chunk>, finish: Finish, parse: Parser): Diagnostics {
    Judged(AllRead(start, chunks, finish, parse), start, finish)
  }

  method ReadLines(issues: seq<Issue>, start: Start, lines: seq<Bytes>, parse: Parser) returns (r: Reading)
    ensures r == LinesRead(issues, start, AllPresented(lines, parse), |lines|)
  {
    ghost var all := AllPresented(lines, parse);
    r := Reading(NoTally(), issues, Display([], 0));
    for i := 0 to |lines|
      invariant r == LinesRead(issues, start, all, i)
    {
      assert all[i] == Presented(lines[i], parse(i, lines[i]));
      LinesReadNext(issues, start, all, i);
      r := ReadLine(r, start, lines[i], parse(i, lines[i]));
    }
  }

  lemma {:induction false} LinesReadNext(issues: seq<Issue>, start: Start, lines: seq<Line>, n: nat)
    requires n < |lines|
    ensures LinesRead(issues, start, lines, n + 1) == LineRead(LinesRead(issues, start, lines, n), start, lines[n])
  {
  }

  /** Each line that is not an accepted record is kept as plain output, with the issue that it is one. */
  method ReadLine(before: Reading, start: Start, line: Bytes, record: Record) returns (r: Reading)
    ensures r == LineRead(before, start, Presented(line, record))
  {
    if before.tally.finished.Some? {
      r := before;
      if !RunsProgram(start.action) {
        r := r.(issues := RaisedAll(r.issues, [Unexpected]));
      }
      r := r.(shown := Retained(r.shown, Stdout, line));
    } else if !StartsLikeJson(line) {
      r := Refuse(before, line, if Utf8.Valid(line) then Unexpected else InvalidUtf8);
    } else if |line| > MAX_CARGO_MESSAGE_BYTES {
      r := Refuse(before, line, Oversized);
    } else if !Utf8.Valid(line) {
      r := Refuse(before, line, InvalidUtf8);
    } else if !HasReason(record) {
      r := Refuse(before, line, if record.NotObject? then Unexpected else Malformed);
    } else {
      r := ReadRecord(before, line, record);
    }
  }

  /** A record is counted; when it raised an issue its line is kept as plain output as well. */
  method ReadRecord(before: Reading, line: Bytes, record: Record) returns (r: Reading)
    ensures r.tally == RecordCounted(before.tally.(structured := before.tally.structured + 1), record)
    ensures r.issues == RaisedAll(before.issues, RecordIssues(before.tally, record))
    ensures r.shown == if RecordIssues(before.tally, record) != [] then Retained(before.shown, Stdout, line)
            else before.shown
  {
    var raised := RecordIssues(before.tally, record);
    r := before.(tally := RecordCounted(before.tally.(structured := before.tally.structured + 1), record),
                 issues := RaisedAll(before.issues, raised));
    if raised != [] {
      r := r.(shown := Retained(r.shown, Stdout, line));
    }
  }

  method Refuse(before: Reading, line: Bytes, issue: Issue) returns (r: Reading)
    ensures r == Reading(before.tally, RaisedAll(before.issues, [issue]), Retained(before.shown, Stdout, line))
  {
    assert [issue][1..] == [];
    r := Reading(before.tally, Raised(before.issues, issue), Retained(before.shown, Stdout, line));
  }

  method ReadErrorLines(begun: Reading, lines: seq<Bytes>) returns (r: Reading)
    ensures r == ErrorLinesRead(begun, lines, |lines|)
  {
    r := begun;
    for i := 0 to |lines|
      invariant r == ErrorLinesRead(begun, lines, i)
    {
      r := ErrorLineRead(r, lines[i]);
    }
  }

  method DeriveCommandDiagnostics(start: Start, chunks: seq<Chunk>, finish: Finish, parse: Parser)
    returns (d: Diagnostics)
    ensures d == Derived(start, chunks, finish, parse)
  {
    var issues := IdentityIssues(start, finish);
    issues := RaisedAll(issues, CaptureIssues(finish.stdout));
    issues := RaisedAll(issues, CaptureIssues(finish.stderr));
    var stdout, stderr;
    stdout, issues := CollectStream(issues, start, chunks, Stdout, finish.stdout);
    stderr, issues := CollectStream(issues, start, chunks, Stderr, finish.stderr);
    var r := ReadLines(issues, start, ByteLines(stdout), parse);
    r := ReadErrorLines(Ended(r), ByteLines(stderr));
    d := Judged(r, start, finish);
  }

  // ----- What becomes of every line -----

  predicate EndsBuild(lines: seq<Line>, i: nat)
    requires i < |lines|
  {
    IsRecord(lines[i]) && lines[i].form.record.BuildFinished? && lines[i].form.record.success.Some?
  }

  /** No line before the given one ends the build. */
  predicate Open(lines: seq<Line>, n: nat)
    requires n <= |lines|
  {
    forall i | 0 <= i < n :: !EndsBuild(lines, i)
  }

  /** How many of the first `n` lines are records before the build ended. */
  function Records(lines: seq<Line>, n: nat): nat
    requires n <= |lines|
  {
    if n == 0 then 0
    else
      var counts := Open(lines, n - 1) && IsRecord(lines[n - 1]);
      Records(lines, n - 1) + (if counts then 1 else 0)
  }

  /** How many of the first `n` lines are readable compiler messages. */
  function Messages(lines: seq<Line>, n: nat): nat
    requires n <= |lines|
  {
    if n == 0 then 0
    else
      var form := lines[n - 1].form;
      var counts := form.Json? && form.record.CompilerMessage? && form.record.isError.Some?;
      Messages(lines, n - 1) + (if counts then 1 else 0)
  }

  /** How many of the first `n` lines are readable artifacts. */
  function Artifacts(lines: seq<Line>, n: nat): nat
    requires n <= |lines|
  {
    if n == 0 then 0
    else
      var form := lines[n - 1].form;
      var counts := form.Json? && form.record.CompilerArtifact? && form.record.parsed;
      Artifacts(lines, n - 1) + (if counts then 1 else 0)
  }

  /**
   * A line is an accepted record when it comes before the end of the build, parses as a record of a known
   * reason without complaint, and is within the limit of its kind.
   */
  predicate Accepted(lines: seq<Line>, i: nat)
    requires i < |lines|
  {
    && Open(lines, i) && IsRecord(lines[i])
    && match lines[i].form.record
       case CompilerMessage(isError, complaints) =>
         isError.Some? && complaints == [] && Messages(lines, i) < MAX_DIAGNOSTICS
       case CompilerArtifact(parsed, complaints) =>
         parsed && complaints == [] && Artifacts(lines, i) < MAX_ARTIFACTS
       case BuildScript(parsed, complaints) => parsed && complaints == []
       case BuildFinished(success) => success.Some?
       case _ => false
  }

  /** A compiler message that reports an error and is within the limit. */
  predicate ReportsError(lines: seq<Line>, i: nat)
    requires i < |lines|
  {
    && Open(lines, i) && IsRecord(lines[i])
    && lines[i].form.record.CompilerMessage? && lines[i].form.record.isError == Some(true)
       && Messages(lines, i) < MAX_DIAGNOSTICS
  }

  /** The lines among the first `n` that are not accepted records, in order, as they are shown. */
  function PlainOutput(lines: seq<Line>, n: nat): seq<OutputLine>
    requires n <= |lines|
  {
    if n == 0 then []
    else
      var before := PlainOutput(lines, n - 1);
      if Accepted(lines, n - 1) then before else before + [Shown(Stdout, lines[n - 1].bytes)]
  }

  function ErrorOutput(lines: seq<Bytes>, n: nat): seq<OutputLine>
    requires n <= |lines|
  {
    if n == 0 then [] else ErrorOutput(lines, n - 1) + [Shown(Stderr, lines[n - 1])]
  }

  /** The first lines of `all` are shown, as many as may be, and the others counted. */
  predicate Shows(d: Display, all: seq<OutputLine>) {
    && d.output == all[..Min(|all|, MAX_OUTPUT_LINES)]
    && d.omitted == |all| - Min(|all|, MAX_OUTPUT_LINES)
  }

  lemma {:induction false} RetainedShows(d: Display, all: seq<OutputLine>, stream: Stream, line: Bytes)
    requires Shows(d, all)
    ensures Shows(Retained(d, stream, line), all + [Shown(stream, line)])
  {
    var more := all + [Shown(stream, line)];
    if |all| < MAX_OUTPUT_LINES {
      assert more[..|more|] == more && all[..|all|] == all;
    } else {
      assert more[..MAX_OUTPUT_LINES] == all[..MAX_OUTPUT_LINES];
    }
  }

  /** What the first `n` lines leave in the counts. */
  predicate Tallied(t: Tally, lines: seq<Line>, n: nat)
    requires n <= |lines|
  {
    && (t.finished.None? <==> Open(lines, n))
    && (Open(lines, n) ==>
          && t.diagnostics == Min(Messages(lines, n), MAX_DIAGNOSTICS)
          && t.artifacts == Min(Artifacts(lines, n), MAX_ARTIFACTS))
    && t.structured == Records(lines, n)
  }

  /** What the first `n` lines say about errors and the end of the build. */
  predicate Reported(t: Tally, lines: seq<Line>, n: nat)
    requires n <= |lines|
  {
    && (t.errors <==> exists i | 0 <= i < n :: ReportsError(lines, i))
    && (forall i | 0 <= i < n && Open(lines, i) && EndsBuild(lines, i) ::
          t.finished == lines[i].form.record.success)
  }

  lemma {:induction false} OpenNext(lines: seq<Line>, n: nat)
    requires n < |lines|
    ensures Open(lines, n + 1) <==> Open(lines, n) && !EndsBuild(lines, n)
  {
  }

  lemma {:induction false} LineTallies(t: Tally, lines: seq<Line>, n: nat)
    requires n < |lines| && Tallied(t, lines, n)
    ensures Tallied(Counted(t, lines[n]), lines, n + 1)
  {
    OpenNext(lines, n);
  }

  lemma {:induction false} LineReports(t: Tally, lines: seq<Line>, n: nat)
    requires n < |lines| && Tallied(t, lines, n) && Reported(t, lines, n)
    ensures Reported(Counted(t, lines[n]), lines, n + 1)
  {
    var next := Counted(t, lines[n]);
    assert next.errors <==> t.errors || ReportsError(lines, n);
    assert next.finished == if Open(lines, n) && EndsBuild(lines, n) then lines[n].form.record.success else t.finished;
  }

  lemma {:induction false} LinesTally(lines: seq<Line>, n: nat)
    requires n <= |lines|
    ensures Tallied(Tallies(lines, n), lines, n)
  {
    if n > 0 {
      LinesTally(lines, n - 1);
      LineTallies(Tallies(lines, n - 1), lines, n - 1);
    }
  }

  lemma {:induction false} LinesReport(lines: seq<Line>, n: nat)
    requires n <= |lines|
    ensures Reported(Tallies(lines, n), lines, n)
  {
    if n > 0 {
      hide Counted, Tallied, ReportsError, EndsBuild, Open;
      LinesTally(lines, n - 1);
      LinesReport(lines, n - 1);
      LineReports(Tallies(lines, n - 1), lines, n - 1);
    }
  }

  /** Before the end of the build a line raises no issue exactly when it is an accepted record. */
  lemma {:induction false} AcceptedMeans(start: Start, lines: seq<Line>, i: nat)
    requires i < |lines|
    ensures Accepted(lines, i) <==> !Keeps(Tallies(lines, i), start, lines[i])
    ensures LineIssues(Tallies(lines, i), start, lines[i]) == [] <==> Expected(start, lines, i)
  {
    LinesTally(lines, i);
  }

  /** A line without an issue: an accepted record, or output of the program that was built. */
  predicate Expected(start: Start, lines: seq<Line>, i: nat)
    requires i < |lines|
  {
    Accepted(lines, i) || (!Open(lines, i) && RunsProgram(start.action))
  }

  predicate AllExpected(start: Start, lines: seq<Line>, n: nat)
    requires n <= |lines|
  {
    forall i | 0 <= i < n :: Expected(start, lines, i)
  }

  lemma {:induction false} RaisedNone(issues: seq<Issue>, more: seq<Issue>)
    ensures RaisedAll(issues, more) == [] <==> issues == [] && more == []
  {
    RaisedAllMeans(issues, more);
    if more != [] {
      assert more[0] in RaisedAll(issues, more);
    }
  }

  lemma {:induction false} LinesShow(start: Start, lines: seq<Line>, n: nat)
    requires n <= |lines|
    ensures Shows(ShownAfter(start, lines, n), PlainOutput(lines, n))
  {
    if n > 0 {
      LinesShow(start, lines, n - 1);
      AcceptedMeans(start, lines, n - 1);
      RetainedShows(ShownAfter(start, lines, n - 1), PlainOutput(lines, n - 1), Stdout, lines[n - 1].bytes);
    }
  }

  /** No issue was raised up to a point exactly when none was before and no line up to it raises one. */
  lemma {:induction false} LinesClean(issues: seq<Issue>, start: Start, lines: seq<Line>, n: nat)
    requires n <= |lines|
    ensures IssuesAfter(issues, start, lines, n) == [] <==> issues == [] && AllExpected(start, lines, n)
  {
    var clean := seq(|lines| + 1, i requires 0 <= i <= |lines| => IssuesAfter(issues, start, lines, i) == []);
    var expected := seq(|lines|, i requires 0 <= i < |lines| => Expected(start, lines, i));
    forall i | 0 <= i < |lines|
      ensures clean[i + 1] <==> clean[i] && expected[i]
    {
      LineClean(issues, start, lines, i);
    }
    AllHold(clean, expected, n);
    assert forall i | 0 <= i < n :: Expected(start, lines, i) == expected[i];
  }

  lemma {:induction false} AllHold(clean: seq<bool>, expected: seq<bool>, n: nat)
    requires |clean| == |expected| + 1 && n <= |expected|
    requires forall i | 0 <= i < |expected| :: clean[i + 1] <==> clean[i] && expected[i]
    ensures clean[n] <==> clean[0] && forall i | 0 <= i < n :: expected[i]
  {
    if n > 0 {
      AllHold(clean, expected, n - 1);
    }
  }

  lemma {:induction false} LineClean(issues: seq<Issue>, start: Start, lines: seq<Line>, n: nat)
    requires n < |lines|
    ensures IssuesAfter(issues, start, lines, n + 1) == []
            <==> IssuesAfter(issues, start, lines, n) == [] && Expected(start, lines, n)
  {
    AcceptedMeans(start, lines, n);
    RaisedNone(IssuesAfter(issues, start, lines, n), LineIssues(Tallies(lines, n), start, lines[n]));
  }

  /** Reading error lines changes only what is shown and, for lines that are not text, the issues. */
  lemma {:induction false} ErrorLinesKeep(r: Reading, lines: seq<Bytes>, n: nat)
    requires n <= |lines|
    ensures ErrorLinesRead(r, lines, n).tally == r.tally
    ensures ErrorLinesRead(r, lines, n).issues == []
            <==> r.issues == [] && forall i | 0 <= i < n :: Utf8.Valid(lines[i])
  {
    if n > 0 {
      ErrorLinesKeep(r, lines, n - 1);
    }
  }

  lemma {:induction false} ErrorLinesShow(r: Reading, all: seq<OutputLine>, lines: seq<Bytes>, n: nat)
    requires n <= |lines| && Shows(r.shown, all)
    ensures Shows(ErrorLinesRead(r, lines, n).shown, all + ErrorOutput(lines, n))
  {
    if n == 0 {
      assert all + [] == all;
    } else {
      ErrorLinesShow(r, all, lines, n - 1);
      RetainedShows(ErrorLinesRead(r, lines, n - 1).shown, all + ErrorOutput(lines, n - 1), Stderr, lines[n - 1]);
      assert all + ErrorOutput(lines, n) == all + ErrorOutput(lines, n - 1) + [Shown(Stderr, lines[n - 1])];
    }
  }

  lemma {:induction false} PlainCount(lines: seq<Line>, n: nat)
    requires n <= |lines|
    ensures |PlainOutput(lines, n)| <= n <= |PlainOutput(lines, n)| + Records(lines, n)
  {
    if n > 0 {
      PlainCount(lines, n - 1);
    }
  }

  /**
   * The lines shown are exactly the first ones among the output lines that are not accepted records followed by
   * all error lines, in order and cut to their limit; the others are counted, and every line that is neither was
   * counted as structured.
   */
  lemma {:induction false} EveryLineAccounted(start: Start, chunks: seq<Chunk>, finish: Finish, parse: Parser)
    ensures var d := Derived(start, chunks, finish, parse).reading;
      var out, err := OutLines(start, chunks, finish, parse), ErrLines(start, chunks, finish);
      var plain := PlainOutput(out, |out|);
      && Shows(d.shown, plain + ErrorOutput(err, |err|))
      && d.tally.structured == Records(out, |out|) && |out| - |plain| <= d.tally.structured
  {
    var out, err := OutLines(start, chunks, finish, parse), ErrLines(start, chunks, finish);
    var issues := ErrCollected(start, chunks, finish).1;
    LinesTally(out, |out|);
    LinesShow(start, out, |out|);
    ErrorLinesShow(Ended(OutRead(start, chunks, finish, parse)), PlainOutput(out, |out|), err, |err|);
    ErrorLinesKeep(Ended(OutRead(start, chunks, finish, parse)), err, |err|);
    PlainCount(out, |out|);
  }

  // ----- What the outcomes mean -----

  /** The stream as it was written: contiguous readable chunks within the limit, of the captured length. */
  predicate StreamWhole(start: Start, chunks: seq<Chunk>, stream: Stream, capture: Capture) {
    && capture.completeness == Complete && Contiguous(start, chunks, stream)
    && |Originals(chunks, stream)| <= Maximum(start) && |Originals(chunks, stream)| == capture.bytes
  }

  /** The evidence is of this command and both of its streams are whole. */
  predicate EvidenceWhole(start: Start, chunks: seq<Chunk>, finish: Finish) {
    && start.id == finish.id && start.before == finish.after
    && StreamWhole(start, chunks, Stdout, finish.stdout) && StreamWhole(start, chunks, Stderr, finish.stderr)
  }

  lemma {:induction false} CollectedMeans(issues: seq<Issue>, start: Start, chunks: seq<Chunk>, stream: Stream,
                                          capture: Capture)
    requires capture.completeness == Complete
    ensures var c := Collected(issues, start, chunks, stream, capture);
      && (c.1 == [] <==> issues == [] && StreamWhole(start, chunks, stream, capture))
      && (StreamWhole(start, chunks, stream, capture) ==> c.0 == Originals(chunks, stream))
  {
    CollectedWhole(issues, start, chunks, stream, Maximum(start));
  }

  lemma {:induction false} CollectedKeepsIssues(issues: seq<Issue>, start: Start, chunks: seq<Chunk>, stream: Stream,
                                                capture: Capture)
    requires issues != []
    ensures Collected(issues, start, chunks, stream, capture).1 != []
  {
    CollectedWhole(issues, start, chunks, stream, Maximum(start));
  }

  lemma {:induction false} EvidenceMeans(start: Start, chunks: seq<Chunk>, finish: Finish)
    ensures ErrCollected(start, chunks, finish).1 == [] <==> EvidenceWhole(start, chunks, finish)
  {
    var issues := CapturesIssues(start, finish);
    RaisedNone(IdentityIssues(start, finish), CaptureIssues(finish.stdout));
    RaisedNone(RaisedAll(IdentityIssues(start, finish), CaptureIssues(finish.stdout)), CaptureIssues(finish.stderr));
    if issues != [] {
      CollectedKeepsIssues(issues, start, chunks, Stdout, finish.stdout);
      CollectedKeepsIssues(OutCollected(start, chunks, finish).1, start, chunks, Stderr, finish.stderr);
    } else {
      CollectedMeans(issues, start, chunks, Stdout, finish.stdout);
      CollectedMeans(OutCollected(start, chunks, finish).1, start, chunks, Stderr, finish.stderr);
    }
  }

  /** Reading raises no issue exactly when the evidence is whole and every line of it is as expected. */
  predicate Understood(start: Start, chunks: seq<Chunk>, finish: Finish, parse: Parser) {
    var out, err := OutLines(start, chunks, finish, parse), ErrLines(start, chunks, finish);
    && EvidenceWhole(start, chunks, finish)
    && !Open(out, |out|)
    && (forall i | 0 <= i < |out| :: Expected(start, out, i))
    && (forall i | 0 <= i < |err| :: Utf8.Valid(err[i]))
  }

  lemma {:induction false} ReadMeans(start: Start, chunks: seq<Chunk>, finish: Finish, parse: Parser)
    ensures var r := AllRead(start, chunks, finish, parse);
      var out := OutLines(start, chunks, finish, parse);
      && (r.issues == [] <==> Understood(start, chunks, finish, parse))
      && r.tally == Tallies(out, |out|) && Tallied(r.tally, out, |out|) && Reported(r.tally, out, |out|)
  {
    var out, err := OutLines(start, chunks, finish, parse), ErrLines(start, chunks, finish);
    var issues := ErrCollected(start, chunks, finish).1;
    LinesTally(out, |out|);
    LinesReport(out, |out|);
    LinesClean(issues, start, out, |out|);
    ErrorLinesKeep(Ended(OutRead(start, chunks, finish, parse)), err, |err|);
    EvidenceMeans(start, chunks, finish);
  }

  lemma {:induction false} JudgedMeans(r: Reading, start: Start, finish: Finish)
    requires r.issues == [] ==> r.tally.finished.Some?
    ensures var d := Judged(r, start, finish);
      && (d.outcome == ExecutionFailed <==> !finish.outcome.Exited?)
      && (d.outcome in {CompilerErrors, NonzeroExit, Success} <==>
            d.reading.issues == [] && (r.tally.finished == Some(true) || finish.outcome.code != 0))
      && (d.outcome in {CompilerErrors, NonzeroExit, Success} ==> r.issues == [])
      && (d.outcome == CompilerErrors <==>
            r.issues == [] && finish.outcome.Exited? && finish.outcome.code != 0 && r.tally.finished == Some(false)
                && r.tally.errors)
      && (d.outcome == NonzeroExit <==>
            r.issues == [] && finish.outcome.Exited? && finish.outcome.code != 0 && !r.tally.errors
            && (RunsProgram(start.action) || r.tally.finished == Some(false)))
      && (d.outcome == Success <==>
            r.issues == [] && finish.outcome.Exited? && finish.outcome.code == 0 && r.tally.finished == Some(true)
                && !r.tally.errors)
  {
    if r.tally.finished.Some? && r.tally.finished.value {
      assert r.tally.finished == Some(true);
    } else if r.tally.finished.Some? {
      assert r.tally.finished == Some(false);
    }
  }

  /**
   * Compiler errors are reported exactly of a command whose evidence was understood, that exited with a nonzero
   * code, whose build said it failed, and one of whose messages is an error; success exactly of one that exited
   * with zero, whose build said it succeeded, and none of whose messages is an error.
   */
  lemma {:induction false} OutcomeMeans(start: Start, chunks: seq<Chunk>, finish: Finish, parse: Parser)
    ensures var outcome, out := Derived(start, chunks, finish, parse).outcome, OutLines(start, chunks, finish, parse);
      var finished := AllRead(start, chunks, finish, parse).tally.finished;
      var errors := exists i | 0 <= i < |out| :: ReportsError(out, i);
      var exit := if finish.outcome.Exited? then Some(finish.outcome.code) else None;
      var understood := Understood(start, chunks, finish, parse) && exit.Some?;
      && (outcome == ExecutionFailed <==> exit.None?)
      && (outcome == CompilerErrors <==> understood && exit != Some(0) && finished == Some(false) && errors)
      && (outcome == NonzeroExit <==>
            understood && exit != Some(0) && !errors && (RunsProgram(start.action) || finished == Some(false)))
      && (outcome == Success <==> understood && exit == Some(0) && finished == Some(true) && !errors)
      && (forall i | 0 <= i < |out| && Open(out, i) && EndsBuild(out, i) ::
            finished == out[i].form.record.success)
  {
    ReadMeans(start, chunks, finish, parse);
    JudgedMeans(AllRead(start, chunks, finish, parse), start, finish);
  }

  // ----- No issue is reported twice -----

  lemma {:induction false} CollectedDistinct(issues: seq<Issue>, start: Start, chunks: seq<Chunk>, stream: Stream,
                                             maximum: nat)
    requires Distinct(issues)
    ensures Distinct(CollectedAll(issues, start, chunks, stream, maximum).issues)
  {
    if chunks != [] {
      CollectedDistinct(issues, start, chunks[..|chunks| - 1], stream, maximum);
    }
  }

  lemma {:induction false} LinesDistinct(issues: seq<Issue>, start: Start, lines: seq<Line>, n: nat)
    requires n <= |lines| && Distinct(issues)
    ensures Distinct(IssuesAfter(issues, start, lines, n))
  {
    if n > 0 {
      LinesDistinct(issues, start, lines, n - 1);
      RaisedAllMeans(IssuesAfter(issues, start, lines, n - 1), LineIssues(Tallies(lines, n - 1), start, lines[n - 1]));
    }
  }

  lemma {:induction false} ErrorLinesDistinct(r: Reading, lines: seq<Bytes>, n: nat)
    requires n <= |lines| && Distinct(r.issues)
    ensures Distinct(ErrorLinesRead(r, lines, n).issues)
  {
    if n > 0 {
      ErrorLinesDistinct(r, lines, n - 1);
    }
  }

  lemma {:induction false} JudgedDistinct(r: Reading, start: Start, finish: Finish)
    requires Distinct(r.issues)
    ensures Distinct(Judged(r, start, finish).reading.issues)
    ensures NotExecuted in Judged(r, start, finish).reading.issues || finish.outcome.Exited?
  {
  }

  lemma {:induction false} CapturesDistinct(start: Start, finish: Finish)
    ensures Distinct(CapturesIssues(start, finish))
  {
    RaisedAllMeans(IdentityIssues(start, finish), CaptureIssues(finish.stdout));
    RaisedAllMeans(RaisedAll(IdentityIssues(start, finish), CaptureIssues(finish.stdout)),
        CaptureIssues(finish.stderr));
  }

  lemma {:induction false} EvidenceDistinct(start: Start, chunks: seq<Chunk>, finish: Finish)
    ensures Distinct(ErrCollected(start, chunks, finish).1)
  {
    CapturesDistinct(start, finish);
    CollectedDistinct(CapturesIssues(start, finish), start, chunks, Stdout, Maximum(start));
    CollectedDistinct(OutCollected(start, chunks, finish).1, start, chunks, Stderr, Maximum(start));
  }

  /** Each kind of issue is reported at most once, and a failed execution always. */
  lemma {:induction false} IssuesDistinct(start: Start, chunks: seq<Chunk>, finish: Finish, parse: Parser)
    ensures Distinct(Derived(start, chunks, finish, parse).reading.issues)
    ensures NotExecuted in Derived(start, chunks, finish, parse).reading.issues || finish.outcome.Exited?
  {
    EvidenceDistinct(start, chunks, finish);
    var out, err := OutLines(start, chunks, finish, parse), ErrLines(start, chunks, finish);
    LinesDistinct(ErrCollected(start, chunks, finish).1, start, out, |out|);
    ErrorLinesDistinct(Ended(OutRead(start, chunks, finish, parse)), err, |err|);
    JudgedDistinct(AllRead(start, chunks, finish, parse), start, finish);
  }

  // ----- Every issue and its place -----

  /** The chunk belongs to the command and continues the bytes held before it. */
  predicate Continues(start: Start, chunk: Chunk, held: nat) {
    chunk.id == start.id && chunk.offset == held
  }

  /** The bytes held of a stream: those of each readable chunk that continues them, until one is too long. */
  function Held(start: Start, chunks: seq<Chunk>, stream: Stream): Bytes
    decreases |chunks|, 1
  {
    if chunks == [] then []
    else
      var init, last := chunks[..|chunks| - 1], chunks[|chunks| - 1];
      var held := Held(start, init, stream);
      var takes := last.stream == stream && !Overfull(start, init, stream) && Continues(start, last, |held|)
        && last.original.Some? && |held| + |last.original.value| <= Maximum(start);
      if takes then held + last.original.value else held
  }

  /** One of the chunks was too long for what was held before it. */
  predicate Overfull(start: Start, chunks: seq<Chunk>, stream: Stream)
    decreases |chunks|, 0
  {
    exists i | 0 <= i < |chunks| ::
      var held := |Held(start, chunks[..i], stream)|;
      && chunks[i].stream == stream && Continues(start, chunks[i], held) && chunks[i].original.Some?
      && held + |chunks[i].original.value| > Maximum(start)
  }

  /** What is wrong with a chunk of the stream, before one was too long. */
  function ChunkIssues(start: Start, chunks: seq<Chunk>, i: nat, stream: Stream): seq<Issue>
    requires i < |chunks|
  {
    var chunk, before := chunks[i], chunks[..i];
    var held := |Held(start, before, stream)|;
    if chunk.stream != stream || Overfull(start, before, stream) then []
    else if !Continues(start, chunk, held) then [Missing]
    else if chunk.original.None? then [Malformed]
    else if held + |chunk.original.value| > Maximum(start) then [Oversized]
    else []
  }

  function ChunksIssues(start: Start, chunks: seq<Chunk>, n: nat, stream: Stream): seq<Issue>
    requires n <= |chunks|
  {
    if n == 0 then [] else ChunksIssues(start, chunks, n - 1, stream) + ChunkIssues(start, chunks, n - 1, stream)
  }

  /** The issues of a stream: those of its chunks, and a length that is not the captured one. */
  function StreamIssues(start: Start, chunks: seq<Chunk>, stream: Stream, capture: Capture): seq<Issue> {
    ChunksIssues(start, chunks, |chunks|, stream)
    + (if |Held(start, chunks, stream)| != capture.bytes then [Missing] else [])
  }

  /** The issues of a line, from the lines before it. */
  function LineFaults(start: Start, lines: seq<Line>, i: nat): seq<Issue>
    requires i < |lines|
  {
    if !Open(lines, i) then (if RunsProgram(start.action) then [] else [Unexpected])
    else match lines[i].form
      case Plain(isText) => [if isText then Unexpected else InvalidUtf8]
      case TooLong => [Oversized]
      case NotText => [InvalidUtf8]
      case Json(record) =>
        match record
        case CompilerMessage(isError, complaints) =>
          if Messages(lines, i) >= MAX_DIAGNOSTICS then [Oversized]
          else complaints + (if isError.None? then [Malformed] else [])
        case CompilerArtifact(parsed, complaints) =>
          if Artifacts(lines, i) >= MAX_ARTIFACTS then [Oversized]
          else complaints + (if parsed then [] else [Malformed])
        case BuildScript(parsed, complaints) => complaints + (if parsed then [] else [Malformed])
        case BuildFinished(success) => if success.None? then [Malformed] else []
        case Unparsed => [Malformed]
        case WithoutReason => [Malformed]
        case NotObject => [Unexpected]
        case OtherReason => [Unexpected]
  }

  function LinesFaults(start: Start, lines: seq<Line>, n: nat): seq<Issue>
    requires n <= |lines|
  {
    if n == 0 then [] else LinesFaults(start, lines, n - 1) + LineFaults(start, lines, n - 1)
  }

  function ErrorFaults(lines: seq<Bytes>, n: nat): seq<Issue>
    requires n <= |lines|
  {
    if n == 0 then [] else ErrorFaults(lines, n - 1) + (if Utf8.Valid(lines[n - 1]) then [] else [InvalidUtf8])
  }

  /** The lines of standard output and of standard error, of the bytes held. */
  function HeldLines(start: Start, chunks: seq<Chunk>, parse: Parser): seq<Line> {
    AllPresented(ByteLines(Held(start, chunks, Stdout)), parse)
  }

  function HeldErrors(start: Start, chunks: seq<Chunk>): seq<Bytes> {
    ByteLines(Held(start, chunks, Stderr))
  }

  /** What the build's end and the errors say against how the command ended. */
  predicate Contradicted(start: Start, lines: seq<Line>, code: int) {
    var failed := exists i | 0 <= i < |lines| :: Concludes(lines, i, false);
    var succeeded := exists i | 0 <= i < |lines| :: Concludes(lines, i, true);
    || (failed && code == 0)
    || (succeeded && exists i | 0 <= i < |lines| :: ReportsError(lines, i))
    || (succeeded && code != 0 && !RunsProgram(start.action))
  }

  /** The line is the first to end the build, with this result. */
  predicate Concludes(lines: seq<Line>, i: nat, success: bool)
    requires i < |lines|
  {
    Open(lines, i) && EndsBuild(lines, i) && lines[i].form.record.success == Some(success)
  }

  function EndFaults(start: Start, lines: seq<Line>, finish: Finish): seq<Issue> {
    if !finish.outcome.Exited? then [NotExecuted]
    else if Contradicted(start, lines, finish.outcome.code) then [Unexpected]
    else []
  }

  /** Every issue in the order in which it comes up: of the identity, the captures, the streams, the lines, the end. */
  function AllIssues(start: Start, chunks: seq<Chunk>, finish: Finish, parse: Parser): seq<Issue> {
    var out, err := HeldLines(start, chunks, parse), HeldErrors(start, chunks);
    IdentityIssues(start, finish) + CaptureIssues(finish.stdout) + CaptureIssues(finish.stderr)
    + StreamIssues(start, chunks, Stdout, finish.stdout) + StreamIssues(start, chunks, Stderr, finish.stderr)
    + LinesFaults(start, out, |out|) + (if Open(out, |out|) then [Missing] else [])
    + ErrorFaults(err, |err|) + EndFaults(start, out, finish)
  }

  lemma {:induction false} RaisedConcat(issues: seq<Issue>, a: seq<Issue>, b: seq<Issue>)
    ensures RaisedAll(RaisedAll(issues, a), b) == RaisedAll(issues, a + b)
    decreases |a|
  {
    if a == [] {
      assert a + b == b;
    } else {
      assert (a + b)[0] == a[0] && (a + b)[1..] == a[1..] + b;
      RaisedConcat(Raised(issues, a[0]), a[1..], b);
    }
  }

  lemma {:induction false} RaisedOne(issues: seq<Issue>, issue: Issue)
    ensures RaisedAll(issues, [issue]) == Raised(issues, issue) && RaisedAll(issues, []) == issues
  {
    assert [issue][1..] == [];
  }

  lemma {:induction false} OverfullNext(start: Start, chunks: seq<Chunk>, stream: Stream)
    requires chunks != []
    ensures var n := |chunks| - 1;
      Overfull(start, chunks, stream)
      <==> || Overfull(start, chunks[..n], stream)
           || (&& chunks[n].stream == stream && Continues(start, chunks[n], |Held(start, chunks[..n], stream)|)
               && chunks[n].original.Some?
               && |Held(start, chunks[..n], stream)| + |chunks[n].original.value| > Maximum(start))
  {
    hide Held, Continues;
    var init := chunks[..|chunks| - 1];
    assert forall i | 0 <= i < |init| :: init[i] == chunks[i] && init[..i] == chunks[..i];
  }

  /** Putting a stream together holds those bytes and raises those issues. */
  lemma {:induction false} CollectedExactly(issues: seq<Issue>, start: Start, chunks: seq<Chunk>, stream: Stream)
    ensures var c := CollectedAll(issues, start, chunks, stream, Maximum(start));
      && c.bytes == Held(start, chunks, stream) && c.stopped == Overfull(start, chunks, stream)
      && c.issues == RaisedAll(issues, ChunksIssues(start, chunks, |chunks|, stream))
  {
    if chunks != [] {
      var n := |chunks| - 1;
      var init := chunks[..n];
      CollectedExactly(issues, start, init, stream);
      OverfullNext(start, chunks, stream);
      ChunksIssuesPrefix(start, chunks, n, n, stream);
      var raised := ChunkIssues(start, chunks, n, stream);
      CollectedStep(CollectedAll(issues, start, init, stream, Maximum(start)), start, chunks, stream);
      RaisedConcat(issues, ChunksIssues(start, chunks, n, stream), raised);
    }
  }

  lemma {:induction false} CollectedStep(c: Collection, start: Start, chunks: seq<Chunk>, stream: Stream)
    requires chunks != []
    requires var init := chunks[..|chunks| - 1];
      c.bytes == Held(start, init, stream) && c.stopped == Overfull(start, init, stream)
    ensures var next := CollectedOne(c, start, chunks[|chunks| - 1], stream, Maximum(start));
      && next.bytes == Held(start, chunks, stream) && next.stopped == Overfull(start, chunks, stream)
      && next.issues == RaisedAll(c.issues, ChunkIssues(start, chunks, |chunks| - 1, stream))
  {
    hide Overfull, Raised, RaisedAll, Maximum;
    OverfullNext(start, chunks, stream);
    RaisedOne(c.issues, Missing);
    RaisedOne(c.issues, Malformed);
    RaisedOne(c.issues, Oversized);
  }

  lemma {:induction false} ChunksIssuesPrefix(start: Start, chunks: seq<Chunk>, k: nat, n: nat, stream: Stream)
    requires k <= n <= |chunks|
    ensures ChunksIssues(start, chunks[..n], k, stream) == ChunksIssues(start, chunks, k, stream)
  {
    hide ChunkIssues;
    if k > 0 {
      ChunksIssuesPrefix(start, chunks, k - 1, n, stream);
      ChunkIssuesPrefix(start, chunks, k - 1, n, stream);
    }
  }

  lemma {:induction false} ChunkIssuesPrefix(start: Start, chunks: seq<Chunk>, k: nat, n: nat, stream: Stream)
    requires k < n <= |chunks|
    ensures ChunkIssues(start, chunks[..n], k, stream) == ChunkIssues(start, chunks, k, stream)
  {
    hide Held, Overfull, Continues;
    assert chunks[..n][..k] == chunks[..k] && chunks[..n][k] == chunks[k];
  }

  lemma {:induction false} StreamExactly(issues: seq<Issue>, start: Start, chunks: seq<Chunk>, stream: Stream,
                                         capture: Capture)
    ensures Collected(issues, start, chunks, stream, capture)
            == (Held(start, chunks, stream), RaisedAll(issues, StreamIssues(start, chunks, stream, capture)))
  {
    hide CollectedAll, Held, ChunksIssues, Raised, RaisedAll, Overfull;
    CollectedExactly(issues, start, chunks, stream);
    var raised := RaisedAll(issues, ChunksIssues(start, chunks, |chunks|, stream));
    RaisedOne(raised, Missing);
    RaisedConcat(issues, ChunksIssues(start, chunks, |chunks|, stream),
                 if |Held(start, chunks, stream)| != capture.bytes then [Missing] else []);
  }

  lemma {:induction false} LineFaultsExactly(start: Start, lines: seq<Line>, i: nat)
    requires i < |lines|
    ensures LineIssues(Tallies(lines, i), start, lines[i]) == LineFaults(start, lines, i)
  {
    hide Tallies, Open, Messages, Artifacts;
    LinesTally(lines, i);
  }

  lemma {:induction false} LinesFaultsExactly(issues: seq<Issue>, start: Start, lines: seq<Line>, n: nat)
    requires n <= |lines|
    ensures IssuesAfter(issues, start, lines, n) == RaisedAll(issues, LinesFaults(start, lines, n))
  {
    hide LineIssues, LineFaults, Raised, Tallies;
    if n == 0 {
      RaisedOne(issues, Missing);
    } else {
      LinesFaultsExactly(issues, start, lines, n - 1);
      LineFaultsExactly(start, lines, n - 1);
      RaisedConcat(issues, LinesFaults(start, lines, n - 1), LineFaults(start, lines, n - 1));
    }
  }

  lemma {:induction false} ErrorFaultsExactly(r: Reading, lines: seq<Bytes>, n: nat)
    requires n <= |lines|
    ensures ErrorLinesRead(r, lines, n).issues == RaisedAll(r.issues, ErrorFaults(lines, n))
  {
    hide Raised, RaisedAll, Retained;
    if n == 0 {
      RaisedOne(r.issues, InvalidUtf8);
    } else {
      ErrorFaultsExactly(r, lines, n - 1);
      RaisedOne(RaisedAll(r.issues, ErrorFaults(lines, n - 1)), InvalidUtf8);
      RaisedConcat(r.issues, ErrorFaults(lines, n - 1), if Utf8.Valid(lines[n - 1]) then [] else [InvalidUtf8]);
    }
  }

  /** How the build ended, according to its records. */
  lemma {:induction false} ConcludedExactly(lines: seq<Line>, success: bool)
    ensures Tallies(lines, |lines|).finished == Some(success)
            <==> exists i | 0 <= i < |lines| :: Concludes(lines, i, success)
  {
    var t := Tallies(lines, |lines|);
    LinesTally(lines, |lines|);
    LinesReport(lines, |lines|);
    if t.finished.Some? {
      var i := FirstEnd(lines, |lines|);
      assert Concludes(lines, i, t.finished.value);
    }
  }

  lemma {:induction false} FirstEnd(lines: seq<Line>, n: nat) returns (i: nat)
    requires n <= |lines| && !Open(lines, n)
    ensures i < n && Open(lines, i) && EndsBuild(lines, i)
  {
    if Open(lines, n - 1) {
      i := n - 1;
    } else {
      i := FirstEnd(lines, n - 1);
    }
  }

  lemma {:induction false} EndFaultsExactly(start: Start, lines: seq<Line>, finish: Finish, r: Reading)
    requires r.tally == Tallies(lines, |lines|)
    ensures Judged(r, start, finish).reading.issues == RaisedAll(r.issues, EndFaults(start, lines, finish))
  {
    hide Tallies, Concludes, ReportsError, Raised, RaisedAll;
    ConcludedExactly(lines, true);
    ConcludedExactly(lines, false);
    LinesReport(lines, |lines|);
    RaisedOne(r.issues, Unexpected);
    RaisedOne(r.issues, NotExecuted);
  }

  lemma {:induction false} CapturesExactly(start: Start, finish: Finish)
    ensures CapturesIssues(start, finish)
            == RaisedAll([], IdentityIssues(start, finish) + CaptureIssues(finish.stdout)
                + CaptureIssues(finish.stderr))
  {
    var identity, out, err := IdentityIssues(start, finish), CaptureIssues(finish.stdout), CaptureIssues(finish.stderr);
    RaisedOne([], Missing);
    assert RaisedAll([], identity) == identity;
    RaisedConcat([], identity, out);
    RaisedConcat([], identity + out, err);
  }

  /** The issues reported are all issues that come up, each kept where it first did. */
  lemma {:induction false} IssuesExactly(start: Start, chunks: seq<Chunk>, finish: Finish, parse: Parser)
    ensures Derived(start, chunks, finish, parse).reading.issues
            == RaisedAll([], AllIssues(start, chunks, finish, parse))
  {
    hide Raised, RaisedAll, CollectedAll, Held, Tallies, LinesFaults, ErrorFaults, EndFaults, StreamIssues, ByteLines,
      Judged, Open, CapturesIssues, IdentityIssues, CaptureIssues, Collected;
    var a := IdentityIssues(start, finish) + CaptureIssues(finish.stdout) + CaptureIssues(finish.stderr);
    var b, c := StreamIssues(start, chunks, Stdout, finish.stdout), StreamIssues(start, chunks, Stderr, finish.stderr);
    CapturesExactly(start, finish);
    StreamExactly(RaisedAll([], a), start, chunks, Stdout, finish.stdout);
    RaisedConcat([], a, b);
    StreamExactly(RaisedAll([], a + b), start, chunks, Stderr, finish.stderr);
    RaisedConcat([], a + b, c);
    var out, err := HeldLines(start, chunks, parse), HeldErrors(start, chunks);
    var d, e := LinesFaults(start, out, |out|), if Open(out, |out|) then [Missing] else [];
    LinesFaultsExactly(RaisedAll([], a + b + c), start, out, |out|);
    RaisedConcat([], a + b + c, d);
    LinesTally(out, |out|);
    RaisedOne(RaisedAll([], a + b + c + d), Missing);
    RaisedConcat([], a + b + c + d, e);
    var ended := Ended(OutRead(start, chunks, finish, parse));
    ErrorFaultsExactly(ended, err, |err|);
    ErrorLinesKeep(ended, err, |err|);
    RaisedConcat([], a + b + c + d + e, ErrorFaults(err, |err|));
    EndFaultsExactly(start, out, finish, AllRead(start, chunks, finish, parse));
    RaisedConcat([], a + b + c + d + e + ErrorFaults(err, |err|), EndFaults(start, out, finish));
  }

  /** An outcome is decided exactly of a command that exited and of whose evidence no issue comes up. */
  lemma {:induction false} DecidedExactly(start: Start, chunks: seq<Chunk>, finish: Finish, parse: Parser)
    ensures Derived(start, chunks, finish, parse).outcome in {CompilerErrors, NonzeroExit, Success}
            <==> finish.outcome.Exited? && AllIssues(start, chunks, finish, parse) == []
  {
    hide AllIssues, RaisedAll, Understood;
    IssuesExactly(start, chunks, finish, parse);
    RaisedNone([], AllIssues(start, chunks, finish, parse));
    ReadMeans(start, chunks, finish, parse);
    JudgedDecides(AllRead(start, chunks, finish, parse), start, finish) by {
      UnderstoodEnds(start, chunks, finish, parse);
    }
  }

  lemma {:induction false} UnderstoodEnds(start: Start, chunks: seq<Chunk>, finish: Finish, parse: Parser)
    ensures AllRead(start, chunks, finish, parse).issues == [] ==>
              AllRead(start, chunks, finish, parse).tally.finished.Some?
  {
    hide AllRead, EvidenceWhole, Expected;
    ReadMeans(start, chunks, finish, parse);
  }

  lemma {:induction false} JudgedDecides(r: Reading, start: Start, finish: Finish)
    requires r.issues == [] ==> r.tally.finished.Some?
    ensures var d := Judged(r, start, finish);
      d.outcome in {CompilerErrors, NonzeroExit, Success} <==> finish.outcome.Exited? && d.reading.issues == []
  {
    if r.tally.finished.Some? && r.tally.finished.value {
      assert r.tally.finished == Some(true);
    } else if r.tally.finished.Some? {
      assert r.tally.finished == Some(false);
    }
  }

  /** The first place of an issue among those that come up. */
  function FirstPlace(all: seq<Issue>, issue: Issue): (k: nat)
    requires issue in all
    ensures k < |all| && all[k] == issue && forall j | 0 <= j < k :: all[j] != issue
  {
    if all[0] == issue then 0 else 1 + FirstPlace(all[1..], issue)
  }

  predicate InFirstOrder(kept: seq<Issue>, all: seq<Issue>)
    requires forall i | 0 <= i < |kept| :: kept[i] in all
  {
    forall i, j | 0 <= i < j < |kept| :: FirstPlace(all, kept[i]) < FirstPlace(all, kept[j])
  }

  /** What is raised one after another is kept once each, in the order of first appearance. */
  lemma {:induction false} RaisedInOrder(all: seq<Issue>)
    ensures var kept := RaisedAll([], all);
      (forall issue :: issue in kept <==> issue in all) && Distinct(kept) && InFirstOrder(kept, all)
    decreases |all|
  {
    RaisedAllMeans([], all);
    if all != [] {
      var init, last := all[..|all| - 1], all[|all| - 1];
      RaisedInOrder(init);
      RaisedConcat([], init, [last]);
      RaisedOne(RaisedAll([], init), last);
      assert all == init + [last];
      OrderKept(RaisedAll([], init), init, last, RaisedAll([], all));
    }
  }

  lemma {:induction false} OrderKept(kept: seq<Issue>, init: seq<Issue>, last: Issue, next: seq<Issue>)
    requires (forall issue :: issue in kept <==> issue in init) && InFirstOrder(kept, init)
    requires next == Raised(kept, last) && forall i | 0 <= i < |next| :: next[i] in init + [last]
    ensures InFirstOrder(next, init + [last])
  {
    hide FirstPlace;
    forall i | 0 <= i < |kept|
      ensures FirstPlace(init + [last], kept[i]) == FirstPlace(init, kept[i])
    {
      PlaceStays(init, last, kept[i]);
    }
    if last !in kept {
      PlaceIsLast(init, last);
    }
  }

  lemma {:induction false} PlaceStays(init: seq<Issue>, last: Issue, issue: Issue)
    requires issue in init
    ensures FirstPlace(init + [last], issue) == FirstPlace(init, issue)
  {
    var all, k, n := init + [last], FirstPlace(init, issue), FirstPlace(init + [last], issue);
    assert all[k] == issue && forall j | 0 <= j < |init| :: all[j] == init[j];
  }

  lemma {:induction false} PlaceIsLast(init: seq<Issue>, last: Issue)
    requires last !in init
    ensures FirstPlace(init + [last], last) == |init|
  {
    var all, n := init + [last], FirstPlace(init + [last], last);
    assert all[|init|] == last && forall j | 0 <= j < |init| :: all[j] == init[j];
  }
}
