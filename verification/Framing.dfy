/** Frames of the language-server base protocol (src/rust_analyzer_spike.rs). */
module Framing {
  import opened Common
  import Utf8

  const MAX_MESSAGE_BYTES := 8 * 1024 * 1024
  const MAX_HEADER_BYTES := 8 * 1024

  const COLON: byte := 58

  const HEADER_END: Bytes := [CR, LF, CR, LF]

  /** "Content-Length" */
  const CONTENT_LENGTH: Bytes := [67, 111, 110, 116, 101, 110, 116, 45, 76, 101, 110, 103, 116, 104]

  /** How a message is written as JSON and read back. */
  datatype Codec<!T> = Codec(encode: T -> Bytes, decode: Bytes -> Option<T>)

  ghost predicate Inverse<T(!new)>(c: Codec<T>) {
    forall m: T :: c.decode(c.encode(m)) == Some(m)
  }

  datatype Outcome<T> = Ok(value: T) | Invalid

  // ----- Decimal numbers -----

  function Decimal(n: nat): Bytes {
    if n < 10 then [48 + n] else Decimal(n / 10) + [48 + n % 10]
  }

  predicate IsDigit(b: byte) {
    48 <= b <= 57
  }

  /** The value of a nonempty run of digits. */
  function DigitsValue(s: Bytes): Option<nat> {
    if s == [] || !IsDigit(s[|s| - 1]) then None
    else if |s| == 1 then Some(s[0] - 48)
    else match DigitsValue(s[..|s| - 1])
      case None => None
      case Some(high) => Some(10 * high + (s[|s| - 1] - 48))
  }

  /** Digits, after an optional plus sign, of a value that fits 64 bits. */
  function ParsedSize(s: Bytes): Option<nat> {
    var digits := if s != [] && s[0] == 43 then s[1..] else s;
    match DigitsValue(digits)
    case None => None
    case Some(n) => if n <= U64_MAX then Some(n) else None
  }

  lemma {:induction false} DecimalParses(n: nat)
    ensures DigitsValue(Decimal(n)) == Some(n) && Decimal(n) != [] && forall i | 0 <= i < |Decimal(n)| ::
            IsDigit(Decimal(n)[i])
  {
    if n >= 10 {
      DecimalParses(n / 10);
      assert Decimal(n)[..|Decimal(n)| - 1] == Decimal(n / 10);
    }
  }

  // ----- Headers -----

  predicate EndsHeader(header: Bytes) {
    |header| >= 4 && header[|header| - 4..] == HEADER_END
  }

  datatype Scan = CleanEnd | BrokenOff(read: nat) | TooLong(read: nat) | Ended(length: nat)

  /** Reading byte by byte until the header ends, with the first `n` bytes read. */
  function Scanned(input: Bytes, n: nat): Scan
    requires n <= |input|
    decreases |input| - n
  {
    if EndsHeader(input[..n]) then Ended(n)
    else if n == |input| then (if n == 0 then CleanEnd else BrokenOff(n))
    else if n + 1 > MAX_HEADER_BYTES then TooLong(n + 1)
    else Scanned(input, n + 1)
  }

  predicate IsSpace(b: byte) {
    9 <= b <= 13 || b == 32
  }

  function TrimFront(s: Bytes): Bytes {
    if s != [] && IsSpace(s[0]) then TrimFront(s[1..]) else s
  }

  function TrimBack(s: Bytes): Bytes {
    if s != [] && IsSpace(s[|s| - 1]) then TrimBack(s[..|s| - 1]) else s
  }

  /** The first position of a byte at or after `from`, or the length. */
  function Find(s: Bytes, b: byte, from: nat): (n: nat)
    requires from <= |s|
    ensures from <= n <= |s| && (n < |s| ==> s[n] == b) && forall i | from <= i < n :: s[i] != b
    decreases |s| - from
  {
    if from == |s| || s[from] == b then from else Find(s, b, from + 1)
  }

  function Lower(b: byte): byte {
    if 65 <= b <= 90 then b + 32 else b
  }

  predicate IsContentLength(name: Bytes) {
    |name| == |CONTENT_LENGTH| && forall i | 0 <= i < |name| :: Lower(name[i]) == Lower(CONTENT_LENGTH[i])
  }

  /** What one header line adds to the length found so far. */
  function LineRead(line: Bytes, found: Option<nat>): Outcome<Option<nat>> {
    var colon := Find(line, COLON, 0);
    if colon == |line| then Invalid
    else if !IsContentLength(line[..colon]) then Ok(found)
    else if found.Some? then Invalid
    else match ParsedSize(TrimBack(TrimFront(line[colon + 1..])))
      case None => Invalid
      case Some(n) => Ok(Some(n))
  }

  function LinesRead(lines: seq<Bytes>, found: Option<nat>): Outcome<Option<nat>> {
    if lines == [] then Ok(found)
    else match LineRead(lines[0], found)
      case Invalid => Invalid
      case Ok(next) => LinesRead(lines[1..], next)
  }

  /** The lines of a text between line ends, the first one starting at `start`. */
  function Lines(text: Bytes, start: nat, at: nat): seq<Bytes>
    requires start <= at <= |text|
    decreases |text| - at
  {
    if at == |text| then [text[start..]]
    else if at + 1 < |text| && text[at] == CR && text[at + 1] == LF then [text[start..at]] + Lines(text, at + 2, at + 2)
    else Lines(text, start, at + 1)
  }

  // ----- Frames -----

  datatype Frame<T> = End | Message(value: T) | Bad | Failed

  /** What reading one frame returns, and what it leaves unread. */
  datatype Reading<T> = Reading(frame: Frame<T>, rest: Bytes)

  function ReadBody<T>(c: Codec<T>, input: Bytes, max: nat, fails: bool, header: nat): Reading<T>
    requires 4 <= header <= |input|
  {
    var text := input[..header - 4];
    if !Utf8.Valid(text) then Reading(Bad, input[header..])
    else
      var length := LinesRead(Lines(text, 0, 0), None);
      if length.Invalid? || length.value.None? || length.value.value > max then Reading(Bad, input[header..])
      else ReadContent(c, input[header..], fails, length.value.value)
  }

  /** Exactly `length` bytes of content, read as a message. */
  function ReadContent<T>(c: Codec<T>, input: Bytes, fails: bool, length: nat): Reading<T> {
    if length > |input| then Reading(if fails then Failed else Bad, [])
    else match c.decode(input[..length])
      case None => Reading(Bad, input[length..])
      case Some(m) => Reading(Message(m), input[length..])
  }

  lemma {:induction false} ScannedLength(input: Bytes, n: nat)
    requires n <= |input|
    ensures match Scanned(input, n)
            case Ended(length) => n <= length <= |input| && EndsHeader(input[..length])
            case TooLong(length) => length <= |input|
            case BrokenOff(length) => length == |input|
            case CleanEnd => input == []
    decreases |input| - n
  {
    if !EndsHeader(input[..n]) && n < |input| && n + 1 <= MAX_HEADER_BYTES {
      ScannedLength(input, n + 1);
    }
  }

  /** What the scan finds once `header` has been read and `rest` has not. */
  function ScannedAfter(header: Bytes, rest: Bytes): Scan {
    Scanned(header + rest, |header|)
  }

  lemma {:induction false} ScannedNext(header: Bytes, rest: Bytes)
    ensures rest != [] ==> header + [rest[0]] + rest[1..] == header + rest
    ensures ScannedAfter(header, rest)
            == if EndsHeader(header) then Ended(|header|)
               else if rest == [] then (if header == [] then CleanEnd else BrokenOff(|header|))
               else if |header| + 1 > MAX_HEADER_BYTES then TooLong(|header| + 1)
               else ScannedAfter(header + [rest[0]], rest[1..])
  {
    assert (header + rest)[..|header|] == header;
    if rest != [] {
      assert header + [rest[0]] + rest[1..] == header + rest;
    }
  }

  /** Reads a frame from bytes after which the input ends or, when it `fails`, cannot be read. */
  function Read<T>(c: Codec<T>, input: Bytes, max: nat, fails: bool): Reading<T> {
    ScannedLength(input, 0);
    match Scanned(input, 0)
    case CleanEnd => Reading(if fails then Failed else End, [])
    case BrokenOff(_) => Reading(if fails then Failed else Bad, [])
    case TooLong(length) => Reading(Bad, input[length..])
    case Ended(length) => ReadBody(c, input, max, fails, length)
  }

  function Header(length: nat): Bytes {
    CONTENT_LENGTH + [COLON, 32] + Decimal(length) + HEADER_END
  }

  /** The bytes of a frame, unless the message is too long. */
  function Written<T>(c: Codec<T>, m: T): Option<Bytes> {
    if |c.encode(m)| > MAX_MESSAGE_BYTES then None else Some(Header(|c.encode(m)|) + c.encode(m))
  }

  method WriteFrame<T>(c: Codec<T>, m: T) returns (r: Option<Bytes>)
    ensures r == Written(c, m)
  {
    var body := c.encode(m);
    if |body| > MAX_MESSAGE_BYTES {
      return None;
    }
    return Some(Header(|body|) + body);
  }

  /** The bytes a reader has not consumed yet, whether they end in a failure, and interruptions before single reads. */
  class Reader {
    var rest: Bytes
    const fails: bool
    var interruptions: seq<bool>

    constructor (input: Bytes, fails: bool, interruptions: seq<bool>)
      ensures rest == input && this.fails == fails
    {
      rest, this.fails, this.interruptions := input, fails, interruptions;
    }

    /** Reads one byte, unless interrupted. */
    method ReadByte() returns (interrupted: bool, b: Option<byte>)
      modifies this
      ensures interrupted ==> rest == old(rest) && |interruptions| < |old(interruptions)|
      ensures !interrupted ==> |interruptions| <= |old(interruptions)|
      ensures !interrupted ==>
                if old(rest) == [] then b == None && rest == [] else b == Some(old(rest)[0]) && rest == old(rest)[1..]
    {
      interrupted, b := false, None;
      if interruptions != [] {
        interrupted, interruptions := interruptions[0], interruptions[1..];
      }
      if !interrupted && rest != [] {
        b, rest := Some(rest[0]), rest[1..];
      }
    }

    /** Reads byte by byte until a header ends; an interrupted read is tried again. */
    method ReadHeader() returns (scan: Scan, header: Bytes)
      modifies this
      ensures scan == Scanned(old(rest), 0)
      ensures old(rest) == header + rest
      ensures scan.Ended? ==> |header| == scan.length
      ensures scan.TooLong? ==> |header| == scan.read
      ensures scan.CleanEnd? || scan.BrokenOff? ==> rest == []
    {
      header := [];
      ScannedNext(header, rest);
      while !EndsHeader(header)
        invariant old(rest) == header + rest && ScannedAfter(header, rest) == Scanned(old(rest), 0)
        decreases |rest| + |interruptions|
      {
        ScannedNext(header, rest);
        var interrupted, b := ReadByte();
        if interrupted {
          continue;
        }
        if b.None? {
          return if header == [] then CleanEnd else BrokenOff(|header|), header;
        }
        header := header + [b.value];
        if |header| > MAX_HEADER_BYTES {
          return TooLong(|header|), header;
        }
      }
      ScannedNext(header, rest);
      return Ended(|header|), header;
    }

    method ReadFrame<T>(c: Codec<T>, max: nat) returns (frame: Frame<T>)
      modifies this
      ensures Reading(frame, rest) == Read(c, old(rest), max, fails)
    {
      ScannedLength(rest, 0);
      var scan, header := ReadHeader();
      if !scan.Ended? {
        if scan.TooLong? {
          assert rest == old(rest)[scan.read..];
        }
        return if scan.TooLong? then Bad else if fails then Failed else if scan.CleanEnd? then End else Bad;
      }
      assert rest == old(rest)[scan.length..] && header[..|header| - 4] == old(rest)[..scan.length - 4];
      var text := header[..|header| - 4];
      if !Utf8.Valid(text) {
        return Bad;
      }
      var length := ReadLines(Lines(text, 0, 0));
      if length.Invalid? || length.value.None? || length.value.value > max {
        return Bad;
      }
      var size := length.value.value;
      if size > |rest| {
        rest := [];
        return if fails then Failed else Bad;
      }
      var decoded := c.decode(rest[..size]);
      rest := rest[size..];
      return if decoded.None? then Bad else Message(decoded.value);
    }
  }

  method ReadLines(lines: seq<Bytes>) returns (found: Outcome<Option<nat>>)
    ensures found == LinesRead(lines, None)
  {
    var length: Option<nat> := None;
    var i := 0;
    while i < |lines|
      invariant i <= |lines| && LinesRead(lines[i..], length) == LinesRead(lines, None)
    {
      assert lines[i..][0] == lines[i] && lines[i..][1..] == lines[i + 1..];
      var next := LineRead(lines[i], length);
      if next.Invalid? {
        return Invalid;
      }
      length := next.value;
      i := i + 1;
    }
    return Ok(length);
  }

  // ----- A written frame reads back -----

  function Pow10(k: nat): nat {
    if k == 0 then 1 else 10 * Pow10(k - 1)
  }

  lemma {:induction false} DecimalShort(n: nat, k: nat)
    requires k > 0 && n < Pow10(k)
    ensures |Decimal(n)| <= k
  {
    if n >= 10 {
      DecimalShort(n / 10, k - 1);
    }
  }

  /** The header line of a frame, without its end. */
  function HeaderText(length: nat): Bytes {
    CONTENT_LENGTH + [COLON, 32] + Decimal(length)
  }

  lemma {:induction false} HeaderTextPlain(length: nat)
    requires length <= MAX_MESSAGE_BYTES
    ensures forall i | 0 <= i < |HeaderText(length)| :: HeaderText(length)[i] <= 0x7F && HeaderText(length)[i] != CR
    ensures |HeaderText(length)| + 4 <= MAX_HEADER_BYTES
  {
    DecimalParses(length);
    assert Pow10(7) == 10_000_000;
    DecimalShort(length, 7);
  }

  /** A text without carriage returns ends a header exactly where the first blank line follows it. */
  lemma {:induction false} ScannedTo(text: Bytes, rest: Bytes, n: nat)
    requires forall i | 0 <= i < |text| :: text[i] != CR
    requires n <= |text| + 4 <= MAX_HEADER_BYTES
    ensures Scanned(text + HEADER_END + rest, n) == Ended(|text| + 4)
    decreases |text| + 4 - n
  {
    var input := text + HEADER_END + rest;
    if n == |text| + 4 {
      assert input[..n][n - 4..] == HEADER_END;
    } else {
      if n >= 4 {
        assert input[..n][n - 4..][0] == text[n - 4];
      }
      ScannedTo(text, rest, n + 1);
    }
  }

  lemma {:induction false} AsciiValid(text: Bytes)
    requires forall i | 0 <= i < |text| :: text[i] <= 0x7F
    ensures Utf8.Valid(text)
    decreases |text|
  {
    if text != [] {
      AsciiValid(text[1..]);
    }
  }

  lemma {:induction false} OneLine(text: Bytes, at: nat)
    requires at <= |text| && forall i | 0 <= i < |text| :: text[i] != CR
    ensures Lines(text, 0, at) == [text]
    decreases |text| - at
  {
    if at < |text| {
      OneLine(text, at + 1);
    }
  }

  lemma {:induction false} FindAt(s: Bytes, b: byte, from: nat, n: nat)
    requires from <= n < |s| && s[n] == b && forall i | from <= i < n :: s[i] != b
    ensures Find(s, b, from) == n
  {
  }

  /** A value of digits after one space reads as their number. */
  lemma {:induction false} ValueReads(value: Bytes, digits: Bytes, n: nat)
    requires value == [32] + digits && DigitsValue(digits) == Some(n) && n <= U64_MAX
    requires digits != [] && forall i | 0 <= i < |digits| :: IsDigit(digits[i])
    ensures ParsedSize(TrimBack(TrimFront(value))) == Some(n)
  {
    assert value[1..] == digits && IsDigit(digits[0]);
    assert TrimFront(value) == digits;
    assert IsDigit(digits[|digits| - 1]) && TrimBack(digits) == digits;
  }

  /** Where a line is cut that starts with `name` and a colon. */
  lemma {:induction false} LineSplits(line: Bytes, name: Bytes, value: Bytes)
    requires line == name + [COLON] + value && forall i | 0 <= i < |name| :: name[i] != COLON
    ensures Find(line, COLON, 0) == |name| && line[..|name|] == name && line[|name| + 1..] == value
  {
    assert forall i | 0 <= i < |name| :: line[i] == name[i];
    FindAt(line, COLON, 0, |name|);
  }

  lemma {:induction false} LineReads(line: Bytes, name: Bytes, value: Bytes, n: nat)
    requires line == name + [COLON] + value && forall i | 0 <= i < |name| :: name[i] != COLON
    requires IsContentLength(name) && ParsedSize(TrimBack(TrimFront(value))) == Some(n)
    ensures LinesRead([line], None) == Ok(Some(n))
  {
    LineSplits(line, name, value);
    assert LineRead(line, None) == Ok(Some(n));
    assert [line][1..] == [];
  }

  /** The header line says the length. */
  lemma {:induction false} HeaderLineReads(length: nat)
    requires length <= U64_MAX
    ensures LinesRead([HeaderText(length)], None) == Ok(Some(length))
  {
    var value := [32] + Decimal(length);
    DecimalParses(length);
    ValueReads(value, Decimal(length), length);
    assert HeaderText(length) == CONTENT_LENGTH + [COLON] + value;
    LineReads(HeaderText(length), CONTENT_LENGTH, value, length);
  }

  /** Where the header of a frame ends, and what it and the rest are. */
  lemma {:induction false} HeaderEnds(length: nat, input: Bytes, rest: Bytes)
    requires length <= MAX_MESSAGE_BYTES && input == Header(length) + rest
    ensures Scanned(input, 0) == Ended(|HeaderText(length)| + 4)
    ensures |HeaderText(length)| + 4 <= |input|
    ensures input[..|HeaderText(length)|] == HeaderText(length) && input[|HeaderText(length)| + 4..] == rest
  {
    var text := HeaderText(length);
    HeaderTextPlain(length);
    assert Header(length) == text + HEADER_END;
    ScannedTo(text, rest, 0);
  }

  lemma {:induction false} HeaderTextReads(length: nat)
    requires length <= MAX_MESSAGE_BYTES
    ensures Utf8.Valid(HeaderText(length))
    ensures LinesRead(Lines(HeaderText(length), 0, 0), None) == Ok(Some(length))
  {
    HeaderTextPlain(length);
    AsciiValid(HeaderText(length));
    OneLine(HeaderText(length), 0);
    HeaderLineReads(length);
  }

  lemma {:induction false} ContentReads<T(!new)>(c: Codec<T>, m: T, rest: Bytes, fails: bool)
    requires Inverse(c)
    ensures ReadContent(c, c.encode(m) + rest, fails, |c.encode(m)|) == Reading(Message(m), rest)
  {
    var body := c.encode(m);
    assert (body + rest)[..|body|] == body && (body + rest)[|body|..] == rest;
    assert c.decode(c.encode(m)) == Some(m);
  }

  /** Reading a written frame gives the message back and leaves what follows it unread. */
  lemma {:induction false} FrameRoundTrip<T(!new)>(c: Codec<T>, m: T, rest: Bytes, fails: bool)
    requires Inverse(c) && Written(c, m).Some?
    ensures Read(c, Written(c, m).value + rest, MAX_MESSAGE_BYTES, fails) == Reading(Message(m), rest)
  {
    var length, content := |c.encode(m)|, c.encode(m) + rest;
    var input, end := Written(c, m).value + rest, |HeaderText(length)| + 4;
    assert input == Header(length) + content;
    HeaderEnds(length, input, content);
    HeaderTextReads(length);
    assert ReadBody(c, input, MAX_MESSAGE_BYTES, fails, end) == ReadContent(c, content, fails, length);
    ContentReads(c, m, rest, fails);
  }

  // ----- Streams -----

  /** All messages framed one after another, unless one is too long. */
  function WrittenAll<T>(c: Codec<T>, messages: seq<T>): Option<Bytes> {
    if messages == [] then Some([])
    else match (Written(c, messages[0]), WrittenAll(c, messages[1..]))
      case (Some(first), Some(rest)) => Some(first + rest)
      case _ => None
  }

  /** Reads frames until one that is no message. */
  function ReadAll<T>(c: Codec<T>, input: Bytes, max: nat, fails: bool): (seq<T>, Frame<T>)
    decreases |input|
  {
    ReadProgress(c, input, max, fails);
    var r := Read(c, input, max, fails);
    if !r.frame.Message? then ([], r.frame)
    else
      var (rest, last) := ReadAll(c, r.rest, max, fails);
      ([r.frame.value] + rest, last)
  }

  lemma {:induction false} ReadProgress<T>(c: Codec<T>, input: Bytes, max: nat, fails: bool)
    ensures Read(c, input, max, fails).frame.Message? ==> |Read(c, input, max, fails).rest| < |input|
  {
    ScannedLength(input, 0);
  }

  /** Frames written one after another read back as the same messages in order, and then a clean end or the failure. */
  lemma {:induction false} StreamRoundTrip<T(!new)>(c: Codec<T>, messages: seq<T>, fails: bool)
    requires Inverse(c) && WrittenAll(c, messages).Some?
    ensures ReadAll(c, WrittenAll(c, messages).value, MAX_MESSAGE_BYTES, fails)
            == (messages, if fails then Failed else End)
  {
    if messages != [] {
      FrameRoundTrip(c, messages[0], WrittenAll(c, messages[1..]).value, fails);
      StreamRoundTrip(c, messages[1..], fails);
      assert messages == [messages[0]] + messages[1..];
    }
  }

  // ----- Which bytes read as a message -----

  /** The position is just after the first end of a header. */
  predicate FirstEnd(input: Bytes, n: nat) {
    n <= |input| && EndsHeader(input[..n]) && forall k | 0 <= k < n :: !EndsHeader(input[..k])
  }

  /** The first `n` bytes hold no end of a header. */
  predicate NoEnd(input: Bytes, n: nat)
    requires n <= |input|
  {
    forall k | 0 <= k <= n :: !EndsHeader(input[..k])
  }

  /** The scan stops at the first end of a header within the limit, at the limit, or at the end of the input. */
  predicate StopsAt(input: Bytes, scan: Scan) {
    match scan
    case Ended(n) => FirstEnd(input, n) && n <= MAX_HEADER_BYTES
    case TooLong(n) => n == MAX_HEADER_BYTES + 1 && n <= |input| && NoEnd(input, MAX_HEADER_BYTES)
    case BrokenOff(n) => n == |input| && 0 < n <= MAX_HEADER_BYTES && NoEnd(input, n)
    case CleanEnd => input == []
  }

  lemma {:induction false} ScannedStops(input: Bytes, n: nat)
    requires n <= |input| && n <= MAX_HEADER_BYTES && forall k | 0 <= k < n :: !EndsHeader(input[..k])
    ensures StopsAt(input, Scanned(input, n))
    decreases |input| - n
  {
    hide EndsHeader;
    if !EndsHeader(input[..n]) && n < |input| && n + 1 <= MAX_HEADER_BYTES {
      ScannedStops(input, n + 1);
    }
  }

  /** The bytes before the first end determine the scan. */
  lemma {:induction false} ScannedExactly(input: Bytes, scan: Scan)
    ensures Scanned(input, 0) == scan <==> StopsAt(input, scan)
  {
    ScannedStops(input, 0);
    if StopsAt(input, scan) {
      OneStop(input, scan, Scanned(input, 0));
    }
  }

  lemma {:induction false} OneStop(input: Bytes, a: Scan, b: Scan)
    requires StopsAt(input, a) && StopsAt(input, b)
    ensures a == b
  {
    hide EndsHeader;
    NothingEnds(input);
  }

  lemma {:induction false} NothingEnds(input: Bytes)
    ensures !EndsHeader(input[..0])
  {
  }

  // ----- The lines of a header -----

  /** No carriage return is followed by a line feed. */
  predicate Unbroken(line: Bytes) {
    forall i | 0 <= i < |line| - 1 :: line[i] != CR || line[i + 1] != LF
  }

  /** The lines with a carriage return and a line feed between them. */
  function JoinedLines(lines: seq<Bytes>): Bytes {
    if lines == [] then []
    else if |lines| == 1 then lines[0]
    else lines[0] + [CR, LF] + JoinedLines(lines[1..])
  }

  predicate AllUnbroken(lines: seq<Bytes>) {
    forall i | 0 <= i < |lines| :: Unbroken(lines[i])
  }

  lemma {:induction false} LinesJoin(text: Bytes, start: nat, at: nat)
    requires start <= at <= |text| && Unbroken(text[start..at])
    requires start < at < |text| && text[at] == LF ==> text[at - 1] != CR
    ensures var lines := Lines(text, start, at);
      lines != [] && AllUnbroken(lines) && JoinedLines(lines) == text[start..]
    decreases |text| - at
  {
    hide Unbroken, JoinedLines, AllUnbroken;
    if at == |text| {
      assert text[start..at] == text[start..];
      LastLine(text[start..]);
    } else if at + 1 < |text| && text[at] == CR && text[at + 1] == LF {
      NothingBroken();
      assert text[at + 2..at + 2] == [];
      LinesJoin(text, at + 2, at + 2);
      LineBefore(text[start..at], Lines(text, at + 2, at + 2));
      BreakAt(text, start, at);
    } else {
      assert text[start..at + 1] == text[start..at] + [text[at]];
      LongerUnbroken(text[start..at], text[at]);
      LinesJoin(text, start, at + 1);
    }
  }

  lemma {:induction false} BreakAt(text: Bytes, start: nat, at: nat)
    requires start <= at && at + 1 < |text| && text[at] == CR && text[at + 1] == LF
    ensures text[start..] == text[start..at] + [CR, LF] + text[at + 2..]
  {
    var rest := text[start..];
    assert rest[..at - start] == text[start..at] && rest[at - start + 2..] == text[at + 2..];
    assert rest[at - start] == CR && rest[at - start + 1] == LF;
  }

  lemma {:induction false} NothingBroken()
    ensures Unbroken([])
  {
  }

  lemma {:induction false} LongerUnbroken(line: Bytes, b: byte)
    requires Unbroken(line) && (line != [] && b == LF ==> line[|line| - 1] != CR)
    ensures Unbroken(line + [b])
  {
  }

  lemma {:induction false} LastLine(line: Bytes)
    requires Unbroken(line)
    ensures AllUnbroken([line]) && JoinedLines([line]) == line
  {
  }

  lemma {:induction false} LineBefore(line: Bytes, lines: seq<Bytes>)
    requires Unbroken(line) && AllUnbroken(lines) && lines != []
    ensures AllUnbroken([line] + lines)
    ensures JoinedLines([line] + lines) == line + [CR, LF] + JoinedLines(lines)
  {
    assert ([line] + lines)[1..] == lines;
  }

  /** Cutting joined lines gives them back. */
  lemma {:induction false} JoinedCut(lines: seq<Bytes>, text: Bytes, start: nat, at: nat)
    requires lines != [] && AllUnbroken(lines) && start <= at <= |text|
    requires at <= start + |lines[0]| && text[start..] == JoinedLines(lines)
    ensures Lines(text, start, at) == lines
    decreases |text| - at
  {
    hide JoinedLines, AllUnbroken, Lines;
    var first, rest := lines[0], text[start..];
    FirstOfJoined(lines, rest);
    LinesAt(text, start, at);
    if at < start + |first| {
      CutWithin(lines, rest, at - start);
      JoinedCut(lines, text, start, at + 1);
    } else if |lines| == 1 {
      assert at == |text| && rest[..|first|] == rest && lines == [rest];
    } else {
      assert text[at + 2..] == rest[|first| + 2..] && text[start..at] == rest[..|first|];
      JoinedCut(lines[1..], text, at + 2, at + 2);
      assert lines == [first] + lines[1..];
    }
  }

  /** Joined lines start with the first, and go on with an end and the others. */
  lemma {:induction false} FirstOfJoined(lines: seq<Bytes>, text: Bytes)
    requires lines != [] && AllUnbroken(lines) && text == JoinedLines(lines)
    ensures var n := |lines[0]|;
      && n <= |text| && text[..n] == lines[0] && (|lines| == 1 ==> n == |text|)
      && (|lines| > 1 ==>
            && n + 2 <= |text| && text[n] == CR && text[n + 1] == LF && text[n + 2..] == JoinedLines(lines[1..])
            && AllUnbroken(lines[1..]))
  {
    hide Unbroken;
    var first := lines[0];
    if |lines| > 1 {
      var rest := JoinedLines(lines[1..]);
      assert text == first + [CR, LF] + rest;
      assert text[..|first|] == first && text[|first| + 2..] == rest;
      assert forall i | 0 <= i < |lines| - 1 :: lines[1..][i] == lines[i + 1];
    }
  }

  /** What cutting does at a place: it ends, cuts a line off, or goes on. */
  lemma {:induction false} LinesAt(text: Bytes, start: nat, at: nat)
    requires start <= at <= |text|
    ensures Lines(text, start, at)
            == if at == |text| then [text[start..]]
               else if at + 1 < |text| && text[at] == CR && text[at + 1] == LF
               then [text[start..at]] + Lines(text, at + 2, at + 2)
               else Lines(text, start, at + 1)
  {
  }

  /** Inside a line there is no end of one. */
  lemma {:induction false} CutWithin(lines: seq<Bytes>, text: Bytes, k: nat)
    requires lines != [] && AllUnbroken(lines) && text == JoinedLines(lines) && k < |lines[0]|
    ensures k < |text| && !(k + 1 < |text| && text[k] == CR && text[k + 1] == LF)
  {
    var first := lines[0];
    assert Unbroken(first) && text[k] == first[k];
    if k + 1 < |first| {
      assert text[k + 1] == first[k + 1];
    } else if |lines| > 1 {
      assert text[k + 1] == CR;
    }
  }

  /** The lines of a text are the only ones without a break of their own that join to it. */
  lemma {:induction false} LinesExactly(text: Bytes, lines: seq<Bytes>)
    ensures Lines(text, 0, 0) == lines <==> lines != [] && AllUnbroken(lines) && JoinedLines(lines) == text
  {
    assert text[0..] == text && text[0..0] == [];
    LinesJoin(text, 0, 0);
    if lines != [] && AllUnbroken(lines) && JoinedLines(lines) == text {
      JoinedCut(lines, text, 0, 0);
    }
  }

  // ----- What a header says -----

  /** A line of a name, without a colon, and a value. */
  predicate IsField(line: Bytes, name: Bytes, value: Bytes) {
    line == name + [COLON] + value && COLON !in name
  }

  ghost predicate HasName(line: Bytes) {
    exists name, value :: IsField(line, name, value)
  }

  /** The line gives a content length, readable or not. */
  ghost predicate GivesLength(line: Bytes) {
    exists name, value :: IsField(line, name, value) && IsContentLength(name)
  }

  predicate AllSpace(s: Bytes) {
    forall i | 0 <= i < |s| :: IsSpace(s[i])
  }

  /** A number between spaces, perhaps with a plus sign, that fits 64 bits. */
  predicate Spells(front: Bytes, sign: Bytes, digits: Bytes, back: Bytes, value: Bytes, n: nat) {
    && value == front + sign + digits + back && AllSpace(front) && AllSpace(back)
    && (sign == [] || sign == [43]) && DigitsValue(digits) == Some(n) && n <= U64_MAX
  }

  ghost predicate IsSize(value: Bytes, n: nat) {
    exists front, sign, digits, back :: Spells(front, sign, digits, back, value, n)
  }

  /** The line gives this content length. */
  ghost predicate SaysLength(line: Bytes, n: nat) {
    exists name, value :: IsField(line, name, value) && IsContentLength(name) && IsSize(value, n)
  }

  lemma {:induction false} FieldAt(line: Bytes, name: Bytes, value: Bytes)
    ensures IsField(line, name, value)
            <==> var colon := Find(line, COLON, 0);
                 colon < |line| && name == line[..colon] && value == line[colon + 1..]
  {
    var colon := Find(line, COLON, 0);
    if colon < |line| {
      assert line == line[..colon] + [COLON] + line[colon + 1..];
    }
    if IsField(line, name, value) {
      LineSplits(line, name, value);
    }
  }

  lemma {:induction false} DigitsOnly(digits: Bytes)
    requires DigitsValue(digits).Some?
    ensures digits != [] && forall i | 0 <= i < |digits| :: IsDigit(digits[i])
  {
    if |digits| > 1 {
      DigitsOnly(digits[..|digits| - 1]);
    }
  }

  lemma {:induction false} TrimsFront(front: Bytes, rest: Bytes)
    requires AllSpace(front) && rest != [] && !IsSpace(rest[0])
    ensures TrimFront(front + rest) == rest
  {
    if front == [] {
      assert front + rest == rest;
    } else {
      assert (front + rest)[1..] == front[1..] + rest;
      TrimsFront(front[1..], rest);
    }
  }

  lemma {:induction false} TrimsBack(rest: Bytes, back: Bytes)
    requires AllSpace(back) && rest != [] && !IsSpace(rest[|rest| - 1])
    ensures TrimBack(rest + back) == rest
  {
    if back == [] {
      assert rest + back == rest;
    } else {
      assert (rest + back)[..|rest + back| - 1] == rest + back[..|back| - 1];
      TrimsBack(rest, back[..|back| - 1]);
    }
  }

  lemma {:induction false} FrontTrimmed(s: Bytes) returns (front: Bytes)
    ensures AllSpace(front) && s == front + TrimFront(s)
  {
    front := [];
    if s != [] && IsSpace(s[0]) {
      var more := FrontTrimmed(s[1..]);
      front := [s[0]] + more;
      assert s == [s[0]] + s[1..];
    }
  }

  lemma {:induction false} BackTrimmed(s: Bytes) returns (back: Bytes)
    ensures AllSpace(back) && s == TrimBack(s) + back
  {
    back := [];
    if s != [] && IsSpace(s[|s| - 1]) {
      var more := BackTrimmed(s[..|s| - 1]);
      back := more + [s[|s| - 1]];
      assert s == s[..|s| - 1] + [s[|s| - 1]];
    }
  }

  lemma {:induction false} SpelledTrims(front: Bytes, sign: Bytes, digits: Bytes, back: Bytes, value: Bytes, n: nat)
    requires Spells(front, sign, digits, back, value, n)
    ensures ParsedSize(TrimBack(TrimFront(value))) == Some(n)
  {
    var core := sign + digits;
    DigitsOnly(digits);
    assert value == front + (core + back);
    assert core[0] == (if sign == [] then digits[0] else 43) && core[|core| - 1] == digits[|digits| - 1];
    TrimsFront(front, core + back);
    TrimsBack(core, back);
    assert sign == [] ==> core == digits;
    assert sign == [43] ==> core[1..] == digits;
  }

  /** A value reads as a number exactly when it spells it between spaces. */
  lemma {:induction false} SizeExactly(value: Bytes, n: nat)
    ensures ParsedSize(TrimBack(TrimFront(value))) == Some(n) <==> IsSize(value, n)
  {
    hide Spells, TrimFront, TrimBack, ParsedSize;
    if ParsedSize(TrimBack(TrimFront(value))) == Some(n) {
      var front, sign, digits, back := TrimmedSpells(value, n);
    }
    forall front, sign, digits, back | Spells(front, sign, digits, back, value, n)
      ensures ParsedSize(TrimBack(TrimFront(value))) == Some(n)
    {
      SpelledTrims(front, sign, digits, back, value, n);
    }
  }

  lemma {:induction false} TrimmedSpells(value: Bytes, n: nat)
    returns (front: Bytes, sign: Bytes, digits: Bytes, back: Bytes)
    requires ParsedSize(TrimBack(TrimFront(value))) == Some(n)
    ensures Spells(front, sign, digits, back, value, n)
  {
    hide TrimFront, TrimBack, IsSpace, ParsedSize, DigitsValue;
    var trimmed := TrimFront(value);
    front := FrontTrimmed(value);
    back := BackTrimmed(trimmed);
    sign, digits := SignAndDigits(TrimBack(trimmed), n);
    assert front + (sign + digits + back) == front + sign + digits + back;
  }

  lemma {:induction false} SignAndDigits(core: Bytes, n: nat) returns (sign: Bytes, digits: Bytes)
    requires ParsedSize(core) == Some(n)
    ensures core == sign + digits && (sign == [] || sign == [43]) && DigitsValue(digits) == Some(n) && n <= U64_MAX
  {
    hide DigitsValue;
    sign := if core != [] && core[0] == 43 then [43] else [];
    digits := if core != [] && core[0] == 43 then core[1..] else core;
  }

  /** What a line adds to the length found before it. */
  lemma {:induction false} LineExactly(line: Bytes, found: Option<nat>)
    ensures LineRead(line, found) == Ok(found) <==> HasName(line) && !GivesLength(line)
    ensures forall n :: found.None? ==> (LineRead(line, found) == Ok(Some(n)) <==> SaysLength(line, n))
    ensures GivesLength(line) && found.Some? ==> LineRead(line, found).Invalid?
    ensures !HasName(line) ==> LineRead(line, found).Invalid?
  {
    hide IsField, IsContentLength, ParsedSize, TrimFront, TrimBack, IsSize;
    var colon := Find(line, COLON, 0);
    forall name, value
      ensures IsField(line, name, value)
              <==> colon < |line| && name == line[..colon] && value == line[colon + 1..]
    {
      FieldAt(line, name, value);
    }
    if colon < |line| {
      var name, value := line[..colon], line[colon + 1..];
      assert IsField(line, name, value);
      forall n: nat
        ensures ParsedSize(TrimBack(TrimFront(value))) == Some(n) <==> IsSize(value, n)
      {
        SizeExactly(value, n);
      }
    }
  }

  ghost predicate AllNamed(lines: seq<Bytes>) {
    forall i | 0 <= i < |lines| :: HasName(lines[i])
  }

  ghost predicate NoneGivesLength(lines: seq<Bytes>) {
    forall i | 0 <= i < |lines| :: !GivesLength(lines[i])
  }

  /** Every line is a field, and exactly one of them gives a content length, which is this one. */
  ghost predicate SayLength(lines: seq<Bytes>, n: nat) {
    && AllNamed(lines)
    && exists i | 0 <= i < |lines| ::
         && SaysLength(lines[i], n) && NoneGivesLength(lines[..i]) && NoneGivesLength(lines[i + 1..])
  }

  lemma {:induction false} SaysGives(line: Bytes, n: nat)
    requires SaysLength(line, n)
    ensures GivesLength(line) && HasName(line)
  {
    hide IsField, IsContentLength, IsSize;
    var name, value :| IsField(line, name, value) && IsContentLength(name) && IsSize(value, n);
  }

  lemma {:induction false} NamedCons(lines: seq<Bytes>)
    requires lines != []
    ensures AllNamed(lines) <==> HasName(lines[0]) && AllNamed(lines[1..])
    ensures NoneGivesLength(lines) <==> !GivesLength(lines[0]) && NoneGivesLength(lines[1..])
  {
    hide HasName, GivesLength;
    assert forall i | 0 < i < |lines| :: lines[i] == lines[1..][i - 1];
  }

  /** The line that says the length is the first one, or one of the others. */
  lemma {:induction false} SayCons(lines: seq<Bytes>, n: nat)
    requires lines != []
    ensures SayLength(lines, n)
            <==> || (SaysLength(lines[0], n) && AllNamed(lines[1..]) && NoneGivesLength(lines[1..]))
                 || (HasName(lines[0]) && !GivesLength(lines[0]) && SayLength(lines[1..], n))
  {
    hide HasName, GivesLength, SaysLength, NoneGivesLength, AllNamed;
    var rest := lines[1..];
    NamedCons(lines);
    if SaysLength(lines[0], n) {
      SaysGives(lines[0], n);
    }
    NoneOfNone();
    assert lines[..0] == [];
    forall i | 0 <= i < |rest|
      ensures rest[i] == lines[i + 1] && rest[i + 1..] == lines[i + 2..]
      ensures NoneGivesLength(lines[..i + 1]) <==> !GivesLength(lines[0]) && NoneGivesLength(rest[..i])
    {
      NamedCons(lines[..i + 1]);
      assert lines[..i + 1][1..] == rest[..i];
    }
    if SayLength(lines, n) {
      var i :| 0 <= i < |lines| && SaysLength(lines[i], n) && NoneGivesLength(lines[..i])
               && NoneGivesLength(lines[i + 1..]);
      if i > 0 {
        assert SaysLength(rest[i - 1], n) && NoneGivesLength(rest[..i - 1]) && NoneGivesLength(rest[i..]);
      }
    }
    if HasName(lines[0]) && !GivesLength(lines[0]) && SayLength(rest, n) {
      var i :| 0 <= i < |rest| && SaysLength(rest[i], n) && NoneGivesLength(rest[..i])
               && NoneGivesLength(rest[i + 1..]);
      assert SaysLength(lines[i + 1], n) && NoneGivesLength(lines[..i + 1]) && NoneGivesLength(lines[i + 2..]);
    }
  }

  lemma {:induction false} NoneOfNone()
    ensures NoneGivesLength([]) && AllNamed([])
  {
  }

  /** Once a length was found, only fields that give none may follow. */
  lemma {:induction false} LinesAfterLength(lines: seq<Bytes>, found: nat)
    ensures LinesRead(lines, Some(found)) == if AllNamed(lines) && NoneGivesLength(lines) then Ok(Some(found))
            else Invalid
  {
    hide HasName, GivesLength, SaysLength, NoneGivesLength, AllNamed, LineRead;
    if lines == [] {
      NoneOfNone();
    } else {
      NamedCons(lines);
      LineExactly(lines[0], Some(found));
      LineKeepsLength(lines[0], found);
      LinesAfterLength(lines[1..], found);
    }
  }

  lemma {:induction false} LineKeepsLength(line: Bytes, found: nat)
    ensures LineRead(line, Some(found)) == Ok(Some(found)) || LineRead(line, Some(found)).Invalid?
  {
  }

  /** A header reads as a length exactly when it says it. */
  lemma {:induction false} LinesSayLength(lines: seq<Bytes>, n: nat)
    ensures LinesRead(lines, None) == Ok(Some(n)) <==> SayLength(lines, n)
  {
    hide HasName, GivesLength, SaysLength, NoneGivesLength, AllNamed, LineRead, SayLength;
    if lines == [] {
      NothingSays(n);
    } else {
      var line, rest := lines[0], lines[1..];
      SayCons(lines, n);
      LineExactly(line, None);
      LinesSayLength(rest, n);
      var first := LineRead(line, None);
      if first.Ok? && first.value.Some? {
        var m := first.value.value;
        assert SaysLength(line, m);
        SaysGives(line, m);
        LinesAfterLength(rest, m);
        assert LineRead(line, None) == Ok(Some(n)) <==> SaysLength(line, n);
      } else {
        assert !SaysLength(line, n);
      }
    }
  }

  lemma {:induction false} NothingSays(n: nat)
    ensures !SayLength([], n)
  {
  }

  // ----- Which bytes are a frame -----

  /** A header text, its end, and the rest of the input: the first end of a header, within the limit. */
  predicate IsHeader(input: Bytes, text: Bytes, rest: Bytes) {
    && input == text + HEADER_END + rest && FirstEnd(input, |text| + 4) && |text| + 4 <= MAX_HEADER_BYTES
  }

  /** A text of fields, one of which says the length. */
  ghost predicate TellsLength(text: Bytes, n: nat) {
    Utf8.Valid(text) && SayLength(Lines(text, 0, 0), n)
  }

  /** A header that tells a length of at most `max`, and that many bytes of content that decode to the message. */
  ghost predicate IsFrame<T>(c: Codec<T>, input: Bytes, max: nat, text: Bytes, content: Bytes, rest: Bytes, m: T) {
    && IsHeader(input, text, content + rest) && TellsLength(text, |content|) && |content| <= max
    && c.decode(content) == Some(m)
  }

  /** The input starts with a frame of the message, after which `rest` is left. */
  ghost predicate Frames<T>(c: Codec<T>, input: Bytes, max: nat, m: T, rest: Bytes) {
    exists text, content :: IsFrame(c, input, max, text, content, rest, m)
  }

  lemma {:induction false} HeaderExactly(input: Bytes, text: Bytes, rest: Bytes)
    ensures IsHeader(input, text, rest)
            <==> && Scanned(input, 0) == Ended(|text| + 4) && |text| + 4 <= |input|
                 && text == input[..|text|] && rest == input[|text| + 4..]
  {
    hide StopsAt, EndsHeader;
    ScannedExactly(input, Ended(|text| + 4));
    HeaderParts(input, text, rest);
  }

  lemma {:induction false} HeaderParts(input: Bytes, text: Bytes, rest: Bytes)
    ensures IsHeader(input, text, rest)
            <==> && StopsAt(input, Ended(|text| + 4)) && |text| + 4 <= |input|
                 && text == input[..|text|] && rest == input[|text| + 4..]
  {
    var n := |text|;
    if n + 4 <= |input| && text == input[..n] && rest == input[n + 4..] && EndsHeader(input[..n + 4]) {
      assert input[..n + 4][n..] == HEADER_END;
      assert input[..n + 4] == text + HEADER_END;
      assert input == input[..n + 4] + input[n + 4..];
    }
    if input == text + HEADER_END + rest {
      assert input[..n] == text && input[n + 4..] == rest;
    }
  }

  /** The length that the header of a given size tells. */
  lemma {:induction false} TellsExactly(text: Bytes, n: nat)
    ensures TellsLength(text, n) <==> Utf8.Valid(text) && LinesRead(Lines(text, 0, 0), None) == Ok(Some(n))
  {
    hide SayLength, LinesRead, Lines;
    LinesSayLength(Lines(text, 0, 0), n);
  }

  /** Reading gives a message exactly when the input starts with a frame of it, and leaves exactly what follows. */
  lemma {:induction false} ReadExactly<T(!new)>(c: Codec<T>, input: Bytes, max: nat, fails: bool, m: T, rest: Bytes)
    ensures Read(c, input, max, fails) == Reading(Message(m), rest) <==> Frames(c, input, max, m, rest)
  {
    hide IsFrame;
    if Read(c, input, max, fails) == Reading(Message(m), rest) {
      var text, content := MessageFramed(c, input, max, fails, m, rest);
    }
    forall text, content | IsFrame(c, input, max, text, content, rest, m)
      ensures Read(c, input, max, fails) == Reading(Message(m), rest)
    {
      FrameReads(c, input, max, fails, text, content, m, rest);
    }
  }

  lemma {:induction false} FrameReads<T(!new)>(c: Codec<T>, input: Bytes, max: nat, fails: bool, text: Bytes,
                                               content: Bytes, m: T, rest: Bytes)
    requires IsFrame(c, input, max, text, content, rest, m)
    ensures Read(c, input, max, fails) == Reading(Message(m), rest)
  {
    hide LinesRead, Lines, IsHeader, TellsLength, Scanned;
    HeaderExactly(input, text, content + rest);
    TellsExactly(text, |content|);
    assert (content + rest)[..|content|] == content && (content + rest)[|content|..] == rest;
    assert input[..|text| + 4 - 4] == text;
  }

  lemma {:induction false} MessageFramed<T(!new)>(c: Codec<T>, input: Bytes, max: nat, fails: bool, m: T, rest: Bytes)
    returns (text: Bytes, content: Bytes)
    requires Read(c, input, max, fails) == Reading(Message(m), rest)
    ensures IsFrame(c, input, max, text, content, rest, m)
  {
    hide LinesRead, Lines, IsHeader, TellsLength, Scanned;
    ScannedLength(input, 0);
    var end := Scanned(input, 0).length;
    ShortestHeader(input);
    text := input[..end - 4];
    var length := LinesRead(Lines(text, 0, 0), None).value.value;
    content := input[end..][..length];
    assert input[end..] == content + rest;
    HeaderExactly(input, text, content + rest);
    TellsExactly(text, length);
  }

  lemma {:induction false} ShortestHeader(input: Bytes)
    ensures Scanned(input, 0).Ended? ==> 4 <= Scanned(input, 0).length <= |input|
  {
    ScannedLength(input, 0);
  }

  /** The header is complete and tells this length, at most `max`, but the input ends before the content does. */
  ghost predicate CutShort(input: Bytes, max: nat, text: Bytes, rest: Bytes, n: nat) {
    IsHeader(input, text, rest) && TellsLength(text, n) && |rest| < n <= max
  }

  ghost predicate ContentCut(input: Bytes, max: nat) {
    exists text, rest, n :: CutShort(input, max, text, rest, n)
  }

  /** The input ends before its header does, within the limit. */
  predicate HeaderCut(input: Bytes) {
    |input| <= MAX_HEADER_BYTES && NoEnd(input, |input|)
  }

  /**
   * What is no message: a clean end is an input without bytes; a failure is an input that failed before a header or
   * the content it tells was complete; everything else is refused.
   */
  lemma {:induction false} OtherwiseExactly<T(!new)>(c: Codec<T>, input: Bytes, max: nat, fails: bool)
    ensures var frame := Read(c, input, max, fails).frame;
      && (frame.End? <==> input == [] && !fails)
      && (frame.Failed? <==> fails && (HeaderCut(input) || ContentCut(input, max)))
  {
    hide EndsHeader, LinesRead, Lines, TellsLength, IsHeader;
    ScannedStops(input, 0);
    ScannedLength(input, 0);
    NothingEnds(input);
    if Scanned(input, 0).Ended? {
      ContentExactly(c, input, max, fails);
    } else {
      forall text, rest, n
        ensures !CutShort(input, max, text, rest, n)
      {
        HeaderExactly(input, text, rest);
      }
    }
  }

  lemma {:induction false} ContentExactly<T(!new)>(c: Codec<T>, input: Bytes, max: nat, fails: bool)
    requires Scanned(input, 0).Ended?
    ensures !HeaderCut(input) && !Read(c, input, max, fails).frame.End?
    ensures Read(c, input, max, fails).frame.Failed? <==> fails && ContentCut(input, max)
  {
    hide EndsHeader, LinesRead, Lines, TellsLength, IsHeader, Scanned;
    ScannedStops(input, 0);
    ScannedLength(input, 0);
    ShortestHeader(input);
    var end := Scanned(input, 0).length;
    var text, rest := input[..end - 4], input[end..];
    HeaderExactly(input, text, rest);
    forall n: nat
      ensures TellsLength(text, n) <==> Utf8.Valid(text) && LinesRead(Lines(text, 0, 0), None) == Ok(Some(n))
    {
      TellsExactly(text, n);
    }
    forall text', rest', n | CutShort(input, max, text', rest', n)
      ensures text' == text && rest' == rest
    {
      HeaderExactly(input, text', rest');
    }
    if Read(c, input, max, fails).frame.Failed? {
      assert CutShort(input, max, text, rest, LinesRead(Lines(text, 0, 0), None).value.value);
    }
  }
}
