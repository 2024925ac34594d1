/** Bounded display of untrusted text (src/display.rs). */
module Display {
  import opened Common
  import Utf8

  /** A text style; zero is the default one. */
  type Style = nat

  const DEFAULT_STYLE: Style := 0

  const MAX_INPUT_BYTES := 64 * 1024
  const MAX_OUTPUT_BYTES := 32 * 1024
  const MAX_SPANS := 1024
  const MAX_LINES := 128

  /** "[display truncated]" */
  const TRUNCATED: Bytes := [91, 100, 105, 115, 112, 108, 97, 121, 32, 116, 114, 117, 110, 99, 97, 116, 101, 100, 93]

  const TAB: byte := 9

  datatype Span = Span(content: Bytes, style: Style)

  type Line = seq<Span>

  datatype Limits = Limits(inputBytes: nat, outputBytes: nat, spans: nat, lines: nat)

  datatype DisplayText = DisplayText(lines: seq<Line>, inputBytes: nat, outputBytes: nat, spans: nat, truncated: bool)

  /** A recognized style sequence at the front of some bytes: its length and the style it leads to. */
  datatype Sgr = Sgr(length: nat, style: Style)

  /**
   * What text segmentation and the style grammar decide: the grapheme clusters of a text, where the clusters
   * of a span's content start, the symbol and width shown for a cluster at a column, and style sequences.
   */
  datatype Terminal = Terminal(
    clusters: Bytes -> seq<Bytes>,
    starts: Bytes -> seq<nat>,
    symbol: (Bytes, nat) -> (Bytes, nat),
    sgr: (Bytes, Style) -> Option<Sgr>)

  /** A style sequence is not empty and lies within the bytes. */
  ghost predicate Sensible(t: Terminal) {
    forall bytes: Bytes, style: Style :: t.sgr(bytes, style).Some? ==> 1 <= t.sgr(bytes, style).value.length <= |bytes|
  }

  // ----- What is to be shown -----

  const HEX: Bytes := [48, 49, 50, 51, 52, 53, 54, 55, 56, 57, 97, 98, 99, 100, 101, 102]

  /** A byte that is no part of a scalar, as a backslash escape. */
  function Escape(b: byte): Bytes {
    [92, 120, HEX[b / 16], HEX[b % 16]]
  }

  /** The text shown for the bytes at the front, and how many bytes that is. */
  function Value(bytes: Bytes): Bytes
    requires bytes != []
  {
    if Utf8.ScalarLength(bytes) > 0 then bytes[..Utf8.ScalarLength(bytes)] else Escape(bytes[0])
  }

  function ValueLength(bytes: Bytes): (n: nat)
    requires bytes != []
    ensures 1 <= n <= |bytes|
  {
    Max(1, Utf8.ScalarLength(bytes))
  }

  /** The whole text of some bytes, with recognized style sequences taken out. */
  function TextOf(t: Terminal, bytes: Bytes, sgr: bool, style: Style): Bytes
    requires Sensible(t)
    decreases |bytes|
  {
    if bytes == [] then []
    else if sgr && t.sgr(bytes, style).Some? then
      var s := t.sgr(bytes, style).value;
      TextOf(t, bytes[s.length..], sgr, s.style)
    else Value(bytes) + TextOf(t, bytes[ValueLength(bytes)..], sgr, style)
  }

  /** The value of a lower-case hexadecimal digit. */
  function Digit(digit: byte): Option<nat> {
    if 48 <= digit <= 57 then Some(digit - 48) else if 97 <= digit <= 102 then Some(digit - 87) else None
  }

  /** An escape is a backslash, an x and the two digits of the byte. */
  lemma {:induction false} EscapeExactly(b: byte)
    ensures var e := Escape(b);
      && |e| == 4 && e[0] == 92 && e[1] == 120 && Digit(e[2]).Some? && Digit(e[3]).Some?
      && b == 16 * Digit(e[2]).value + Digit(e[3]).value
  {
    DigitsExactly(b / 16);
    DigitsExactly(b % 16);
  }

  lemma {:induction false} DigitsExactly(n: nat)
    requires n < 16
    ensures Digit(HEX[n]) == Some(n)
  {
  }

  /** Well-formed text is taken as it is. */
  lemma {:induction false} TextKept(t: Terminal, bytes: Bytes, style: Style)
    requires Sensible(t) && Utf8.Valid(bytes)
    ensures TextOf(t, bytes, false, style) == bytes
    decreases |bytes|
  {
    if bytes != [] {
      var n := Utf8.ScalarLength(bytes);
      TextKept(t, bytes[n..], style);
      assert bytes == bytes[..n] + bytes[n..];
    }
  }

  lemma {:induction false} ScalarFirst(bytes: Bytes, rest: Bytes)
    requires Utf8.ScalarLength(bytes) > 0 && Utf8.Valid(rest)
    ensures Utf8.Valid(bytes[..Utf8.ScalarLength(bytes)] + rest)
  {
    var n := Utf8.ScalarLength(bytes);
    var whole := bytes[..n] + rest;
    assert forall i | 0 <= i < n :: whole[i] == bytes[i];
    assert Utf8.ScalarLength(whole) == n && whole[n..] == rest;
  }

  lemma {:induction false} AsciiFirst(ascii: Bytes, rest: Bytes)
    requires (forall i | 0 <= i < |ascii| :: ascii[i] <= 0x7F) && Utf8.Valid(rest)
    ensures Utf8.Valid(ascii + rest)
  {
    if ascii == [] {
      assert ascii + rest == rest;
    } else {
      AsciiFirst(ascii[1..], rest);
      assert (ascii + rest)[1..] == ascii[1..] + rest;
    }
  }

  /** Whatever the bytes, their text is well-formed. */
  lemma {:induction false} TextValid(t: Terminal, bytes: Bytes, sgr: bool, style: Style)
    requires Sensible(t)
    ensures Utf8.Valid(TextOf(t, bytes, sgr, style))
    decreases |bytes|
  {
    if bytes != [] {
      if sgr && t.sgr(bytes, style).Some? {
        TextValid(t, bytes[t.sgr(bytes, style).value.length..], sgr, t.sgr(bytes, style).value.style);
      } else {
        var rest := bytes[ValueLength(bytes)..];
        TextValid(t, rest, sgr, style);
        if Utf8.ScalarLength(bytes) > 0 {
          ScalarFirst(bytes, TextOf(t, rest, sgr, style));
        } else {
          AsciiFirst(Escape(bytes[0]), TextOf(t, rest, sgr, style));
        }
      }
    }
  }

  predicate Breaks(cluster: Bytes, multiline: bool) {
    multiline && (cluster == [LF] || cluster == [CR, LF])
  }

  function Symbol(t: Terminal, cluster: Bytes, column: nat, multiline: bool): (Bytes, nat) {
    if !multiline && cluster == [TAB] then ([92, 116], 2) else t.symbol(cluster, column)
  }

  /** The whole rendering of some clusters: their symbols, with a line feed for each line break. */
  function Render(t: Terminal, clusters: seq<Bytes>, column: nat, multiline: bool): Bytes {
    if clusters == [] then []
    else if Breaks(clusters[0], multiline) then [LF] + Render(t, clusters[1..], 0, multiline)
    else
      var (symbol, width) := Symbol(t, clusters[0], column, multiline);
      symbol + Render(t, clusters[1..], column + width, multiline)
  }

  // ----- What is shown -----

  function LineText(line: Line): Bytes {
    if line == [] then [] else LineText(line[..|line| - 1]) + line[|line| - 1].content
  }

  /** The lines joined by line feeds. */
  function Shown(lines: seq<Line>): Bytes {
    if lines == [] then []
    else if |lines| == 1 then LineText(lines[0])
    else Shown(lines[..|lines| - 1]) + [LF] + LineText(lines[|lines| - 1])
  }

  function SpanCount(lines: seq<Line>): nat {
    if lines == [] then 0 else SpanCount(lines[..|lines| - 1]) + |lines[|lines| - 1]|
  }

  lemma {:induction false} ShownSnoc(lines: seq<Line>, line: Line)
    ensures Shown(lines + [line]) == if lines == [] then LineText(line) else Shown(lines) + [LF] + LineText(line)
    ensures SpanCount(lines + [line]) == SpanCount(lines) + |line|
  {
    assert (lines + [line])[..|lines|] == lines;
  }

  lemma {:induction false} LineSnoc(line: Line, span: Span)
    ensures LineText(line + [span]) == LineText(line) + span.content
  {
    assert (line + [span])[..|line|] == line;
  }

  /** The counters kept beside the lines are exact. */
  predicate Counted(lines: seq<Line>, bytes: nat, spans: nat) {
    bytes == |Shown(lines)| && spans == SpanCount(lines)
  }

  // ----- Adding to the last line -----

  /** The line with a symbol added: to its last span when the style is the same, else as a new span. */
  function Added(line: Line, symbol: Bytes, style: Style): Line {
    if line != [] && line[|line| - 1].style == style
    then line[..|line| - 1] + [Span(line[|line| - 1].content + symbol, style)]
    else line + [Span(symbol, style)]
  }

  lemma {:induction false} AddedText(line: Line, symbol: Bytes, style: Style)
    ensures LineText(Added(line, symbol, style)) == LineText(line) + symbol
    ensures |Added(line, symbol, style)| == if line != [] && line[|line| - 1].style == style then |line| else |line| + 1
  {
    if line != [] && line[|line| - 1].style == style {
      LineSnoc(line[..|line| - 1], Span(line[|line| - 1].content + symbol, style));
    } else {
      LineSnoc(line, Span(symbol, style));
    }
  }

  // ----- Decoding within limits -----

  datatype StyleRun = StyleRun(at: nat, style: Style)

  /** A new style run, in place of one that starts at the same offset. */
  function Restyled(styles: seq<StyleRun>, at: nat, style: Style): (r: seq<StyleRun>)
    requires styles != []
    ensures r != []
  {
    (if styles[|styles| - 1].at == at then styles[..|styles| - 1] else styles) + [StyleRun(at, style)]
  }

  /** The text decoded so far with its style runs, where it stopped in the input, and the style in force. */
  datatype Decoder = Decoder(logical: Bytes, styles: seq<StyleRun>, offset: nat, style: Style)

  function NothingDecoded(): Decoder {
    Decoder([], [StyleRun(0, DEFAULT_STYLE)], 0, DEFAULT_STYLE)
  }

  /** Takes the style sequence or the value at the offset, whatever the limits. */
  function Decoded(t: Terminal, input: Bytes, sgr: bool, d: Decoder): (r: Decoder)
    requires Sensible(t) && d.offset < |input| && d.styles != []
    ensures r.styles != [] && d.offset < r.offset <= |input|
  {
    var left := input[d.offset..];
    if sgr && t.sgr(left, d.style).Some? then
      var found := t.sgr(left, d.style).value;
      var styles := if found.style != d.style then Restyled(d.styles, |d.logical|, found.style) else d.styles;
      Decoder(d.logical, styles, d.offset + found.length, found.style)
    else Decoder(d.logical + Value(left), d.styles, d.offset + ValueLength(left), d.style)
  }

  predicate DecoderFits(d: Decoder, contentLimit: nat, spanLimit: nat) {
    |d.logical| <= contentLimit && |d.styles| <= spanLimit
  }

  /** Decoding from a point on until the end, or until the next step would pass a limit. */
  function DecodedWithin(t: Terminal, input: Bytes, sgr: bool, contentLimit: nat, spanLimit: nat, d: Decoder): Decoder
    requires Sensible(t) && d.offset <= |input| && d.styles != []
    decreases |input| - d.offset
  {
    if d.offset == |input| || !DecoderFits(Decoded(t, input, sgr, d), contentLimit, spanLimit) then d
    else DecodedWithin(t, input, sgr, contentLimit, spanLimit, Decoded(t, input, sgr, d))
  }

  /** Decoding from a point on until the end, without limits. */
  function DecodedWhole(t: Terminal, input: Bytes, sgr: bool, d: Decoder): Decoder
    requires Sensible(t) && d.offset <= |input| && d.styles != []
    decreases |input| - d.offset
  {
    if d.offset == |input| then d else DecodedWhole(t, input, sgr, Decoded(t, input, sgr, d))
  }

  /** The part of the input that is decoded; none when nothing could be shown of it. */
  function DecodedPart(t: Terminal, input: Bytes, sgr: bool, limits: Limits): Decoder
    requires Sensible(t)
  {
    if limits.spans == 0 || limits.lines == 0 then NothingDecoded()
    else DecodedWithin(t, input, sgr, limits.outputBytes, limits.spans, NothingDecoded())
  }

  /** Takes the style sequence or the value at the offset, unless a limit forbids it. */
  method DecodeOne(t: Terminal, input: Bytes, sgr: bool, contentLimit: nat, spanLimit: nat, d: Decoder)
    returns (next: Decoder, stop: bool)
    requires Sensible(t) && d.offset < |input| && d.styles != [] && DecoderFits(d, contentLimit, spanLimit)
    ensures stop <==> !DecoderFits(Decoded(t, input, sgr, d), contentLimit, spanLimit)
    ensures next == if stop then d else Decoded(t, input, sgr, d)
  {
    var left := input[d.offset..];
    if sgr && t.sgr(left, d.style).Some? {
      var found := t.sgr(left, d.style).value;
      if found.style != d.style && d.styles[|d.styles| - 1].at != |d.logical| && |d.styles| >= spanLimit {
        return d, true;
      }
      var styles := if found.style != d.style then Restyled(d.styles, |d.logical|, found.style) else d.styles;
      return Decoder(d.logical, styles, d.offset + found.length, found.style), false;
    }
    var value := Value(left);
    if |d.logical| + |value| > contentLimit {
      return d, true;
    }
    return Decoder(d.logical + value, d.styles, d.offset + ValueLength(left), d.style), false;
  }

  /** The part of the input that fits the limits. */
  method DecodeBounded(t: Terminal, input: Bytes, sgr: bool, limits: Limits) returns (d: Decoder)
    requires Sensible(t)
    ensures d == DecodedPart(t, input, sgr, limits)
  {
    d := NothingDecoded();
    var stop := false;
    while d.offset < |input| && limits.spans > 0 && limits.lines > 0 && !stop
      invariant d.offset <= |input| && d.styles != []
      invariant limits.spans > 0 ==> DecoderFits(d, limits.outputBytes, limits.spans)
      invariant limits.spans == 0 || limits.lines == 0 ==> d == NothingDecoded()
      invariant DecodedWithin(t, input, sgr, limits.outputBytes, limits.spans, d)
                == DecodedWithin(t, input, sgr, limits.outputBytes, limits.spans, NothingDecoded())
      invariant stop ==> d.offset < |input| && !DecoderFits(Decoded(t, input, sgr, d), limits.outputBytes, limits.spans)
      decreases |input| - d.offset, !stop
    {
      d, stop := DecodeOne(t, input, sgr, limits.outputBytes, limits.spans, d);
    }
  }

  /** Further decoding never takes anything back. */
  lemma {:induction false} DecodedGrows(t: Terminal, input: Bytes, sgr: bool, d: Decoder)
    requires Sensible(t) && d.offset <= |input| && d.styles != []
    ensures |DecodedWhole(t, input, sgr, d).logical| >= |d.logical|
    ensures |DecodedWhole(t, input, sgr, d).styles| >= |d.styles|
    decreases |input| - d.offset
  {
    if d.offset < |input| {
      DecodedGrows(t, input, sgr, Decoded(t, input, sgr, d));
    }
  }

  /** Decoding reaches the end exactly when all of the input fits; else its next step would pass a limit. */
  lemma {:induction false} DecodedExact(t: Terminal, input: Bytes, sgr: bool, contentLimit: nat, spanLimit: nat,
                                        d: Decoder)
    requires Sensible(t) && d.offset <= |input| && d.styles != [] && DecoderFits(d, contentLimit, spanLimit)
    ensures var r, whole := DecodedWithin(t, input, sgr, contentLimit, spanLimit, d), DecodedWhole(t, input, sgr, d);
      && DecoderFits(r, contentLimit, spanLimit) && r.offset <= |input| && r.styles != []
      && (r.offset == |input| <==> DecoderFits(whole, contentLimit, spanLimit))
      && (r.offset == |input| ==> r == whole)
      && (r.offset < |input| ==> !DecoderFits(Decoded(t, input, sgr, r), contentLimit, spanLimit))
    decreases |input| - d.offset
  {
    if d.offset < |input| {
      var next := Decoded(t, input, sgr, d);
      if DecoderFits(next, contentLimit, spanLimit) {
        DecodedExact(t, input, sgr, contentLimit, spanLimit, next);
      } else {
        DecodedGrows(t, input, sgr, next);
      }
    }
  }

  /** What was decoded, followed by the text of the rest, is the text of the input. */
  ghost predicate Decodes(t: Terminal, input: Bytes, sgr: bool, d: Decoder)
    requires Sensible(t)
  {
    && d.offset <= |input| && d.styles != []
    && d.logical + TextOf(t, input[d.offset..], sgr, d.style) == TextOf(t, input, sgr, DEFAULT_STYLE)
  }

  lemma {:induction false} DecodedDecodes(t: Terminal, input: Bytes, sgr: bool, d: Decoder)
    requires Sensible(t) && d.offset < |input| && Decodes(t, input, sgr, d)
    ensures Decodes(t, input, sgr, Decoded(t, input, sgr, d))
  {
    var left, next := input[d.offset..], Decoded(t, input, sgr, d);
    if sgr && t.sgr(left, d.style).Some? {
      assert left[t.sgr(left, d.style).value.length..] == input[next.offset..];
    } else {
      assert left[ValueLength(left)..] == input[next.offset..];
      Regroup(d.logical, Value(left), TextOf(t, input[next.offset..], sgr, d.style));
    }
  }

  lemma {:induction false} WithinDecodes(t: Terminal, input: Bytes, sgr: bool, contentLimit: nat, spanLimit: nat,
                                         d: Decoder)
    requires Sensible(t) && Decodes(t, input, sgr, d)
    ensures Decodes(t, input, sgr, DecodedWithin(t, input, sgr, contentLimit, spanLimit, d))
    decreases |input| - d.offset
  {
    if d.offset < |input| && DecoderFits(Decoded(t, input, sgr, d), contentLimit, spanLimit) {
      DecodedDecodes(t, input, sgr, d);
      WithinDecodes(t, input, sgr, contentLimit, spanLimit, Decoded(t, input, sgr, d));
    }
  }

  lemma {:induction false} WholeDecodes(t: Terminal, input: Bytes, sgr: bool, d: Decoder)
    requires Sensible(t) && Decodes(t, input, sgr, d)
    ensures DecodedWhole(t, input, sgr, d).logical == TextOf(t, input, sgr, DEFAULT_STYLE)
    decreases |input| - d.offset
  {
    if d.offset < |input| {
      DecodedDecodes(t, input, sgr, d);
      WholeDecodes(t, input, sgr, Decoded(t, input, sgr, d));
    } else {
      assert input[d.offset..] == [] && d.logical + [] == d.logical;
    }
  }

  lemma {:induction false} NothingDecodes(t: Terminal, input: Bytes, sgr: bool)
    requires Sensible(t)
    ensures Decodes(t, input, sgr, NothingDecoded())
  {
    assert input[0..] == input;
  }

  lemma {:induction false} Regroup(a: Bytes, b: Bytes, c: Bytes)
    ensures a + b + c == a + (b + c)
  {
  }

  // ----- Laying out within limits -----

  /** The last style run from `index` on, of those that start no later than `at` one after another. */
  function StyleAt(styles: seq<StyleRun>, index: nat, at: nat): (r: nat)
    requires index < |styles|
    ensures index <= r < |styles|
    decreases |styles| - index
  {
    if index + 1 < |styles| && styles[index + 1].at <= at then StyleAt(styles, index + 1, at) else index
  }

  method AdvanceStyle(styles: seq<StyleRun>, index: nat, at: nat) returns (r: nat)
    requires index < |styles|
    ensures r == StyleAt(styles, index, at)
  {
    r := index;
    while r + 1 < |styles| && styles[r + 1].at <= at
      invariant r < |styles| && StyleAt(styles, r, at) == StyleAt(styles, index, at)
    {
      r := r + 1;
    }
  }

  /** The finished lines, the line being filled, the counters, and the place in the clusters and styles. */
  datatype Layout = Layout(
    done: seq<Line>,
    line: Line,
    bytes: nat,
    spans: nat,
    column: nat,
    styleIndex: nat,
    at: nat,
    index: nat)

  function NothingLaid(): Layout {
    Layout([], [], 0, 0, 0, 0, 0, 0)
  }

  /** Whether a symbol of a style starts a new span. */
  predicate StartsSpan(line: Line, style: Style) {
    line == [] || line[|line| - 1].style != style
  }

  /** Lays out one cluster, whatever the limits: a line break, or a symbol in the style at its place. */
  function LaidOut(t: Terminal, clusters: seq<Bytes>, styles: seq<StyleRun>, multiline: bool, l: Layout): (r: Layout)
    requires l.styleIndex < |styles| && l.index < |clusters|
    ensures r.styleIndex < |styles| && r.index == l.index + 1
    ensures r.bytes >= l.bytes && r.spans >= l.spans && |r.done| >= |l.done|
  {
    var cluster, styleIndex := clusters[l.index], StyleAt(styles, l.styleIndex, l.at);
    if Breaks(cluster, multiline) then
      Layout(l.done + [l.line], [], l.bytes + 1, l.spans, 0, styleIndex, l.at + |cluster|, l.index + 1)
    else
      var (symbol, width) := Symbol(t, cluster, l.column, multiline);
      var style := styles[styleIndex].style;
      var spans := if StartsSpan(l.line, style) then l.spans + 1 else l.spans;
      Layout(l.done, Added(l.line, symbol, style), l.bytes + |symbol|, spans,
             l.column + width, styleIndex, l.at + |cluster|, l.index + 1)
  }

  predicate LayoutFits(l: Layout, limits: Limits) {
    l.bytes <= limits.outputBytes && l.spans <= limits.spans && |l.done| + 1 <= limits.lines
  }

  /** Laying out from a point on until the end, or until the next cluster would pass a limit. */
  function LaidWithin(t: Terminal, clusters: seq<Bytes>, styles: seq<StyleRun>, multiline: bool, limits: Limits,
                      l: Layout): Layout
    requires l.styleIndex < |styles| && l.index <= |clusters|
    decreases |clusters| - l.index
  {
    if l.index == |clusters| || !LayoutFits(LaidOut(t, clusters, styles, multiline, l), limits) then l
    else LaidWithin(t, clusters, styles, multiline, limits, LaidOut(t, clusters, styles, multiline, l))
  }

  /** Laying out from a point on until the end, without limits. */
  function LaidWhole(t: Terminal, clusters: seq<Bytes>, styles: seq<StyleRun>, multiline: bool, l: Layout): Layout
    requires l.styleIndex < |styles| && l.index <= |clusters|
    decreases |clusters| - l.index
  {
    if l.index == |clusters| then l
    else LaidWhole(t, clusters, styles, multiline, LaidOut(t, clusters, styles, multiline, l))
  }

  /** The lines of a layout, when there may be any. */
  function Rows(l: Layout, limits: Limits): seq<Line> {
    if limits.lines > 0 then l.done + [l.line] else []
  }

  /** Lays out one cluster unless a limit forbids it. */
  method LayOutOne(t: Terminal, clusters: seq<Bytes>, styles: seq<StyleRun>, multiline: bool, limits: Limits, l: Layout)
    returns (next: Layout, stop: bool)
    requires l.styleIndex < |styles| && l.index < |clusters| && (limits.lines > 0 ==> LayoutFits(l, limits))
    ensures stop <==> !LayoutFits(LaidOut(t, clusters, styles, multiline, l), limits)
    ensures next == if stop then l else LaidOut(t, clusters, styles, multiline, l)
  {
    var cluster := clusters[l.index];
    var styleIndex := AdvanceStyle(styles, l.styleIndex, l.at);
    if Breaks(cluster, multiline) {
      if |l.done| + 1 >= limits.lines || l.bytes == limits.outputBytes {
        return l, true;
      }
      return Layout(l.done + [l.line], [], l.bytes + 1, l.spans, 0, styleIndex, l.at + |cluster|, l.index + 1), false;
    }
    var (symbol, width) := Symbol(t, cluster, l.column, multiline);
    var style := styles[styleIndex].style;
    var newSpan := l.line == [] || l.line[|l.line| - 1].style != style;
    if l.bytes + |symbol| > limits.outputBytes || (newSpan && l.spans >= limits.spans) || limits.lines == 0 {
      return l, true;
    }
    next := Layout(l.done, Added(l.line, symbol, style), l.bytes + |symbol|, if newSpan then l.spans + 1 else l.spans,
                   l.column + width, styleIndex, l.at + |cluster|, l.index + 1);
    stop := false;
  }

  /** Lays clusters out in lines and spans until a limit is met. */
  method LayOut(t: Terminal, clusters: seq<Bytes>, styles: seq<StyleRun>, multiline: bool, limits: Limits)
    returns (l: Layout, cut: bool)
    requires styles != []
    ensures l == LaidWithin(t, clusters, styles, multiline, limits, NothingLaid())
    ensures cut <==> l.index < |clusters|
  {
    l, cut := NothingLaid(), false;
    while l.index < |clusters| && !cut
      invariant l.styleIndex < |styles| && l.index <= |clusters|
      invariant limits.lines > 0 ==> LayoutFits(l, limits)
      invariant LaidWithin(t, clusters, styles, multiline, limits, l)
                == LaidWithin(t, clusters, styles, multiline, limits, NothingLaid())
      invariant cut ==> l.index < |clusters| && !LayoutFits(LaidOut(t, clusters, styles, multiline, l), limits)
      decreases |clusters| - l.index, !cut
    {
      l, cut := LayOutOne(t, clusters, styles, multiline, limits, l);
    }
  }

  lemma {:induction false} LaidGrows(t: Terminal, clusters: seq<Bytes>, styles: seq<StyleRun>, multiline: bool,
                                     l: Layout)
    requires l.styleIndex < |styles| && l.index <= |clusters|
    ensures var whole := LaidWhole(t, clusters, styles, multiline, l);
      whole.bytes >= l.bytes && whole.spans >= l.spans && |whole.done| >= |l.done|
    decreases |clusters| - l.index
  {
    if l.index < |clusters| {
      LaidGrows(t, clusters, styles, multiline, LaidOut(t, clusters, styles, multiline, l));
    }
  }

  /** Laying out reaches the end exactly when the whole layout fits; else its next cluster would pass a limit. */
  lemma {:induction false} LaidExact(t: Terminal, clusters: seq<Bytes>, styles: seq<StyleRun>, multiline: bool,
                                     limits: Limits,
                                     l: Layout)
    requires l.styleIndex < |styles| && l.index <= |clusters|
    ensures var r := LaidWithin(t, clusters, styles, multiline, limits, l);
      var whole := LaidWhole(t, clusters, styles, multiline, l);
      && r.index <= |clusters| && r.styleIndex < |styles| && (LayoutFits(l, limits) ==> LayoutFits(r, limits))
      && (r.index == |clusters| <==> l.index == |clusters| || LayoutFits(whole, limits))
      && (r.index == |clusters| ==> r == whole)
      && (r.index < |clusters| ==> !LayoutFits(LaidOut(t, clusters, styles, multiline, r), limits))
      && (limits.lines == 0 ==> r == l)
    decreases |clusters| - l.index
  {
    if l.index < |clusters| {
      var next := LaidOut(t, clusters, styles, multiline, l);
      if LayoutFits(next, limits) {
        LaidExact(t, clusters, styles, multiline, limits, next);
      } else {
        LaidGrows(t, clusters, styles, multiline, next);
      }
    }
  }

  /** The counters are exact, and what was laid out, followed by the rendering of the rest, is the whole rendering. */
  predicate LaysOut(t: Terminal, clusters: seq<Bytes>, multiline: bool, l: Layout) {
    && l.index <= |clusters| && Counted(l.done + [l.line], l.bytes, l.spans)
    && Shown(l.done + [l.line]) + Render(t, clusters[l.index..], l.column, multiline)
       == Render(t, clusters, 0, multiline)
  }

  lemma {:induction false} LaidOutLaysOut(t: Terminal, clusters: seq<Bytes>, styles: seq<StyleRun>, multiline: bool,
                                          l: Layout)
    requires l.styleIndex < |styles| && l.index < |clusters| && LaysOut(t, clusters, multiline, l)
    ensures LaysOut(t, clusters, multiline, LaidOut(t, clusters, styles, multiline, l))
  {
    var next := LaidOut(t, clusters, styles, multiline, l);
    if Breaks(clusters[l.index], multiline) {
      BreakLine(t, clusters, multiline, l, next);
    } else {
      var (symbol, width) := Symbol(t, clusters[l.index], l.column, multiline);
      AddSymbol(t, clusters, multiline, l, next, styles[next.styleIndex].style, symbol, width);
    }
  }

  lemma {:induction false} WithinLaysOut(t: Terminal, clusters: seq<Bytes>, styles: seq<StyleRun>, multiline: bool,
                                         limits: Limits, l: Layout)
    requires l.styleIndex < |styles| && LaysOut(t, clusters, multiline, l)
    ensures LaysOut(t, clusters, multiline, LaidWithin(t, clusters, styles, multiline, limits, l))
    decreases |clusters| - l.index
  {
    if l.index < |clusters| && LayoutFits(LaidOut(t, clusters, styles, multiline, l), limits) {
      LaidOutLaysOut(t, clusters, styles, multiline, l);
      WithinLaysOut(t, clusters, styles, multiline, limits, LaidOut(t, clusters, styles, multiline, l));
    }
  }

  lemma {:induction false} NothingLaysOut(t: Terminal, clusters: seq<Bytes>, multiline: bool)
    ensures LaysOut(t, clusters, multiline, NothingLaid())
  {
    ShownSnoc([], []);
    var none := NothingLaid();
    assert clusters[0..] == clusters && none.done + [none.line] == [none.line];
  }

  lemma {:induction false} BreakLine(t: Terminal, clusters: seq<Bytes>, multiline: bool, l: Layout, next: Layout)
    requires l.index < |clusters| && Breaks(clusters[l.index], multiline) && LaysOut(t, clusters, multiline, l)
    requires next.done == l.done + [l.line] && next.line == [] && next.bytes == l.bytes + 1 && next.spans == l.spans
    requires next.column == 0 && next.index == l.index + 1
    ensures LaysOut(t, clusters, multiline, next)
  {
    ShownSnoc(next.done, []);
    var shown := Shown(next.done);
    assert shown + [LF] + [] == shown + [LF];
    RenderNext(t, clusters, l.index, l.column, multiline);
    Regroup(shown, [LF], Render(t, clusters[next.index..], 0, multiline));
  }

  lemma {:induction false} RenderNext(t: Terminal, clusters: seq<Bytes>, i: nat, column: nat, multiline: bool)
    requires i < |clusters|
    ensures Render(t, clusters[i..], column, multiline)
            == if Breaks(clusters[i], multiline) then [LF] + Render(t, clusters[i + 1..], 0, multiline)
               else Symbol(t, clusters[i], column, multiline).0
                    + Render(t, clusters[i + 1..], column + Symbol(t, clusters[i], column, multiline).1, multiline)
  {
    assert clusters[i..][0] == clusters[i] && clusters[i..][1..] == clusters[i + 1..];
  }

  lemma {:induction false} AddedShown(done: seq<Line>, line: Line, symbol: Bytes, style: Style)
    ensures Shown(done + [Added(line, symbol, style)]) == Shown(done + [line]) + symbol
    ensures SpanCount(done + [Added(line, symbol, style)])
            == SpanCount(done + [line]) + (if line != [] && line[|line| - 1].style == style then 0 else 1)
  {
    AddedText(line, symbol, style);
    ShownSnoc(done, line);
    ShownSnoc(done, Added(line, symbol, style));
    if done != [] {
      Regroup(Shown(done) + [LF], LineText(line), symbol);
    }
  }

  lemma {:induction false} AddSymbol(t: Terminal, clusters: seq<Bytes>, multiline: bool, l: Layout, next: Layout,
                                     style: Style, symbol: Bytes, width: nat)
    requires LaysOut(t, clusters, multiline, l) && l.index < |clusters| && !Breaks(clusters[l.index], multiline)
    requires (symbol, width) == Symbol(t, clusters[l.index], l.column, multiline)
    requires next.done == l.done && next.line == Added(l.line, symbol, style)
    requires next.bytes == l.bytes + |symbol| && next.spans == if StartsSpan(l.line, style) then l.spans + 1
            else l.spans
    requires next.column == l.column + width && next.index == l.index + 1
    ensures LaysOut(t, clusters, multiline, next)
  {
    hide Shown, Render, SpanCount, Added, Breaks, Symbol;
    AddedShown(l.done, l.line, symbol, style);
    RenderNext(t, clusters, l.index, l.column, multiline);
    Regroup(Shown(l.done + [l.line]), symbol, Render(t, clusters[next.index..], next.column, multiline));
  }

  // ----- Marking truncation -----

  /** The marker, cut to the byte limit. */
  function Marker(byteLimit: nat): (m: Bytes)
    ensures |m| <= byteLimit && m <= TRUNCATED
  {
    TRUNCATED[..Min(|TRUNCATED|, byteLimit)]
  }

  /** The last cluster start that is no later than `desired`, or zero. */
  function LastStart(starts: seq<nat>, desired: nat, best: nat): (r: nat)
    requires best <= desired
    ensures r <= desired
  {
    if starts == [] || starts[0] > desired then best else LastStart(starts[1..], desired, starts[0])
  }

  /** The line with its last span cut to `end` bytes, and gone when nothing is left of it. */
  function CutLine(line: Line, end: nat): Line
    requires line != [] && end <= |line[|line| - 1].content|
  {
    var last := line[|line| - 1];
    line[..|line| - 1] + (if end == 0 then [] else [Span(last.content[..end], last.style)])
  }

  lemma {:induction false} CutText(line: Line, end: nat)
    requires line != [] && end <= |line[|line| - 1].content|
    ensures var dropped := |line[|line| - 1].content| - end;
      && dropped <= |LineText(line)| && LineText(CutLine(line, end)) == LineText(line)[..|LineText(line)| - dropped]
      && |CutLine(line, end)| == if end == 0 then |line| - 1 else |line|
  {
    var init, last := line[..|line| - 1], line[|line| - 1];
    if end == 0 {
      assert CutLine(line, end) == init;
    } else {
      LineSnoc(init, Span(last.content[..end], last.style));
    }
  }

  lemma {:induction false} PrefixCut(prefix: Bytes, text: Bytes, dropped: nat)
    requires dropped <= |text|
    ensures prefix + text[..|text| - dropped] == (prefix + text)[..|prefix + text| - dropped]
  {
  }

  /** Cutting the text of the last line cuts what is shown by as much. */
  lemma {:induction false} CutLast(done: seq<Line>, line: Line, cut: Line, dropped: nat)
    requires dropped <= |LineText(line)| && LineText(cut) == LineText(line)[..|LineText(line)| - dropped]
    ensures dropped <= |Shown(done + [line])|
    ensures Shown(done + [cut]) == Shown(done + [line])[..|Shown(done + [line])| - dropped]
    ensures SpanCount(done + [cut]) + |line| == SpanCount(done + [line]) + |cut|
  {
    ShownSnoc(done, line);
    ShownSnoc(done, cut);
    if done != [] {
      PrefixCut(Shown(done) + [LF], LineText(line), dropped);
    }
  }

  /** Cutting the last line cuts what is shown by as much. */
  lemma {:induction false} CutShown(lines: seq<Line>, end: nat)
    requires lines != [] && lines[|lines| - 1] != []
    requires end <= |lines[|lines| - 1][|lines[|lines| - 1]| - 1].content|
    ensures var line := lines[|lines| - 1];
      var cut := lines[..|lines| - 1] + [CutLine(line, end)];
      var dropped := |line[|line| - 1].content| - end;
      && dropped <= |Shown(lines)| && Shown(cut) == Shown(lines)[..|Shown(lines)| - dropped]
      && SpanCount(cut) == if end == 0 then SpanCount(lines) - 1 else SpanCount(lines)
  {
    var done, line := lines[..|lines| - 1], lines[|lines| - 1];
    assert lines == done + [line];
    CutText(line, end);
    CutLast(done, line, CutLine(line, end), |line[|line| - 1].content| - end);
  }

  lemma {:induction false} PopShown(lines: seq<Line>)
    requires |lines| > 1 && lines[|lines| - 1] == []
    ensures Shown(lines) == Shown(lines[..|lines| - 1]) + [LF] && SpanCount(lines) == SpanCount(lines[..|lines| - 1])
  {
    var done := lines[..|lines| - 1];
    assert lines == done + [[]];
    ShownSnoc(done, []);
    assert Shown(done) + [LF] + [] == Shown(done) + [LF];
  }

  lemma {:induction false} EmptyShown(lines: seq<Line>)
    requires lines == [[]]
    ensures Shown(lines) == [] && SpanCount(lines) == 0
  {
    ShownSnoc([], []);
    assert lines == [] + [[]];
  }

  /** Whether the marker can go on the last span. */
  predicate CanExtend(lines: seq<Line>, spans: nat, spanLimit: nat)
    requires lines != []
  {
    var line := lines[|lines| - 1];
    line != [] && (line[|line| - 1].style == DEFAULT_STYLE || spans == spanLimit)
  }

  /** Whether the marker fits after the lines. */
  predicate HasRoom(lines: seq<Line>, bytes: nat, spans: nat, keep: nat, spanLimit: nat)
    requires lines != []
  {
    bytes <= keep && (spans < spanLimit || CanExtend(lines, spans, spanLimit))
  }

  /** Where a span that is too long by `excess` bytes is cut: at a cluster start, and to nothing when it is not. */
  function CutAt(t: Terminal, content: Bytes, excess: nat): (end: nat)
    ensures end <= |content| && (content != [] ==> end < |content|)
  {
    var desired := SaturatingSub(|content|, excess);
    if desired == |content| then 0 else LastStart(t.starts(content), desired, 0)
  }

  /** The lines without the end of their last span, or without an empty last line. */
  function WithoutEnd(t: Terminal, lines: seq<Line>, bytes: nat, keep: nat): (r: seq<Line>)
    requires lines != [] && lines != [[]]
    ensures r != [] && |r| <= |lines|
  {
    var done, line := lines[..|lines| - 1], lines[|lines| - 1];
    if line == [] then done
    else done + [CutLine(line, CutAt(t, line[|line| - 1].content, SaturatingSub(bytes, keep)))]
  }

  lemma {:induction false} WithoutEndShown(t: Terminal, lines: seq<Line>, bytes: nat, keep: nat)
    requires lines != [] && lines != [[]]
    ensures var r := WithoutEnd(t, lines, bytes, keep);
      && Shown(r) <= Shown(lines) && SpanCount(r) <= SpanCount(lines)
      && (|Shown(r)| < |Shown(lines)| || SpanCount(r) < SpanCount(lines))
  {
    var line := lines[|lines| - 1];
    if line == [] {
      PopShown(lines);
    } else {
      CutShown(lines, CutAt(t, line[|line| - 1].content, SaturatingSub(bytes, keep)));
    }
  }

  /** The lines after deleting from their end just until the marker fits. */
  function Shortened(t: Terminal, lines: seq<Line>, keep: nat, spanLimit: nat): (r: seq<Line>)
    requires lines != []
    ensures r != [] && |r| <= |lines|
    decreases |Shown(lines)|, SpanCount(lines)
  {
    if lines == [[]] || HasRoom(lines, |Shown(lines)|, SpanCount(lines), keep, spanLimit) then lines
    else
      WithoutEndShown(t, lines, |Shown(lines)|, keep);
      Shortened(t, WithoutEnd(t, lines, |Shown(lines)|, keep), keep, spanLimit)
  }

  lemma {:induction false} ShortenedNext(t: Terminal, lines: seq<Line>, keep: nat, spanLimit: nat)
    requires lines != [] && lines != [[]] && !HasRoom(lines, |Shown(lines)|, SpanCount(lines), keep, spanLimit)
    ensures Shortened(t, lines, keep, spanLimit)
            == Shortened(t, WithoutEnd(t, lines, |Shown(lines)|, keep), keep, spanLimit)
  {
  }

  /** The marker fits after the shortened lines, which show a beginning of what was shown. */
  lemma {:induction false} ShortenedMeans(t: Terminal, lines: seq<Line>, keep: nat, spanLimit: nat)
    requires lines != [] && spanLimit > 0
    ensures var r := Shortened(t, lines, keep, spanLimit);
      && HasRoom(r, |Shown(r)|, SpanCount(r), keep, spanLimit) && Shown(r) <= Shown(lines)
         && SpanCount(r) <= SpanCount(lines)
    decreases |Shown(lines)|, SpanCount(lines)
  {
    if lines == [[]] {
      EmptyShown(lines);
    } else if !HasRoom(lines, |Shown(lines)|, SpanCount(lines), keep, spanLimit) {
      var next := WithoutEnd(t, lines, |Shown(lines)|, keep);
      WithoutEndShown(t, lines, |Shown(lines)|, keep);
      ShortenedMeans(t, next, keep, spanLimit);
    }
  }

  /** Of ordered cluster starts, the last one that is not beyond `desired` is chosen. */
  lemma {:induction false} LastStartGreatest(starts: seq<nat>, desired: nat, best: nat)
    requires best <= desired && (forall i | 0 <= i < |starts| :: best <= starts[i])
    requires forall i, j | 0 <= i < j < |starts| :: starts[i] <= starts[j]
    ensures LastStart(starts, desired, best) == best || LastStart(starts, desired, best) in starts
    ensures forall i | 0 <= i < |starts| && starts[i] <= desired :: starts[i] <= LastStart(starts, desired, best)
    ensures best <= LastStart(starts, desired, best)
  {
    if starts != [] && starts[0] <= desired {
      LastStartGreatest(starts[1..], desired, starts[0]);
      assert forall i | 0 < i < |starts| :: starts[i] == starts[1..][i - 1];
    }
  }

  /**
   * No more of a span is cut than the marker needs: what stays ends at a cluster start, and at the last one
   * that leaves the marker its bytes. A span that need not get shorter is in the way as a span, and goes.
   */
  lemma {:induction false} CutsLeast(t: Terminal, content: Bytes, excess: nat)
    requires var starts := t.starts(content);
      (forall i, j | 0 <= i < j < |starts| :: starts[i] <= starts[j])
    ensures var starts, end := t.starts(content), CutAt(t, content, excess);
      && (end == 0 || end in starts)
      && (0 < excess <= |content| ==> end <= |content| - excess)
      && (0 < excess && content != [] ==>
            forall i | 0 <= i < |starts| && starts[i] + excess <= |content| :: starts[i] <= end)
  {
    LastStartGreatest(t.starts(content), SaturatingSub(|content|, excess), 0);
  }

  // ----- Nothing more is deleted than the marker needs -----

  /** A place in the lines: after the first spans of one of them, and then at a cluster start of the next span. */
  predicate IsPlace(t: Terminal, lines: seq<Line>, i: nat, j: nat, end: nat) {
    && i < |lines| && j <= |lines[i]|
    && (end > 0 ==> j < |lines[i]| && end <= |lines[i][j].content| && end in t.starts(lines[i][j].content))
  }

  /** The beginning of the lines that ends at a place. */
  function Beginning(t: Terminal, lines: seq<Line>, i: nat, j: nat, end: nat): seq<Line>
    requires IsPlace(t, lines, i, j, end)
  {
    lines[..i] + [lines[i][..j] + (if end == 0 then [] else [Span(lines[i][j].content[..end], lines[i][j].style)])]
  }

  /** Cluster starts are listed in order. */
  ghost predicate StartsOrdered(t: Terminal) {
    forall content: Bytes, i, j | 0 <= i < j < |t.starts(content)| :: t.starts(content)[i] <= t.starts(content)[j]
  }

  lemma {:induction false} LinePrefix(line: Line, n: nat)
    requires n <= |line|
    ensures |LineText(line[..n])| <= |LineText(line)|
  {
    if n < |line| {
      LinePrefix(line[..|line| - 1], n);
      assert line[..|line| - 1][..n] == line[..n];
    } else {
      assert line[..n] == line;
    }
  }

  lemma {:induction false} LinesPrefix(lines: seq<Line>, n: nat)
    requires 0 < n <= |lines|
    ensures |Shown(lines[..n])| <= |Shown(lines)|
  {
    if n < |lines| {
      LinesPrefix(lines[..|lines| - 1], n);
      assert lines[..|lines| - 1][..n] == lines[..n];
    } else {
      assert lines[..n] == lines;
    }
  }

  lemma {:induction false} PartOfLine(t: Terminal, lines: seq<Line>, i: nat, j: nat, end: nat)
    requires IsPlace(t, lines, i, j, end)
    ensures |LineText(Beginning(t, lines, i, j, end)[i])| <= |LineText(lines[i])|
  {
    var line := lines[i];
    LinePrefix(line, j);
    if end > 0 {
      LineSnoc(line[..j], Span(line[j].content[..end], line[j].style));
      LineSnoc(line[..j], line[j]);
      LinePrefix(line, j + 1);
      assert line[..j + 1] == line[..j] + [line[j]];
    } else {
      assert line[..j] + [] == line[..j];
    }
  }

  /** A beginning shows no more than the whole. */
  lemma {:induction false} BeginningShown(t: Terminal, lines: seq<Line>, i: nat, j: nat, end: nat)
    requires IsPlace(t, lines, i, j, end)
    ensures |Shown(Beginning(t, lines, i, j, end))| <= |Shown(lines)|
  {
    var part := Beginning(t, lines, i, j, end)[i];
    PartOfLine(t, lines, i, j, end);
    ShorterLine(lines[..i], part, lines[i]);
    assert lines[..i + 1] == lines[..i] + [lines[i]];
    LinesPrefix(lines, i + 1);
  }

  lemma {:induction false} ShorterLine(done: seq<Line>, part: Line, line: Line)
    requires |LineText(part)| <= |LineText(line)|
    ensures |Shown(done + [part])| <= |Shown(done + [line])|
  {
    ShownSnoc(done, part);
    ShownSnoc(done, line);
  }

  /** The lines that end at the place are all of them when the place is their end. */
  lemma {:induction false} WholeBeginning(t: Terminal, lines: seq<Line>)
    requires lines != []
    ensures IsPlace(t, lines, |lines| - 1, |lines[|lines| - 1]|, 0)
    ensures Beginning(t, lines, |lines| - 1, |lines[|lines| - 1]|, 0) == lines
  {
    var last := lines[|lines| - 1];
    assert last[..|last|] + [] == last && lines[..|lines| - 1] + [last] == lines;
  }

  /** A place of the lines that stays one when their end is dropped. */
  lemma {:induction false} SamePlace(t: Terminal, lines: seq<Line>, next: seq<Line>, i: nat, j: nat, end: nat)
    requires IsPlace(t, lines, i, j, end) && i < |next| && next[..i] == lines[..i]
    requires j <= |next[i]| && next[i][..j] == lines[i][..j]
    requires end > 0 ==> j < |next[i]| && next[i][j] == lines[i][j]
    ensures IsPlace(t, next, i, j, end) && Beginning(t, next, i, j, end) == Beginning(t, lines, i, j, end)
  {
  }

  /** Dropping the end leaves any place that the marker can follow, or fits itself and is no shorter. */
  lemma {:induction false} PlaceKept(t: Terminal, lines: seq<Line>, keep: nat, i: nat, j: nat, end: nat)
    requires lines != [] && lines != [[]] && StartsOrdered(t) && |Shown(lines)| > keep
    requires IsPlace(t, lines, i, j, end) && |Shown(Beginning(t, lines, i, j, end))| <= keep
    ensures var next := WithoutEnd(t, lines, |Shown(lines)|, keep);
      || (IsPlace(t, next, i, j, end) && Beginning(t, next, i, j, end) == Beginning(t, lines, i, j, end))
      || |Shown(Beginning(t, lines, i, j, end))| <= |Shown(next)| <= keep
  {
    var next, last := WithoutEnd(t, lines, |Shown(lines)|, keep), lines[|lines| - 1];
    WholeBeginning(t, lines);
    if i < |lines| - 1 || j < |last| - 1 || (j == |last| - 1 && end == 0) {
      PlaceStays(t, lines, |Shown(lines)|, keep, i, j, end);
    } else {
      PlaceAtEnd(t, lines, keep, i, j, end);
      BeginningCuts(t, lines, end);
      LastSpanCut(t, lines, keep, end, Beginning(t, lines, i, j, end), next);
    }
  }

  lemma {:induction false} PlaceStays(t: Terminal, lines: seq<Line>, bytes: nat, keep: nat, i: nat, j: nat, end: nat)
    requires lines != [] && lines != [[]] && IsPlace(t, lines, i, j, end)
    requires i < |lines| - 1 || j < |lines[|lines| - 1]| - 1 || (j == |lines[|lines| - 1]| - 1 && end == 0)
    ensures var next := WithoutEnd(t, lines, bytes, keep);
      IsPlace(t, next, i, j, end) && Beginning(t, next, i, j, end) == Beginning(t, lines, i, j, end)
  {
    var next, last := WithoutEnd(t, lines, bytes, keep), |lines| - 1;
    EndDropped(t, lines, bytes, keep);
    if i < last {
      PrefixAgrees(next, lines, last, i);
    } else {
      PrefixAgrees(next[last], lines[last], |lines[last]| - 1, j);
    }
    SamePlace(t, lines, next, i, j, end);
  }

  /** Sequences with the same first elements agree on fewer of them. */
  lemma {:induction false} PrefixAgrees<T>(a: seq<T>, b: seq<T>, n: nat, k: nat)
    requires n <= |a| && n <= |b| && a[..n] == b[..n] && k <= n
    ensures a[..k] == b[..k] && (k < n ==> a[k] == b[k])
  {
    assert a[..k] == a[..n][..k] && b[..k] == b[..n][..k];
    assert k < n ==> a[k] == a[..n][k] && b[k] == b[..n][k];
  }

  /** A place in the last span or after it that the marker can follow is inside it. */
  lemma {:induction false} PlaceAtEnd(t: Terminal, lines: seq<Line>, keep: nat, i: nat, j: nat, end: nat)
    requires lines != [] && |Shown(lines)| > keep
    requires IsPlace(t, lines, i, j, end) && |Shown(Beginning(t, lines, i, j, end))| <= keep
    requires var last := lines[|lines| - 1];
      i == |lines| - 1 && j >= |last| - 1 && !(j == |last| - 1 && end == 0)
    ensures j == |lines[i]| - 1 && end > 0
  {
    if j == |lines[i]| {
      WholeBeginning(t, lines);
    }
  }

  /** What dropping the end does to the last line, and that it leaves the others. */
  lemma {:induction false} EndDropped(t: Terminal, lines: seq<Line>, bytes: nat, keep: nat)
    requires lines != [] && lines != [[]]
    ensures var next := WithoutEnd(t, lines, bytes, keep);
      var done, last := lines[..|lines| - 1], lines[|lines| - 1];
      && next[..|lines| - 1] == done
      && (last == [] ==> next == done)
      && (last != [] ==>
            && |next| == |lines| && |last| - 1 <= |next[|lines| - 1]| <= |last|
            && next[|lines| - 1][..|last| - 1] == last[..|last| - 1])
  {
  }

  /** Cutting the last span where the marker still fits cuts no more than is dropped. */
  lemma {:induction false} LastSpanCut(t: Terminal, lines: seq<Line>, keep: nat, end: nat, part: seq<Line>,
                                       next: seq<Line>)
    requires lines != [] && lines[|lines| - 1] != [] && StartsOrdered(t) && |Shown(lines)| > keep && end > 0
    requires var last := lines[|lines| - 1];
      && end in t.starts(last[|last| - 1].content) && end <= |last[|last| - 1].content|
      && part == lines[..|lines| - 1] + [CutLine(last, end)] && |Shown(part)| <= keep
    requires next == WithoutEnd(t, lines, |Shown(lines)|, keep)
    ensures |Shown(part)| <= |Shown(next)| <= keep
  {
    var last, excess := lines[|lines| - 1], |Shown(lines)| - keep;
    var content := last[|last| - 1].content;
    CutLength(lines, end, content, part);
    CutNoLess(t, content, excess, end);
    CutLength(lines, CutAt(t, content, excess), content, next);
  }

  lemma {:induction false} CutLength(lines: seq<Line>, end: nat, content: Bytes, part: seq<Line>)
    requires lines != [] && lines[|lines| - 1] != [] && end <= |content|
    requires content == lines[|lines| - 1][|lines[|lines| - 1]| - 1].content
    requires part == lines[..|lines| - 1] + [CutLine(lines[|lines| - 1], end)]
    ensures |Shown(part)| == |Shown(lines)| - (|content| - end)
  {
    CutShown(lines, end);
  }

  lemma {:induction false} BeginningCuts(t: Terminal, lines: seq<Line>, end: nat)
    requires lines != [] && lines[|lines| - 1] != [] && end > 0
    requires IsPlace(t, lines, |lines| - 1, |lines[|lines| - 1]| - 1, end)
    ensures Beginning(t, lines, |lines| - 1, |lines[|lines| - 1]| - 1, end)
            == lines[..|lines| - 1] + [CutLine(lines[|lines| - 1], end)]
  {
  }

  lemma {:induction false} CutNoLess(t: Terminal, content: Bytes, excess: nat, end: nat)
    requires StartsOrdered(t) && end in t.starts(content) && 0 < end && 0 < excess && end + excess <= |content|
    ensures end <= CutAt(t, content, excess) <= |content| - excess
  {
    CutsLeast(t, content, excess);
    var k :| 0 <= k < |t.starts(content)| && t.starts(content)[k] == end;
  }

  /**
   * While fewer spans than the limit are in use, what is kept before the marker is the longest beginning that ends
   * at a cluster start and leaves the marker its bytes: no place the marker can follow comes after it.
   */
  lemma {:induction false} KeptLongest(t: Terminal, lines: seq<Line>, keep: nat, spanLimit: nat, i: nat, j: nat,
                                       end: nat)
    requires lines != [] && SpanCount(lines) < spanLimit && StartsOrdered(t)
    requires IsPlace(t, lines, i, j, end) && |Shown(Beginning(t, lines, i, j, end))| <= keep
    ensures |Shown(Beginning(t, lines, i, j, end))| <= |Shown(Shortened(t, lines, keep, spanLimit))|
    decreases |Shown(lines)|, SpanCount(lines)
  {
    BeginningShown(t, lines, i, j, end);
    if lines != [[]] && |Shown(lines)| > keep {
      var next := WithoutEnd(t, lines, |Shown(lines)|, keep);
      WithoutEndShown(t, lines, |Shown(lines)|, keep);
      ShortenedNext(t, lines, keep, spanLimit);
      PlaceKept(t, lines, keep, i, j, end);
      if |Shown(Beginning(t, lines, i, j, end))| <= |Shown(next)| <= keep {
        ShortenedFits(t, next, keep, spanLimit);
      } else {
        KeptLongest(t, next, keep, spanLimit, i, j, end);
      }
    }
  }

  lemma {:induction false} KeptWhole(t: Terminal, lines: seq<Line>, keep: nat, spanLimit: nat)
    returns (i: nat, j: nat, end: nat)
    requires lines != [] && SpanCount(lines) < spanLimit && |Shown(lines)| <= keep
    ensures IsPlace(t, lines, i, j, end) && Shortened(t, lines, keep, spanLimit) == Beginning(t, lines, i, j, end)
  {
    i, j, end := |lines| - 1, |lines[|lines| - 1]|, 0;
    WholeBeginning(t, lines);
    ShortenedFits(t, lines, keep, spanLimit);
  }

  /** What is kept is itself such a beginning. */
  lemma {:induction false} KeptBeginning(t: Terminal, lines: seq<Line>, keep: nat, spanLimit: nat)
    returns (i: nat, j: nat, end: nat)
    requires lines != [] && SpanCount(lines) < spanLimit && StartsOrdered(t)
    ensures IsPlace(t, lines, i, j, end) && Shortened(t, lines, keep, spanLimit) == Beginning(t, lines, i, j, end)
    decreases |Shown(lines)|, SpanCount(lines)
  {
    if lines == [[]] {
      EmptyShown(lines);
    }
    if |Shown(lines)| <= keep {
      i, j, end := KeptWhole(t, lines, keep, spanLimit);
    } else {
      var last := lines[|lines| - 1];
      if last != [] && CutAt(t, last[|last| - 1].content, |Shown(lines)| - keep) > 0 {
        i, j, end := KeptCut(t, lines, keep, spanLimit);
      } else {
        var next := WithoutEnd(t, lines, |Shown(lines)|, keep);
        WithoutEndShown(t, lines, |Shown(lines)|, keep);
        i, j, end := KeptBeginning(t, next, keep, spanLimit);
        KeptGone(t, lines, |Shown(lines)|, keep, i, j, end);
        ShortenedNext(t, lines, keep, spanLimit);
      }
    }
  }

  /** When the end is gone altogether, a beginning of the rest is one of the lines. */
  lemma {:induction false} KeptGone(t: Terminal, lines: seq<Line>, bytes: nat, keep: nat, i: nat, j: nat, end: nat)
    requires lines != [] && lines != [[]] && bytes > keep
    requires var last := lines[|lines| - 1];
      last != [] ==> CutAt(t, last[|last| - 1].content, bytes - keep) == 0
    requires IsPlace(t, WithoutEnd(t, lines, bytes, keep), i, j, end)
    ensures IsPlace(t, lines, i, j, end)
    ensures Beginning(t, lines, i, j, end) == Beginning(t, WithoutEnd(t, lines, bytes, keep), i, j, end)
  {
    EndGone(t, lines, bytes, keep);
    PlaceBefore(t, lines, WithoutEnd(t, lines, bytes, keep), i, j, end);
  }

  /** When a span is cut to something, that is all that is deleted. */
  lemma {:induction false} KeptCut(t: Terminal, lines: seq<Line>, keep: nat, spanLimit: nat)
    returns (i: nat, j: nat, end: nat)
    requires lines != [] && lines[|lines| - 1] != [] && StartsOrdered(t)
    requires |Shown(lines)| > keep && SpanCount(lines) < spanLimit
    requires var last := lines[|lines| - 1];
      CutAt(t, last[|last| - 1].content, |Shown(lines)| - keep) > 0
    ensures IsPlace(t, lines, i, j, end)
    ensures Shortened(t, lines, keep, spanLimit) == Beginning(t, lines, i, j, end)
  {
    ShortenedNext(t, lines, keep, spanLimit);
    var last := lines[|lines| - 1];
    CutFits(t, lines, keep);
    WithoutEndShown(t, lines, |Shown(lines)|, keep);
    ShortenedFits(t, WithoutEnd(t, lines, |Shown(lines)|, keep), keep, spanLimit);
    i, j, end := |lines| - 1, |last| - 1, CutAt(t, last[|last| - 1].content, |Shown(lines)| - keep);
    BeginningCuts(t, lines, end);
  }

  /** Dropping the last span or an empty last line leaves a beginning of the lines. */
  lemma {:induction false} EndGone(t: Terminal, lines: seq<Line>, bytes: nat, keep: nat)
    requires lines != [] && lines != [[]] && bytes > keep
    requires var last := lines[|lines| - 1];
      last != [] ==> CutAt(t, last[|last| - 1].content, bytes - keep) == 0
    ensures var next, last := WithoutEnd(t, lines, bytes, keep), lines[|lines| - 1];
      next == if last == [] then lines[..|lines| - 1] else lines[..|lines| - 1] + [last[..|last| - 1]]
  {
    var last := lines[|lines| - 1];
    if last != [] {
      CutToNothing(last);
    }
  }

  lemma {:induction false} CutToNothing(line: Line)
    requires line != []
    ensures CutLine(line, 0) == line[..|line| - 1]
  {
  }

  /** A place of such a beginning is one of the lines. */
  lemma {:induction false} PlaceBefore(t: Terminal, lines: seq<Line>, next: seq<Line>, i: nat, j: nat, end: nat)
    requires lines != [] && IsPlace(t, next, i, j, end)
    requires var last := lines[|lines| - 1];
      next == if last == [] then lines[..|lines| - 1] else lines[..|lines| - 1] + [last[..|last| - 1]]
    ensures IsPlace(t, lines, i, j, end) && Beginning(t, lines, i, j, end) == Beginning(t, next, i, j, end)
  {
    SamePlace(t, next, lines, i, j, end);
  }

  /** A span that is cut to something is cut enough. */
  lemma {:induction false} CutFits(t: Terminal, lines: seq<Line>, keep: nat)
    requires lines != [] && lines[|lines| - 1] != [] && StartsOrdered(t) && |Shown(lines)| > keep
    requires var last := lines[|lines| - 1];
      CutAt(t, last[|last| - 1].content, |Shown(lines)| - keep) > 0
    ensures var last := lines[|lines| - 1];
      && CutAt(t, last[|last| - 1].content, |Shown(lines)| - keep) in t.starts(last[|last| - 1].content)
      && |Shown(WithoutEnd(t, lines, |Shown(lines)|, keep))| <= keep
  {
    var last, excess := lines[|lines| - 1], |Shown(lines)| - keep;
    var content := last[|last| - 1].content;
    CutsLeast(t, content, excess);
    CutLength(lines, CutAt(t, content, excess), content, WithoutEnd(t, lines, |Shown(lines)|, keep));
  }

  /** Drops the end of the last span, at a cluster start, or an empty last line with its separator. */
  method DropEnd(t: Terminal, lines: seq<Line>, bytes: nat, spans: nat, keep: nat, spanLimit: nat)
    returns (lines': seq<Line>, bytes': nat, spans': nat)
    requires lines != [] && Counted(lines, bytes, spans) && spanLimit > 0
    requires !HasRoom(lines, bytes, spans, keep, spanLimit)
    ensures lines != [[]] && lines' == WithoutEnd(t, lines, bytes, keep) && Counted(lines', bytes', spans')
  {
    if lines == [[]] {
      EmptyShown(lines);
    }
    var done, line := lines[..|lines| - 1], lines[|lines| - 1];
    if line != [] {
      var content := line[|line| - 1].content;
      var desired := SaturatingSub(|content|, SaturatingSub(bytes, keep));
      var end := if desired == |content| then 0 else LastStart(t.starts(content), desired, 0);
      CutShown(lines, end);
      return done + [CutLine(line, end)], bytes - (|content| - end), if end == 0 then spans - 1 else spans;
    }
    PopShown(lines);
    return done, bytes - 1, spans;
  }

  lemma {:induction false} MarkShown(lines: seq<Line>, marker: Bytes, style: Style)
    requires lines != []
    ensures var line := lines[|lines| - 1];
      var marked := lines[..|lines| - 1] + [Added(line, marker, style)];
      && Shown(marked) == Shown(lines) + marker
      && SpanCount(marked) == if line != [] && line[|line| - 1].style == style then SpanCount(lines)
         else SpanCount(lines) + 1
  {
    var done, line := lines[..|lines| - 1], lines[|lines| - 1];
    assert lines == done + [line];
    AddedShown(done, line, marker, style);
  }

  /** The lines with the marker added: to the last span when it may extend it, else as a span of its own. */
  function Marked(lines: seq<Line>, marker: Bytes, spanLimit: nat): seq<Line>
    requires lines != []
  {
    var line := lines[|lines| - 1];
    var style := if CanExtend(lines, SpanCount(lines), spanLimit) then line[|line| - 1].style else DEFAULT_STYLE;
    lines[..|lines| - 1] + [Added(line, marker, style)]
  }

  lemma {:induction false} MarkedMeans(lines: seq<Line>, marker: Bytes, spanLimit: nat)
    requires lines != []
    ensures var marked := Marked(lines, marker, spanLimit);
      && Shown(marked) == Shown(lines) + marker && |marked| == |lines|
      && SpanCount(marked) == SpanCount(lines) + (if CanExtend(lines, SpanCount(lines), spanLimit) then 0 else 1)
  {
    var line := lines[|lines| - 1];
    MarkShown(lines, marker, if CanExtend(lines, SpanCount(lines), spanLimit) then line[|line| - 1].style
        else DEFAULT_STYLE);
  }

  /** Lines that were too many: shortened just until the marker fits, and marked. */
  function ShortenedAndMarked(t: Terminal, lines: seq<Line>, marker: Bytes, keep: nat, spanLimit: nat): seq<Line>
    requires lines != []
  {
    Marked(Shortened(t, lines, keep, spanLimit), marker, spanLimit)
  }

  /** Deletes from the end until the marker fits, and adds it; ends, never underflows, and never empties the lines. */
  method AppendTruncation(t: Terminal, lines: seq<Line>, bytes: nat, spans: nat, limits: Limits)
    returns (lines': seq<Line>, bytes': nat, spans': nat)
    requires lines != [] && Counted(lines, bytes, spans) && limits.outputBytes > 0 && limits.spans > 0
    ensures lines' == ShortenedAndMarked(t, lines, Marker(limits.outputBytes),
                                         limits.outputBytes - |Marker(limits.outputBytes)|, limits.spans)
    ensures Counted(lines', bytes', spans')
  {
    var marker := Marker(limits.outputBytes);
    var keep := limits.outputBytes - |marker|;
    lines', bytes', spans' := DeleteAndMark(t, lines, bytes, spans, marker, keep, limits.spans);
  }

  method DeleteAndMark(t: Terminal, lines: seq<Line>, bytes: nat, spans: nat, marker: Bytes, keep: nat, spanLimit: nat)
    returns (lines': seq<Line>, bytes': nat, spans': nat)
    requires lines != [] && Counted(lines, bytes, spans) && spanLimit > 0
    ensures lines' == ShortenedAndMarked(t, lines, marker, keep, spanLimit) && Counted(lines', bytes', spans')
  {
    lines', bytes', spans' := DeleteEnd(t, lines, bytes, spans, keep, spanLimit);
    lines', bytes', spans' := AppendMark(lines', bytes', spans', marker, spanLimit);
  }

  method DeleteEnd(t: Terminal, lines: seq<Line>, bytes: nat, spans: nat, keep: nat, spanLimit: nat)
    returns (lines': seq<Line>, bytes': nat, spans': nat)
    requires lines != [] && Counted(lines, bytes, spans) && spanLimit > 0
    ensures lines' == Shortened(t, lines, keep, spanLimit) && Counted(lines', bytes', spans')
  {
    lines', bytes', spans' := lines, bytes, spans;
    while !(bytes' <= keep && (spans' < spanLimit || CanExtend(lines', spans', spanLimit)))
      invariant lines' != [] && Counted(lines', bytes', spans')
      invariant Shortened(t, lines', keep, spanLimit) == Shortened(t, lines, keep, spanLimit)
      decreases bytes', spans'
    {
      WithoutEndShorter(t, lines', bytes', spans', keep, spanLimit);
      lines', bytes', spans' := DropEnd(t, lines', bytes', spans', keep, spanLimit);
    }
    ShortenedFits(t, lines', keep, spanLimit);
  }

  /** Without room the lines have an end to drop, and dropping it goes on shortening. */
  lemma {:induction false} WithoutEndShorter(t: Terminal, lines: seq<Line>, bytes: nat, spans: nat, keep: nat,
                                             spanLimit: nat)
    requires lines != [] && Counted(lines, bytes, spans) && spanLimit > 0
    requires !HasRoom(lines, bytes, spans, keep, spanLimit)
    ensures lines != [[]]
    ensures var next := WithoutEnd(t, lines, bytes, keep);
      && Shortened(t, next, keep, spanLimit) == Shortened(t, lines, keep, spanLimit)
      && (|Shown(next)| < bytes || (|Shown(next)| == bytes && SpanCount(next) < spans))
  {
    if lines == [[]] {
      EmptyShown(lines);
    }
    WithoutEndShown(t, lines, bytes, keep);
    ShortenedNext(t, lines, keep, spanLimit);
  }

  lemma {:induction false} ShortenedFits(t: Terminal, lines: seq<Line>, keep: nat, spanLimit: nat)
    requires lines != [] && HasRoom(lines, |Shown(lines)|, SpanCount(lines), keep, spanLimit)
    ensures Shortened(t, lines, keep, spanLimit) == lines
  {
  }

  method AppendMark(lines: seq<Line>, bytes: nat, spans: nat, marker: Bytes, spanLimit: nat)
    returns (lines': seq<Line>, bytes': nat, spans': nat)
    requires lines != [] && Counted(lines, bytes, spans)
    ensures lines' == Marked(lines, marker, spanLimit) && Counted(lines', bytes', spans')
  {
    var line := lines[|lines| - 1];
    var onLast := CanExtend(lines, spans, spanLimit);
    var style := if onLast then line[|line| - 1].style else DEFAULT_STYLE;
    MarkedMeans(lines, marker, spanLimit);
    lines' := lines[..|lines| - 1] + [Added(line, marker, style)];
    spans' := if onLast then spans else spans + 1;
    bytes' := bytes + |marker|;
  }

  /** Marking truncation keeps the limits. */
  lemma {:induction false} MarkedBounded(t: Terminal, lines: seq<Line>, marker: Bytes, keep: nat, spanLimit: nat,
                                         marked: seq<Line>)
    requires lines != [] && spanLimit > 0 && SpanCount(lines) <= spanLimit
    requires marked == ShortenedAndMarked(t, lines, marker, keep, spanLimit)
    ensures |Shown(marked)| <= keep + |marker| && SpanCount(marked) <= spanLimit && |marked| <= |lines|
  {
    ShortenedMeans(t, lines, keep, spanLimit);
    MarkedMeans(Shortened(t, lines, keep, spanLimit), marker, spanLimit);
  }

  /** A beginning of what was shown, then the marker; and all of it when the marker fits anyway. */
  lemma {:induction false} TruncationMeans(t: Terminal, lines: seq<Line>, marker: Bytes, keep: nat, spanLimit: nat)
    requires lines != [] && spanLimit > 0
    ensures var kept := Shortened(t, lines, keep, spanLimit);
      && Shown(ShortenedAndMarked(t, lines, marker, keep, spanLimit)) == Shown(kept) + marker
      && Shown(kept) <= Shown(lines)
      && (HasRoom(lines, |Shown(lines)|, SpanCount(lines), keep, spanLimit) ==> kept == lines)
  {
    ShortenedMeans(t, lines, keep, spanLimit);
    MarkedMeans(Shortened(t, lines, keep, spanLimit), marker, spanLimit);
  }

  // ----- The display -----

  function Clamped(limits: Limits): Limits {
    Limits(Min(limits.inputBytes, MAX_INPUT_BYTES), Min(limits.outputBytes, MAX_OUTPUT_BYTES),
           Min(limits.spans, MAX_SPANS), Min(limits.lines, MAX_LINES))
  }

  predicate Positive(limits: Limits) {
    limits.outputBytes > 0 && limits.spans > 0 && limits.lines > 0
  }

  function Input(bytes: Bytes, max: Limits): Bytes {
    bytes[..Min(|bytes|, max.inputBytes)]
  }

  /** The rows of a layout, shortened and marked when something did not fit and the limits allow it. */
  function Finished(t: Terminal, rows: seq<Line>, max: Limits, truncated: bool): seq<Line>
    requires Positive(max) ==> rows != []
  {
    if !truncated || !Positive(max) then rows
    else
      var marker := Marker(max.outputBytes);
      ShortenedAndMarked(t, rows, marker, max.outputBytes - |marker|, max.spans)
  }

  /** The layout of what was decoded. */
  function LaidPart(t: Terminal, d: Decoder, multiline: bool, max: Limits): Layout
    requires d.styles != []
  {
    LaidWithin(t, t.clusters(d.logical), d.styles, multiline, max, NothingLaid())
  }

  /** Whether something was left out: of the input, of its text, or of its layout. */
  predicate LeavesOut(t: Terminal, bytes: Bytes, max: Limits, d: Decoder, l: Layout) {
    |bytes| > max.inputBytes || d.offset < |Input(bytes, max)| || l.index < |t.clusters(d.logical)|
  }

  function Displayed(t: Terminal, bytes: Bytes, max: Limits, sgr: bool, multiline: bool): DisplayText
    requires Sensible(t)
  {
    DecodedPartKeeps(t, Input(bytes, max), sgr, max);
    var d := DecodedPart(t, Input(bytes, max), sgr, max);
    var l := LaidPart(t, d, multiline, max);
    var truncated := LeavesOut(t, bytes, max, d, l);
    var lines := Finished(t, Rows(l, max), max, truncated);
    DisplayText(lines, d.offset, |Shown(lines)|, SpanCount(lines), truncated)
  }

  /** The display of some bytes within the clamped limits. */
  method Parse(t: Terminal, bytes: Bytes, limits: Limits, sgr: bool, multiline: bool) returns (r: DisplayText)
    requires Sensible(t)
    ensures r == Displayed(t, bytes, Clamped(limits), sgr, multiline)
  {
    var max := Clamped(limits);
    var truncated := |bytes| > max.inputBytes;
    var input := bytes[..Min(|bytes|, max.inputBytes)];
    var decoded := DecodeBounded(t, input, sgr, max);
    truncated := truncated || decoded.offset < |input|;
    DecodedPartKeeps(t, input, sgr, max);
    var l, cut := LayOut(t, t.clusters(decoded.logical), decoded.styles, multiline, max);
    truncated := truncated || cut;
    LaidPartMeans(t, decoded, multiline, max);
    var lines, size, spans := FinishRows(t, l, max, truncated);
    r := DisplayText(lines, decoded.offset, size, spans, truncated);
  }

  method FinishRows(t: Terminal, l: Layout, max: Limits, truncated: bool)
    returns (lines: seq<Line>, bytes: nat, spans: nat)
    requires Counted(Rows(l, max), l.bytes, l.spans)
    ensures lines == Finished(t, Rows(l, max), max, truncated) && Counted(lines, bytes, spans)
  {
    lines, bytes, spans := if max.lines > 0 then l.done + [l.line] else [], l.bytes, l.spans;
    if truncated && Positive(max) {
      lines, bytes, spans := AppendTruncation(t, lines, bytes, spans, max);
    }
  }

  lemma {:induction false} DecodedPartKeeps(t: Terminal, input: Bytes, sgr: bool, limits: Limits)
    requires Sensible(t)
    ensures Decodes(t, input, sgr, DecodedPart(t, input, sgr, limits))
  {
    NothingDecodes(t, input, sgr);
    WithinDecodes(t, input, sgr, limits.outputBytes, limits.spans, NothingDecoded());
  }

  /** The whole text, laid out without limits. */
  function WholeLayout(t: Terminal, bytes: Bytes, sgr: bool, multiline: bool): Layout
    requires Sensible(t)
  {
    var d := DecodedWhole(t, bytes, sgr, NothingDecoded());
    WholeKeeps(t, bytes, sgr, NothingDecoded());
    LaidWhole(t, t.clusters(d.logical), d.styles, multiline, NothingLaid())
  }

  lemma {:induction false} WholeKeeps(t: Terminal, input: Bytes, sgr: bool, d: Decoder)
    requires Sensible(t) && d.offset <= |input| && d.styles != []
    ensures DecodedWhole(t, input, sgr, d).styles != []
  {
    DecodedGrows(t, input, sgr, d);
  }

  /**
   * Everything fits: the input its limit, and unless there is none, its text and style runs, and unless that
   * text is empty, the bytes, spans and lines of its layout.
   */
  predicate Fits(t: Terminal, bytes: Bytes, max: Limits, sgr: bool, multiline: bool)
    requires Sensible(t)
  {
    var d := DecodedWhole(t, bytes, sgr, NothingDecoded());
    && |bytes| <= max.inputBytes
    && (bytes != [] ==> max.lines > 0 && DecoderFits(d, max.outputBytes, max.spans))
    && (t.clusters(d.logical) != [] ==> LayoutFits(WholeLayout(t, bytes, sgr, multiline), max))
  }

  /** All of the input is decoded exactly when there is none or all of it fits. */
  lemma {:induction false} DecodedComplete(t: Terminal, input: Bytes, sgr: bool, max: Limits)
    requires Sensible(t)
    ensures var d, whole := DecodedPart(t, input, sgr, max), DecodedWhole(t, input, sgr, NothingDecoded());
      && (d.offset == |input| <==> input == [] || (max.lines > 0 && DecoderFits(whole, max.outputBytes, max.spans)))
      && (d.offset == |input| ==> d == whole)
  {
    DecodedGrows(t, input, sgr, NothingDecoded());
    if max.spans > 0 {
      DecodedExact(t, input, sgr, max.outputBytes, max.spans, NothingDecoded());
    }
  }

  /** All clusters are laid out exactly when there are none or all of them fit. */
  lemma {:induction false} LaidComplete(t: Terminal, clusters: seq<Bytes>, styles: seq<StyleRun>, multiline: bool,
                                        max: Limits)
    requires styles != []
    ensures var l := LaidWithin(t, clusters, styles, multiline, max, NothingLaid());
      && l.index <= |clusters|
      && (l.index == |clusters|
          <==> clusters == [] || LayoutFits(LaidWhole(t, clusters, styles, multiline, NothingLaid()), max))
  {
    LaidExact(t, clusters, styles, multiline, max, NothingLaid());
  }

  /** A display is not truncated exactly when everything fits. */
  lemma {:induction false} TruncatedExactly(t: Terminal, bytes: Bytes, max: Limits, sgr: bool, multiline: bool)
    requires Sensible(t)
    ensures Displayed(t, bytes, max, sgr, multiline).truncated <==> !Fits(t, bytes, max, sgr, multiline)
  {
    if |bytes| <= max.inputBytes {
      assert Input(bytes, max) == bytes;
      DecodedPartKeeps(t, bytes, sgr, max);
      DecodedComplete(t, bytes, sgr, max);
      var d := DecodedPart(t, bytes, sgr, max);
      LaidComplete(t, t.clusters(d.logical), d.styles, multiline, max);
    }
  }

  /** The display keeps its limits, and its counters are exact. */
  lemma {:induction false} DisplayBounded(t: Terminal, bytes: Bytes, max: Limits, sgr: bool, multiline: bool)
    requires Sensible(t)
    ensures var r := Displayed(t, bytes, max, sgr, multiline);
      && Counted(r.lines, r.outputBytes, r.spans)
      && r.outputBytes <= max.outputBytes && r.spans <= max.spans && |r.lines| <= max.lines
         && r.inputBytes <= max.inputBytes
  {
    var input := Input(bytes, max);
    DecodedPartKeeps(t, input, sgr, max);
    var d := DecodedPart(t, input, sgr, max);
    LaidPartMeans(t, d, multiline, max);
    var l := LaidPart(t, d, multiline, max);
    FinishedBounded(t, Rows(l, max), max, LeavesOut(t, bytes, max, d, l),
                    Displayed(t, bytes, max, sgr, multiline).lines);
  }

  lemma {:induction false} FinishedBounded(t: Terminal, rows: seq<Line>, max: Limits, truncated: bool,
                                           lines: seq<Line>)
    requires Positive(max) ==> rows != []
    requires |Shown(rows)| <= max.outputBytes && SpanCount(rows) <= max.spans && |rows| <= max.lines
    requires lines == Finished(t, rows, max, truncated)
    ensures |Shown(lines)| <= max.outputBytes && SpanCount(lines) <= max.spans && |lines| <= max.lines
  {
    if truncated && Positive(max) {
      var marker := Marker(max.outputBytes);
      MarkedBounded(t, rows, marker, max.outputBytes - |marker|, max.spans, lines);
    }
  }

  lemma {:induction false} LaidPartMeans(t: Terminal, d: Decoder, multiline: bool, max: Limits)
    requires d.styles != []
    ensures var l := LaidPart(t, d, multiline, max);
      LaysOut(t, t.clusters(d.logical), multiline, l) && (max.lines == 0 ==> l == NothingLaid())
    ensures var l := LaidPart(t, d, multiline, max);
      && Counted(Rows(l, max), l.bytes, l.spans)
      && l.bytes <= max.outputBytes && l.spans <= max.spans && |Rows(l, max)| <= max.lines
  {
    var clusters := t.clusters(d.logical);
    NothingLaysOut(t, clusters, multiline);
    WithinLaysOut(t, clusters, d.styles, multiline, max, NothingLaid());
    LaidExact(t, clusters, d.styles, multiline, max, NothingLaid());
  }

  /** A complete layout shows the whole rendering. */
  lemma {:induction false} RowsShown(t: Terminal, clusters: seq<Bytes>, multiline: bool, max: Limits, l: Layout)
    requires LaysOut(t, clusters, multiline, l) && (max.lines == 0 ==> l == NothingLaid())
    ensures Shown(Rows(l, max)) <= Render(t, clusters, 0, multiline)
    ensures l.index == |clusters| ==> Shown(Rows(l, max)) == Render(t, clusters, 0, multiline)
  {
    var rest := Render(t, clusters[l.index..], l.column, multiline);
    if l.index == |clusters| {
      assert clusters[l.index..] == [] && Shown(l.done + [l.line]) + [] == Shown(l.done + [l.line]);
    }
  }

  /** What is not truncated is shown whole: the rendering of the text of all bytes. */
  lemma {:induction false} WholeShown(t: Terminal, bytes: Bytes, max: Limits, sgr: bool, multiline: bool)
    requires Sensible(t) && Fits(t, bytes, max, sgr, multiline)
    ensures var r := Displayed(t, bytes, max, sgr, multiline);
      && r.inputBytes == |bytes|
      && Shown(r.lines) == Render(t, t.clusters(TextOf(t, bytes, sgr, DEFAULT_STYLE)), 0, multiline)
  {
    TruncatedExactly(t, bytes, max, sgr, multiline);
    assert Input(bytes, max) == bytes;
    DecodedPartKeeps(t, bytes, sgr, max);
    DecodedComplete(t, bytes, sgr, max);
    NothingDecodes(t, bytes, sgr);
    WholeDecodes(t, bytes, sgr, NothingDecoded());
    var d := DecodedPart(t, bytes, sgr, max);
    LaidPartMeans(t, d, multiline, max);
    RowsShown(t, t.clusters(d.logical), multiline, max, LaidPart(t, d, multiline, max));
  }

  /**
   * What is truncated shows, when the limits allow it, a beginning of the rendering and then the marker. The text
   * decoded is a beginning of the input's; where decoding or laying out stopped short of its end, the next step
   * would have passed a limit; and nothing is deleted for the marker when it fits anyway.
   */
  lemma {:induction false} TruncatedShown(t: Terminal, bytes: Bytes, max: Limits, sgr: bool, multiline: bool)
    returns (d: Decoder, l: Layout)
    requires Sensible(t) && Positive(max) && !Fits(t, bytes, max, sgr, multiline)
    ensures var input := Input(bytes, max);
      && d == DecodedPart(t, input, sgr, max) && d.styles != [] && d.offset <= |input|
      && d.logical <= TextOf(t, input, sgr, DEFAULT_STYLE)
      && (d.offset < |input| ==> !DecoderFits(Decoded(t, input, sgr, d), max.outputBytes, max.spans))
    ensures var clusters := t.clusters(d.logical);
      && l == LaidPart(t, d, multiline, max) && l.index <= |clusters| && l.styleIndex < |d.styles|
      && (l.index < |clusters| ==> !LayoutFits(LaidOut(t, clusters, d.styles, multiline, l), max))
      && Shown(Rows(l, max)) <= Render(t, clusters, 0, multiline)
      && (l.index == |clusters| ==> Shown(Rows(l, max)) == Render(t, clusters, 0, multiline))
    ensures Displayed(t, bytes, max, sgr, multiline).lines == Finished(t, Rows(l, max), max, true)
  {
    TruncatedExactly(t, bytes, max, sgr, multiline);
    var input := Input(bytes, max);
    DecodedPartKeeps(t, input, sgr, max);
    DecodedExact(t, input, sgr, max.outputBytes, max.spans, NothingDecoded());
    d := DecodedPart(t, input, sgr, max);
    l := LaidPart(t, d, multiline, max);
    var clusters := t.clusters(d.logical);
    LaidPartMeans(t, d, multiline, max);
    LaidExact(t, clusters, d.styles, multiline, max, NothingLaid());
    RowsShown(t, clusters, multiline, max, l);
  }

  // ----- The style of everything shown -----

  /** One byte shown in a style, or the end of a line. */
  datatype Cell = Shows(content: byte, style: Style) | EndOfLine

  function Painted(content: Bytes, style: Style): seq<Cell> {
    seq(|content|, i requires 0 <= i < |content| => Shows(content[i], style))
  }

  function LineCells(line: Line): seq<Cell> {
    if line == [] then []
    else LineCells(line[..|line| - 1]) + Painted(line[|line| - 1].content, line[|line| - 1].style)
  }

  /** Everything the lines show, with its style. */
  function Cells(lines: seq<Line>): seq<Cell> {
    if lines == [] then []
    else if |lines| == 1 then LineCells(lines[0])
    else Cells(lines[..|lines| - 1]) + [EndOfLine] + LineCells(lines[|lines| - 1])
  }

  /** The style in force for each byte of the text of some bytes: that of the last style sequence before it. */
  function StylesOf(t: Terminal, bytes: Bytes, sgr: bool, style: Style): (styles: seq<Style>)
    requires Sensible(t)
    ensures |styles| == |TextOf(t, bytes, sgr, style)|
    decreases |bytes|
  {
    if bytes == [] then []
    else if sgr && t.sgr(bytes, style).Some? then
      var s := t.sgr(bytes, style).value;
      StylesOf(t, bytes[s.length..], sgr, s.style)
    else seq(|Value(bytes)|, i => style) + StylesOf(t, bytes[ValueLength(bytes)..], sgr, style)
  }

  /** No cluster is empty, and their lengths add up. */
  predicate Covers(clusters: seq<Bytes>, length: nat) {
    if clusters == [] then length == 0
    else 0 < |clusters[0]| <= length && Covers(clusters[1..], length - |clusters[0]|)
  }

  /** Segmentation cuts each text up. */
  ghost predicate Segments(t: Terminal) {
    forall text: Bytes :: Covers(t.clusters(text), |text|)
  }

  /** The whole rendering of some clusters: each symbol in the style in force where its cluster starts. */
  function RenderCells(t: Terminal, clusters: seq<Bytes>, styles: seq<Style>, column: nat, multiline: bool): seq<Cell>
    requires Covers(clusters, |styles|)
  {
    if clusters == [] then []
    else
      var rest := styles[|clusters[0]|..];
      if Breaks(clusters[0], multiline) then [EndOfLine] + RenderCells(t, clusters[1..], rest, 0, multiline)
      else
        var (symbol, width) := Symbol(t, clusters[0], column, multiline);
        Painted(symbol, styles[0]) + RenderCells(t, clusters[1..], rest, column + width, multiline)
  }

  lemma {:induction false} PaintedConcat(a: Bytes, b: Bytes, style: Style)
    ensures Painted(a + b, style) == Painted(a, style) + Painted(b, style)
  {
  }

  lemma {:induction false} LineCellsSnoc(line: Line, span: Span)
    ensures LineCells(line + [span]) == LineCells(line) + Painted(span.content, span.style)
  {
    assert (line + [span])[..|line|] == line;
  }

  lemma {:induction false} CellsSnoc(lines: seq<Line>, line: Line)
    ensures Cells(lines + [line])
            == if lines == [] then LineCells(line) else Cells(lines) + [EndOfLine] + LineCells(line)
  {
    assert (lines + [line])[..|lines|] == lines;
  }

  lemma {:induction false} CellsRegroup(a: seq<Cell>, b: seq<Cell>, c: seq<Cell>)
    ensures a + b + c == a + (b + c)
  {
  }

  lemma {:induction false} AddedCells(done: seq<Line>, line: Line, symbol: Bytes, style: Style)
    ensures Cells(done + [Added(line, symbol, style)]) == Cells(done + [line]) + Painted(symbol, style)
  {
    AddedLineCells(line, symbol, style);
    CellsSnoc(done, line);
    CellsSnoc(done, Added(line, symbol, style));
    if done != [] {
      CellsRegroup(Cells(done) + [EndOfLine], LineCells(line), Painted(symbol, style));
    }
  }

  lemma {:induction false} AddedLineCells(line: Line, symbol: Bytes, style: Style)
    ensures LineCells(Added(line, symbol, style)) == LineCells(line) + Painted(symbol, style)
  {
    if line != [] && line[|line| - 1].style == style {
      var init, content := line[..|line| - 1], line[|line| - 1].content;
      LineCellsSnoc(init, Span(content + symbol, style));
      PaintedConcat(content, symbol, style);
      CellsRegroup(LineCells(init), Painted(content, style), Painted(symbol, style));
    } else {
      LineCellsSnoc(line, Span(symbol, style));
    }
  }

  // ----- Style runs -----

  /** The run in force at an offset: the last one that does not start after it. */
  predicate Rules(styles: seq<StyleRun>, r: nat, at: nat) {
    r < |styles| && styles[r].at <= at && (r + 1 < |styles| ==> at < styles[r + 1].at)
  }

  predicate RunsOrdered(styles: seq<StyleRun>) {
    styles != [] && styles[0].at == 0 && forall i, j | 0 <= i < j < |styles| :: styles[i].at < styles[j].at
  }

  /** The runs give each of these bytes its style. */
  ghost predicate RunsGive(styles: seq<StyleRun>, given: seq<Style>) {
    forall r: nat, at: nat | at < |given| && Rules(styles, r, at) :: styles[r].style == given[at]
  }

  /** The runs give what was decoded the styles in force, and the rest goes on with the style that stands. */
  ghost predicate Carries(t: Terminal, input: Bytes, sgr: bool, d: Decoder)
    requires Sensible(t)
  {
    && d.offset <= |input| && d.styles != []
    && Carried(StylesOf(t, input, sgr, DEFAULT_STYLE), d, StylesOf(t, input[d.offset..], sgr, d.style))
  }

  /** Of the styles of a text, the runs give those of the part that is decoded, and the others are those of the rest. */
  ghost predicate Carried(whole: seq<Style>, d: Decoder, rest: seq<Style>) {
    && RunsOrdered(d.styles) && d.styles[|d.styles| - 1].at <= |d.logical| <= |whole|
    && d.styles[|d.styles| - 1].style == d.style && whole[|d.logical|..] == rest
    && RunsGive(d.styles, whole[..|d.logical|])
  }

  lemma {:induction false} RestyledGives(styles: seq<StyleRun>, at: nat, style: Style, given: seq<Style>)
    requires RunsOrdered(styles) && styles[|styles| - 1].at <= at == |given| && RunsGive(styles, given)
    ensures var next := Restyled(styles, at, style);
      && RunsOrdered(next) && next[|next| - 1] == StyleRun(at, style) && RunsGive(next, given)
  {
    var next := Restyled(styles, at, style);
    forall r: nat, k: nat | k < |given| && Rules(next, r, k)
      ensures next[r].style == given[k]
    {
      assert Rules(styles, r, k);
    }
  }

  /** The last run goes on as far as the text does. */
  lemma {:induction false} LastRunGives(styles: seq<StyleRun>, given: seq<Style>, longer: seq<Style>)
    requires RunsOrdered(styles) && styles[|styles| - 1].at <= |given| && RunsGive(styles, given) && given <= longer
    requires forall k | |given| <= k < |longer| :: longer[k] == styles[|styles| - 1].style
    ensures RunsGive(styles, longer)
  {
    forall r: nat, k: nat | k < |longer| && Rules(styles, r, k)
      ensures styles[r].style == longer[k]
    {
      assert r + 1 < |styles| ==> styles[r + 1].at <= styles[|styles| - 1].at;
      if k < |given| {
        assert given[k] == longer[k];
      }
    }
  }

  lemma {:induction false} DecodedCarries(t: Terminal, input: Bytes, sgr: bool, d: Decoder)
    requires Sensible(t) && d.offset < |input| && Carries(t, input, sgr, d)
    ensures Carries(t, input, sgr, Decoded(t, input, sgr, d))
  {
    hide Carried, Restyled, StylesOf, TextOf, Value, ValueLength;
    var whole, left, next := StylesOf(t, input, sgr, DEFAULT_STYLE), input[d.offset..], Decoded(t, input, sgr, d);
    StylesNext(t, left, sgr, d.style);
    if sgr && t.sgr(left, d.style).Some? {
      assert left[t.sgr(left, d.style).value.length..] == input[next.offset..];
      StyleCarried(whole, d, next, StylesOf(t, input[next.offset..], sgr, next.style));
    } else {
      assert left[ValueLength(left)..] == input[next.offset..];
      ValueCarries(whole, d, next, Value(left), StylesOf(t, input[next.offset..], sgr, d.style));
    }
  }

  lemma {:induction false} StyleCarried(whole: seq<Style>, d: Decoder, next: Decoder, rest: seq<Style>)
    requires d.styles != [] && Carried(whole, d, rest) && next.logical == d.logical
    requires next.styles == if next.style != d.style then Restyled(d.styles, |d.logical|, next.style) else d.styles
    ensures Carried(whole, next, rest)
  {
    hide RunsGive, Restyled;
    if next.style != d.style {
      RestyledGives(d.styles, |d.logical|, next.style, whole[..|d.logical|]);
    }
  }

  lemma {:induction false} StylesNext(t: Terminal, bytes: Bytes, sgr: bool, style: Style)
    requires Sensible(t) && bytes != []
    ensures StylesOf(t, bytes, sgr, style)
            == if sgr && t.sgr(bytes, style).Some?
               then StylesOf(t, bytes[t.sgr(bytes, style).value.length..], sgr, t.sgr(bytes, style).value.style)
               else seq(|Value(bytes)|, i => style) + StylesOf(t, bytes[ValueLength(bytes)..], sgr, style)
  {
    hide TextOf, Value, ValueLength;
  }

  lemma {:induction false} ValueCarries(whole: seq<Style>, d: Decoder, next: Decoder, value: Bytes, rest: seq<Style>)
    requires d.styles != [] && Carried(whole, d, seq(|value|, i => d.style) + rest)
    requires next.logical == d.logical + value && next.styles == d.styles && next.style == d.style
    ensures Carried(whole, next, rest)
  {
    hide RunsGive, RunsOrdered;
    RunsExist(d.styles);
    var n := |d.logical|;
    assert whole[n + |value|..] == whole[n..][|value|..] == rest;
    assert forall k | n <= k < n + |value| :: whole[k] == whole[n..][k - n] == d.style;
    LastRunGives(d.styles, whole[..n], whole[..n + |value|]);
  }

  lemma {:induction false} RunsExist(styles: seq<StyleRun>)
    requires RunsOrdered(styles)
    ensures styles != []
  {
  }

  lemma {:induction false} WithinCarries(t: Terminal, input: Bytes, sgr: bool, contentLimit: nat, spanLimit: nat,
                                         d: Decoder)
    requires Sensible(t) && Carries(t, input, sgr, d)
    ensures Carries(t, input, sgr, DecodedWithin(t, input, sgr, contentLimit, spanLimit, d))
    decreases |input| - d.offset
  {
    if d.offset < |input| && DecoderFits(Decoded(t, input, sgr, d), contentLimit, spanLimit) {
      DecodedCarries(t, input, sgr, d);
      WithinCarries(t, input, sgr, contentLimit, spanLimit, Decoded(t, input, sgr, d));
    }
  }

  /** The runs of the part that is decoded give each of its bytes the style in force. */
  lemma {:induction false} PartCarries(t: Terminal, input: Bytes, sgr: bool, limits: Limits)
    requires Sensible(t)
    ensures Carries(t, input, sgr, DecodedPart(t, input, sgr, limits))
  {
    assert input[0..] == input;
    var whole := StylesOf(t, input, sgr, DEFAULT_STYLE);
    assert whole[0..] == whole && whole[..0] == [];
    assert Carries(t, input, sgr, NothingDecoded());
    WithinCarries(t, input, sgr, limits.outputBytes, limits.spans, NothingDecoded());
  }

  // ----- Laying out keeps the styles -----

  lemma {:induction false} StyleAtRules(styles: seq<StyleRun>, index: nat, at: nat)
    requires index < |styles| && styles[index].at <= at
    ensures Rules(styles, StyleAt(styles, index, at), at)
    decreases |styles| - index
  {
    if index + 1 < |styles| && styles[index + 1].at <= at {
      StyleAtRules(styles, index + 1, at);
    }
  }

  /** What was laid out, followed by the rendering of the rest, is the whole rendering, styles included. */
  predicate Colors(t: Terminal, clusters: seq<Bytes>, runs: seq<StyleRun>, given: seq<Style>, multiline: bool,
                   l: Layout)
    requires Covers(clusters, |given|)
  {
    && l.index <= |clusters| && l.at <= |given| && Covers(clusters[l.index..], |given[l.at..]|)
    && l.styleIndex < |runs| && runs[l.styleIndex].at <= l.at
    && Cells(l.done + [l.line]) + RenderCells(t, clusters[l.index..], given[l.at..], l.column, multiline)
       == RenderCells(t, clusters, given, 0, multiline)
  }

  lemma {:induction false} RenderCellsNext(t: Terminal, clusters: seq<Bytes>, given: seq<Style>, i: nat, at: nat,
                                           column: nat, multiline: bool)
    requires i < |clusters| && at <= |given| && Covers(clusters[i..], |given[at..]|)
    ensures 0 < |clusters[i]| <= |given| - at && Covers(clusters[i + 1..], |given[at + |clusters[i]|..]|)
    ensures RenderCells(t, clusters[i..], given[at..], column, multiline)
            == var rest := given[at + |clusters[i]|..];
               if Breaks(clusters[i], multiline)
               then [EndOfLine] + RenderCells(t, clusters[i + 1..], rest, 0, multiline)
               else Painted(Symbol(t, clusters[i], column, multiline).0, given[at])
                    + RenderCells(t, clusters[i + 1..], rest, column + Symbol(t, clusters[i], column, multiline).1,
                                  multiline)
  {
    assert clusters[i..][0] == clusters[i] && clusters[i..][1..] == clusters[i + 1..];
    assert given[at..][|clusters[i]|..] == given[at + |clusters[i]|..] && given[at..][0] == given[at];
  }

  lemma {:induction false} LaidOutColors(t: Terminal, clusters: seq<Bytes>, runs: seq<StyleRun>, given: seq<Style>,
                                         multiline: bool, l: Layout)
    requires Covers(clusters, |given|) && RunsGive(runs, given) && l.index < |clusters|
    requires Colors(t, clusters, runs, given, multiline, l)
    ensures Colors(t, clusters, runs, given, multiline, LaidOut(t, clusters, runs, multiline, l))
  {
    hide Cells, RenderCells, Covers, Added, StyleAt;
    var next, cluster := LaidOut(t, clusters, runs, multiline, l), clusters[l.index];
    StyleAtRules(runs, l.styleIndex, l.at);
    RenderCellsNext(t, clusters, given, l.index, l.at, l.column, multiline);
    var rest := RenderCells(t, clusters[next.index..], given[next.at..], next.column, multiline);
    if Breaks(cluster, multiline) {
      CellsSnoc(next.done, []);
      EmptyLineCells();
      assert Cells(next.done) + [EndOfLine] + [] == Cells(next.done) + [EndOfLine];
      CellsRegroup(Cells(next.done), [EndOfLine], rest);
    } else {
      var symbol, style := Symbol(t, cluster, l.column, multiline).0, runs[next.styleIndex].style;
      AddedCells(l.done, l.line, symbol, style);
      CellsRegroup(Cells(l.done + [l.line]), Painted(symbol, style), rest);
    }
  }

  lemma {:induction false} EmptyLineCells()
    ensures LineCells([]) == []
  {
  }

  lemma {:induction false} WithinColors(t: Terminal, clusters: seq<Bytes>, runs: seq<StyleRun>, given: seq<Style>,
                                        multiline: bool, limits: Limits, l: Layout)
    requires Covers(clusters, |given|) && RunsGive(runs, given) && Colors(t, clusters, runs, given, multiline, l)
    ensures Colors(t, clusters, runs, given, multiline, LaidWithin(t, clusters, runs, multiline, limits, l))
    decreases |clusters| - l.index
  {
    hide Colors, RunsGive;
    ColorsPlaced(t, clusters, runs, given, multiline, l);
    if l.index < |clusters| && LayoutFits(LaidOut(t, clusters, runs, multiline, l), limits) {
      LaidOutColors(t, clusters, runs, given, multiline, l);
      WithinColors(t, clusters, runs, given, multiline, limits, LaidOut(t, clusters, runs, multiline, l));
    }
  }

  lemma {:induction false} ColorsPlaced(t: Terminal, clusters: seq<Bytes>, runs: seq<StyleRun>, given: seq<Style>,
                                        multiline: bool, l: Layout)
    requires Covers(clusters, |given|) && Colors(t, clusters, runs, given, multiline, l)
    ensures l.index <= |clusters| && l.styleIndex < |runs|
  {
  }

  /** The rows show a beginning of the rendering in its styles, and all of it when the layout is complete. */
  lemma {:induction false} RowsColored(t: Terminal, clusters: seq<Bytes>, runs: seq<StyleRun>, given: seq<Style>,
                                       multiline: bool, max: Limits)
    requires Covers(clusters, |given|) && RunsOrdered(runs) && RunsGive(runs, given)
    ensures var l := LaidWithin(t, clusters, runs, multiline, max, NothingLaid());
      var whole := RenderCells(t, clusters, given, 0, multiline);
      Cells(Rows(l, max)) <= whole && (l.index == |clusters| ==> Cells(Rows(l, max)) == whole)
  {
    hide RunsGive, Covers;
    NothingColors(t, clusters, runs, given, multiline);
    WithinColors(t, clusters, runs, given, multiline, max, NothingLaid());
    var l := LaidWithin(t, clusters, runs, multiline, max, NothingLaid());
    LaidExact(t, clusters, runs, multiline, max, NothingLaid());
    if max.lines == 0 {
      NothingRendered(t, clusters, given, multiline);
    } else if l.index == |clusters| {
      assert clusters[l.index..] == [];
      var rest := RenderCells(t, clusters[l.index..], given[l.at..], l.column, multiline);
      assert Cells(l.done + [l.line]) + rest == Cells(l.done + [l.line]);
    }
  }

  lemma {:induction false} NothingRendered(t: Terminal, clusters: seq<Bytes>, given: seq<Style>, multiline: bool)
    requires Covers(clusters, |given|)
    ensures clusters == [] ==> RenderCells(t, clusters, given, 0, multiline) == []
    ensures Cells([]) == []
  {
  }

  lemma {:induction false} NothingColors(t: Terminal, clusters: seq<Bytes>, runs: seq<StyleRun>, given: seq<Style>,
                                         multiline: bool)
    requires Covers(clusters, |given|) && RunsOrdered(runs)
    ensures Colors(t, clusters, runs, given, multiline, NothingLaid())
  {
    CellsSnoc([], []);
    EmptyLineCells();
    var none := NothingLaid();
    assert clusters[0..] == clusters && given[0..] == given && none.done + [none.line] == [none.line];
    assert [] + RenderCells(t, clusters, given, 0, multiline) == RenderCells(t, clusters, given, 0, multiline);
  }

  /** The styles of the decoded part are those in force at the front of the text. */
  function PartStyles(t: Terminal, input: Bytes, sgr: bool, d: Decoder): seq<Style>
    requires Sensible(t) && |d.logical| <= |TextOf(t, input, sgr, DEFAULT_STYLE)|
  {
    StylesOf(t, input, sgr, DEFAULT_STYLE)[..|d.logical|]
  }

  /** What is laid out of the decoded part is in the styles in force. */
  lemma {:induction false} PartColored(t: Terminal, input: Bytes, max: Limits, sgr: bool, multiline: bool)
    returns (d: Decoder, l: Layout)
    requires Sensible(t) && Segments(t)
    ensures d == DecodedPart(t, input, sgr, max) && d.styles != [] && l == LaidPart(t, d, multiline, max)
    ensures |d.logical| <= |TextOf(t, input, sgr, DEFAULT_STYLE)|
    ensures Covers(t.clusters(d.logical), |d.logical|)
    ensures var whole := RenderCells(t, t.clusters(d.logical), PartStyles(t, input, sgr, d), 0, multiline);
      && Cells(Rows(l, max)) <= whole
      && (l.index == |t.clusters(d.logical)| ==> Cells(Rows(l, max)) == whole)
  {
    hide RunsGive, Covers, DecodedPart, LaidWithin, RenderCells, Cells, Rows;
    d := DecodedPart(t, input, sgr, max);
    PartCarries(t, input, sgr, max);
    l := LaidPart(t, d, multiline, max);
    RowsColored(t, t.clusters(d.logical), d.styles, PartStyles(t, input, sgr, d), multiline, max);
  }

  /** What is not truncated is shown in the styles in force: every symbol of the text of all bytes. */
  lemma {:induction false} WholeColored(t: Terminal, bytes: Bytes, max: Limits, sgr: bool, multiline: bool)
    requires Sensible(t) && Segments(t) && Fits(t, bytes, max, sgr, multiline)
    ensures var text, styles := TextOf(t, bytes, sgr, DEFAULT_STYLE), StylesOf(t, bytes, sgr, DEFAULT_STYLE);
      && Covers(t.clusters(text), |styles|)
      && Cells(Displayed(t, bytes, max, sgr, multiline).lines) == RenderCells(t, t.clusters(text), styles, 0, multiline)
  {
    hide RenderCells, Cells, Covers, DecodedPart, DecodedWhole, LaidWithin, LaidWhole, Rows;
    TruncatedExactly(t, bytes, max, sgr, multiline);
    assert Input(bytes, max) == bytes;
    DecodedPartKeeps(t, bytes, sgr, max);
    DecodedComplete(t, bytes, sgr, max);
    NothingDecodes(t, bytes, sgr);
    WholeDecodes(t, bytes, sgr, NothingDecoded());
    var d, l := PartColored(t, bytes, max, sgr, multiline);
    assert PartStyles(t, bytes, sgr, d) == StylesOf(t, bytes, sgr, DEFAULT_STYLE);
    LaidPartMeans(t, d, multiline, max);
  }

  // ----- Truncation keeps the styles of what is kept -----

  lemma {:induction false} PaintedCut(content: Bytes, end: nat, style: Style)
    requires end <= |content|
    ensures Painted(content[..end], style) <= Painted(content, style)
  {
  }

  lemma {:induction false} CutCells(line: Line, end: nat)
    requires line != [] && end <= |line[|line| - 1].content|
    ensures LineCells(CutLine(line, end)) <= LineCells(line)
  {
    var init, last := line[..|line| - 1], line[|line| - 1];
    if end == 0 {
      assert CutLine(line, end) == init;
    } else {
      LineCellsSnoc(init, Span(last.content[..end], last.style));
      PaintedCut(last.content, end, last.style);
    }
  }

  lemma {:induction false} WithoutEndCells(t: Terminal, lines: seq<Line>, bytes: nat, keep: nat)
    requires lines != [] && lines != [[]]
    ensures Cells(WithoutEnd(t, lines, bytes, keep)) <= Cells(lines)
  {
    hide CutLine, CutAt;
    var done, line := lines[..|lines| - 1], lines[|lines| - 1];
    assert lines == done + [line];
    CellsSnoc(done, line);
    if line != [] {
      var end := CutAt(t, line[|line| - 1].content, SaturatingSub(bytes, keep));
      CutCells(line, end);
      CellsSnoc(done, CutLine(line, end));
    }
  }

  lemma {:induction false} ShortenedCells(t: Terminal, lines: seq<Line>, keep: nat, spanLimit: nat)
    requires lines != []
    ensures Cells(Shortened(t, lines, keep, spanLimit)) <= Cells(lines)
    decreases |Shown(lines)|, SpanCount(lines)
  {
    hide Cells, WithoutEnd;
    if lines != [[]] && !HasRoom(lines, |Shown(lines)|, SpanCount(lines), keep, spanLimit) {
      var next := WithoutEnd(t, lines, |Shown(lines)|, keep);
      WithoutEndShown(t, lines, |Shown(lines)|, keep);
      WithoutEndCells(t, lines, |Shown(lines)|, keep);
      ShortenedCells(t, next, keep, spanLimit);
    }
  }

  /** The style of the marker: the default one, or that of the last span when no other span may be added. */
  function MarkStyle(lines: seq<Line>, spanLimit: nat): Style
    requires lines != []
  {
    var line := lines[|lines| - 1];
    if line != [] && SpanCount(lines) == spanLimit then line[|line| - 1].style else DEFAULT_STYLE
  }

  lemma {:induction false} MarkedCells(lines: seq<Line>, marker: Bytes, spanLimit: nat)
    requires lines != []
    ensures Cells(Marked(lines, marker, spanLimit)) == Cells(lines) + Painted(marker, MarkStyle(lines, spanLimit))
  {
    hide Cells, Added, Painted;
    var done, line := lines[..|lines| - 1], lines[|lines| - 1];
    assert lines == done + [line];
    AddedCells(done, line, marker, MarkStyle(lines, spanLimit));
  }

  /** What is truncated shows a beginning of the rendering in the styles in force, and then the marker in its own. */
  lemma {:induction false} TruncatedColored(t: Terminal, bytes: Bytes, max: Limits, sgr: bool, multiline: bool)
    returns (d: Decoder, kept: seq<Line>)
    requires Sensible(t) && Segments(t) && Positive(max) && !Fits(t, bytes, max, sgr, multiline)
    ensures var input := Input(bytes, max);
      && d == DecodedPart(t, input, sgr, max) && |d.logical| <= |TextOf(t, input, sgr, DEFAULT_STYLE)|
      && Covers(t.clusters(d.logical), |d.logical|)
      && Cells(kept) <= RenderCells(t, t.clusters(d.logical), PartStyles(t, input, sgr, d), 0, multiline)
    ensures kept != [] && Cells(Displayed(t, bytes, max, sgr, multiline).lines)
                          == Cells(kept) + Painted(Marker(max.outputBytes), MarkStyle(kept, max.spans))
  {
    hide RenderCells, Cells, Covers, Painted, Fits, LaidPart, Displayed, DecodedPart, Finished, TextOf, LayoutFits;
    var part, l := TruncatedShown(t, bytes, max, sgr, multiline);
    d, l := PartColored(t, Input(bytes, max), max, sgr, multiline);
    kept := FinishedCells(t, Rows(l, max), max);
  }

  lemma {:induction false} FinishedCells(t: Terminal, rows: seq<Line>, max: Limits) returns (kept: seq<Line>)
    requires Positive(max) && rows != []
    ensures kept != [] && Cells(kept) <= Cells(rows)
    ensures Cells(Finished(t, rows, max, true))
            == Cells(kept) + Painted(Marker(max.outputBytes), MarkStyle(kept, max.spans))
  {
    hide Cells, Painted, Shortened, Marked;
    var marker := Marker(max.outputBytes);
    kept := Shortened(t, rows, max.outputBytes - |marker|, max.spans);
    ShortenedCells(t, rows, max.outputBytes - |marker|, max.spans);
    MarkedCells(kept, marker, max.spans);
  }

  // ----- Spans are as few as the styles allow -----

  /** Neighbouring spans differ in style. */
  predicate Joined(line: Line) {
    forall i | 0 <= i < |line| - 1 :: line[i].style != line[i + 1].style
  }

  predicate AllJoined(lines: seq<Line>) {
    forall i | 0 <= i < |lines| :: Joined(lines[i])
  }

  lemma {:induction false} AddedJoined(line: Line, symbol: Bytes, style: Style)
    requires Joined(line)
    ensures Joined(Added(line, symbol, style))
  {
  }

  lemma {:induction false} WithinJoined(t: Terminal, clusters: seq<Bytes>, styles: seq<StyleRun>, multiline: bool,
                                        limits: Limits, l: Layout)
    requires l.styleIndex < |styles| && l.index <= |clusters| && AllJoined(l.done) && Joined(l.line)
    ensures var r := LaidWithin(t, clusters, styles, multiline, limits, l); AllJoined(r.done) && Joined(r.line)
    decreases |clusters| - l.index
  {
    hide Joined, Added;
    if l.index < |clusters| {
      var next := LaidOut(t, clusters, styles, multiline, l);
      if Breaks(clusters[l.index], multiline) {
        EmptyJoined();
      } else {
        AddedJoined(l.line, Symbol(t, clusters[l.index], l.column, multiline).0, styles[next.styleIndex].style);
      }
      if LayoutFits(next, limits) {
        WithinJoined(t, clusters, styles, multiline, limits, next);
      }
    }
  }

  lemma {:induction false} EmptyJoined()
    ensures Joined([])
  {
  }

  lemma {:induction false} CutJoined(line: Line, end: nat)
    requires Joined(line) && line != [] && end <= |line[|line| - 1].content|
    ensures Joined(CutLine(line, end))
  {
  }

  lemma {:induction false} ShortenedJoined(t: Terminal, lines: seq<Line>, keep: nat, spanLimit: nat)
    requires lines != [] && AllJoined(lines)
    ensures AllJoined(Shortened(t, lines, keep, spanLimit))
    decreases |Shown(lines)|, SpanCount(lines)
  {
    hide AllJoined, WithoutEnd, HasRoom;
    if lines != [[]] && !HasRoom(lines, |Shown(lines)|, SpanCount(lines), keep, spanLimit) {
      var next := WithoutEnd(t, lines, |Shown(lines)|, keep);
      WithoutEndShown(t, lines, |Shown(lines)|, keep);
      WithoutEndJoined(t, lines, |Shown(lines)|, keep);
      ShortenedJoined(t, next, keep, spanLimit);
    }
  }

  lemma {:induction false} WithoutEndJoined(t: Terminal, lines: seq<Line>, bytes: nat, keep: nat)
    requires lines != [] && lines != [[]] && AllJoined(lines)
    ensures AllJoined(WithoutEnd(t, lines, bytes, keep))
  {
    hide Joined, CutLine, CutAt;
    var line := lines[|lines| - 1];
    if line != [] {
      CutJoined(line, CutAt(t, line[|line| - 1].content, SaturatingSub(bytes, keep)));
    }
  }

  /** In every display neighbouring spans differ in style, so that no line could show its styles in fewer spans. */
  lemma {:induction false} DisplayJoined(t: Terminal, bytes: Bytes, max: Limits, sgr: bool, multiline: bool)
    requires Sensible(t)
    ensures AllJoined(Displayed(t, bytes, max, sgr, multiline).lines)
  {
    hide Joined, LaidWithin, DecodedPart, Finished, LeavesOut;
    var input := Input(bytes, max);
    DecodedPartKeeps(t, input, sgr, max);
    var d := DecodedPart(t, input, sgr, max);
    var clusters := t.clusters(d.logical);
    EmptyJoined();
    WithinJoined(t, clusters, d.styles, multiline, max, NothingLaid());
    var l := LaidPart(t, d, multiline, max);
    FinishedJoined(t, Rows(l, max), max, LeavesOut(t, bytes, max, d, l));
  }

  lemma {:induction false} FinishedJoined(t: Terminal, rows: seq<Line>, max: Limits, truncated: bool)
    requires Positive(max) ==> rows != []
    requires AllJoined(rows)
    ensures AllJoined(Finished(t, rows, max, truncated))
  {
    hide Joined, Shortened, Added;
    if truncated && Positive(max) {
      var marker := Marker(max.outputBytes);
      var keep := max.outputBytes - |marker|;
      ShortenedJoined(t, rows, keep, max.spans);
      var kept := Shortened(t, rows, keep, max.spans);
      AddedJoined(kept[|kept| - 1], marker, MarkStyle(kept, max.spans));
    }
  }
}
