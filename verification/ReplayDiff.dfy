/** The bounded line diff shown while replaying (src/replay_tui/diff.rs). */
module ReplayDiff {
  import opened Common
  import Utf8

  const MAX_CHECKPOINT_FILE_BYTES := 1024 * 1024
  const MAX_DIFF_INPUT_LINES := 4_096
  const MAX_DIFF_TABLE_CELLS := 1_000_000
  const MAX_DIFF_OUTPUT_LINES := 4_096
  const MAX_DIFF_OUTPUT_BYTES := 256 * 1024
  /** Shown after a line without a line feed. */
  const NO_NEWLINE_AT_END_MARKER := " [no newline at end]"

  type Line = seq<byte>

  datatype DiffLineKind = Context | Insertion | Deletion

  datatype DiffLine = DiffLine(kind: DiffLineKind, text: Line, unterminated: bool)

  datatype DiffNotice = TooLarge | Binary | NoPreviousCheckpoint

  datatype DiffContent = Lines(lines: seq<DiffLine>) | Notice(notice: DiffNotice)

  datatype LogicalLine = LogicalLine(raw: Line, display: Line, terminated: bool)

  // ----- Lines of a text -----

  function LineEnd(text: seq<byte>): (n: nat)
    requires text != []
    ensures 0 < n <= |text|
    ensures n < |text| ==> text[n - 1] == LF
  {
    if text[0] == LF || |text| == 1 then 1 else 1 + LineEnd(text[1..])
  }

  /** The text cut after every line feed, as the library's `split_inclusive` does. */
  function RawLines(text: seq<byte>): seq<Line>
    decreases |text|
  {
    if text == [] then [] else [text[..LineEnd(text)]] + RawLines(text[LineEnd(text)..])
  }

  predicate Terminated(raw: Line) {
    raw != [] && raw[|raw| - 1] == LF
  }

  function Display(raw: Line): Line {
    if Terminated(raw) then raw[..|raw| - 1] else raw
  }

  function Logical(raw: Line): LogicalLine {
    LogicalLine(raw, Display(raw), Terminated(raw))
  }

  function Concat(lines: seq<Line>): seq<byte> {
    if lines == [] then [] else lines[0] + Concat(lines[1..])
  }

  lemma {:induction false} ConcatCons(first: Line, lines: seq<Line>)
    ensures Concat([first] + lines) == first + Concat(lines)
  {
    assert ([first] + lines)[1..] == lines;
  }

  lemma {:induction false} RawLinesConcat(text: seq<byte>)
    ensures Concat(RawLines(text)) == text
    decreases |text|
  {
    if text != [] {
      var first, rest := text[..LineEnd(text)], text[LineEnd(text)..];
      RawLinesConcat(rest);
      assert RawLines(text) == [first] + RawLines(rest);
      ConcatCons(first, RawLines(rest));
    }
  }

  /** Nonempty pieces of the text, each ending at its first line feed, and only the last perhaps without one. */
  predicate AreRawLines(lines: seq<Line>, text: seq<byte>) {
    && Concat(lines) == text
    && (forall i | 0 <= i < |lines| :: lines[i] != [])
    && (forall i, k | 0 <= i < |lines| && 0 <= k < |lines[i]| - 1 :: lines[i][k] != LF)
    && (forall i | 0 <= i < |lines| - 1 :: lines[i][|lines[i]| - 1] == LF)
  }

  lemma {:induction false} LineEndFirst(text: seq<byte>)
    requires text != []
    ensures forall k | 0 <= k < LineEnd(text) - 1 :: text[k] != LF
  {
    if text[0] != LF && |text| > 1 {
      LineEndFirst(text[1..]);
      assert forall k | 0 < k < LineEnd(text) - 1 :: text[k] == text[1..][k - 1];
    }
  }

  lemma {:induction false} LineEndIs(text: seq<byte>, n: nat)
    requires 0 < n <= |text| && (forall k | 0 <= k < n - 1 :: text[k] != LF) && (n < |text| ==> text[n - 1] == LF)
    ensures LineEnd(text) == n
  {
    if text[0] != LF && |text| > 1 {
      LineEndIs(text[1..], n - 1);
    }
  }

  lemma {:induction false} RawLinesAre(text: seq<byte>)
    ensures AreRawLines(RawLines(text), text)
    decreases |text|
  {
    RawLinesConcat(text);
    if text != [] {
      var lines, rest := RawLines(text), RawLines(text[LineEnd(text)..]);
      LineEndFirst(text);
      RawLinesAre(text[LineEnd(text)..]);
      assert forall i | 0 < i < |lines| :: lines[i] == rest[i - 1];
    }
  }

  lemma {:induction false} RawLinesOnly(lines: seq<Line>, text: seq<byte>)
    requires AreRawLines(lines, text)
    ensures lines == RawLines(text)
    decreases |lines|
  {
    if lines != [] {
      var rest := lines[1..];
      assert text == lines[0] + Concat(rest);
      if rest == [] {
        assert text == lines[0];
      } else {
        assert Concat(rest) == rest[0] + Concat(rest[1..]);
      }
      LineEndIs(text, |lines[0]|);
      assert text[|lines[0]|..] == Concat(rest);
      assert forall i | 0 <= i < |rest| :: rest[i] == lines[i + 1];
      RawLinesOnly(rest, text[|lines[0]|..]);
    }
  }

  /** The raw lines are the only way to cut the text like that. */
  lemma {:induction false} RawLinesExact(lines: seq<Line>, text: seq<byte>)
    ensures AreRawLines(lines, text) <==> lines == RawLines(text)
  {
    RawLinesAre(text);
    if AreRawLines(lines, text) {
      RawLinesOnly(lines, text);
    }
  }

  // ----- Longest common subsequence -----

  function Lcs<T(==)>(l: seq<T>, r: seq<T>): nat
    decreases |l| + |r|
  {
    if l == [] || r == [] then 0
    else if l[0] == r[0] then 1 + Lcs(l[1..], r[1..])
    else Max(Lcs(l[1..], r), Lcs(l, r[1..]))
  }

  predicate Subsequence<T(==)>(c: seq<T>, s: seq<T>)
    decreases |s|
  {
    c == [] || (s != [] && ((c[0] == s[0] && Subsequence(c[1..], s[1..])) || Subsequence(c, s[1..])))
  }

  lemma {:induction false} LcsBounds<T>(l: seq<T>, r: seq<T>)
    ensures Lcs(l, r) <= |l| && Lcs(l, r) <= |r|
    decreases |l| + |r|
  {
    if l != [] && r != [] {
      if l[0] == r[0] {
        LcsBounds(l[1..], r[1..]);
      } else {
        LcsBounds(l[1..], r);
        LcsBounds(l, r[1..]);
      }
    }
  }

  /** Dropping a head costs at most one and never gains. */
  lemma {:induction false} LcsDrop<T>(l: seq<T>, r: seq<T>)
    ensures l != [] ==> Lcs(l[1..], r) <= Lcs(l, r) <= 1 + Lcs(l[1..], r)
    ensures r != [] ==> Lcs(l, r[1..]) <= Lcs(l, r) <= 1 + Lcs(l, r[1..])
    decreases |l| + |r|
  {
    if l != [] && r != [] {
      LcsDrop(l[1..], r[1..]);
      LcsDrop(l[1..], r);
      LcsDrop(l, r[1..]);
    }
  }

  lemma {:induction false} SubsequenceTail<T>(c: seq<T>, s: seq<T>)
    requires c != [] && Subsequence(c, s)
    ensures Subsequence(c[1..], s)
    decreases |s|
  {
    if !(c[0] == s[0] && Subsequence(c[1..], s[1..])) {
      SubsequenceTail(c, s[1..]);
    }
  }

  /** No common subsequence is longer than `Lcs`. */
  lemma {:induction false} LcsLongest<T>(c: seq<T>, l: seq<T>, r: seq<T>)
    requires Subsequence(c, l) && Subsequence(c, r)
    ensures |c| <= Lcs(l, r)
    decreases |l| + |r|
  {
    if c != [] {
      LcsDrop(l, r);
      if c[0] == l[0] && c[0] == r[0] {
        if !Subsequence(c[1..], l[1..]) {
          SubsequenceTail(c, l[1..]);
        }
        if !Subsequence(c[1..], r[1..]) {
          SubsequenceTail(c, r[1..]);
        }
        LcsLongest(c[1..], l[1..], r[1..]);
      } else if c[0] == l[0] {
        LcsLongest(c, l, r[1..]);
      } else {
        LcsLongest(c, l[1..], r);
      }
    }
  }

  // ----- Edit scripts -----

  function Raw(line: DiffLine): Line {
    if line.unterminated then line.text else line.text + [LF]
  }

  function Shown(kind: DiffLineKind, raw: Line): DiffLine {
    DiffLine(kind, Display(raw), !Terminated(raw))
  }

  /** The lines a reader of the script sees when the given kind is left out. */
  function Without(kind: DiffLineKind, script: seq<DiffLine>): seq<Line> {
    if script == [] then []
    else (if script[0].kind == kind then [] else [Raw(script[0])]) + Without(kind, script[1..])
  }

  function Count(kind: DiffLineKind, script: seq<DiffLine>): nat {
    if script == [] then 0 else (if script[0].kind == kind then 1 else 0) + Count(kind, script[1..])
  }

  /** `script` turns the lines `l` into the lines `r`. */
  predicate Transforms(script: seq<DiffLine>, l: seq<Line>, r: seq<Line>) {
    Without(Insertion, script) == l && Without(Deletion, script) == r
  }

  function Changes(script: seq<DiffLine>): nat {
    Count(Insertion, script) + Count(Deletion, script)
  }

  /** The script the walk over the table produces. */
  function Script(l: seq<Line>, r: seq<Line>): seq<DiffLine>
    decreases |l| + |r|
  {
    if l == [] && r == [] then []
    else if l != [] && r != [] && l[0] == r[0] then [Shown(Context, l[0])] + Script(l[1..], r[1..])
    else if l != [] && (r == [] || Lcs(l[1..], r) >= Lcs(l, r[1..]))
    then [Shown(Deletion, l[0])] + Script(l[1..], r)
    else [Shown(Insertion, r[0])] + Script(l, r[1..])
  }

  lemma {:induction false} PrependOne(kind: DiffLineKind, raw: Line, rest: seq<DiffLine>)
    ensures var s := [Shown(kind, raw)] + rest;
      && Without(Insertion, s) == (if kind == Insertion then [] else [raw]) + Without(Insertion, rest)
      && Without(Deletion, s) == (if kind == Deletion then [] else [raw]) + Without(Deletion, rest)
      && forall k :: Count(k, s) == (if kind == k then 1 else 0) + Count(k, rest)
  {
    assert Raw(Shown(kind, raw)) == raw;
    assert ([Shown(kind, raw)] + rest)[1..] == rest;
  }

  /** The walk's script is an edit script. */
  lemma {:induction false} ScriptTransforms(l: seq<Line>, r: seq<Line>)
    ensures Transforms(Script(l, r), l, r)
    decreases |l| + |r|
  {
    if l != [] && r != [] && l[0] == r[0] {
      ScriptTransforms(l[1..], r[1..]);
      PrependOne(Context, l[0], Script(l[1..], r[1..]));
      assert l == [l[0]] + l[1..] && r == [r[0]] + r[1..];
    } else if l != [] && (r == [] || Lcs(l[1..], r) >= Lcs(l, r[1..])) {
      ScriptTransforms(l[1..], r);
      PrependOne(Deletion, l[0], Script(l[1..], r));
      assert l == [l[0]] + l[1..];
    } else if r != [] {
      ScriptTransforms(l, r[1..]);
      PrependOne(Insertion, r[0], Script(l, r[1..]));
      assert r == [r[0]] + r[1..];
    }
  }

  /** The walk keeps as many lines as a longest common subsequence has. */
  lemma {:induction false} ScriptContext(l: seq<Line>, r: seq<Line>)
    ensures Count(Context, Script(l, r)) == Lcs(l, r)
    decreases |l| + |r|
  {
    if l != [] && r != [] && l[0] == r[0] {
      ScriptContext(l[1..], r[1..]);
      PrependOne(Context, l[0], Script(l[1..], r[1..]));
    } else if l != [] && (r == [] || Lcs(l[1..], r) >= Lcs(l, r[1..])) {
      ScriptContext(l[1..], r);
      PrependOne(Deletion, l[0], Script(l[1..], r));
    } else if r != [] {
      ScriptContext(l, r[1..]);
      PrependOne(Insertion, r[0], Script(l, r[1..]));
    }
  }

  /** Every script accounts for both sides, and its context is a common subsequence. */
  lemma {:induction false} ScriptAccounts(script: seq<DiffLine>, l: seq<Line>, r: seq<Line>)
    requires Transforms(script, l, r)
    ensures |l| + |r| == Changes(script) + 2 * Count(Context, script)
    ensures Count(Context, script) <= Lcs(l, r)
  {
    if script != [] {
      match script[0].kind
      case Context =>
        assert l[0] == Raw(script[0]) == r[0];
        ScriptAccounts(script[1..], l[1..], r[1..]);
      case Deletion =>
        ScriptAccounts(script[1..], l[1..], r);
        LcsDrop(l, r);
      case Insertion =>
        ScriptAccounts(script[1..], l, r[1..]);
        LcsDrop(l, r);
    }
  }

  /** The walk's script has the fewest insertions and deletions of all scripts. */
  lemma {:induction false} ScriptMinimal(script: seq<DiffLine>, l: seq<Line>, r: seq<Line>)
    requires Transforms(script, l, r)
    ensures Changes(Script(l, r)) <= Changes(script)
  {
    ScriptTransforms(l, r);
    ScriptContext(l, r);
    ScriptAccounts(Script(l, r), l, r);
    ScriptAccounts(script, l, r);
  }

  function Rank(kind: DiffLineKind): nat {
    match kind
    case Context => 0
    case Deletion => 1
    case Insertion => 2
  }

  /** Equal, or at the first difference a line of the earlier kind: context before deletion before insertion. */
  predicate NoLater(script: seq<DiffLine>, other: seq<DiffLine>) {
    script == [] || other == [] || Rank(script[0].kind) < Rank(other[0].kind)
    || (script[0] == other[0] && NoLater(script[1..], other[1..]))
  }

  lemma {:induction false} TransformsHead(script: seq<DiffLine>, l: seq<Line>, r: seq<Line>)
    requires Transforms(script, l, r) && script != []
    ensures match script[0].kind
            case Context => l != [] && r != [] && l[0] == Raw(script[0]) == r[0]
                && Transforms(script[1..], l[1..], r[1..])
            case Deletion => l != [] && l[0] == Raw(script[0]) && Transforms(script[1..], l[1..], r)
            case Insertion => r != [] && r[0] == Raw(script[0]) && Transforms(script[1..], l, r[1..])
  {
  }

  /** No line of a script shows a line feed: the one at its end is told by its mark. */
  predicate Displays(script: seq<DiffLine>) {
    forall i | 0 <= i < |script| :: LF !in script[i].text
  }

  /** Line feeds only at the ends. */
  predicate EndOnly(lines: seq<Line>) {
    forall i, k | 0 <= i < |lines| && 0 <= k < |lines[i]| - 1 :: lines[i][k] != LF
  }

  lemma {:induction false} ScriptDisplays(l: seq<Line>, r: seq<Line>)
    requires EndOnly(l) && EndOnly(r)
    ensures Displays(Script(l, r))
    decreases |l| + |r|
  {
    if l != [] && r != [] && l[0] == r[0] {
      ScriptDisplays(l[1..], r[1..]);
    } else if l != [] && (r == [] || Lcs(l[1..], r) >= Lcs(l, r[1..])) {
      ScriptDisplays(l[1..], r);
    } else if r != [] {
      ScriptDisplays(l, r[1..]);
    }
  }

  /** What shows a raw line without a line feed is what the walk shows of it. */
  lemma {:induction false} ShownOnly(line: DiffLine)
    requires LF !in line.text
    ensures line == Shown(line.kind, Raw(line))
  {
    if line.unterminated {
      assert Raw(line) == line.text && !Terminated(Raw(line));
    } else {
      assert Raw(line)[|Raw(line)| - 1] == LF && Raw(line)[..|Raw(line)| - 1] == line.text;
    }
  }

  /** The fewest changes any script needs. */
  lemma {:induction false} ScriptChanges(l: seq<Line>, r: seq<Line>)
    ensures Changes(Script(l, r)) == |l| + |r| - 2 * Lcs(l, r)
  {
    ScriptTransforms(l, r);
    ScriptContext(l, r);
    ScriptAccounts(Script(l, r), l, r);
  }

  lemma {:induction false} LeastChanges(script: seq<DiffLine>, l: seq<Line>, r: seq<Line>)
    requires Transforms(script, l, r)
    ensures Changes(script) >= |l| + |r| - 2 * Lcs(l, r)
  {
    ScriptChanges(l, r);
    ScriptMinimal(script, l, r);
  }

  /**
   * Of all scripts with the fewest changes the walk's comes first: wherever another one differs first, it deletes
   * or inserts where the walk keeps a line, or inserts where the walk deletes.
   */
  lemma {:induction false} ScriptFirst(script: seq<DiffLine>, l: seq<Line>, r: seq<Line>)
    requires Transforms(script, l, r) && Displays(script) && Changes(script) == |l| + |r| - 2 * Lcs(l, r)
    ensures NoLater(Script(l, r), script)
    decreases |script|
  {
    if script != [] && Script(l, r) != [] {
      TransformsHead(script, l, r);
      ShownOnly(script[0]);
      assert Displays(script[1..]);
      LcsDrop(l, r);
      match script[0].kind
      case Context =>
        ScriptFirst(script[1..], l[1..], r[1..]);
      case Deletion =>
        LeastChanges(script[1..], l[1..], r);
        if r == [] || l[0] != r[0] {
          assert r != [] ==> Lcs(l[1..], r) >= Lcs(l, r[1..]);
          ScriptFirst(script[1..], l[1..], r);
        }
      case Insertion =>
        LeastChanges(script[1..], l, r[1..]);
        if Script(l, r)[0].kind == Insertion {
          ScriptFirst(script[1..], l, r[1..]);
        }
    }
  }

  // ----- Output budget -----

  function RenderedBytes(line: DiffLine): nat {
    |line.text| + 2 + if line.unterminated then |NO_NEWLINE_AT_END_MARKER| else 0
  }

  function ScriptBytes(script: seq<DiffLine>): nat {
    if script == [] then 0 else RenderedBytes(script[0]) + ScriptBytes(script[1..])
  }

  predicate FitsOutput(script: seq<DiffLine>) {
    |script| <= MAX_DIFF_OUTPUT_LINES && ScriptBytes(script) <= MAX_DIFF_OUTPUT_BYTES
  }

  lemma {:induction false} AppendOne(script: seq<DiffLine>, line: DiffLine)
    ensures ScriptBytes(script + [line]) == ScriptBytes(script) + RenderedBytes(line)
    ensures forall kind :: Count(kind, script + [line]) == Count(kind, script) + if line.kind == kind then 1 else 0
  {
    if script != [] {
      AppendOne(script[1..], line);
      assert (script + [line])[1..] == script[1..] + [line];
    } else {
      assert (script + [line])[1..] == [];
    }
  }

  lemma {:induction false} PrefixBytes(script: seq<DiffLine>, rest: seq<DiffLine>)
    ensures ScriptBytes(script + rest) >= ScriptBytes(script)
  {
    if script != [] {
      PrefixBytes(script[1..], rest);
      assert (script + rest)[1..] == script[1..] + rest;
    }
  }

  function TextBytes(script: seq<DiffLine>): nat {
    if script == [] then 0 else |script[0].text| + TextBytes(script[1..])
  }

  function Unterminated(script: seq<DiffLine>): nat {
    if script == [] then 0 else (if script[0].unterminated then 1 else 0) + Unterminated(script[1..])
  }

  /** The rendered bytes: the texts, two bytes for each line, and twenty for each line without a line feed. */
  lemma {:induction false} ScriptBytesAre(script: seq<DiffLine>)
    ensures ScriptBytes(script) == TextBytes(script) + 2 * |script| + 20 * Unterminated(script)
  {
    if script != [] {
      ScriptBytesAre(script[1..]);
    }
  }

  // ----- The comparison -----

  function Contents(file: Option<seq<byte>>): seq<byte> {
    if file.Some? then file.value else []
  }

  predicate LogicalLines(lines: seq<LogicalLine>, raws: seq<Line>) {
    |lines| == |raws| && forall i :: 0 <= i < |lines| ==> lines[i] == Logical(raws[i])
  }

  method SplitLines(text: seq<byte>) returns (lines: Option<seq<LogicalLine>>)
    ensures lines.None? <==> |RawLines(text)| > MAX_DIFF_INPUT_LINES
    ensures lines.Some? ==> LogicalLines(lines.value, RawLines(text))
  {
    var result: seq<LogicalLine> := [];
    var rest := text;
    while rest != []
      invariant |result| <= MAX_DIFF_INPUT_LINES
      invariant |RawLines(text)| == |result| + |RawLines(rest)|
      invariant forall i :: 0 <= i < |result| ==> result[i] == Logical(RawLines(text)[i])
      invariant RawLines(text)[|result|..] == RawLines(rest)
      decreases |rest|
    {
      if |result| == MAX_DIFF_INPUT_LINES {
        return None;
      }
      var n := LineEnd(rest);
      assert RawLines(text)[|result|] == RawLines(rest)[0] == rest[..n];
      result := result + [Logical(rest[..n])];
      rest := rest[n..];
    }
    assert RawLines(text)[|result|..] == [];
    return Some(result);
  }

  newtype u16 = x: int | 0 <= x < 0x1_0000

  function SaturatingIncrement(x: u16): u16 {
    if x == 0xFFFF then x else x + 1
  }

  /** Position of a cell in the flat table, counted row by row. */
  function At(i: nat, j: nat, width: nat): nat {
    if i == 0 then j else width + At(i - 1, j, width)
  }

  lemma {:induction false} AtProduct(i: nat, j: nat, width: nat)
    ensures At(i, j, width) == i * width + j
  {
    if i > 0 {
      AtProduct(i - 1, j, width);
    }
  }

  /** Cells of an earlier row come before cells of a later one. */
  lemma {:induction false} AtRows(i: nat, j: nat, i': nat, j': nat, width: nat)
    requires i < i' && j < width
    ensures At(i, j, width) < At(i', j', width)
  {
    if i > 0 {
      AtRows(i - 1, j, i' - 1, j', width);
    }
  }

  lemma {:induction false} AtColumns(i: nat, j: nat, j': nat, width: nat)
    requires j != j'
    ensures At(i, j, width) != At(i, j', width)
  {
    if i > 0 {
      AtColumns(i - 1, j, j', width);
    }
  }

  /** Every cell lies inside the table. */
  lemma {:induction false} AtBounds(i: nat, j: nat, width: nat, rows: nat)
    requires i < rows && j < width
    ensures At(i, j, width) < rows * width
  {
    AtRows(i, j, rows, 0, width);
    AtProduct(rows, 0, width);
  }

  /** Different cells lie at different positions. */
  lemma {:induction false} AtInjective(i: nat, j: nat, i': nat, j': nat, width: nat)
    requires j < width && j' < width && (i != i' || j != j')
    ensures At(i, j, width) != At(i', j', width)
  {
    if i < i' {
      AtRows(i, j, i', j', width);
    } else if i' < i {
      AtRows(i', j', i, j, width);
    } else {
      AtColumns(i, j, j', width);
    }
  }

  /** What the cell at row `i` and column `j` of a table of suffix lengths must hold. */
  ghost predicate CellCorrect(lengths: (nat, nat) -> nat, left: seq<LogicalLine>, right: seq<LogicalLine>, i: nat,
                              j: nat)
    requires i <= |left| && j <= |right|
  {
    && lengths(i, j) <= |left| - i
    && lengths(i, j) ==
       if i == |left| || j == |right| then 0
       else if left[i].raw == right[j].raw then 1 + lengths(i + 1, j + 1)
       else Max(lengths(i + 1, j), lengths(i, j + 1))
  }

  ghost predicate SuffixLengths(lengths: (nat, nat) -> nat, left: seq<LogicalLine>, right: seq<LogicalLine>) {
    forall i: nat, j: nat | i <= |left| && j <= |right| :: CellCorrect(lengths, left, right, i, j)
  }

  /** Every cell from row `i` on, and of row `i` from column `j` on, holds its length. */
  ghost predicate Filled(table: seq<u16>, lengths: (nat, nat) -> nat, n: nat, width: nat, i: nat, j: nat) {
    forall a: nat, b: nat | a <= n && b < width && (a > i || (a == i && b >= j)) ::
      At(a, b, width) < |table| && table[At(a, b, width)] as int == lengths(a, b)
  }

  /** Rows not reached yet are still zero. */
  ghost predicate Untouched(table: seq<u16>, width: nat, i: nat) {
    forall a: nat, b: nat | a < i && b < width :: At(a, b, width) < |table| && table[At(a, b, width)] == 0
  }

  lemma {:induction false} WriteCell(table: seq<u16>, lengths: (nat, nat) -> nat, n: nat, width: nat, i: nat, j: nat,
                                     value: u16)
    requires i < n && j < width && At(i, j, width) < |table|
    requires Filled(table, lengths, n, width, i, j + 1) && Untouched(table, width, i)
    requires value as int == lengths(i, j)
    ensures var next := table[At(i, j, width) := value];
            Filled(next, lengths, n, width, i, j) && Untouched(next, width, i)
  {
    forall a: nat, b: nat | a <= n && b < width && (a != i || b != j)
      ensures At(a, b, width) != At(i, j, width)
    {
      AtInjective(a, b, i, j, width);
    }
  }

  /** The cells one step reads are filled, and give the cell it writes. */
  lemma {:induction false} ReadCells(table: seq<u16>, lengths: (nat, nat) -> nat, left: seq<LogicalLine>,
                                     right: seq<LogicalLine>,
                  i: nat, j: nat)
    requires i < |left| <= MAX_DIFF_INPUT_LINES && j < |right| && SuffixLengths(lengths, left, right)
    requires Filled(table, lengths, |left|, |right| + 1, i, j + 1)
    ensures var width := |right| + 1;
      && At(i, j, width) < |table| && At(i + 1, j + 1, width) < |table|
      && At(i + 1, j, width) < |table| && At(i, j + 1, width) < |table|
      && lengths(i, j) == (if left[i].raw == right[j].raw then SaturatingIncrement(table[At(i + 1, j + 1, width)])
                           else if table[At(i + 1, j, width)] >= table[At(i, j + 1, width)]
                               then table[At(i + 1, j, width)]
                           else table[At(i, j + 1, width)]) as int
  {
    var width := |right| + 1;
    AtProduct(i, j, width);
    AtProduct(i, j + 1, width);
    assert CellCorrect(lengths, left, right, i, j) && CellCorrect(lengths, left, right, i + 1, j + 1);
  }

  lemma {:induction false} ZeroTable(table: seq<u16>, lengths: (nat, nat) -> nat, left: seq<LogicalLine>,
                                     right: seq<LogicalLine>)
    requires |table| == (|left| + 1) * (|right| + 1) && SuffixLengths(lengths, left, right)
    requires forall k | 0 <= k < |table| :: table[k] == 0
    ensures Filled(table, lengths, |left|, |right| + 1, |left|, 0) && Untouched(table, |right| + 1, |left|)
  {
    var width := |right| + 1;
    forall a: nat, b: nat | a <= |left| && b < width
      ensures At(a, b, width) < |table| && table[At(a, b, width)] == 0
      ensures CellCorrect(lengths, left, right, a, b)
    {
      AtBounds(a, b, width, |left| + 1);
      assert CellCorrect(lengths, left, right, a, b);
    }
  }

  /** The last column of a row needs no writing. */
  lemma {:induction false} EnterRow(table: seq<u16>, lengths: (nat, nat) -> nat, left: seq<LogicalLine>,
                                    right: seq<LogicalLine>, i: nat)
    requires i < |left| && SuffixLengths(lengths, left, right)
    requires Filled(table, lengths, |left|, |right| + 1, i + 1, 0) && Untouched(table, |right| + 1, i + 1)
    ensures Filled(table, lengths, |left|, |right| + 1, i, |right|) && Untouched(table, |right| + 1, i)
  {
    assert CellCorrect(lengths, left, right, i, |right|);
  }

  /** Fills row `i` from its last column to its first. */
  method FillRow(lcs: array<u16>, left: seq<LogicalLine>, right: seq<LogicalLine>, i: nat,
                 ghost lengths: (nat, nat) -> nat)
    requires i < |left| <= MAX_DIFF_INPUT_LINES && SuffixLengths(lengths, left, right)
    requires Filled(lcs[..], lengths, |left|, |right| + 1, i, |right|) && Untouched(lcs[..], |right| + 1, i)
    modifies lcs
    ensures Filled(lcs[..], lengths, |left|, |right| + 1, i, 0) && Untouched(lcs[..], |right| + 1, i)
  {
    var width := |right| + 1;
    for j := |right| downto 0
      invariant Filled(lcs[..], lengths, |left|, width, i, j) && Untouched(lcs[..], width, i)
    {
      ghost var was := lcs[..];
      ReadCells(was, lengths, left, right, i, j);
      var at := At(i, j, width);
      var value := if left[i].raw == right[j].raw then SaturatingIncrement(lcs[At(i + 1, j + 1, width)])
                   else if lcs[At(i + 1, j, width)] >= lcs[At(i, j + 1, width)] then lcs[At(i + 1, j, width)]
                   else lcs[At(i, j + 1, width)];
      WriteCell(was, lengths, |left|, width, i, j, value);
      lcs[at] := value;
      assert lcs[..] == was[at := value];
    }
  }

  method FillTable(left: seq<LogicalLine>, right: seq<LogicalLine>, ghost lengths: (nat, nat) -> nat)
    returns (lcs: array<u16>)
    requires |left| <= MAX_DIFF_INPUT_LINES && SuffixLengths(lengths, left, right)
    ensures fresh(lcs) && Filled(lcs[..], lengths, |left|, |right| + 1, 0, 0)
  {
    lcs := new u16[(|left| + 1) * (|right| + 1)](_ => 0);
    ZeroTable(lcs[..], lengths, left, right);
    for i := |left| downto 0
      invariant Filled(lcs[..], lengths, |left|, |right| + 1, i, 0) && Untouched(lcs[..], |right| + 1, i)
    {
      EnterRow(lcs[..], lengths, left, right, i);
      FillRow(lcs, left, right, i, lengths);
    }
  }

  /** The longest common subsequence of every pair of suffixes. */
  ghost function Suffixes(l: seq<Line>, r: seq<Line>): (nat, nat) -> nat {
    (i: nat, j: nat) => if i <= |l| && j <= |r| then Lcs(l[i..], r[j..]) else 0
  }

  lemma {:induction false} SuffixesAreLengths(left: seq<LogicalLine>, right: seq<LogicalLine>, l: seq<Line>,
                                              r: seq<Line>)
    requires LogicalLines(left, l) && LogicalLines(right, r)
    ensures SuffixLengths(Suffixes(l, r), left, right)
  {
    forall i: nat, j: nat | i <= |l| && j <= |r|
      ensures CellCorrect(Suffixes(l, r), left, right, i, j)
    {
      LcsBounds(l[i..], r[j..]);
      if i < |l| && j < |r| {
        assert l[i..][1..] == l[i + 1..] && r[j..][1..] == r[j + 1..];
      }
    }
  }

  /** The script of what is left, one line further. */
  lemma {:induction false} ScriptStep(l: seq<Line>, r: seq<Line>, i: nat, j: nat)
    requires i <= |l| && j <= |r| && (i < |l| || j < |r|)
    ensures var rest := Script(l[i..], r[j..]);
      if i < |l| && j < |r| && l[i] == r[j] then rest == [Shown(Context, l[i])] + Script(l[i + 1..], r[j + 1..])
      else if i < |l| && (j == |r| || Lcs(l[i + 1..], r[j..]) >= Lcs(l[i..], r[j + 1..]))
      then rest == [Shown(Deletion, l[i])] + Script(l[i + 1..], r[j..])
      else rest == [Shown(Insertion, r[j])] + Script(l[i..], r[j + 1..])
  {
    assert i < |l| ==> l[i..][1..] == l[i + 1..];
    assert j < |r| ==> r[j..][1..] == r[j + 1..];
  }

  /** The two cells the walk compares. */
  lemma {:induction false} ComparedCells(table: seq<u16>, l: seq<Line>, r: seq<Line>, i: nat, j: nat)
    requires Filled(table, Suffixes(l, r), |l|, |r| + 1, 0, 0) && i < |l| && j < |r|
    ensures At(i + 1, j, |r| + 1) < |table| && At(i, j + 1, |r| + 1) < |table|
    ensures table[At(i + 1, j, |r| + 1)] as int == Lcs(l[i + 1..], r[j..])
    ensures table[At(i, j + 1, |r| + 1)] as int == Lcs(l[i..], r[j + 1..])
  {
    assert Suffixes(l, r)(i + 1, j) == Lcs(l[i + 1..], r[j..]);
    assert Suffixes(l, r)(i, j + 1) == Lcs(l[i..], r[j + 1..]);
  }

  /** Taking the next line of the script moves it from what is left to what is shown. */
  lemma {:induction false} TakeLine(script: seq<DiffLine>, lines: seq<DiffLine>, line: DiffLine, rest: seq<DiffLine>)
    requires script == lines + ([line] + rest)
    ensures script == (lines + [line]) + rest
    ensures ScriptBytes(lines + [line]) == ScriptBytes(lines) + RenderedBytes(line)
    ensures Count(Insertion, lines + [line]) == Count(Insertion, lines) + if line.kind == Insertion then 1 else 0
    ensures Count(Deletion, lines + [line]) == Count(Deletion, lines) + if line.kind == Deletion then 1 else 0
    ensures !FitsOutput(lines + [line]) ==> !FitsOutput(script)
  {
    assert script == (lines + [line]) + rest;
    AppendOne(lines, line);
    PrefixBytes(lines + [line], rest);
  }

  /** Picks the next line and moves past it. */
  method Advance(left: seq<LogicalLine>, right: seq<LogicalLine>, lcs: array<u16>, i: nat, j: nat,
                 ghost l: seq<Line>, ghost r: seq<Line>)
    returns (line: DiffLine, i': nat, j': nat)
    requires LogicalLines(left, l) && LogicalLines(right, r)
    requires Filled(lcs[..], Suffixes(l, r), |left|, |right| + 1, 0, 0)
    requires i <= |l| && j <= |r| && (i < |l| || j < |r|)
    ensures i <= i' <= |l| && j <= j' <= |r| && i + j < i' + j'
    ensures Script(l[i..], r[j..]) == [line] + Script(l[i'..], r[j'..])
  {
    ScriptStep(l, r, i, j);
    var width := |right| + 1;
    i', j' := i, j;
    if i < |left| && j < |right| {
      ComparedCells(lcs[..], l, r, i, j);
    }
    if i < |left| && j < |right| && left[i].raw == right[j].raw {
      line := DiffLine(Context, left[i].display, !left[i].terminated);
      i', j' := i + 1, j + 1;
    } else if i < |left| && (j == |right| || lcs[At(i + 1, j, width)] >= lcs[At(i, j + 1, width)]) {
      line := DiffLine(Deletion, left[i].display, !left[i].terminated);
      i' := i + 1;
    } else {
      line := DiffLine(Insertion, right[j].display, !right[j].terminated);
      j' := j + 1;
    }
  }

  method Walk(left: seq<LogicalLine>, right: seq<LogicalLine>, lcs: array<u16>, ghost l: seq<Line>, ghost r: seq<Line>)
    returns (insertions: nat, deletions: nat, content: DiffContent)
    requires LogicalLines(left, l) && LogicalLines(right, r)
    requires Filled(lcs[..], Suffixes(l, r), |left|, |right| + 1, 0, 0)
    ensures FitsOutput(Script(l, r)) ==>
              && content == Lines(Script(l, r))
              && insertions == Count(Insertion, Script(l, r)) && deletions == Count(Deletion, Script(l, r))
    ensures !FitsOutput(Script(l, r)) ==> content == Notice(TooLarge) && insertions == 0 && deletions == 0
  {
    var lines: seq<DiffLine> := [];
    var outputBytes := 0;
    insertions, deletions := 0, 0;
    var i, j := 0, 0;
    ghost var script, rest := Script(l, r), Script(l, r);
    assert l[0..] == l && r[0..] == r;
    while i < |left| || j < |right|
      invariant 0 <= i <= |l| && 0 <= j <= |r|
      invariant rest == Script(l[i..], r[j..]) && script == lines + rest
      invariant FitsOutput(lines) && outputBytes == ScriptBytes(lines)
      invariant insertions == Count(Insertion, lines) && deletions == Count(Deletion, lines)
      decreases |left| - i + |right| - j
    {
      var line;
      line, i, j := Advance(left, right, lcs, i, j, l, r);
      rest := Script(l[i..], r[j..]);
      TakeLine(script, lines, line, rest);
      if line.kind == Deletion {
        deletions := deletions + 1;
      } else if line.kind == Insertion {
        insertions := insertions + 1;
      }
      var renderedBytes := |line.text| + 2 + if line.unterminated then |NO_NEWLINE_AT_END_MARKER| else 0;
      if |lines| == MAX_DIFF_OUTPUT_LINES || outputBytes + renderedBytes > MAX_DIFF_OUTPUT_BYTES {
        return 0, 0, Notice(TooLarge);
      }
      outputBytes := outputBytes + renderedBytes;
      lines := lines + [line];
    }
    assert rest == [] && script == lines;
    content := Lines(lines);
  }

  /** What a comparison of two texts shows, as (insertions, deletions, content). */
  function Comparison(a: seq<byte>, b: seq<byte>): (nat, nat, DiffContent) {
    var l, r := RawLines(a), RawLines(b);
    if |a| > MAX_CHECKPOINT_FILE_BYTES || |b| > MAX_CHECKPOINT_FILE_BYTES then (0, 0, Notice(TooLarge))
    else if !Utf8.Valid(a) || !Utf8.Valid(b) then (0, 0, Notice(Binary))
    else if |l| > MAX_DIFF_INPUT_LINES || |r| > MAX_DIFF_INPUT_LINES then (0, 0, Notice(TooLarge))
    else LineComparison(l, r)
  }

  function LineComparison(l: seq<Line>, r: seq<Line>): (nat, nat, DiffContent) {
    if (|l| + 1) * (|r| + 1) > MAX_DIFF_TABLE_CELLS then (0, 0, Notice(TooLarge))
    else if !FitsOutput(Script(l, r)) then (0, 0, Notice(TooLarge))
    else (Count(Insertion, Script(l, r)), Count(Deletion, Script(l, r)), Lines(Script(l, r)))
  }

  /** The output would be too long to show. */
  predicate Overlong(script: seq<DiffLine>) {
    || |script| > MAX_DIFF_OUTPUT_LINES
    || TextBytes(script) + 2 * |script| + 20 * Unterminated(script) > MAX_DIFF_OUTPUT_BYTES
  }

  /** Too much to compare or to show: a text, the lines of one, the table, or the script. */
  predicate Excessive(a: seq<byte>, b: seq<byte>) {
    var l, r := RawLines(a), RawLines(b);
    || |a| > MAX_CHECKPOINT_FILE_BYTES || |b| > MAX_CHECKPOINT_FILE_BYTES
    || (Utf8.Valid(a) && Utf8.Valid(b)
        && (|l| > MAX_DIFF_INPUT_LINES || |r| > MAX_DIFF_INPUT_LINES
            || (|l| + 1) * (|r| + 1) > MAX_DIFF_TABLE_CELLS || Overlong(Script(l, r))))
  }

  predicate NotBothTexts(a: seq<byte>, b: seq<byte>) {
    && |a| <= MAX_CHECKPOINT_FILE_BYTES && |b| <= MAX_CHECKPOINT_FILE_BYTES
    && !(Utf8.Valid(a) && Utf8.Valid(b))
  }

  /** Which answer a comparison gives: a notice exactly for its reason, and otherwise the whole script. */
  lemma {:induction false} ComparisonAnswers(a: seq<byte>, b: seq<byte>)
    ensures var content := Comparison(a, b).2;
      && (content == Notice(Binary) <==> NotBothTexts(a, b))
      && (content == Notice(TooLarge) <==> Excessive(a, b))
      && (content.Lines? <==> !NotBothTexts(a, b) && !Excessive(a, b))
      && (content.Lines? ==> content.lines == Script(RawLines(a), RawLines(b)))
    ensures Comparison(a, b).2.Notice? ==> Comparison(a, b).0 == 0 && Comparison(a, b).1 == 0
  {
    ScriptBytesAre(Script(RawLines(a), RawLines(b)));
  }

  /** The shown script holds both texts byte for byte. */
  lemma {:induction false} ComparisonFaithful(a: seq<byte>, b: seq<byte>)
    requires Comparison(a, b).2.Lines?
    ensures Concat(Without(Insertion, Comparison(a, b).2.lines)) == a
    ensures Concat(Without(Deletion, Comparison(a, b).2.lines)) == b
    ensures Displays(Comparison(a, b).2.lines)
  {
    RawLinesAre(a);
    RawLinesAre(b);
    ScriptDisplays(RawLines(a), RawLines(b));
    ScriptTransforms(RawLines(a), RawLines(b));
  }

  /** The counts are those of the script, and no script between the same lines has fewer changes. */
  lemma {:induction false} ComparisonMinimal(a: seq<byte>, b: seq<byte>, script: seq<DiffLine>)
    requires Comparison(a, b).2.Lines? && Transforms(script, RawLines(a), RawLines(b))
    ensures var (insertions, deletions, content) := Comparison(a, b);
      && Transforms(content.lines, RawLines(a), RawLines(b))
      && insertions == Count(Insertion, content.lines) && deletions == Count(Deletion, content.lines)
      && insertions + deletions <= Changes(script)
  {
    ScriptTransforms(RawLines(a), RawLines(b));
    ScriptMinimal(script, RawLines(a), RawLines(b));
  }

  /** No common subsequence of the lines is longer than the shown context. */
  lemma {:induction false} ComparisonContext(a: seq<byte>, b: seq<byte>, common: seq<Line>)
    requires Comparison(a, b).2.Lines?
    requires Subsequence(common, RawLines(a)) && Subsequence(common, RawLines(b))
    ensures |common| <= Count(Context, Comparison(a, b).2.lines)
  {
    ScriptContext(RawLines(a), RawLines(b));
    LcsLongest(common, RawLines(a), RawLines(b));
  }

  method CompareLines(left: seq<LogicalLine>, right: seq<LogicalLine>, ghost l: seq<Line>, ghost r: seq<Line>)
    returns (insertions: nat, deletions: nat, content: DiffContent)
    requires LogicalLines(left, l) && LogicalLines(right, r) && |left| <= MAX_DIFF_INPUT_LINES
    ensures (insertions, deletions, content) == LineComparison(l, r)
    ensures content.Lines? <==> (|l| + 1) * (|r| + 1) <= MAX_DIFF_TABLE_CELLS && !Overlong(Script(l, r))
    ensures content.Lines? ==> content.lines == Script(l, r)
  {
    ScriptBytesAre(Script(l, r));
    if (|left| + 1) * (|right| + 1) > MAX_DIFF_TABLE_CELLS {
      return 0, 0, Notice(TooLarge);
    }
    SuffixesAreLengths(left, right, l, r);
    var lcs := FillTable(left, right, Suffixes(l, r));
    insertions, deletions, content := Walk(left, right, lcs, l, r);
  }

  /** Compares two optional files; an absent file is an empty one. */
  method CompareFiles(left: Option<seq<byte>>, right: Option<seq<byte>>)
    returns (insertions: nat, deletions: nat, content: DiffContent)
    ensures (insertions, deletions, content) == Comparison(Contents(left), Contents(right))
    ensures content == Notice(Binary) <==> NotBothTexts(Contents(left), Contents(right))
    ensures content == Notice(TooLarge) <==> Excessive(Contents(left), Contents(right))
    ensures content.Notice? ==> content == Notice(Binary) || content == Notice(TooLarge)
  {
    var a, b := Contents(left), Contents(right);
    ComparisonAnswers(a, b);
    if |a| > MAX_CHECKPOINT_FILE_BYTES || |b| > MAX_CHECKPOINT_FILE_BYTES {
      return 0, 0, Notice(TooLarge);
    }
    if !Utf8.Valid(a) || !Utf8.Valid(b) {
      return 0, 0, Notice(Binary);
    }
    var leftLines := SplitLines(a);
    if leftLines.None? {
      return 0, 0, Notice(TooLarge);
    }
    var rightLines := SplitLines(b);
    if rightLines.None? {
      return 0, 0, Notice(TooLarge);
    }
    insertions, deletions, content := CompareLines(leftLines.value, rightLines.value, RawLines(a), RawLines(b));
  }
}
