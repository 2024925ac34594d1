/** Text edits and the editor state a recording session relies on (crates/editor/src/buffer.rs). */
module Editing {
  import opened Common
  import Utf8

  type Text = seq<byte>

  datatype Selection = Selection(anchor: nat, active: nat)

  datatype TextEdit = TextEdit(start: nat, end: nat, inserted: Text)

  datatype Origin =
    | Keyboard
    | Paste
    | Undo
    | Redo
    | Completion
    | AdditionalCompletionEdit
    | CodeAction
    | Formatter
    | DependencyTool
    | FileReload
    | ExternalChange
    | Unknown

  /** Steps back or forward in the history. */
  predicate Reverses(origin: Origin) {
    origin == Undo || origin == Redo
  }

  datatype Transaction = Transaction(
    versionBefore: nat,
    versionAfter: nat,
    origin: Origin,
    edits: seq<TextEdit>,
    selectionBefore: Selection,
    selectionAfter: Selection)

  /** What replay reconstructs of one open document. */
  datatype Document = Document(text: Text, version: nat, selection: Selection)

  // ----- Applying edits -----

  /** Between two scalars of the text. */
  predicate Boundary(text: Text, at: nat) {
    at <= |text| && (at == 0 || at == |text| || !Utf8.Continuation(text[at]))
  }

  /** Every string of the source does: its first byte starts a scalar. */
  predicate StartsScalar(text: Text) {
    text == [] || !Utf8.Continuation(text[0])
  }

  predicate SelectionFits(text: Text, selection: Selection) {
    Boundary(text, selection.anchor) && Boundary(text, selection.active)
  }

  /** Ordered ranges that do not overlap, each inside the text and on its boundaries. */
  predicate Canonical(text: Text, edits: seq<TextEdit>) {
    && (forall i | 0 <= i < |edits| :: edits[i].start <= edits[i].end && |edits[i].inserted| <= MAX_INSERTED_TEXT_BYTES)
    && (forall i | 0 <= i < |edits| :: Boundary(text, edits[i].start) && Boundary(text, edits[i].end))
    && (forall i | 0 < i < |edits| :: edits[i - 1].end <= edits[i].start)
  }

  predicate InOrder(length: nat, edits: seq<TextEdit>) {
    && (forall i | 0 <= i < |edits| :: edits[i].start <= edits[i].end <= length)
    && (forall i | 0 < i < |edits| :: edits[i - 1].end <= edits[i].start)
  }

  function Replace(text: Text, edit: TextEdit): Text
    requires edit.start <= edit.end <= |text|
  {
    text[..edit.start] + edit.inserted + text[edit.end..]
  }

  /** Replaces the ranges from the last to the first, so that earlier offsets stay valid. */
  function ApplyEdits(text: Text, edits: seq<TextEdit>): Text
    requires InOrder(|text|, edits)
    decreases |edits|
  {
    if edits == [] then text
    else
      var init, last := edits[..|edits| - 1], edits[|edits| - 1];
      InOrderInit(|text|, edits, |Replace(text, last)|);
      ApplyEdits(Replace(text, last), init)
  }

  lemma {:induction false} InOrderInit(length: nat, edits: seq<TextEdit>, length': nat)
    requires InOrder(length, edits) && edits != [] && length' >= edits[|edits| - 1].start
    ensures InOrder(length', edits[..|edits| - 1])
  {
    LastEndGreatest(length, edits);
  }

  lemma {:induction false} LastEndGreatest(length: nat, edits: seq<TextEdit>)
    requires InOrder(length, edits) && edits != []
    ensures forall i | 0 <= i < |edits| - 1 :: edits[i].end <= edits[|edits| - 1].start
  {
    if |edits| > 1 {
      var init := edits[..|edits| - 1];
      LastEndGreatest(length, init);
      assert edits[|edits| - 2].end <= edits[|edits| - 1].start;
      assert init[|init| - 1].start <= init[|init| - 1].end;
    }
  }

  function Removed(edits: seq<TextEdit>): nat
    requires forall i | 0 <= i < |edits| :: edits[i].start <= edits[i].end
  {
    if edits == [] then 0
    else Removed(edits[..|edits| - 1]) + (edits[|edits| - 1].end - edits[|edits| - 1].start)
  }

  function Inserted(edits: seq<TextEdit>): nat {
    if edits == [] then 0 else Inserted(edits[..|edits| - 1]) + |edits[|edits| - 1].inserted|
  }

  datatype Length = OutOfRange | Overflow | Length(bytes: nat)

  /** The length a transaction leaves, unless a range is outside the text or the ranges take out more than it. */
  function AfterLength(before: nat, edits: seq<TextEdit>): Length {
    if exists i | 0 <= i < |edits| :: !(edits[i].start <= edits[i].end <= before) then OutOfRange
    else if Removed(edits) > before then Overflow
    else Length(before - Removed(edits) + Inserted(edits))
  }

  /** The length computed from the ranges is the length of the edited text. */
  lemma {:induction false} AfterLengthExact(text: Text, edits: seq<TextEdit>)
    requires InOrder(|text|, edits)
    ensures AfterLength(|text|, edits) == Length(|ApplyEdits(text, edits)|)
  {
    ApplyLength(text, edits);
  }

  lemma {:induction false} ApplyLength(text: Text, edits: seq<TextEdit>)
    requires InOrder(|text|, edits)
    ensures Removed(edits) <= |text| && |ApplyEdits(text, edits)| == |text| - Removed(edits) + Inserted(edits)
    ensures edits != [] ==> Removed(edits) <= edits[|edits| - 1].end
    decreases |edits|
  {
    if edits != [] {
      var init, last := edits[..|edits| - 1], edits[|edits| - 1];
      InOrderInit(|text|, edits, |Replace(text, last)|);
      ApplyLength(Replace(text, last), init);
      if init != [] {
        LastEndGreatest(|text|, edits);
        assert init[|init| - 1] == edits[|init| - 1];
      }
    }
  }

  /** The length a previewed transaction will leave. */
  method TransactionAfterLength(before: nat, edits: seq<TextEdit>) returns (after: Length)
    ensures after == AfterLength(before, edits)
  {
    var removed, inserted := 0, 0;
    for i := 0 to |edits|
      invariant forall j | 0 <= j < i :: edits[j].start <= edits[j].end <= before
      invariant removed == Removed(edits[..i]) && inserted == Inserted(edits[..i])
    {
      if edits[i].start > edits[i].end || edits[i].end > before {
        return OutOfRange;
      }
      assert edits[..i + 1][..i] == edits[..i];
      removed := removed + (edits[i].end - edits[i].start);
      inserted := inserted + |edits[i].inserted|;
    }
    assert edits[..|edits|] == edits;
    return if removed > before then Overflow else Length(before - removed + inserted);
  }

  // ----- Undo history -----

  datatype HistoryEntry = HistoryEntry(
    forward: seq<TextEdit>,
    inverse: seq<TextEdit>,
    selectionBefore: Selection,
    selectionAfter: Selection)

  /** The last boundary after `start` and no later than `end`, or `end` when there is none. */
  function ChunkEnd(deleted: Text, start: nat, end: nat, at: nat): (e: nat)
    requires start < at <= end <= |deleted|
    ensures start < e <= end
    decreases at
  {
    if Boundary(deleted, at) then at else if at == start + 1 then end else ChunkEnd(deleted, start, end, at - 1)
  }

  /** Where the chunk starting at `start` ends. */
  function NextChunk(deleted: Text, start: nat): (next: nat)
    requires start < |deleted|
    ensures start < next <= |deleted| && next <= start + MAX_INSERTED_TEXT_BYTES
    ensures |deleted| <= start + MAX_INSERTED_TEXT_BYTES ==> next == |deleted|
  {
    var limit := Min(start + MAX_INSERTED_TEXT_BYTES, |deleted|);
    ChunkEnd(deleted, start, limit, limit)
  }

  /** Deleted text as insertions at one offset, each within the size bound; the last also takes the range out. */
  function ChunkEdits(deleted: Text, start: nat, at: nat, end: nat): seq<TextEdit>
    requires start < |deleted|
    decreases |deleted| - start
  {
    var next := NextChunk(deleted, start);
    if next == |deleted| then [TextEdit(at, end, deleted[start..])]
    else [TextEdit(at, at, deleted[start..next])] + ChunkEdits(deleted, next, at, end)
  }

  function InverseEdits(before: Text, edit: TextEdit): seq<TextEdit>
    requires edit.start <= edit.end <= |before|
  {
    var deleted, end := before[edit.start..edit.end], edit.start + |edit.inserted|;
    if deleted == [] then [TextEdit(edit.start, end, [])] else ChunkEdits(deleted, 0, edit.start, end)
  }

  /** Insertions at one offset within the size bound, of which the last takes out the range up to `end`. */
  predicate ChunkList(chunks: seq<TextEdit>, at: nat, end: nat) {
    && chunks != []
    && (forall i | 0 <= i < |chunks| :: chunks[i].start == at && |chunks[i].inserted| <= MAX_INSERTED_TEXT_BYTES)
    && (forall i | 0 <= i < |chunks| - 1 :: chunks[i].end == at)
    && chunks[|chunks| - 1].end == end
  }

  lemma {:induction false} ChunkListCons(chunk: Text, rest: seq<TextEdit>, at: nat, end: nat)
    requires ChunkList(rest, at, end) && |chunk| <= MAX_INSERTED_TEXT_BYTES
    ensures ChunkList([TextEdit(at, at, chunk)] + rest, at, end)
  {
  }

  lemma {:induction false} ChunkEditsShape(deleted: Text, start: nat, at: nat, end: nat)
    requires start < |deleted| && at <= end
    ensures ChunkList(ChunkEdits(deleted, start, at, end), at, end)
    decreases |deleted| - start
  {
    var next := NextChunk(deleted, start);
    if next != |deleted| {
      ChunkEditsShape(deleted, next, at, end);
      ChunkListCons(deleted[start..next], ChunkEdits(deleted, next, at, end), at, end);
    }
  }

  lemma {:induction false} ChunkListInOrder(chunks: seq<TextEdit>, at: nat, end: nat, length: nat)
    requires ChunkList(chunks, at, end) && at <= end <= length
    ensures InOrder(length, chunks)
  {
  }

  lemma {:induction false} ChunksInOrder(deleted: Text, start: nat, at: nat, end: nat, length: nat)
    requires start < |deleted| && at <= end <= length
    ensures InOrder(length, ChunkEdits(deleted, start, at, end))
  {
    ChunkEditsShape(deleted, start, at, end);
    ChunkListInOrder(ChunkEdits(deleted, start, at, end), at, end, length);
  }

  lemma {:induction false} ReplaceMiddle(head: Text, middle: Text, tail: Text, inserted: Text)
    ensures Replace(head + middle + tail, TextEdit(|head|, |head| + |middle|, inserted)) == head + inserted + tail
  {
    assert (head + middle + tail)[..|head|] == head;
    assert (head + middle + tail)[|head| + |middle|..] == tail;
  }

  lemma {:induction false} ApplyOne(text: Text, edit: TextEdit)
    requires edit.start <= edit.end <= |text|
    ensures InOrder(|text|, [edit]) && ApplyEdits(text, [edit]) == Replace(text, edit)
  {
    assert [edit][..0] == [];
  }

  /** Applying the later edits first, the first edit is applied last. */
  lemma {:induction false} ApplyFirst(text: Text, first: TextEdit, rest: seq<TextEdit>)
    requires InOrder(|text|, [first] + rest) && InOrder(|text|, rest)
    ensures first.start <= first.end <= |ApplyEdits(text, rest)|
    ensures ApplyEdits(text, [first] + rest) == Replace(ApplyEdits(text, rest), first)
    decreases |rest|
  {
    var edits := [first] + rest;
    assert edits[0] == first;
    if rest == [] {
      assert edits == [first] && edits[..0] == [];
    } else {
      var init, last := rest[..|rest| - 1], rest[|rest| - 1];
      InOrderInit(|text|, rest, |Replace(text, last)|);
      InOrderInit(|text|, edits, |Replace(text, last)|);
      assert edits[..|edits| - 1] == [first] + init;
      ApplyFirst(Replace(text, last), first, init);
    }
  }

  /** What lies between the ranges stays, and what they insert stands in their place: the text read from the front. */
  function Pieces(text: Text, from: nat, edits: seq<TextEdit>): Text
    requires InOrder(|text|, edits) && from <= |text| && (edits != [] ==> from <= edits[0].start)
    decreases |edits|
  {
    if edits == [] then text[from..]
    else
      InOrderRest(|text|, edits);
      text[from..edits[0].start] + edits[0].inserted + Pieces(text, edits[0].end, edits[1..])
  }

  lemma {:induction false} InOrderRest(length: nat, edits: seq<TextEdit>)
    requires InOrder(length, edits) && edits != []
    ensures InOrder(length, edits[1..]) && (|edits| > 1 ==> edits[0].end <= edits[1].start)
  {
    var rest := edits[1..];
    assert forall i | 0 <= i < |rest| :: rest[i] == edits[i + 1];
  }

  /** Applying the ranges from the last to the first gives the text read piece by piece from the front. */
  lemma {:induction false} AppliedPieces(text: Text, from: nat, edits: seq<TextEdit>)
    requires InOrder(|text|, edits) && from <= |text| && (edits != [] ==> from <= edits[0].start)
    ensures ApplyEdits(text, edits) == text[..from] + Pieces(text, from, edits)
    decreases |edits|
  {
    if edits == [] {
      assert text == text[..from] + text[from..];
    } else {
      var first, rest := edits[0], edits[1..];
      InOrderRest(|text|, edits);
      AppliedPieces(text, first.end, rest);
      assert edits == [first] + rest;
      ApplyFirst(text, first, rest);
      ReplacedPieces(text, from, first, Pieces(text, first.end, rest));
    }
  }

  lemma {:induction false} ReplacedPieces(text: Text, from: nat, edit: TextEdit, pieces: Text)
    requires from <= edit.start <= edit.end <= |text|
    ensures Replace(text[..edit.end] + pieces, edit)
            == text[..from] + (text[from..edit.start] + edit.inserted + pieces)
  {
    var applied := text[..edit.end] + pieces;
    assert applied[..edit.start] == text[..from] + text[from..edit.start];
    assert applied[edit.end..] == pieces;
  }

  /** Inserting one more chunk before those already inserted. */
  lemma {:induction false} RestoreChunk(head: Text, text: Text, tail: Text, chunk: Text, restored: Text,
                                        rest: seq<TextEdit>)
    requires InOrder(|text|, [TextEdit(|head|, |head|, chunk)] + rest) && InOrder(|text|, rest)
    requires ApplyEdits(text, rest) == head + restored + tail
    ensures ApplyEdits(text, [TextEdit(|head|, |head|, chunk)] + rest) == head + (chunk + restored) + tail
  {
    ApplyFirst(text, TextEdit(|head|, |head|, chunk), rest);
    ReplaceMiddle(head, [], restored + tail, chunk);
    assert head + [] + (restored + tail) == head + restored + tail;
    assert head + chunk + (restored + tail) == head + (chunk + restored) + tail;
  }

  /** Inserting the chunks where the edit was gives the deleted text back. */
  lemma {:induction false} ChunksRestore(head: Text, middle: Text, tail: Text, deleted: Text, start: nat)
    requires start < |deleted|
    ensures InOrder(|head + middle + tail|, ChunkEdits(deleted, start, |head|, |head| + |middle|))
    ensures ApplyEdits(head + middle + tail, ChunkEdits(deleted, start, |head|, |head| + |middle|))
            == head + deleted[start..] + tail
    decreases |deleted| - start
  {
    var text, end := head + middle + tail, |head| + |middle|;
    ChunksInOrder(deleted, start, |head|, end, |text|);
    var next := NextChunk(deleted, start);
    if next == |deleted| {
      ApplyOne(text, TextEdit(|head|, end, deleted[start..]));
      ReplaceMiddle(head, middle, tail, deleted[start..]);
    } else {
      ChunksRestore(head, middle, tail, deleted, next);
      RestoreChunk(head, text, tail, deleted[start..next], deleted[next..], ChunkEdits(deleted, next, |head|, end));
      assert deleted[start..next] + deleted[next..] == deleted[start..];
    }
  }

  /** Applying the inverse of an edit to the edited text restores the text. */
  lemma {:induction false} InverseRestores(before: Text, edit: TextEdit)
    requires edit.start <= edit.end <= |before|
    ensures InOrder(|Replace(before, edit)|, InverseEdits(before, edit))
    ensures ApplyEdits(Replace(before, edit), InverseEdits(before, edit)) == before
  {
    hide ApplyEdits, InOrder, ChunkEdits;
    var head, deleted, tail := before[..edit.start], before[edit.start..edit.end], before[edit.end..];
    assert before == head + deleted + tail;
    PartsRestore(head, edit.inserted, tail, deleted, Replace(before, edit), InverseEdits(before, edit));
  }

  /** The same of a text in parts. */
  lemma {:induction false} PartsRestore(head: Text, inserted: Text, tail: Text, deleted: Text, edited: Text,
                                        inverse: seq<TextEdit>)
    requires edited == head + inserted + tail
    requires inverse == if deleted == [] then [TextEdit(|head|, |head| + |inserted|, [])]
                        else ChunkEdits(deleted, 0, |head|, |head| + |inserted|)
    ensures InOrder(|edited|, inverse) && ApplyEdits(edited, inverse) == head + deleted + tail
  {
    if deleted == [] {
      ApplyOne(edited, TextEdit(|head|, |head| + |inserted|, []));
      ReplaceMiddle(head, inserted, tail, []);
    } else {
      ChunksRestore(head, inserted, tail, deleted, 0);
      assert deleted[0..] == deleted;
    }
  }

  /** One inverse edit suffices exactly while the deleted text fits one insertion. */
  lemma {:induction false} InverseIsSingle(before: Text, edit: TextEdit)
    requires edit.start <= edit.end <= |before|
    ensures |InverseEdits(before, edit)| == 1 <==> edit.end - edit.start <= MAX_INSERTED_TEXT_BYTES
  {
    var deleted := before[edit.start..edit.end];
    if deleted != [] {
      var next := NextChunk(deleted, 0);
      if next != |deleted| {
        ChunkEditsShape(deleted, next, edit.start, edit.start + |edit.inserted|);
      }
    }
  }

  // ----- The editor -----

  datatype Prepared = Rejected | NoChange | Commits(after: Text)

  /** The validation every transaction passes, live and in replay, before it changes a document. */
  function Prepare(d: Document, t: Transaction): (p: Prepared)
    ensures p.Commits? ==> Canonical(d.text, t.edits) && InOrder(|d.text|, t.edits)
  {
    if t.versionBefore != d.version || t.versionAfter != d.version + 1 || t.selectionBefore != d.selection
       || !Canonical(d.text, t.edits) || !SelectionFits(d.text, d.selection)
    then Rejected
    else
      var after := ApplyEdits(d.text, t.edits);
      if !SelectionFits(after, t.selectionAfter) then Rejected
      else if after == d.text then NoChange
      else Commits(after)
  }

  function Commit(d: Document, t: Transaction): Document
    requires Prepare(d, t).Commits?
  {
    Document(Prepare(d, t).after, t.versionAfter, t.selectionAfter)
  }

  datatype Editor = Editor(document: Document, undo: seq<HistoryEntry>, redo: seq<HistoryEntry>)

  /** Whether the codec can represent a transaction. */
  type Codec = Transaction -> bool

  /** A history entry must stay representable at any later version and selection. */
  predicate HistoryEncodes(encodes: Codec, origin: Origin, edits: seq<TextEdit>) {
    var widest := Selection(U64_MAX, U64_MAX);
    encodes(Transaction(U64_MAX - 1, U64_MAX, origin, edits, widest, widest))
  }

  function Preview(e: Editor, origin: Origin, edits: seq<TextEdit>, selectionAfter: Selection): Transaction {
    var d := e.document;
    Transaction(d.version, d.version + 1, origin, edits, d.selection, selectionAfter)
  }

  /** The transaction is the step of the history it consumes, or one plain edit. */
  predicate HistoryAllows(e: Editor, t: Transaction) {
    match t.origin
    case Undo => e.undo != [] && t.edits == e.undo[|e.undo| - 1].inverse
        && t.selectionAfter == e.undo[|e.undo| - 1].selectionBefore
    case Redo => e.redo != [] && t.edits == e.redo[|e.redo| - 1].forward
        && t.selectionAfter == e.redo[|e.redo| - 1].selectionAfter
    case _ => |t.edits| == 1
  }

  /** A plain edit also needs a history entry that the codec can represent. */
  predicate HistoryRepresentable(encodes: Codec, d: Document, t: Transaction)
    requires InOrder(|d.text|, t.edits)
  {
    (!Reverses(t.origin) && |t.edits| == 1) ==>
      HistoryEncodes(encodes, Undo, InverseEdits(d.text, t.edits[0])) && HistoryEncodes(encodes, Redo, t.edits)
  }

  /** Validates a transaction on the current editor without changing it. */
  function Validate(encodes: Codec, e: Editor, t: Transaction): (p: Prepared)
    ensures p.Commits? ==> Prepare(e.document, t) == p && HistoryAllows(e, t)
    ensures p.NoChange? ==> Prepare(e.document, t).NoChange?
  {
    var p := Prepare(e.document, t);
    if !encodes(t) || (p.Commits? && !(HistoryRepresentable(encodes, e.document, t) && HistoryAllows(e, t)))
        then Rejected
    else p
  }

  function Apply(e: Editor, t: Transaction): Editor
    requires Prepare(e.document, t).Commits? && HistoryAllows(e, t)
  {
    var d := Commit(e.document, t);
    match t.origin
    case Undo => Editor(d, e.undo[..|e.undo| - 1], e.redo + [e.undo[|e.undo| - 1]])
    case Redo => Editor(d, e.undo + [e.redo[|e.redo| - 1]], e.redo[..|e.redo| - 1])
    case _ =>
      var inverse := InverseEdits(e.document.text, t.edits[0]);
      Editor(d, e.undo + [HistoryEntry(t.edits, inverse, t.selectionBefore, t.selectionAfter)], [])
  }

  function UndoTransaction(e: Editor): Transaction
    requires e.undo != []
  {
    var entry := e.undo[|e.undo| - 1];
    Preview(e, Undo, entry.inverse, entry.selectionBefore)
  }

  function RedoTransaction(e: Editor): Transaction
    requires e.redo != []
  {
    var entry := e.redo[|e.redo| - 1];
    Preview(e, Redo, entry.forward, entry.selectionAfter)
  }

  lemma {:induction false} InverseCanonical(text: Text, edit: TextEdit)
    requires edit.start <= edit.end && Boundary(text, edit.start) && Boundary(text, edit.end)
    requires StartsScalar(text) && StartsScalar(edit.inserted)
    ensures Canonical(Replace(text, edit), InverseEdits(text, edit))
  {
    var after, at, end := Replace(text, edit), edit.start, edit.start + |edit.inserted|;
    assert Boundary(after, at) && Boundary(after, end);
    if text[edit.start..edit.end] == [] {
      assert InverseEdits(text, edit) == [TextEdit(at, end, [])];
    } else {
      ChunkEditsShape(text[edit.start..edit.end], 0, at, end);
      ChunkListCanonical(after, InverseEdits(text, edit), at, end);
    }
  }

  lemma {:induction false} ChunkListCanonical(text: Text, chunks: seq<TextEdit>, at: nat, end: nat)
    requires ChunkList(chunks, at, end) && at <= end && Boundary(text, at) && Boundary(text, end)
    ensures Canonical(text, chunks)
  {
  }

  /** The inverse of an admitted plain edit is admitted on the edited text and gives the old text back. */
  lemma {:induction false} InversePrepared(before: Document, edit: TextEdit, after: Document)
    requires StartsScalar(before.text) && StartsScalar(edit.inserted)
    requires Canonical(before.text, [edit]) && edit.start <= edit.end <= |before.text|
    requires after.text == Replace(before.text, edit) && after.text != before.text
    requires SelectionFits(before.text, before.selection) && SelectionFits(after.text, after.selection)
    ensures Prepare(after, Transaction(after.version, after.version + 1, Undo, InverseEdits(before.text, edit),
                                       after.selection, before.selection)) == Commits(before.text)
  {
    assert [edit][0] == edit;
    InverseRestores(before.text, edit);
    InverseCanonical(before.text, edit);
  }

  /** After a plain edit, undo is admitted and restores the text and the selection the edit replaced. */
  lemma {:induction false} UndoAdmitted(e: Editor, edited: Editor, t: Transaction)
    requires |t.edits| == 1 && !Reverses(t.origin)
    requires StartsScalar(e.document.text) && StartsScalar(t.edits[0].inserted)
    requires Prepare(e.document, t).Commits? && edited == Apply(e, t)
    ensures edited.undo != [] && HistoryAllows(edited, UndoTransaction(edited))
    ensures Prepare(edited.document, UndoTransaction(edited)) == Commits(e.document.text)
  {
    assert t.edits == [t.edits[0]];
    ApplyOne(e.document.text, t.edits[0]);
    InversePrepared(e.document, t.edits[0], edited.document);
  }

  /** Undoing a plain edit restores the text and the selection it replaced. */
  lemma {:induction false} UndoAfterEdit(e: Editor, edited: Editor, t: Transaction)
    requires |t.edits| == 1 && !Reverses(t.origin)
    requires StartsScalar(e.document.text) && StartsScalar(t.edits[0].inserted)
    requires Prepare(e.document, t).Commits? && edited == Apply(e, t)
    ensures edited.undo != [] && HistoryAllows(edited, UndoTransaction(edited))
    ensures Prepare(edited.document, UndoTransaction(edited)).Commits?
    ensures Apply(edited, UndoTransaction(edited)).document
            == Document(e.document.text, e.document.version + 2, e.document.selection)
    ensures Apply(edited, UndoTransaction(edited)).undo == e.undo
  {
    UndoAdmitted(e, edited, t);
  }

  /** Validation depends on the edits, the text, the selections and that the versions follow on. */
  lemma {:induction false} PreparedAgain(d: Document, again: Document, t: Transaction, u: Transaction)
    requires Prepare(d, t).Commits? && again.text == d.text && again.selection == d.selection
    requires u.edits == t.edits && u.selectionAfter == t.selectionAfter && u.selectionBefore == again.selection
    requires u.versionBefore == again.version && u.versionAfter == again.version + 1
    ensures Prepare(again, u) == Prepare(d, t)
  {
    hide ApplyEdits, InOrder, Canonical, SelectionFits;
  }

  /** What a plain edit leaves, and what undoing it leaves: the step moves to the other side of the history. */
  lemma {:induction false} UndoneEditor(e: Editor, edited: Editor, undone: Editor, t: Transaction)
    requires |t.edits| == 1 && !Reverses(t.origin)
    requires StartsScalar(e.document.text) && StartsScalar(t.edits[0].inserted)
    requires Prepare(e.document, t).Commits? && edited == Apply(e, t)
    requires edited.undo != [] && HistoryAllows(edited, UndoTransaction(edited))
    requires Prepare(edited.document, UndoTransaction(edited)).Commits?
    requires undone == Apply(edited, UndoTransaction(edited))
    ensures t.selectionBefore == e.document.selection && edited.document.version == e.document.version + 1
    ensures edited.document == Commit(e.document, t)
    ensures edited.document.selection == t.selectionAfter
    ensures edited.redo == [] && undone.redo == [edited.undo[|edited.undo| - 1]]
    ensures edited.undo == undone.undo + undone.redo
    ensures undone.redo[0].forward == t.edits && undone.redo[0].selectionAfter == t.selectionAfter
    ensures undone.document == Document(e.document.text, e.document.version + 2, e.document.selection)
  {
    hide InverseEdits, ApplyEdits, InOrder, Canonical, SelectionFits;
    UndoAfterEdit(e, edited, t);
    assert edited.undo[..|edited.undo| - 1] == e.undo;
  }

  /** Undoing a plain edit and then redoing it restores what the edit left, and the history with it. */
  lemma {:induction false} RedoAfterUndo(e: Editor, edited: Editor, undone: Editor, t: Transaction)
    requires |t.edits| == 1 && !Reverses(t.origin)
    requires StartsScalar(e.document.text) && StartsScalar(t.edits[0].inserted)
    requires Prepare(e.document, t).Commits? && edited == Apply(e, t)
    requires edited.undo != [] && HistoryAllows(edited, UndoTransaction(edited))
    requires Prepare(edited.document, UndoTransaction(edited)).Commits?
    requires undone == Apply(edited, UndoTransaction(edited))
    ensures undone.redo != [] && HistoryAllows(undone, RedoTransaction(undone))
    ensures Prepare(undone.document, RedoTransaction(undone)).Commits?
    ensures Apply(undone, RedoTransaction(undone))
            == Editor(edited.document.(version := edited.document.version + 2), edited.undo, edited.redo)
  {
    hide Prepare, InverseEdits, SelectionFits;
    UndoneEditor(e, edited, undone, t);
    PreparedAgain(e.document, undone.document, t, RedoTransaction(undone));
  }
}
