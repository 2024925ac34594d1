/** Verification of a stored one-file session: its budgets and its projected state, recomputed (src/milestone_a.rs). */
module MilestoneReader {
  import opened Common
  import opened Editing
  import opened Recording

  // ----- The preflight of a stored stream -----

  datatype Projected = Projected(length: nat, version: nat, selection: Selection, retained: nat)

  predicate InLength(selection: Selection, length: nat) {
    selection.anchor <= length && selection.active <= length
  }

  function ChargedProjection(p: Platform, r: Projected): Outcome<Projected> {
    if r.retained + StateCharge(p, r.length) > MAX_REPLAY_RETAINED_STATE_BYTES then Err(LimitExceeded(StateBytes))
    else Ok(r.(retained := r.retained + StateCharge(p, r.length)))
  }

  function ReadStart(p: Platform, j: Journal): Outcome<Projected> {
    if |j.events| < 3 || 1 !in j.checkpoints then Err(IncompleteSession)
    else
      var stored := j.checkpoints[1];
      if stored.owner != j.events[0] then Err(Mismatch)
      else if !j.events[0].event.WorkspaceCheckpoint? then Err(UnsupportedEvent)
      else if !InLength(stored.document.selection, |stored.document.text|) then Err(Mismatch)
      else ChargedProjection(p, Projected(|stored.document.text|, stored.document.version, stored.document.selection,
          0))
  }

  function ReadEdit(r: Projected, t: Transaction): Outcome<Projected> {
    if |t.edits| != 1 then Err(UnsupportedEvent)
    else if t.versionBefore != r.version || t.versionAfter != r.version + 1 || t.selectionBefore != r.selection
        then Err(Mismatch)
    else match AfterLength(r.length, t.edits)
      case OutOfRange => Err(Invariant)
      case Overflow => Err(LimitExceeded(StateBytes))
      case Length(length) =>
        if length > MAX_WORKSPACE_FILE_BYTES then Err(LimitExceeded(SourceBytes))
        else if !InLength(t.selectionAfter, length) then Err(Mismatch)
        else Ok(Projected(length, t.versionAfter, t.selectionAfter, r.retained))
  }

  function ReadCheckpoint(r: Projected, j: Journal, e: Envelope): Outcome<Projected> {
    if e.sequence !in j.checkpoints then Err(Mismatch)
    else
      var stored := j.checkpoints[e.sequence];
      if stored.owner == e && InLength(stored.document.selection, |stored.document.text|)
         && |stored.document.text| == r.length && stored.document.version == r.version
         && stored.document.selection == r.selection
      then Ok(r) else Err(Mismatch)
  }

  /** What the record at `index` makes of the projected state, before its state is charged. */
  function ReadRecord(r: Projected, j: Journal, index: nat): Outcome<Projected>
    requires index < |j.events|
  {
    var e := j.events[index];
    var finalCheckpoint, finalization := e.sequence == |j.events| - 1, index + 1 == |j.events|;
    match e.event
    case FileEdited(t) => if finalCheckpoint || finalization then Err(UnsupportedEvent) else ReadEdit(r, t)
    case SelectionChanged(selection) =>
      if finalCheckpoint || finalization then Err(UnsupportedEvent)
      else if InLength(selection, r.length) then Ok(r.(selection := selection)) else Err(Mismatch)
    case WorkspaceCheckpoint => if finalCheckpoint then ReadCheckpoint(r, j, e) else Err(UnsupportedEvent)
    case SubmissionFinalized(_) => if finalization then Ok(r) else Err(UnsupportedEvent)
  }

  /** The projected state after the first `count` records. */
  function ReadUpTo(p: Platform, j: Journal, count: nat): Outcome<Projected>
    requires 1 <= count <= |j.events| || |j.events| < 3
  {
    if count <= 1 || |j.events| < 3 then ReadStart(p, j)
    else match ReadUpTo(p, j, count - 1)
      case Err(error) => Err(error)
      case Ok(r) =>
        match ReadRecord(r, j, count - 1)
        case Err(error) => Err(error)
        case Ok(next) => ChargedProjection(p, next)
  }

  function Preflighted(p: Platform, j: Journal): Outcome<nat> {
    match ReadUpTo(p, j, |j.events|)
    case Err(error) => Err(error)
    case Ok(r) => Ok(r.retained)
  }

  /** Recomputes the retained state bytes of a stored stream, refusing what replay would not support. */
  method PreflightMilestoneStream(p: Platform, j: Journal) returns (r: Outcome<nat>)
    ensures r == Preflighted(p, j)
  {
    var started := ReadStart(p, j);
    if started.Err? {
      if |j.events| >= 3 {
        ReadErrorStays(p, j, 1, |j.events|);
      }
      return Err(started.error);
    }
    var projected := started.value;
    for index := 1 to |j.events|
      invariant ReadUpTo(p, j, index) == Ok(projected)
    {
      var next := ReadRecord(projected, j, index);
      assert ReadUpTo(p, j, index + 1) == (match next case Err(e) => Err(e) case Ok(n) => ChargedProjection(p, n));
      if next.Err? {
        ReadErrorStays(p, j, index + 1, |j.events|);
        return Err(next.error);
      }
      var charged := ChargedProjection(p, next.value);
      if charged.Err? {
        ReadErrorStays(p, j, index + 1, |j.events|);
        return Err(charged.error);
      }
      projected := charged.value;
    }
    return Ok(projected.retained);
  }

  lemma {:induction false} ReadErrorStays(p: Platform, j: Journal, count: nat, later: nat)
    requires 1 <= count <= later <= |j.events| && ReadUpTo(p, j, count).Err?
    ensures ReadUpTo(p, j, later) == ReadUpTo(p, j, count)
    decreases later
  {
    if count < later {
      ReadErrorStays(p, j, count, later - 1);
    }
  }

  // ----- Which stored streams are accepted -----

  /** The stream has its genesis record and checkpoint, and room for its terminal records. */
  predicate Opens(j: Journal) {
    && |j.events| >= 3 && 1 in j.checkpoints && j.checkpoints[1].owner == j.events[0]
    && j.events[0].event.WorkspaceCheckpoint?
    && InLength(j.checkpoints[1].document.selection, |j.checkpoints[1].document.text|)
  }

  /** How much longer an edit of one range makes the text. */
  function Growth(e: Event): int {
    if e.FileEdited? && |e.transaction.edits| == 1
    then
      var edit := e.transaction.edits[0];
      |edit.inserted| - (edit.end - edit.start)
    else 0
  }

  /** The length of the text before the record at `i`: that of the first checkpoint and all growth since. */
  function LengthAt(j: Journal, i: nat): int
    requires Opens(j) && 1 <= i <= |j.events|
  {
    if i == 1 then |j.checkpoints[1].document.text| else LengthAt(j, i - 1) + Growth(j.events[i - 1].event)
  }

  /** The version before the record at `i`: one more for each edit since the first checkpoint. */
  function VersionAt(j: Journal, i: nat): nat
    requires Opens(j) && 1 <= i <= |j.events|
  {
    if i == 1 then j.checkpoints[1].document.version
    else VersionAt(j, i - 1) + (if j.events[i - 1].event.FileEdited? then 1 else 0)
  }

  /** The selection before the record at `i`: the last one that was set. */
  function SelectionAt(j: Journal, i: nat): Selection
    requires Opens(j) && 1 <= i <= |j.events|
  {
    if i == 1 then j.checkpoints[1].document.selection
    else match j.events[i - 1].event
      case FileEdited(t) => t.selectionAfter
      case SelectionChanged(selection) => selection
      case _ => SelectionAt(j, i - 1)
  }

  /** The charges of the first `i` states. */
  function ChargesAt(p: Platform, j: Journal, i: nat): nat
    requires Opens(j) && i <= |j.events|
  {
    if i == 0 then 0
    else ChargesAt(p, j, i - 1) + StateCharge(p, if LengthAt(j, i) >= 0 then LengthAt(j, i) else 0)
  }

  /** One range of the text before it, from the version and selection before it, leaving a text that is not too long. */
  predicate EditAdmitted(j: Journal, i: nat, t: Transaction)
    requires Opens(j) && 1 <= i < |j.events| && j.events[i].event == FileEdited(t)
  {
    && |t.edits| == 1 && t.versionBefore == VersionAt(j, i) && t.versionAfter == VersionAt(j, i) + 1
    && t.selectionBefore == SelectionAt(j, i)
    && t.edits[0].start <= t.edits[0].end <= LengthAt(j, i)
    && LengthAt(j, i + 1) <= MAX_WORKSPACE_FILE_BYTES
    && t.selectionAfter.anchor <= LengthAt(j, i + 1) && t.selectionAfter.active <= LengthAt(j, i + 1)
  }

  /** A stored checkpoint of this record, of a text of the length, version and selection reached. */
  predicate CheckpointAgrees(j: Journal, i: nat)
    requires Opens(j) && 1 <= i < |j.events|
  {
    var sequence := j.events[i].sequence;
    && sequence in j.checkpoints && j.checkpoints[sequence].owner == j.events[i]
    && (var d := j.checkpoints[sequence].document;
        && |d.text| == LengthAt(j, i) && d.version == VersionAt(j, i) && d.selection == SelectionAt(j, i)
        && InLength(d.selection, |d.text|))
  }

  /**
   * What replay supports at this place: edits and selections before the terminal records, a checkpoint under the last
   * sequence but one, and the finalization in the last place.
   */
  predicate Supports(j: Journal, i: nat)
    requires Opens(j) && 1 <= i < |j.events|
  {
    var body := i + 1 < |j.events| && j.events[i].sequence != |j.events| - 1;
    match j.events[i].event
    case FileEdited(t) => body && EditAdmitted(j, i, t)
    case SelectionChanged(selection) =>
      body && selection.anchor <= LengthAt(j, i) && selection.active <= LengthAt(j, i)
    case WorkspaceCheckpoint => j.events[i].sequence == |j.events| - 1 && CheckpointAgrees(j, i)
    case SubmissionFinalized(_) => i + 1 == |j.events|
  }

  /** Every record before the `count`-th is supported, and the states so far fit their limit. */
  predicate SupportedUpTo(p: Platform, j: Journal, count: nat)
    requires count <= |j.events|
  {
    Opens(j) && (forall i | 1 <= i < count :: Supports(j, i))
    && ChargesAt(p, j, count) <= MAX_REPLAY_RETAINED_STATE_BYTES
  }

  lemma {:induction false} SupportedNext(p: Platform, j: Journal, count: nat)
    requires 1 <= count < |j.events|
    ensures SupportedUpTo(p, j, count + 1)
            <==> && SupportedUpTo(p, j, count) && Supports(j, count)
                 && ChargesAt(p, j, count + 1) <= MAX_REPLAY_RETAINED_STATE_BYTES
  {
    hide Supports, LengthAt;
  }

  lemma {:induction false} ReadsEditExactly(r: Projected, j: Journal, i: nat)
    requires Opens(j) && 1 <= i < |j.events| && j.events[i].event.FileEdited?
    requires r.length == LengthAt(j, i) && r.version == VersionAt(j, i) && r.selection == SelectionAt(j, i)
    ensures ReadEdit(r, j.events[i].event.transaction)
            == if EditAdmitted(j, i, j.events[i].event.transaction)
               then Ok(Projected(LengthAt(j, i + 1), VersionAt(j, i + 1), SelectionAt(j, i + 1), r.retained))
               else ReadEdit(r, j.events[i].event.transaction)
    ensures ReadEdit(r, j.events[i].event.transaction).Ok? ==> EditAdmitted(j, i, j.events[i].event.transaction)
  {
    var t := j.events[i].event.transaction;
    if |t.edits| == 1 {
      OneRange(r.length, t.edits);
    }
  }

  lemma {:induction false} OneRange(before: nat, edits: seq<TextEdit>)
    requires |edits| == 1
    ensures AfterLength(before, edits)
            == if edits[0].start <= edits[0].end <= before
               then Length.Length(before - (edits[0].end - edits[0].start) + |edits[0].inserted|) else OutOfRange
  {
    var edit, none := edits[0], edits[..|edits| - 1];
    assert none == [] && forall i | 0 <= i < |edits| :: edits[i] == edit;
    assert Inserted(none) == 0 && Inserted(edits) == |edit.inserted|;
    if edit.start <= edit.end {
      assert Removed(none) == 0;
      assert Removed(edits) == edit.end - edit.start;
    }
  }

  lemma {:induction false} ReadsRecordExactly(r: Projected, j: Journal, i: nat)
    requires Opens(j) && 1 <= i < |j.events|
    requires r.length == LengthAt(j, i) && r.version == VersionAt(j, i) && r.selection == SelectionAt(j, i)
    ensures ReadRecord(r, j, i).Ok? <==> Supports(j, i)
    ensures Supports(j, i) ==>
              && LengthAt(j, i + 1) >= 0
              && ReadRecord(r, j, i)
                 == Ok(Projected(LengthAt(j, i + 1), VersionAt(j, i + 1), SelectionAt(j, i + 1), r.retained))
  {
    hide EditAdmitted, ReadEdit;
    if j.events[i].event.FileEdited? {
      ReadsEditExactly(r, j, i);
      EditLeavesText(j, i);
    }
  }

  lemma {:induction false} EditLeavesText(j: Journal, i: nat)
    requires Opens(j) && 1 <= i < |j.events| && j.events[i].event.FileEdited?
    ensures EditAdmitted(j, i, j.events[i].event.transaction) ==> LengthAt(j, i + 1) >= 0
  {
  }

  /** The reader goes on exactly while the records are supported, and then holds what the stream says. */
  lemma {:induction false} ReadsExactly(p: Platform, j: Journal, count: nat)
    requires 1 <= count <= |j.events|
    ensures ReadUpTo(p, j, count).Ok? <==> SupportedUpTo(p, j, count)
    ensures SupportedUpTo(p, j, count) ==>
              && LengthAt(j, count) >= 0
              && ReadUpTo(p, j, count)
                 == Ok(Projected(LengthAt(j, count), VersionAt(j, count), SelectionAt(j, count),
                                 ChargesAt(p, j, count)))
  {
    hide Supports, StateCharge, ReadRecord;
    if count > 1 && |j.events| >= 3 {
      ReadsExactly(p, j, count - 1);
      SupportedNext(p, j, count - 1);
      if SupportedUpTo(p, j, count - 1) {
        ReadsRecordExactly(ReadUpTo(p, j, count - 1).value, j, count - 1);
      }
    } else {
      StartsExactly(p, j);
    }
  }

  lemma {:induction false} StartsExactly(p: Platform, j: Journal)
    ensures ReadStart(p, j).Ok? <==> Opens(j) && ChargesAt(p, j, 1) <= MAX_REPLAY_RETAINED_STATE_BYTES
    ensures ReadStart(p, j).Ok? ==>
              ReadStart(p, j) == Ok(Projected(LengthAt(j, 1), VersionAt(j, 1), SelectionAt(j, 1), ChargesAt(p, j, 1)))
  {
  }

  /**
   * A stored stream is accepted exactly when every record is supported where it stands and the states fit their
   * limit; the bytes returned are the charges of all its states. Any other stream is refused.
   */
  lemma {:induction false} AcceptedExactly(p: Platform, j: Journal)
    ensures Preflighted(p, j).Ok? <==> SupportedUpTo(p, j, |j.events|)
    ensures Preflighted(p, j).Ok? ==> Preflighted(p, j) == Ok(ChargesAt(p, j, |j.events|))
  {
    hide Supports, StateCharge;
    if |j.events| >= 1 {
      ReadsExactly(p, j, |j.events|);
    }
  }

  /** A kind of event that replay supports at this place, and for an edit, one range. */
  predicate InPlace(j: Journal, i: nat)
    requires i < |j.events|
  {
    var body := i + 1 < |j.events| && j.events[i].sequence != |j.events| - 1;
    match j.events[i].event
    case FileEdited(t) => body && |t.edits| == 1
    case SelectionChanged(_) => body
    case WorkspaceCheckpoint => j.events[i].sequence == |j.events| - 1
    case SubmissionFinalized(_) => i + 1 == |j.events|
  }

  /** The edit goes on from the version and the selection before it. */
  predicate GoesOn(j: Journal, i: nat, t: Transaction)
    requires Opens(j) && 1 <= i < |j.events|
  {
    && t.versionBefore == VersionAt(j, i) && t.versionAfter == VersionAt(j, i) + 1
    && t.selectionBefore == SelectionAt(j, i)
  }

  /** Why a record is not supported: its kind, a range outside the text, a text that is too long, or a mismatch. */
  function Fault(j: Journal, i: nat): Error
    requires Opens(j) && 1 <= i < |j.events|
  {
    if !InPlace(j, i) then UnsupportedEvent
    else match j.events[i].event
      case FileEdited(t) =>
        if !GoesOn(j, i, t) then Mismatch
        else if !(t.edits[0].start <= t.edits[0].end <= LengthAt(j, i)) then Invariant
        else if LengthAt(j, i + 1) > MAX_WORKSPACE_FILE_BYTES then LimitExceeded(SourceBytes)
        else Mismatch
      case _ => Mismatch
  }

  lemma {:induction false} FaultExactly(r: Projected, j: Journal, i: nat)
    requires Opens(j) && 1 <= i < |j.events| && !Supports(j, i)
    requires r.length == LengthAt(j, i) && r.version == VersionAt(j, i) && r.selection == SelectionAt(j, i)
    ensures ReadRecord(r, j, i) == Err(Fault(j, i))
  {
    if j.events[i].event.FileEdited? && |j.events[i].event.transaction.edits| == 1 {
      OneRange(r.length, j.events[i].event.transaction.edits);
    }
  }

  /** The first record that is not supported, or whose state passes the limit, decides the refusal. */
  lemma {:induction false} RefusedExactly(p: Platform, j: Journal, i: nat)
    requires 1 <= i < |j.events| && SupportedUpTo(p, j, i) && !SupportedUpTo(p, j, i + 1)
    ensures Preflighted(p, j) == Err(if Supports(j, i) then LimitExceeded(StateBytes) else Fault(j, i))
  {
    hide Supports, StateCharge, ReadRecord, Fault;
    ReadsExactly(p, j, i);
    SupportedNext(p, j, i);
    var r := ReadUpTo(p, j, i).value;
    ReadsRecordExactly(r, j, i);
    if !Supports(j, i) {
      FaultExactly(r, j, i);
    }
    ReadErrorStays(p, j, i + 1, |j.events|);
  }

  // ----- What the writer admits, the reader accepts -----

  /** Each recorded transaction is a single range. */
  predicate SingleEdits(events: seq<Envelope>) {
    forall i | 0 <= i < |events| && events[i].event.FileEdited? :: |events[i].event.transaction.edits| == 1
  }

  function Projection(d: Document, retained: nat): Projected {
    Projected(|d.text|, d.version, d.selection, retained)
  }

  /** A recorded event moves the reader as it moves the document, unless it is an edit of several ranges. */
  lemma {:induction false} ReadsRecord(d: Document, e: Event, retained: nat, t: Transaction)
    requires e == FileEdited(t) && ReplayEvent(d, e).Some?
    requires |ReplayEvent(d, e).value.text| <= MAX_WORKSPACE_FILE_BYTES
    ensures ReadEdit(Projection(d, retained), t)
            == if |t.edits| == 1 then Ok(Projection(ReplayEvent(d, e).value, retained)) else Err(UnsupportedEvent)
  {
    AfterLengthExact(d.text, t.edits);
  }

  /** A journal that was finished: an open session's journal, then the two terminal records. */
  predicate FinishedJournal(p: Platform, genesis: Document, h: seq<Envelope>, j: Journal) {
    && Recorded(p, genesis, h)
    && j.events == h + TerminalEvents(|h|)
    && j.checkpoints == map[1 := Stored(GENESIS_RECORD, genesis),
                            |h| + 1 := Stored(TerminalEvents(|h|)[0], Replay(genesis, h).value)]
    && StateTotal(p, genesis, h) + 2 * StateCharge(p, |Replay(genesis, h).value.text|)
       <= MAX_REPLAY_RETAINED_STATE_BYTES
  }

  /** What replay makes of recorded events: the document and the charges of its states. */
  predicate Stands(p: Platform, genesis: Document, records: seq<Envelope>, d: Document, total: nat) {
    Recorded(p, genesis, records) && Replay(genesis, records) == Some(d) && StateTotal(p, genesis, records) == total
  }

  /** This document and total, unless an edit of several ranges was refused among the records. */
  function Expected(records: seq<Envelope>, d: Document, retained: nat): Outcome<Projected> {
    if SingleEdits(records) then Ok(Projection(d, retained)) else Err(UnsupportedEvent)
  }

  /** The journal starts with these records, which two more follow at least. */
  predicate StartsWith(genesis: Document, records: seq<Envelope>, j: Journal) {
    && |records| + 2 <= |j.events| && (forall i | 0 <= i < |records| :: j.events[i] == records[i])
    && 1 in j.checkpoints && j.checkpoints[1] == Stored(GENESIS_RECORD, genesis)
  }

  lemma {:induction false} ReadsFirst(p: Platform, genesis: Document, records: seq<Envelope>, j: Journal)
    returns (d: Document, total: nat)
    requires Recorded(p, genesis, records) && |records| == 1 && StartsWith(genesis, records, j)
    requires StateTotal(p, genesis, records) <= MAX_REPLAY_RETAINED_STATE_BYTES
    ensures Stands(p, genesis, records, d, total) && ReadUpTo(p, j, 1) == Expected(records, d, total)
  {
    d, total := genesis, StateTotal(p, genesis, records);
    assert j.events[0] == records[0];
  }

  /** One record of the body moves the reader as it moves the document. */
  lemma {:induction false} ReadsStep(p: Platform, j: Journal, index: nat, e: Envelope, d: Document, d': Document,
                                     retained: nat)
    requires 1 <= index < |j.events| - 2 && j.events[index] == e
    requires Admissible(p, d, index, e) && ReplayEvent(d, e.event) == Some(d')
    requires retained + StateCharge(p, |d'.text|) <= MAX_REPLAY_RETAINED_STATE_BYTES
    requires ReadUpTo(p, j, index) == Ok(Projection(d, retained))
    ensures ReadUpTo(p, j, index + 1)
            == if e.event.FileEdited? && |e.event.transaction.edits| != 1 then Err(UnsupportedEvent)
               else Ok(Projection(d', retained + StateCharge(p, |d'.text|)))
  {
    if e.event.FileEdited? {
      ReadsRecord(d, e.event, retained, e.event.transaction);
    }
  }

  lemma {:induction false} StandsSnoc(p: Platform, genesis: Document, whole: seq<Envelope>, init: seq<Envelope>,
                                      e: Envelope, d: Document, total: nat)
    returns (d': Document, total': nat)
    requires Stands(p, genesis, init, d, total) && Recorded(p, genesis, whole)
    requires whole[..|whole| - 1] == init && whole[|whole| - 1] == e
    ensures Stands(p, genesis, whole, d', total')
    ensures Admissible(p, d, |init|, e) && ReplayEvent(d, e.event) == Some(d')
    ensures total' == total + StateCharge(p, |d'.text|)
  {
    d', total' := Replay(genesis, whole).value, StateTotal(p, genesis, whole);
  }

  lemma {:induction false} SingleEditsSnoc(whole: seq<Envelope>, init: seq<Envelope>, e: Envelope)
    requires whole == init + [e]
    ensures SingleEdits(whole)
            <==> SingleEdits(init) && (e.event.FileEdited? ==> |e.event.transaction.edits| == 1)
  {
    assert whole[|init|] == e && forall i | 0 <= i < |init| :: whole[i] == init[i];
  }

  lemma {:induction false} ReadsNext(p: Platform, j: Journal, whole: seq<Envelope>, init: seq<Envelope>, e: Envelope,
                                     d: Document, d': Document, retained: nat)
    requires whole == init + [e] && 1 <= |init| < |j.events| - 2 && j.events[|init|] == e
    requires Admissible(p, d, |init|, e) && ReplayEvent(d, e.event) == Some(d')
    requires retained + StateCharge(p, |d'.text|) <= MAX_REPLAY_RETAINED_STATE_BYTES
    requires ReadUpTo(p, j, |init|) == Expected(init, d, retained)
    ensures ReadUpTo(p, j, |init| + 1) == Expected(whole, d', retained + StateCharge(p, |d'.text|))
  {
    SingleEditsSnoc(whole, init, e);
    if SingleEdits(init) {
      ReadsStep(p, j, |init|, e, d, d', retained);
    } else {
      ReadErrorStays(p, j, |init|, |init| + 1);
    }
  }

  lemma {:induction false} InitStarts(p: Platform, genesis: Document, whole: seq<Envelope>, init: seq<Envelope>,
                                      e: Envelope, j: Journal)
    requires Recorded(p, genesis, whole) && StartsWith(genesis, whole, j)
    requires init != [] && whole[..|whole| - 1] == init && whole[|whole| - 1] == e
    ensures Recorded(p, genesis, init) && StateTotal(p, genesis, init) <= StateTotal(p, genesis, whole)
    ensures StartsWith(genesis, init, j) && |init| < |j.events| - 2 && j.events[|init|] == e
  {
    assert forall i | 0 <= i < |init| :: whole[i] == init[i];
  }

  lemma {:induction false} ReadsLast(p: Platform, genesis: Document, whole: seq<Envelope>, init: seq<Envelope>,
                                     e: Envelope, j: Journal, before: Document, sum: nat)
    returns (d: Document, total: nat)
    requires Recorded(p, genesis, whole) && StateTotal(p, genesis, whole) <= MAX_REPLAY_RETAINED_STATE_BYTES
    requires init != [] && whole[..|whole| - 1] == init && whole == init + [e]
    requires |init| < |j.events| - 2 && j.events[|init|] == e
    requires Stands(p, genesis, init, before, sum) && ReadUpTo(p, j, |init|) == Expected(init, before, sum)
    ensures Stands(p, genesis, whole, d, total) && ReadUpTo(p, j, |whole|) == Expected(whole, d, total)
  {
    d, total := StandsSnoc(p, genesis, whole, init, e, before, sum);
    ReadsNext(p, j, whole, init, e, before, d, sum);
  }

  /** After the records of the body the reader holds the replayed document and the writer's total. */
  lemma {:induction false} ReadsBody(p: Platform, genesis: Document, records: seq<Envelope>, j: Journal)
    returns (d: Document, total: nat)
    requires Recorded(p, genesis, records) && StartsWith(genesis, records, j)
    requires StateTotal(p, genesis, records) <= MAX_REPLAY_RETAINED_STATE_BYTES
    ensures Stands(p, genesis, records, d, total) && ReadUpTo(p, j, |records|) == Expected(records, d, total)
    decreases |records|
  {
    if |records| == 1 {
      d, total := ReadsFirst(p, genesis, records, j);
    } else {
      var init, e := records[..|records| - 1], records[|records| - 1];
      assert records == init + [e];
      InitStarts(p, genesis, records, init, e, j);
      var before, sum := ReadsBody(p, genesis, init, j);
      d, total := ReadsLast(p, genesis, records, init, e, j, before, sum);
    }
  }

  /**
   * The reader accepts a finished session with exactly the writer's retained state bytes when every
   * recorded transaction is one range, and refuses it otherwise.
   */
  lemma {:induction false} ReaderAgrees(p: Platform, genesis: Document, h: seq<Envelope>, j: Journal)
    requires FinishedJournal(p, genesis, h, j)
    ensures Preflighted(p, j)
            == if SingleEdits(h) then Ok(StateTotal(p, genesis, h)
                + 2 * StateCharge(p, |Replay(genesis, h).value.text|))
               else Err(UnsupportedEvent)
  {
    var d, total := ReadsBody(p, genesis, h, j);
    if SingleEdits(h) {
      RecordedFits(p, genesis, h);
      ReadsTerminal(p, j, h, d, total);
    } else {
      ReadErrorStays(p, j, |h|, |h| + 2);
    }
  }

  lemma {:induction false} RecordedFits(p: Platform, genesis: Document, h: seq<Envelope>)
    requires Recorded(p, genesis, h)
    ensures SelectionFits(Replay(genesis, h).value.text, Replay(genesis, h).value.selection)
  {
    if |h| > 1 {
      RecordedFits(p, genesis, h[..|h| - 1]);
    }
  }

  lemma {:induction false} ReadsTerminal(p: Platform, j: Journal, h: seq<Envelope>, d: Document, retained: nat)
    requires h != [] && j.events == h + TerminalEvents(|h|)
    requires |h| + 1 in j.checkpoints && j.checkpoints[|h| + 1] == Stored(TerminalEvents(|h|)[0], d)
    requires SelectionFits(d.text, d.selection)
    requires retained + 2 * StateCharge(p, |d.text|) <= MAX_REPLAY_RETAINED_STATE_BYTES
    requires ReadUpTo(p, j, |h|) == Ok(Projection(d, retained))
    ensures Preflighted(p, j) == Ok(retained + 2 * StateCharge(p, |d.text|))
  {
    var n, charge := |h|, StateCharge(p, |d.text|);
    assert j.events[n] == TerminalEvents(n)[0] && j.events[n + 1] == TerminalEvents(n)[1];
    assert ReadUpTo(p, j, n + 1) == Ok(Projection(d, retained + charge));
    assert ReadUpTo(p, j, n + 2) == Ok(Projection(d, retained + charge + charge));
  }

  // ----- Reading the events back -----

  datatype ReadBack = ReadBack(events: seq<Envelope>, retained: nat)

  /** One page of one event; the journal checks that the sequence is the one asked for. */
  function Page(events: seq<Envelope>, first: nat): Outcome<Option<Envelope>>
    requires first >= 1
  {
    if first > |events| then Ok(None)
    else if events[first - 1].sequence != first then Err(Environment)
    else Ok(Some(events[first - 1]))
  }

  /** What has been read when `next` is the next sequence to ask for. */
  function ReadBefore(p: Platform, events: seq<Envelope>, next: nat): Outcome<ReadBack>
    requires next >= 1
  {
    if next == 1 then Ok(ReadBack([], 0))
    else match ReadBefore(p, events, next - 1)
      case Err(error) => Err(error)
      case Ok(read) =>
        match Page(events, next - 1)
        case Err(error) => Err(error)
        case Ok(None) => Err(Mismatch)
        case Ok(Some(e)) =>
          match p.charge(e)
          case None => Err(Invariant)
          case Some(charge) =>
            if read.retained + charge > MAX_REPLAY_RETAINED_EVENT_BYTES then Err(LimitExceeded(EventBytes))
            else Ok(ReadBack(read.events + [e], read.retained + charge))
  }

  function EventsRead(p: Platform, events: seq<Envelope>, eventCount: nat): Outcome<ReadBack> {
    if eventCount > MAX_MILESTONE_EVENTS then Err(LimitExceeded(ReplayEvents))
    else ReadBefore(p, events, eventCount + 1)
  }

  lemma {:induction false} ReadBeforeErrorStays(p: Platform, events: seq<Envelope>, next: nat, later: nat)
    requires 1 <= next <= later && ReadBefore(p, events, next).Err?
    ensures ReadBefore(p, events, later) == ReadBefore(p, events, next)
    decreases later
  {
    if next < later {
      ReadBeforeErrorStays(p, events, next, later - 1);
    }
  }

  /** Reads the events page by page, charging each. */
  method ReadAllEvents(p: Platform, stored: seq<Envelope>, eventCount: nat) returns (r: Outcome<ReadBack>)
    ensures r == EventsRead(p, stored, eventCount)
  {
    if eventCount > MAX_MILESTONE_EVENTS {
      return Err(LimitExceeded(ReplayEvents));
    }
    var events: seq<Envelope>, retained: nat := [], 0;
    var next: nat := 1;
    while next <= eventCount
      decreases eventCount + 1 - next
      invariant 1 <= next <= eventCount + 1
      invariant ReadBefore(p, stored, next) == Ok(ReadBack(events, retained))
    {
      ghost var before := next;
      var page := Page(stored, next);
      if page.Err? {
        ReadBeforeErrorStays(p, stored, before + 1, eventCount + 1);
        return Err(page.error);
      }
      if page.value.None? {
        ReadBeforeErrorStays(p, stored, before + 1, eventCount + 1);
        return Err(Mismatch);
      }
      var e := page.value.value;
      next := e.sequence + 1;
      var charge := p.charge(e);
      if charge.None? {
        ReadBeforeErrorStays(p, stored, before + 1, eventCount + 1);
        return Err(Invariant);
      }
      if retained + charge.value > MAX_REPLAY_RETAINED_EVENT_BYTES {
        ReadBeforeErrorStays(p, stored, before + 1, eventCount + 1);
        return Err(LimitExceeded(EventBytes));
      }
      retained := retained + charge.value;
      events := events + [e];
    }
    return Ok(ReadBack(events, retained));
  }

  /** Every event of the stream is in its place and can be charged. */
  predicate Chargeable(p: Platform, events: seq<Envelope>) {
    forall i | 0 <= i < |events| :: events[i].sequence == i + 1 && p.charge(events[i]).Some?
  }

  lemma {:induction false} EventTotalPrefix(p: Platform, events: seq<Envelope>, count: nat)
    requires count <= |events|
    ensures EventTotal(p, events[..count]) <= EventTotal(p, events)
    ensures count < |events| ==>
              EventTotal(p, events[..count + 1]) == EventTotal(p, events[..count]) + ChargeOrZero(p, events[count])
    decreases |events| - count
  {
    if count < |events| {
      assert events[..count + 1][..count] == events[..count];
      EventTotalPrefix(p, events, count + 1);
    } else {
      assert events[..count] == events;
    }
  }

  lemma {:induction false} ReadsEvent(p: Platform, events: seq<Envelope>, count: nat, retained: nat)
    requires Chargeable(p, events) && EventTotal(p, events) <= MAX_REPLAY_RETAINED_EVENT_BYTES && count < |events|
    requires retained == EventTotal(p, events[..count])
    requires ReadBefore(p, events, count + 1) == Ok(ReadBack(events[..count], retained))
    ensures ReadBefore(p, events, count + 2) == Ok(ReadBack(events[..count + 1], EventTotal(p, events[..count + 1])))
  {
    EventTotalPrefix(p, events, count);
    EventTotalPrefix(p, events, count + 1);
    assert events[..count] + [events[count]] == events[..count + 1];
  }

  lemma {:induction false} ReadsEvents(p: Platform, events: seq<Envelope>, count: nat)
    requires Chargeable(p, events) && EventTotal(p, events) <= MAX_REPLAY_RETAINED_EVENT_BYTES && count <= |events|
    ensures ReadBefore(p, events, count + 1) == Ok(ReadBack(events[..count], EventTotal(p, events[..count])))
  {
    if count > 0 {
      ReadsEvents(p, events, count - 1);
      ReadsEvent(p, events, count - 1, EventTotal(p, events[..count - 1]));
    }
  }

  /** The first events are each in their place and can be charged, and fit the limit together. */
  predicate Readable(p: Platform, events: seq<Envelope>, count: nat) {
    && count <= |events| && Chargeable(p, events[..count])
    && EventTotal(p, events[..count]) <= MAX_REPLAY_RETAINED_EVENT_BYTES
  }

  lemma {:induction false} ReadableNext(p: Platform, events: seq<Envelope>, count: nat)
    ensures Readable(p, events, count + 1)
            <==> && Readable(p, events, count) && count < |events|
                 && events[count].sequence == count + 1 && p.charge(events[count]).Some?
                 && EventTotal(p, events[..count]) + p.charge(events[count]).value <= MAX_REPLAY_RETAINED_EVENT_BYTES
  {
    hide EventTotal;
    if count < |events| {
      EventTotalNext(p, events, count);
    }
  }

  lemma {:induction false} EventTotalNext(p: Platform, events: seq<Envelope>, count: nat)
    requires count < |events|
    ensures events[..count + 1] == events[..count] + [events[count]]
    ensures EventTotal(p, events[..count + 1]) == EventTotal(p, events[..count]) + ChargeOrZero(p, events[count])
  {
    var init, whole := events[..count], events[..count + 1];
    assert whole[..|whole| - 1] == init && whole[|whole| - 1] == events[count];
  }

  lemma {:induction false} ReadsBeforeExactly(p: Platform, events: seq<Envelope>, count: nat)
    ensures ReadBefore(p, events, count + 1).Ok? <==> Readable(p, events, count)
    ensures Readable(p, events, count) ==>
              ReadBefore(p, events, count + 1) == Ok(ReadBack(events[..count], EventTotal(p, events[..count])))
  {
    hide Readable, EventTotal;
    if count == 0 {
      NothingRead(p, events);
    } else {
      ReadsBeforeExactly(p, events, count - 1);
      ReadableNext(p, events, count - 1);
      if count <= |events| {
        EventTotalNext(p, events, count - 1);
      }
    }
  }

  lemma {:induction false} NothingRead(p: Platform, events: seq<Envelope>)
    ensures Readable(p, events, 0) && events[..0] == [] && EventTotal(p, []) == 0
  {
  }

  /** Events are read back exactly when there are that many, in their places, and no more than the limits allow. */
  lemma {:induction false} EventsReadExactly(p: Platform, events: seq<Envelope>, count: nat)
    ensures EventsRead(p, events, count).Ok? <==> count <= MAX_MILESTONE_EVENTS && Readable(p, events, count)
    ensures EventsRead(p, events, count).Ok? ==>
              EventsRead(p, events, count) == Ok(ReadBack(events[..count], EventTotal(p, events[..count])))
  {
    hide Readable;
    ReadsBeforeExactly(p, events, count);
    if EventsRead(p, events, count).Ok? {
      ReadableCount(p, events, count);
    }
  }

  lemma {:induction false} ReadableCount(p: Platform, events: seq<Envelope>, count: nat)
    ensures Readable(p, events, count) ==> count <= |events|
  {
  }

  lemma {:induction false} RecordedChargeable(p: Platform, genesis: Document, h: seq<Envelope>)
    requires Recorded(p, genesis, h)
    ensures Chargeable(p, h)
  {
    if |h| > 1 {
      RecordedChargeable(p, genesis, h[..|h| - 1]);
      assert forall i | 0 <= i < |h| - 1 :: h[i] == h[..|h| - 1][i];
    }
  }

  lemma {:induction false} FinishedChargeable(p: Platform, genesis: Document, s: State, after: State)
    requires Healthy(p, genesis, s) && Complete(p, s, after)
    ensures Chargeable(p, after.journal.events)
  {
    RecordedChargeable(p, genesis, s.journal.events);
  }

  lemma {:induction false} FinishedLeaves(p: Platform, genesis: Document, s: State, after: State)
    requires Healthy(p, genesis, s) && Complete(p, s, after)
    ensures FinishedJournal(p, genesis, s.journal.events, after.journal)
    ensures after.retainedStateBytes
            == StateTotal(p, genesis, s.journal.events)
                + 2 * StateCharge(p, |Replay(genesis, s.journal.events).value.text|)
    ensures |after.journal.events| <= MAX_MILESTONE_EVENTS && |after.journal.events| == |s.journal.events| + 2
  {
  }

  lemma {:induction false} FinishedReadsEvents(p: Platform, genesis: Document, s: State, after: State)
    requires Healthy(p, genesis, s) && Complete(p, s, after)
    ensures EventsRead(p, after.journal.events, |s.journal.events| + 2)
            == Ok(ReadBack(after.journal.events, after.retainedEventBytes))
  {
    var events := after.journal.events;
    FinishedChargeable(p, genesis, s, after);
    ReadsEvents(p, events, |events|);
    assert events[..|events|] == events;
  }

  /**
   * For every session that finishes: reading its events back charges exactly the writer's event bytes,
   * and the preflight returns exactly the writer's state bytes unless some transaction has several ranges.
   */
  lemma {:induction false} WriterReaderAgree(p: Platform, genesis: Document, s: State, env: Closing)
    requires Healthy(p, genesis, s) && Finish(p, s, env).result.Ok?
    ensures var after := Finish(p, s, env).state;
      && EventsRead(p, after.journal.events, Finish(p, s, env).result.value)
         == Ok(ReadBack(after.journal.events, after.retainedEventBytes))
      && Preflighted(p, after.journal)
         == if SingleEdits(s.journal.events) then Ok(after.retainedStateBytes) else Err(UnsupportedEvent)
  {
    FinishOutcome(p, genesis, s, env);
    var after := Finish(p, s, env).state;
    FinishedLeaves(p, genesis, s, after);
    FinishedReadsEvents(p, genesis, s, after);
    ReaderAgrees(p, genesis, s.journal.events, after.journal);
  }

  // ----- Which sessions verify -----

  /** A history step: one forward range, undone by one range exactly when what it removed fits one insertion. */
  predicate EntryShaped(entry: HistoryEntry) {
    && |entry.forward| == 1 && entry.forward[0].start <= entry.forward[0].end
    && (|entry.inverse| == 1 <==> entry.forward[0].end - entry.forward[0].start <= MAX_INSERTED_TEXT_BYTES)
  }

  predicate Shaped(e: Editor) {
    && (forall i | 0 <= i < |e.undo| :: EntryShaped(e.undo[i]))
    && (forall i | 0 <= i < |e.redo| :: EntryShaped(e.redo[i]))
  }

  lemma {:induction false} ApplyShaped(e: Editor, t: Transaction)
    requires Shaped(e) && Prepare(e.document, t).Commits? && HistoryAllows(e, t)
    ensures Shaped(Apply(e, t))
  {
    if !Reverses(t.origin) {
      InverseIsSingle(e.document.text, t.edits[0]);
      assert EntryShaped(HistoryEntry(t.edits, InverseEdits(e.document.text, t.edits[0]), t.selectionBefore,
          t.selectionAfter));
    }
  }

  /** The action undoes an edit that removed more than one insertion can hold. */
  predicate UndoesLargeRemoval(e: Editor, a: Action) {
    && a.UndoLast? && e.undo != []
    && |e.undo[|e.undo| - 1].forward| == 1
    && e.undo[|e.undo| - 1].forward[0].end - e.undo[|e.undo| - 1].forward[0].start > MAX_INSERTED_TEXT_BYTES
  }

  /** A recorded action adds an edit of several ranges exactly when it undoes a large removal. */
  lemma {:induction false} RecordsSeveral(p: Platform, genesis: Document, s: State, env: Surroundings, a: Action)
    requires Healthy(p, genesis, s) && Shaped(s.editor) && Possible(s, a)
    requires Performed(p, s, env, a).result == Ok(true)
    ensures Shaped(Performed(p, s, env, a).state.editor)
    ensures SingleEdits(Performed(p, s, env, a).state.journal.events)
            <==> SingleEdits(s.journal.events) && !UndoesLargeRemoval(s.editor, a)
  {
    PerformedRecords(p, genesis, s, env, a);
    var after := Performed(p, s, env, a).state;
    SingleEditsSnoc(after.journal.events, s.journal.events, after.journal.events[|s.journal.events|]);
    if !a.Move? && !a.SelectAll? {
      ApplyShaped(s.editor, Request(s.editor, a).value);
    }
  }

  /** Some call undid a large removal, and it was recorded. */
  predicate LargeUndoRecorded(p: Platform, s: State, calls: seq<Call>) {
    calls != [] &&
    (var init, last := calls[..|calls| - 1], calls[|calls| - 1];
     LargeUndoRecorded(p, s, init)
     || (UndoesLargeRemoval(Ran(p, s, init).editor, last.action)
         && Performed(p, Ran(p, s, init), last.env, last.action).result == Ok(true)))
  }

  /** While nothing has failed, every recorded edit is one range exactly when no large removal was undone. */
  lemma {:induction false} RunSingle(p: Platform, genesis: Document, s: State, calls: seq<Call>)
    requires Healthy(p, genesis, s) && Shaped(s.editor) && SingleEdits(s.journal.events)
    requires AllPossible(p, s, calls) && Ran(p, s, calls).failure.None?
    ensures Shaped(Ran(p, s, calls).editor)
    ensures SingleEdits(Ran(p, s, calls).journal.events) <==> !LargeUndoRecorded(p, s, calls)
  {
    if calls != [] {
      var init, last := calls[..|calls| - 1], calls[|calls| - 1];
      var before := Ran(p, s, init);
      RunConsistent(p, genesis, s, init);
      if before.failure.Some? {
        PoisonedIsFinal(p, before, last.env, last.action);
      }
      RunSingle(p, genesis, s, init);
      PerformedSteps(p, genesis, before, last.env, last.action);
      if Performed(p, before, last.env, last.action).result == Ok(true) {
        RecordsSeveral(p, genesis, before, last.env, last.action);
      }
    }
  }

  /** What runs from a healthy session and finishes is verified in the same way. */
  lemma {:induction false} RunVerifies(p: Platform, genesis: Document, s: State, calls: seq<Call>, closing: Closing)
    requires Healthy(p, genesis, s) && Shaped(s.editor) && SingleEdits(s.journal.events)
    requires AllPossible(p, s, calls) && Finish(p, Ran(p, s, calls), closing).result.Ok?
    ensures var after := Finish(p, Ran(p, s, calls), closing).state;
      && EventsRead(p, after.journal.events, |after.journal.events|)
         == Ok(ReadBack(after.journal.events, after.retainedEventBytes))
      && Preflighted(p, after.journal)
         == if LargeUndoRecorded(p, s, calls) then Err(UnsupportedEvent) else Ok(after.retainedStateBytes)
  {
    var last := Ran(p, s, calls);
    RunConsistent(p, genesis, s, calls);
    if last.failure.Some? {
      PoisonedNeverFinishes(p, last, closing);
    }
    RunSingle(p, genesis, s, calls);
    WriterReaderAgree(p, genesis, last, closing);
    FinishOutcome(p, genesis, last, closing);
  }

  /**
   * A whole session that starts, runs and finishes: verification recomputes exactly the writer's budgets,
   * and refuses what recording admitted exactly when the undo of a removal larger than one insertion was recorded.
   */
  lemma {:induction false} SessionVerifies(p: Platform, opening: Opening, starter: Text, calls: seq<Call>,
                                           closing: Closing)
    requires SmallLayout(p) && Started(p, opening, starter).Ok?
    requires AllPossible(p, Started(p, opening, starter).value, calls)
    requires Finish(p, Ran(p, Started(p, opening, starter).value, calls), closing).result.Ok?
    ensures var s := Started(p, opening, starter).value;
      var after := Finish(p, Ran(p, s, calls), closing).state;
      && EventsRead(p, after.journal.events, |after.journal.events|)
         == Ok(ReadBack(after.journal.events, after.retainedEventBytes))
      && Preflighted(p, after.journal)
         == if LargeUndoRecorded(p, s, calls) then Err(UnsupportedEvent) else Ok(after.retainedStateBytes)
  {
    StartHealthy(p, opening, starter);
    RunVerifies(p, Document(starter, 0, Selection(0, 0)), Started(p, opening, starter).value, calls, closing);
  }

  // ----- A finished session that verification refuses -----

  const LARGE := MAX_INSERTED_TEXT_BYTES + 1

  function Letters(count: nat): Text {
    seq(count, i => 97)
  }

  const CLEARED := TextEdit(0, LARGE, [])

  /** Clears a text one byte longer than one insertion may be. */
  const CLEAR := Transaction(0, 1, Keyboard, [CLEARED], Selection(0, LARGE), Selection(0, 0))

  /** Undoes that: the text comes back in two insertions. */
  const UNDO := Transaction(1, 2, Undo, InverseEdits(Letters(LARGE), CLEARED), Selection(0, 0), Selection(0, LARGE))

  const CLEAR_THEN_UNDO := [
    Call(Surroundings(true, Persistence(true, Acknowledged)), SelectAll),
    Call(Surroundings(true, Persistence(true, Acknowledged)), Plain(Keyboard, CLEARED, Selection(0, 0))),
    Call(Surroundings(true, Persistence(true, Acknowledged)), UndoLast)]

  /** The record can be encoded, and its charge is at most four mebibytes. */
  predicate Affordable(p: Platform, e: Envelope) {
    p.charge(e).Some? && p.charge(e).value <= 4 * 1024 * 1024
  }

  predicate TerminalsAffordable(p: Platform, count: nat) {
    && Affordable(p, Envelope(count + 1, count, WorkspaceCheckpoint))
    && Affordable(p, Envelope(count + 2, count + 1, SubmissionFinalized(count + 2)))
  }

  /**
   * A platform on which the session can be recorded: its layout is small, the session's records and the terminal
   * records each step reserves are affordable, and the codec represents its two transactions and its history step.
   */
  predicate Accommodates(p: Platform) {
    && SmallLayout(p)
    && Affordable(p, GENESIS_RECORD)
    && Affordable(p, Envelope(2, 1, SelectionChanged(Selection(0, LARGE))))
    && Affordable(p, Envelope(3, 2, FileEdited(CLEAR))) && Affordable(p, Envelope(4, 3, FileEdited(UNDO)))
    && TerminalsAffordable(p, 1) && TerminalsAffordable(p, 2) && TerminalsAffordable(p, 3) && TerminalsAffordable(p, 4)
    && p.encodes(CLEAR) && p.encodes(UNDO)
    && HistoryEncodes(p.encodes, Undo, UNDO.edits) && HistoryEncodes(p.encodes, Redo, [CLEARED])
  }

  /** After `count` records that are all affordable. */
  predicate Roomy(s: State, count: nat) {
    && s.persistedEventCount == s.nextMonotonicMillis == count <= 4
    && s.retainedEventBytes <= count * 4 * 1024 * 1024
    && s.retainedStateBytes <= count * 2_200_000
  }

  lemma {:induction false} RoomyAdmits(p: Platform, s: State, count: nat, length: nat, event: Event)
    requires Accommodates(p) && Roomy(s, count) && 1 <= count <= 3 && length <= LARGE
    requires Affordable(p, Envelope(count + 1, count, event))
    ensures StateRefusal(p, s, true, length, event).None?
  {
    assert StateCharge(p, length) <= 2_200_000;
    assert TerminalsAffordable(p, count + 1);
  }

  lemma {:induction false} RoomyNext(p: Platform, s: State, count: nat, editor: Editor, event: Event)
    requires Accommodates(p) && Roomy(s, count) && count < 4 && |editor.document.text| <= LARGE
    requires Affordable(p, Envelope(count + 1, count, event))
    ensures Roomy(Acknowledge(p, s, editor, event), count + 1)
  {
    assert StateCharge(p, |editor.document.text|) <= 2_200_000;
  }

  lemma {:induction false} SelectsEverything(p: Platform, genesis: Document, s: State)
    requires Accommodates(p) && Healthy(p, genesis, s) && Roomy(s, 1)
    requires s.editor.document == Document(Letters(LARGE), 0, Selection(0, 0))
    ensures var step := Performed(p, s, CLEAR_THEN_UNDO[0].env, SelectAll);
      && step.result == Ok(true) && Healthy(p, genesis, step.state) && Roomy(step.state, 2)
      && step.state.editor == s.editor.(document := Document(Letters(LARGE), 0, Selection(0, LARGE)))
  {
    var all := Selection(0, LARGE);
    RoomyAdmits(p, s, 1, LARGE, SelectionChanged(all));
    SelectionRecorded(p, genesis, s, CLEAR_THEN_UNDO[0].env, all);
    PerformedSteps(p, genesis, s, CLEAR_THEN_UNDO[0].env, SelectAll);
    RoomyNext(p, s, 1, s.editor.(document := s.editor.document.(selection := all)), SelectionChanged(all));
  }

  lemma {:induction false} ClearAdmitted(d: Document)
    requires d == Document(Letters(LARGE), 0, Selection(0, LARGE))
    ensures var t := Transaction(0, 1, Keyboard, [CLEARED], Selection(0, LARGE), Selection(0, 0));
      t == CLEAR && Prepare(d, t) == Commits([])
  {
    ApplyOne(d.text, CLEARED);
    assert Replace(d.text, CLEARED) == [];
  }

  lemma {:induction false} ClearsEverything(p: Platform, genesis: Document, s: State)
    requires Accommodates(p) && Healthy(p, genesis, s) && Roomy(s, 2)
    requires s.editor.document == Document(Letters(LARGE), 0, Selection(0, LARGE))
    ensures HistoryAllows(s.editor, CLEAR) && Prepare(s.editor.document, CLEAR).Commits?
    ensures var step := Performed(p, s, CLEAR_THEN_UNDO[1].env, CLEAR_THEN_UNDO[1].action);
      && step.result == Ok(true) && Healthy(p, genesis, step.state) && Roomy(step.state, 3)
      && step.state.editor == Apply(s.editor, CLEAR)
  {
    UndoOfClear(s.editor);
    RoomyAdmits(p, s, 2, 0, FileEdited(CLEAR));
    AfterLengthExact(s.editor.document.text, CLEAR.edits);
    EditRecorded(p, genesis, s, CLEAR_THEN_UNDO[1].env, CLEAR);
    PerformedSteps(p, genesis, s, CLEAR_THEN_UNDO[1].env, CLEAR_THEN_UNDO[1].action);
    RoomyNext(p, s, 2, Apply(s.editor, CLEAR), FileEdited(CLEAR));
  }

  /** After clearing the text, undoing asks for the transaction of two insertions. */
  lemma {:induction false} UndoOfClear(before: Editor)
    requires before.document == Document(Letters(LARGE), 0, Selection(0, LARGE))
    ensures Prepare(before.document, CLEAR) == Commits([]) && HistoryAllows(before, CLEAR)
    ensures var after := Apply(before, CLEAR);
      && after.document == Document([], 1, Selection(0, 0)) && after.undo != []
      && UndoTransaction(after) == UNDO && UndoesLargeRemoval(after, UndoLast)
      && Prepare(after.document, UNDO) == Commits(Letters(LARGE)) && HistoryAllows(after, UNDO)
  {
    ClearAdmitted(before.document);
    UndoAdmitted(before, Apply(before, CLEAR), CLEAR);
  }

  lemma {:induction false} UndoesEverything(p: Platform, genesis: Document, before: Editor, s: State)
    requires Accommodates(p) && Healthy(p, genesis, s) && Roomy(s, 3)
    requires before.document == Document(Letters(LARGE), 0, Selection(0, LARGE))
    requires HistoryAllows(before, CLEAR) && Prepare(before.document, CLEAR).Commits?
            && s.editor == Apply(before, CLEAR)
    ensures UndoesLargeRemoval(s.editor, UndoLast)
    ensures Performed(p, s, CLEAR_THEN_UNDO[2].env, UndoLast).result == Ok(true)
    ensures Healthy(p, genesis, Performed(p, s, CLEAR_THEN_UNDO[2].env, UndoLast).state)
  {
    UndoOfClear(before);
    RoomyAdmits(p, s, 3, LARGE, FileEdited(UNDO));
    AfterLengthExact(s.editor.document.text, UNDO.edits);
    EditRecorded(p, genesis, s, CLEAR_THEN_UNDO[2].env, UNDO);
    PerformedSteps(p, genesis, s, CLEAR_THEN_UNDO[2].env, UndoLast);
  }

  lemma {:induction false} RanThree(p: Platform, s: State)
    ensures var s1 := Performed(p, s, CLEAR_THEN_UNDO[0].env, CLEAR_THEN_UNDO[0].action).state;
      var s2 := Performed(p, s1, CLEAR_THEN_UNDO[1].env, CLEAR_THEN_UNDO[1].action).state;
      && Ran(p, s, CLEAR_THEN_UNDO[..0]) == s
      && Ran(p, s, CLEAR_THEN_UNDO[..1]) == s1
      && Ran(p, s, CLEAR_THEN_UNDO[..2]) == s2
      && Ran(p, s, CLEAR_THEN_UNDO) == Performed(p, s2, CLEAR_THEN_UNDO[2].env, CLEAR_THEN_UNDO[2].action).state
  {
    assert CLEAR_THEN_UNDO[..1][..0] == [] && CLEAR_THEN_UNDO[..2][..1] == CLEAR_THEN_UNDO[..1];
    assert CLEAR_THEN_UNDO[..0] == [];
  }

  lemma {:induction false} ThreePossible(p: Platform, s: State)
    ensures AllPossible(p, s, CLEAR_THEN_UNDO)
  {
    var one, two := CLEAR_THEN_UNDO[..1], CLEAR_THEN_UNDO[..2];
    assert one[..|one| - 1] == [] && one[|one| - 1].action.SelectAll?;
    assert AllPossible(p, s, one[..|one| - 1]);
    assert Possible(Ran(p, s, one[..|one| - 1]), one[|one| - 1].action);
    assert AllPossible(p, s, one);
    assert two[..|two| - 1] == one && two[|two| - 1].action.Plain?;
    assert AllPossible(p, s, two);
  }

  lemma {:induction false} ClearThenUndo(p: Platform, opening: Opening, s: State)
    requires Accommodates(p) && opening == Opening(true, Acknowledged, true)
    requires Started(p, opening, Letters(LARGE)) == Ok(s)
    ensures Healthy(p, Document(Letters(LARGE), 0, Selection(0, 0)), Ran(p, s, CLEAR_THEN_UNDO))
    ensures LargeUndoRecorded(p, s, CLEAR_THEN_UNDO)
  {
    var genesis := Document(Letters(LARGE), 0, Selection(0, 0));
    StartHealthy(p, opening, Letters(LARGE));
    SelectsEverything(p, genesis, s);
    var s1 := Performed(p, s, CLEAR_THEN_UNDO[0].env, SelectAll).state;
    ClearsEverything(p, genesis, s1);
    var s2 := Performed(p, s1, CLEAR_THEN_UNDO[1].env, CLEAR_THEN_UNDO[1].action).state;
    UndoesEverything(p, genesis, s1.editor, s2);
    RanThree(p, s);
  }

  /**
   * On every platform on which these three actions can be recorded, recording admits clearing a text one byte
   * longer than an insertion may be and undoing that, and the session finishes, but verification refuses it:
   * recording and verification do not always agree.
   */
  lemma {:induction false} AgreementFails(p: Platform)
    requires Accommodates(p)
    ensures exists opening, starter, calls, closing :: RefusedByVerification(p, opening, starter, calls, closing)
  {
    var opening := Opening(true, Acknowledged, true);
    var closing := Closing(true, Replaced, Persistence(true, Acknowledged), Persistence(true, Acknowledged), true,
        true);
    var s := Started(p, opening, Letters(LARGE)).value;
    ClearThenUndo(p, opening, s);
    ThreePossible(p, s);
    FinishOutcome(p, Document(Letters(LARGE), 0, Selection(0, 0)), Ran(p, s, CLEAR_THEN_UNDO), closing);
    SessionVerifies(p, opening, Letters(LARGE), CLEAR_THEN_UNDO, closing);
    assert RefusedByVerification(p, opening, Letters(LARGE), CLEAR_THEN_UNDO, closing);
  }

  /** The session starts, runs and finishes, and the preflight of its stream fails. */
  predicate RefusedByVerification(p: Platform, opening: Opening, starter: Text, calls: seq<Call>, closing: Closing) {
    && Started(p, opening, starter).Ok?
    && AllPossible(p, Started(p, opening, starter).value, calls)
    && Finish(p, Ran(p, Started(p, opening, starter).value, calls), closing).result.Ok?
    && Preflighted(p, Finish(p, Ran(p, Started(p, opening, starter).value, calls), closing).state.journal).Err?
  }
}
