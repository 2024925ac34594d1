/** One-file recording sessions and the reader that verifies what they wrote (src/milestone_a.rs). */
module Recording {
  import opened Common
  import opened Editing

  const MAX_MILESTONE_EVENTS := 256
  const RESERVED_TERMINAL_EVENTS := 2
  const MAX_REPLAY_RETAINED_STATE_BYTES := 64 * 1024 * 1024
  const MAX_REPLAY_RETAINED_EVENT_BYTES := 32 * 1024 * 1024
  const MAX_WORKSPACE_FILE_BYTES := 1024 * 1024
  const SOURCE_FILE_NAME := "main.rs"

  // ----- The journal -----

  datatype Event =
    | FileEdited(transaction: Transaction)
    | SelectionChanged(selection: Selection)
    | WorkspaceCheckpoint
    | SubmissionFinalized(eventCount: nat)

  datatype Envelope = Envelope(sequence: nat, millis: nat, event: Event)

  /** A snapshot and the event it belongs to. */
  datatype Stored = Stored(owner: Envelope, document: Document)

  /** The stored events in order, and the snapshots of the checkpoint events by sequence. */
  datatype Journal = Journal(events: seq<Envelope>, checkpoints: map<nat, Stored>)

  const GENESIS_RECORD := Envelope(1, 0, WorkspaceCheckpoint)

  // ----- What the platform fixes -----

  /**
   * The bytes of the fixed structures of one retained state, the charge of a retained event when its
   * envelope can be encoded, and what the transaction codec can represent. Hashes have a fixed width,
   * so a charge does not depend on them.
   */
  datatype Platform = Platform(layout: nat, charge: Envelope -> Option<nat>, encodes: Codec)

  function AllocationCharge(length: nat): nat {
    2 * length + 64
  }

  function StateCharge(p: Platform, length: nat): nat {
    p.layout + 2 * 1024 + 8 * 64 + 5 * AllocationCharge(|SOURCE_FILE_NAME|) + 2 * AllocationCharge(length)
  }

  datatype Terminal = Terminal(checkpoint: nat, finalization: nat)

  /** The charges of the two records that end a session. */
  function TerminalBudget(p: Platform, count: nat, millis: nat): Option<Terminal> {
    match (p.charge(Envelope(count + 1, millis, WorkspaceCheckpoint)),
           p.charge(Envelope(count + 2, SaturatingAdd(millis, 1), SubmissionFinalized(count + 2))))
    case (Some(checkpoint), Some(finalization)) => Some(Terminal(checkpoint, finalization))
    case _ => None
  }

  // ----- Outcomes -----

  datatype Resource = SourceBytes | ReplayEvents | StateBytes | EventBytes

  datatype Error =
    | LimitExceeded(resource: Resource)
    | RecordingFailed
    | EditorRefused
    | Environment
    | Invariant
    | IncompleteSession
    | Mismatch
    | UnsupportedEvent

  datatype Outcome<T> = Ok(value: T) | Err(error: Error)

  /** How the writer answers: acknowledged, or not, in which case the record may still have reached the file. */
  datatype Ack = Acknowledged | Unconfirmed(landed: bool)

  /** Whether the directory and the journal are still the ones opened, and how the writer answers. */
  datatype Persistence = Persistence(identities: bool, ack: Ack)

  // ----- The session -----

  datatype State = State(
    editor: Editor,
    captured: seq<Transaction>,
    writerOpen: bool,
    persistedEventCount: nat,
    retainedStateBytes: nat,
    retainedEventBytes: nat,
    nextMonotonicMillis: nat,
    failure: Option<Error>,
    journal: Journal,
    source: Text)

  datatype Step<T> = Step(state: State, result: Outcome<T>)

  /** The first failure is kept; the writer closes. */
  function Fail(s: State, error: Error): State {
    s.(failure := if s.failure.None? then Some(error) else s.failure, writerOpen := false)
  }

  function Append(j: Journal, e: Envelope, checkpoint: Option<Document>): Journal {
    Journal(j.events + [e], if checkpoint.Some? then j.checkpoints[e.sequence := Stored(e, checkpoint.value)]
        else j.checkpoints)
  }

  function PersistedJob(s: State, env: Persistence, millis: nat, event: Event, checkpoint: Option<Document>): Step<()> {
    var record := Envelope(s.persistedEventCount + 1, millis, event);
    if s.failure.Some? then Step(Fail(s, RecordingFailed), Err(RecordingFailed))
    else if !env.identities then Step(Fail(s, Environment), Err(Environment))
    else if !s.writerOpen then Step(Fail(s, Invariant), Err(Invariant))
    else match env.ack
      case Acknowledged =>
        Step(s.(persistedEventCount := s.persistedEventCount + 1, journal := Append(s.journal, record, checkpoint)),
            Ok(()))
      case Unconfirmed(landed) =>
        var s' := if landed then s.(journal := Append(s.journal, record, checkpoint)) else s;
        Step(Fail(s', RecordingFailed), Err(RecordingFailed))
  }

  function TookMillis(s: State): State {
    s.(nextMonotonicMillis := SaturatingAdd(s.nextMonotonicMillis, 1))
  }

  function PersistedEvent(p: Platform, s: State, env: Persistence, event: Event): Step<()> {
    match p.charge(Envelope(s.persistedEventCount + 1, s.nextMonotonicMillis, event))
    case None => Step(s, Err(Invariant))
    case Some(charge) =>
      if s.retainedEventBytes + charge > MAX_REPLAY_RETAINED_EVENT_BYTES then Step(s, Err(LimitExceeded(EventBytes)))
      else
        var job := PersistedJob(TookMillis(s), env, s.nextMonotonicMillis, event, None);
        if job.result.Err? then job
        else Step(job.state.(retainedEventBytes := s.retainedEventBytes + charge), job.result)
  }

  /** Refusals before a mutation: the record and the two terminal records after it must fit. */
  function EventRefusal(p: Platform, s: State, event: Event): Option<Error> {
    var count := s.persistedEventCount + 1;
    match p.charge(Envelope(count, s.nextMonotonicMillis, event))
    case None => Some(Invariant)
    case Some(charge) =>
      match TerminalBudget(p, count, SaturatingAdd(s.nextMonotonicMillis, 1))
      case None => Some(Invariant)
      case Some(terminal) =>
        if s.retainedEventBytes + charge + terminal.checkpoint + terminal.finalization > MAX_REPLAY_RETAINED_EVENT_BYTES
        then Some(LimitExceeded(EventBytes)) else None
  }

  function StateRefusal(p: Platform, s: State, identities: bool, length: nat, event: Event): Option<Error> {
    if !identities then Some(Environment)
    else if length > MAX_WORKSPACE_FILE_BYTES then Some(LimitExceeded(SourceBytes))
    else if s.persistedEventCount + 1 + RESERVED_TERMINAL_EVENTS > MAX_MILESTONE_EVENTS
        then Some(LimitExceeded(ReplayEvents))
    else if s.retainedStateBytes + StateCharge(p, length) + RESERVED_TERMINAL_EVENTS * StateCharge(p, length)
            > MAX_REPLAY_RETAINED_STATE_BYTES then Some(LimitExceeded(StateBytes))
    else EventRefusal(p, s, event)
  }

  /** Charges the state that follows a persisted record. */
  function ChargedState(p: Platform, step: Step<()>, length: nat): Step<bool> {
    if step.result.Err? then Step(step.state, Err(step.result.error))
    else if step.state.retainedStateBytes + StateCharge(p, length) > MAX_REPLAY_RETAINED_STATE_BYTES
    then Step(step.state, Err(LimitExceeded(StateBytes)))
    else Step(step.state.(retainedStateBytes := step.state.retainedStateBytes + StateCharge(p, length)), Ok(true))
  }

  function PersistedEdit(p: Platform, s: State, env: Persistence, changed: bool, length: nat): Step<bool> {
    if !changed then Step(s, if s.captured == [] then Ok(false) else Err(Invariant))
    else if |s.captured| != 1 then Step(s, Err(Invariant))
    else
      var after := |s.editor.document.text|;
      var step := ChargedState(p, PersistedEvent(p, s.(captured := []), env, FileEdited(s.captured[0])), after);
      if step.result.Ok? && after != length then Step(step.state, Err(Invariant)) else step
  }

  /** Any error after the editor changed ends recording. */
  function Finished(step: Step<bool>): Step<bool> {
    if step.result.Err? then Step(Fail(step.state, step.result.error), step.result) else step
  }

  /** What the environment answers during one operation. */
  datatype Surroundings = Surroundings(identities: bool, persistence: Persistence)

  function Edited(p: Platform, s: State, env: Surroundings, transaction: Option<Transaction>): Step<bool> {
    if s.failure.Some? then Step(s, Err(RecordingFailed))
    else if s.captured != [] then Step(s, Err(Invariant))
    else match transaction
      case None => Step(s, Ok(false))
      case Some(t) =>
        match AfterLength(|s.editor.document.text|, t.edits)
        case OutOfRange => Step(s, Err(Invariant))
        case Overflow => Step(s, Err(LimitExceeded(StateBytes)))
        case Length(length) =>
          var refusal := StateRefusal(p, s, env.identities, length, FileEdited(t));
          if refusal.Some? then Step(s, Err(refusal.value))
          else match Validate(p.encodes, s.editor, t)
            case Rejected => Step(s, Err(EditorRefused))
            case NoChange => Finished(PersistedEdit(p, s, env.persistence, false, length))
            case Commits(_) =>
              Finished(PersistedEdit(p, s.(editor := Apply(s.editor, t), captured := s.captured + [t]),
                                     env.persistence, true, length))
  }

  function Selected(p: Platform, s: State, env: Surroundings, after: Selection): Step<bool> {
    if s.failure.Some? then Step(s, Err(RecordingFailed))
    else if s.editor.document.selection == after then Step(s, Ok(false))
    else
      var length := |s.editor.document.text|;
      var refusal := StateRefusal(p, s, env.identities, length, SelectionChanged(after));
      if refusal.Some? then Step(s, Err(refusal.value))
      else
        var moved := s.(editor := s.editor.(document := s.editor.document.(selection := after)));
        Finished(ChargedState(p, PersistedEvent(p, moved, env.persistence, SelectionChanged(after)), length))
  }

  // ----- Public operations -----

  /** A plain edit carries what the preview computed: its one range and the caret after it. */
  datatype Action =
    | Plain(origin: Origin, edit: TextEdit, selectionAfter: Selection)
    | UndoLast
    | RedoLast
    | Move(after: Selection)
    | SelectAll

  /** The transaction an action asks for on this editor. */
  function Request(e: Editor, a: Action): Option<Transaction> {
    match a
    case Plain(origin, edit, selectionAfter) => Some(Preview(e, origin, [edit], selectionAfter))
    case UndoLast => if e.undo == [] then None else Some(UndoTransaction(e))
    case RedoLast => if e.redo == [] then None else Some(RedoTransaction(e))
    case _ => None
  }

  /** The preview of an edit: refused, no change, or a transaction the editor will accept. */
  function Previewed(p: Platform, e: Editor, a: Action): Outcome<Option<Transaction>> {
    match Request(e, a)
    case None => Ok(None)
    case Some(t) =>
      match Validate(p.encodes, e, t)
      case Rejected => Err(EditorRefused)
      case NoChange => Ok(None)
      case Commits(_) => Ok(Some(t))
  }

  function Performed(p: Platform, s: State, env: Surroundings, a: Action): Step<bool> {
    match a
    case Move(after) => Selected(p, s, env, after)
    case SelectAll => Selected(p, s, env, Selection(0, |s.editor.document.text|))
    case _ =>
      if s.failure.Some? then Step(s, Err(RecordingFailed))
      else match Previewed(p, s.editor, a)
        case Err(e) => Step(s, Err(e))
        case Ok(t) => Edited(p, s, env, t)
  }

  // ----- What a journal means -----

  function ReplayEvent(d: Document, e: Event): Option<Document> {
    match e
    case FileEdited(t) => if Prepare(d, t).Commits? then Some(Commit(d, t)) else None
    case SelectionChanged(selection) => if SelectionFits(d.text, selection) then Some(d.(selection := selection))
        else None
    case _ => Some(d)
  }

  /** Folds the events after the genesis checkpoint over the genesis document. */
  function Replay(genesis: Document, events: seq<Envelope>): Option<Document> {
    if |events| <= 1 then Some(genesis)
    else match Replay(genesis, events[..|events| - 1])
      case None => None
      case Some(d) => ReplayEvent(d, events[|events| - 1].event)
  }

  /** The next record of a session that holds `count` records and the document `d`. */
  predicate Admissible(p: Platform, d: Document, count: nat, e: Envelope) {
    && e.sequence == count + 1 && e.millis == count
    && (e.event.FileEdited? || e.event.SelectionChanged?)
    && ReplayEvent(d, e.event).Some?
    && |ReplayEvent(d, e.event).value.text| <= MAX_WORKSPACE_FILE_BYTES
    && p.charge(e).Some?
  }

  predicate Genesis(p: Platform, genesis: Document, e: Envelope) {
    && genesis.version == 0 && genesis.selection == Selection(0, 0) && |genesis.text| <= MAX_WORKSPACE_FILE_BYTES
    && e == GENESIS_RECORD && p.charge(e).Some?
  }

  /** The journal of an open session: a genesis checkpoint, then edits and selections that replay. */
  predicate Recorded(p: Platform, genesis: Document, events: seq<Envelope>)
    ensures Recorded(p, genesis, events) ==> Replay(genesis, events).Some?
  {
    if |events| == 0 then false
    else if |events| == 1 then Genesis(p, genesis, events[0])
    else
      var init := events[..|events| - 1];
      Recorded(p, genesis, init) && Admissible(p, Replay(genesis, init).value, |init|, events[|events| - 1])
  }

  /** The charges of the states after each event. */
  function StateTotal(p: Platform, genesis: Document, events: seq<Envelope>): nat
    requires Recorded(p, genesis, events)
  {
    (if |events| == 1 then 0 else StateTotal(p, genesis, events[..|events| - 1]))
    + StateCharge(p, |Replay(genesis, events).value.text|)
  }

  function ChargeOrZero(p: Platform, e: Envelope): nat {
    if p.charge(e).Some? then p.charge(e).value else 0
  }

  function EventTotal(p: Platform, events: seq<Envelope>): nat {
    if events == [] then 0 else EventTotal(p, events[..|events| - 1]) + ChargeOrZero(p, events[|events| - 1])
  }

  // ----- The invariant of a session -----

  /** The two records that end the session fit every limit. */
  predicate Reserved(p: Platform, s: State) {
    && |s.editor.document.text| <= MAX_WORKSPACE_FILE_BYTES
    && s.persistedEventCount + RESERVED_TERMINAL_EVENTS <= MAX_MILESTONE_EVENTS
    && s.retainedStateBytes + RESERVED_TERMINAL_EVENTS * StateCharge(p, |s.editor.document.text|)
       <= MAX_REPLAY_RETAINED_STATE_BYTES
    && TerminalBudget(p, s.persistedEventCount, s.nextMonotonicMillis).Some?
    && (var terminal := TerminalBudget(p, s.persistedEventCount, s.nextMonotonicMillis).value;
        s.retainedEventBytes + terminal.checkpoint + terminal.finalization <= MAX_REPLAY_RETAINED_EVENT_BYTES)
  }

  /** The journal replays to the editor, and the counters are those a reader recomputes from it. */
  predicate Agrees(p: Platform, genesis: Document, s: State) {
    var events := s.journal.events;
    && Recorded(p, genesis, events)
    && Replay(genesis, events) == Some(s.editor.document)
    && s.journal.checkpoints == map[1 := Stored(GENESIS_RECORD, genesis)]
    && s.persistedEventCount == |events| && s.nextMonotonicMillis == |events|
    && s.retainedStateBytes == StateTotal(p, genesis, events)
    && s.retainedEventBytes == EventTotal(p, events)
  }

  predicate Healthy(p: Platform, genesis: Document, s: State) {
    && s.failure.None? && s.captured == [] && s.writerOpen
    && Agrees(p, genesis, s)
    && Reserved(p, s)
  }

  /** After a failure the writer is closed and the journal still replays; it holds at most one unconfirmed record. */
  predicate Poisoned(p: Platform, genesis: Document, s: State) {
    && s.failure.Some? && !s.writerOpen
    && Recorded(p, genesis, s.journal.events)
    && s.persistedEventCount <= |s.journal.events| <= s.persistedEventCount + 1
    && s.journal.checkpoints == map[1 := Stored(GENESIS_RECORD, genesis)]
  }

  predicate Consistent(p: Platform, genesis: Document, s: State) {
    Healthy(p, genesis, s) || Poisoned(p, genesis, s)
  }

  // ----- One recorded step -----

  lemma {:induction false} ReplayExtends(genesis: Document, events: seq<Envelope>, e: Envelope)
    requires events != [] && Replay(genesis, events).Some?
    ensures Replay(genesis, events + [e]) == ReplayEvent(Replay(genesis, events).value, e.event)
  {
    assert (events + [e])[..|events|] == events;
  }

  lemma {:induction false} RecordedExtends(p: Platform, genesis: Document, events: seq<Envelope>, e: Envelope)
    requires Recorded(p, genesis, events) && Admissible(p, Replay(genesis, events).value, |events|, e)
    ensures Recorded(p, genesis, events + [e])
    ensures StateTotal(p, genesis, events + [e])
            == StateTotal(p, genesis, events) + StateCharge(p,
                |ReplayEvent(Replay(genesis, events).value, e.event).value.text|)
    ensures EventTotal(p, events + [e]) == EventTotal(p, events) + p.charge(e).value
  {
    assert (events + [e])[..|events|] == events;
    ReplayExtends(genesis, events, e);
  }

  /** What a session holds once `event` moved its editor to `editor` and was acknowledged. */
  function Acknowledge(p: Platform, s: State, editor: Editor, event: Event): State {
    var e := Envelope(s.persistedEventCount + 1, s.nextMonotonicMillis, event);
    s.(editor := editor,
       persistedEventCount := s.persistedEventCount + 1,
       nextMonotonicMillis := s.nextMonotonicMillis + 1,
       retainedStateBytes := s.retainedStateBytes + StateCharge(p, |editor.document.text|),
       retainedEventBytes := s.retainedEventBytes + ChargeOrZero(p, e),
       journal := Append(s.journal, e, None))
  }

  /** The journal and the counters move together. */
  lemma {:induction false} AcknowledgeAgrees(p: Platform, genesis: Document, s: State, editor: Editor, event: Event)
    requires Agrees(p, genesis, s)
    requires event.FileEdited? || event.SelectionChanged?
    requires ReplayEvent(s.editor.document, event) == Some(editor.document)
    requires |editor.document.text| <= MAX_WORKSPACE_FILE_BYTES
    requires p.charge(Envelope(s.persistedEventCount + 1, s.nextMonotonicMillis, event)).Some?
    ensures Agrees(p, genesis, Acknowledge(p, s, editor, event))
  {
    var e := Envelope(s.persistedEventCount + 1, s.nextMonotonicMillis, event);
    RecordedExtends(p, genesis, s.journal.events, e);
    ReplayExtends(genesis, s.journal.events, e);
  }

  /** Room for the record and two terminal records leaves room for two terminal records. */
  lemma {:induction false} AcknowledgeReserved(p: Platform, s: State, editor: Editor, event: Event)
    requires s.persistedEventCount == s.nextMonotonicMillis
    requires StateRefusal(p, s, true, |editor.document.text|, event).None?
    ensures Reserved(p, Acknowledge(p, s, editor, event))
  {
  }

  /** An admitted record keeps the session healthy. */
  lemma {:induction false} AcknowledgeKeeps(p: Platform, genesis: Document, s: State, editor: Editor, event: Event)
    requires Healthy(p, genesis, s)
    requires event.FileEdited? || event.SelectionChanged?
    requires ReplayEvent(s.editor.document, event) == Some(editor.document)
    requires StateRefusal(p, s, true, |editor.document.text|, event).None?
    ensures Healthy(p, genesis, Acknowledge(p, s, editor, event))
  {
    AcknowledgeAgrees(p, genesis, s, editor, event);
    AcknowledgeReserved(p, s, editor, event);
  }

  /** Once preflight passed, only the environment can stop the record, and then recording ends. */
  lemma {:induction false} PersistOutcome(p: Platform, genesis: Document, s: State, editor: Editor, env: Persistence,
                                          event: Event)
    requires Healthy(p, genesis, s)
    requires StateRefusal(p, s, true, |editor.document.text|, event).None?
    ensures var length := |editor.document.text|;
      var step := ChargedState(p, PersistedEvent(p, s.(editor := editor), env, event), length);
      if env.identities && env.ack.Acknowledged? then step == Step(Acknowledge(p, s, editor, event), Ok(true))
      else
        && step.result.Err? && !step.result.error.LimitExceeded?
        && step.state.failure.Some? && !step.state.writerOpen
        && step.state.captured == []
        && step.state.persistedEventCount == s.persistedEventCount
        && (step.state.journal == s.journal || step.state.journal == Acknowledge(p, s, editor, event).journal)
  {
  }

  /** A record that reached the file without being acknowledged still replays. */
  lemma {:induction false} PersistPoisons(p: Platform, genesis: Document, s: State, s': State, editor: Editor,
                                          event: Event)
    requires Healthy(p, genesis, s)
    requires event.FileEdited? || event.SelectionChanged?
    requires ReplayEvent(s.editor.document, event) == Some(editor.document)
    requires StateRefusal(p, s, true, |editor.document.text|, event).None?
    requires s'.failure.Some? && !s'.writerOpen && s'.persistedEventCount == s.persistedEventCount
    requires s'.journal == s.journal || s'.journal == Acknowledge(p, s, editor, event).journal
    ensures Poisoned(p, genesis, s')
  {
    AcknowledgeKeeps(p, genesis, s, editor, event);
  }

  /** What an action on a healthy session leads to: nothing, one acknowledged record, or the end of recording. */
  predicate Steps(p: Platform, genesis: Document, s: State, step: Step<bool>) {
    match step.result
    case Ok(false) => step.state == s
    case Ok(true) =>
      && Healthy(p, genesis, step.state)
      && |step.state.journal.events| == |s.journal.events| + 1
      && step.state.journal.events[..|s.journal.events|] == s.journal.events
    case Err(error) =>
      step.state == s || (!error.LimitExceeded? && Poisoned(p, genesis, step.state)
          && s.journal.events <= step.state.journal.events)
  }

  lemma {:induction false} RecordSteps(p: Platform, genesis: Document, s: State, editor: Editor, env: Persistence,
                                       event: Event)
    requires Healthy(p, genesis, s)
    requires event.FileEdited? || event.SelectionChanged?
    requires ReplayEvent(s.editor.document, event) == Some(editor.document)
    requires StateRefusal(p, s, true, |editor.document.text|, event).None?
    ensures Steps(p, genesis, s, Finished(ChargedState(p, PersistedEvent(p, s.(editor := editor), env, event),
            |editor.document.text|)))
  {
    var step := ChargedState(p, PersistedEvent(p, s.(editor := editor), env, event), |editor.document.text|);
    PersistOutcome(p, genesis, s, editor, env, event);
    if env.identities && env.ack.Acknowledged? {
      AcknowledgeKeeps(p, genesis, s, editor, event);
    } else {
      PersistPoisons(p, genesis, s, step.state, editor, event);
    }
  }

  // ----- Actions -----

  lemma {:induction false} EditSteps(p: Platform, genesis: Document, s: State, env: Surroundings,
                                     t: Option<Transaction>)
    requires Healthy(p, genesis, s)
    ensures Steps(p, genesis, s, Edited(p, s, env, t))
  {
    if t.Some? && StateRefusalOf(p, s, env, t.value).None? && Validate(p.encodes, s.editor, t.value).Commits? {
      AfterLengthExact(s.editor.document.text, t.value.edits);
      var editor := Apply(s.editor, t.value);
      RecordSteps(p, genesis, s, editor, env.persistence, FileEdited(t.value));
      EditUnfolds(p, s, env, t.value);
    }
  }

  function StateRefusalOf(p: Platform, s: State, env: Surroundings, t: Transaction): Option<Error> {
    match AfterLength(|s.editor.document.text|, t.edits)
    case OutOfRange => Some(Invariant)
    case Overflow => Some(LimitExceeded(StateBytes))
    case Length(length) => StateRefusal(p, s, env.identities, length, FileEdited(t))
  }

  /** An edit that preflight and the editor admit is recorded as that transaction. */
  lemma {:induction false} EditUnfolds(p: Platform, s: State, env: Surroundings, t: Transaction)
    requires s.failure.None? && s.captured == []
    requires StateRefusalOf(p, s, env, t).None? && Validate(p.encodes, s.editor, t).Commits?
    ensures var editor := Apply(s.editor, t);
      Edited(p, s, env, Some(t))
      == Finished(ChargedState(p, PersistedEvent(p, s.(editor := editor), env.persistence, FileEdited(t)),
          |editor.document.text|))
  {
    AfterLengthExact(s.editor.document.text, t.edits);
    var editor := Apply(s.editor, t);
    assert (s.(editor := editor, captured := [] + [t])).(captured := []) == s.(editor := editor);
  }

  lemma {:induction false} SelectSteps(p: Platform, genesis: Document, s: State, env: Surroundings, after: Selection)
    requires Healthy(p, genesis, s) && SelectionFits(s.editor.document.text, after)
    ensures Steps(p, genesis, s, Selected(p, s, env, after))
  {
    if s.editor.document.selection != after
       && StateRefusal(p, s, env.identities, |s.editor.document.text|, SelectionChanged(after)).None? {
      var editor := s.editor.(document := s.editor.document.(selection := after));
      RecordSteps(p, genesis, s, editor, env.persistence, SelectionChanged(after));
    }
  }

  /** The editor only moves to boundaries of its text, and plain edits are typed or pasted. */
  predicate Possible(s: State, a: Action) {
    match a
    case Plain(origin, _, _) => origin == Keyboard || origin == Paste
    case Move(after) => SelectionFits(s.editor.document.text, after)
    case _ => true
  }

  /** Every action keeps the session healthy, changes nothing, or ends recording with a journal that replays. */
  lemma {:induction false} PerformedSteps(p: Platform, genesis: Document, s: State, env: Surroundings, a: Action)
    requires Healthy(p, genesis, s) && Possible(s, a)
    ensures Steps(p, genesis, s, Performed(p, s, env, a))
  {
    match a {
      case Move(after) => SelectSteps(p, genesis, s, env, after);
      case SelectAll => SelectSteps(p, genesis, s, env, Selection(0, |s.editor.document.text|));
      case _ =>
        if Previewed(p, s.editor, a).Ok? {
          EditSteps(p, genesis, s, env, Previewed(p, s.editor, a).value);
        }
    }
  }

  /** After the first failure no action changes anything. */
  lemma {:induction false} PoisonedIsFinal(p: Platform, s: State, env: Surroundings, a: Action)
    requires s.failure.Some?
    ensures Performed(p, s, env, a) == Step(s, Err(RecordingFailed))
  {
  }

  /** A budget refusal of an action leaves the whole session as it was. */
  lemma {:induction false} BudgetRefusalIsPure(p: Platform, genesis: Document, s: State, env: Surroundings, a: Action)
    requires Consistent(p, genesis, s) && Possible(s, a)
    ensures var step := Performed(p, s, env, a);
      step.result.Err? && step.result.error.LimitExceeded? ==> step.state == s
  {
    if s.failure.Some? {
      PoisonedIsFinal(p, s, env, a);
    } else {
      PerformedSteps(p, genesis, s, env, a);
    }
  }

  // ----- Whole sessions -----

  datatype Call = Call(env: Surroundings, action: Action)

  function Ran(p: Platform, s: State, calls: seq<Call>): State {
    if calls == [] then s
    else
      var before := Ran(p, s, calls[..|calls| - 1]);
      Performed(p, before, calls[|calls| - 1].env, calls[|calls| - 1].action).state
  }

  predicate AllPossible(p: Platform, s: State, calls: seq<Call>) {
    calls == [] ||
    (AllPossible(p, s, calls[..|calls| - 1]) && Possible(Ran(p, s, calls[..|calls| - 1]), calls[|calls| - 1].action))
  }

  /**
   * In every reachable state the journal replays. While nothing has failed, it replays to the editor's
   * document, the counters are the recomputed totals and the terminal records fit.
   */
  lemma {:induction false} RunConsistent(p: Platform, genesis: Document, s: State, calls: seq<Call>)
    requires Healthy(p, genesis, s) && AllPossible(p, s, calls)
    ensures Consistent(p, genesis, Ran(p, s, calls))
  {
    if calls != [] {
      var init, last := calls[..|calls| - 1], calls[|calls| - 1];
      RunConsistent(p, genesis, s, init);
      var before := Ran(p, s, init);
      if before.failure.Some? {
        PoisonedIsFinal(p, before, last.env, last.action);
      } else {
        PerformedSteps(p, genesis, before, last.env, last.action);
      }
    }
  }

  // ----- What a recorded action adds -----

  predicate Favourable(env: Surroundings) {
    env == Surroundings(true, Persistence(true, Acknowledged))
  }

  /** An admitted edit is recorded exactly when the environment is favourable. */
  lemma {:induction false} EditRecorded(p: Platform, genesis: Document, s: State, env: Surroundings, t: Transaction)
    requires Healthy(p, genesis, s)
    requires StateRefusalOf(p, s, Surroundings(true, env.persistence), t).None?
            && Validate(p.encodes, s.editor, t).Commits?
    ensures if Favourable(env) then Edited(p, s, env, Some(t))
            == Step(Acknowledge(p, s, Apply(s.editor, t), FileEdited(t)), Ok(true))
            else Edited(p, s, env, Some(t)).result.Err?
  {
    if env.identities {
      EditUnfolds(p, s, env, t);
      AfterLengthExact(s.editor.document.text, t.edits);
      PersistOutcome(p, genesis, s, Apply(s.editor, t), env.persistence, FileEdited(t));
    }
  }

  lemma {:induction false} SelectionRecorded(p: Platform, genesis: Document, s: State, env: Surroundings,
                                             after: Selection)
    requires Healthy(p, genesis, s) && s.editor.document.selection != after
    requires StateRefusal(p, s, true, |s.editor.document.text|, SelectionChanged(after)).None?
    ensures var editor := s.editor.(document := s.editor.document.(selection := after));
      if Favourable(env) then Selected(p, s, env, after)
          == Step(Acknowledge(p, s, editor, SelectionChanged(after)), Ok(true))
      else Selected(p, s, env, after).result.Err?
  {
    if env.identities {
      var editor := s.editor.(document := s.editor.document.(selection := after));
      PersistOutcome(p, genesis, s, editor, env.persistence, SelectionChanged(after));
    }
  }

  /** A recorded action acknowledged the selection or the transaction it asked for, and nothing else. */
  predicate Records(p: Platform, s: State, a: Action, after: State) {
    match a
    case Move(to) => after == Acknowledge(p, s, s.editor.(document := s.editor.document.(selection := to)),
        SelectionChanged(to))
    case SelectAll =>
      var all := Selection(0, |s.editor.document.text|);
      after == Acknowledge(p, s, s.editor.(document := s.editor.document.(selection := all)), SelectionChanged(all))
    case _ =>
      && Request(s.editor, a).Some?
      && (var t := Request(s.editor, a).value;
          && Validate(p.encodes, s.editor, t).Commits?
          && after == Acknowledge(p, s, Apply(s.editor, t), FileEdited(t)))
  }

  lemma {:induction false} EditRecords(p: Platform, genesis: Document, s: State, env: Surroundings, a: Action)
    requires Healthy(p, genesis, s) && !a.Move? && !a.SelectAll?
    requires Performed(p, s, env, a).result == Ok(true)
    ensures Records(p, s, a, Performed(p, s, env, a).state)
  {
    var t := Request(s.editor, a).value;
    EditRecorded(p, genesis, s, env, t);
  }

  lemma {:induction false} SelectionRecords(p: Platform, genesis: Document, s: State, env: Surroundings,
                                            after: Selection)
    requires Healthy(p, genesis, s) && Selected(p, s, env, after).result == Ok(true)
    ensures Selected(p, s, env, after).state
            == Acknowledge(p, s, s.editor.(document := s.editor.document.(selection := after)), SelectionChanged(after))
  {
    SelectionRecorded(p, genesis, s, env, after);
  }

  lemma {:induction false} PerformedRecords(p: Platform, genesis: Document, s: State, env: Surroundings, a: Action)
    requires Healthy(p, genesis, s) && Performed(p, s, env, a).result == Ok(true)
    ensures Records(p, s, a, Performed(p, s, env, a).state)
  {
    match a {
      case Move(after) => SelectionRecords(p, genesis, s, env, after);
      case SelectAll => SelectionRecords(p, genesis, s, env, Selection(0, |s.editor.document.text|));
      case _ => EditRecords(p, genesis, s, env, a);
    }
  }

  // ----- What fits is recorded -----

  /** What an action asks to record, with the editor after it. */
  datatype Wish = Nothing | Refused | Wish(editor: Editor, event: Event)

  function SelectionWish(e: Editor, after: Selection): Wish {
    if e.document.selection == after then Nothing
    else Wish(e.(document := e.document.(selection := after)), SelectionChanged(after))
  }

  function WishOf(p: Platform, e: Editor, a: Action): Wish {
    match a
    case Move(after) => SelectionWish(e, after)
    case SelectAll => SelectionWish(e, Selection(0, |e.document.text|))
    case _ =>
      match Request(e, a)
      case None => Nothing
      case Some(t) =>
        match Validate(p.encodes, e, t)
        case Rejected => Refused
        case NoChange => Nothing
        case Commits(_) => Wish(Apply(e, t), FileEdited(t))
  }

  /** The two records that end a session. */
  function TerminalEvents(count: nat): seq<Envelope> {
    [Envelope(count + 1, count, WorkspaceCheckpoint), Envelope(count + 2, count + 1, SubmissionFinalized(count + 2))]
  }

  /** The journal with one more record and the two that end the session. */
  function Prospect(events: seq<Envelope>, event: Event): seq<Envelope> {
    events + [Envelope(|events| + 1, |events|, event)] + TerminalEvents(|events| + 1)
  }

  predicate Encodable(p: Platform, events: seq<Envelope>) {
    forall i | 0 <= i < |events| :: p.charge(events[i]).Some?
  }

  /** The first limit that a record and the two terminal ones would pass: text, events, states, encoding, bytes. */
  function LimitPassed(p: Platform, genesis: Document, events: seq<Envelope>, length: nat, event: Event): Option<Error>
    requires Recorded(p, genesis, events)
  {
    var prospect := Prospect(events, event);
    if length > MAX_WORKSPACE_FILE_BYTES then Some(LimitExceeded(SourceBytes))
    else if |prospect| > MAX_MILESTONE_EVENTS then Some(LimitExceeded(ReplayEvents))
    else if StateTotal(p, genesis, events) + 3 * StateCharge(p, length) > MAX_REPLAY_RETAINED_STATE_BYTES
    then Some(LimitExceeded(StateBytes))
    else if !Encodable(p, prospect) then Some(Invariant)
    else if EventTotal(p, prospect) > MAX_REPLAY_RETAINED_EVENT_BYTES then Some(LimitExceeded(EventBytes))
    else None
  }

  lemma {:induction false} EventTotalExtends(p: Platform, events: seq<Envelope>, e: Envelope)
    ensures EventTotal(p, events + [e]) == EventTotal(p, events) + ChargeOrZero(p, e)
  {
    assert (events + [e])[..|events|] == events;
  }

  lemma {:induction false} TerminalTotal(p: Platform, events: seq<Envelope>, count: nat)
    ensures EventTotal(p, events + TerminalEvents(count))
            == EventTotal(p, events) + ChargeOrZero(p, TerminalEvents(count)[0])
                + ChargeOrZero(p, TerminalEvents(count)[1])
  {
    var t := TerminalEvents(count);
    EventTotalExtends(p, events, t[0]);
    EventTotalExtends(p, events + [t[0]], t[1]);
    assert events + [t[0]] + [t[1]] == events + t;
  }

  lemma {:induction false} RecordedEncodable(p: Platform, genesis: Document, events: seq<Envelope>)
    requires Recorded(p, genesis, events)
    ensures Encodable(p, events)
  {
    if |events| > 1 {
      var init := events[..|events| - 1];
      RecordedEncodable(p, genesis, init);
      assert forall i | 0 <= i < |init| :: events[i] == init[i];
    }
  }

  /** The prospect can be encoded when its three last records can, and its total adds theirs. */
  lemma {:induction false} ProspectIs(p: Platform, genesis: Document, events: seq<Envelope>, event: Event)
    requires Recorded(p, genesis, events)
    ensures var e, t := Envelope(|events| + 1, |events|, event), TerminalEvents(|events| + 1);
      && (Encodable(p, Prospect(events, event))
          <==> p.charge(e).Some? && p.charge(t[0]).Some? && p.charge(t[1]).Some?)
      && EventTotal(p, Prospect(events, event))
         == EventTotal(p, events) + ChargeOrZero(p, e) + ChargeOrZero(p, t[0]) + ChargeOrZero(p, t[1])
  {
    var e, t, n := Envelope(|events| + 1, |events|, event), TerminalEvents(|events| + 1), |events|;
    var prospect := Prospect(events, event);
    EventTotalExtends(p, events, e);
    TerminalTotal(p, events + [e], n + 1);
    RecordedEncodable(p, genesis, events);
    assert prospect[n] == e && prospect[n + 1] == t[0] && prospect[n + 2] == t[1];
    assert forall i | 0 <= i < n :: prospect[i] == events[i];
  }

  /** The preflight refuses exactly what passes a limit, with that limit. */
  lemma {:induction false} RefusalIs(p: Platform, genesis: Document, s: State, identities: bool, length: nat,
                                     event: Event)
    requires Healthy(p, genesis, s)
    ensures StateRefusal(p, s, identities, length, event)
            == if !identities then Some(Environment)
               else LimitPassed(p, genesis, s.journal.events, length, event)
  {
    ProspectIs(p, genesis, s.journal.events, event);
  }

  /** What an action on a healthy session does, whatever the environment answers. */
  predicate DoesExactly(p: Platform, genesis: Document, s: State, env: Surroundings, wish: Wish, step: Step<bool>)
    requires Recorded(p, genesis, s.journal.events)
  {
    match wish
    case Nothing => step == Step(s, Ok(false))
    case Refused => step == Step(s, Err(EditorRefused))
    case Wish(editor, event) =>
      var limit := LimitPassed(p, genesis, s.journal.events, |editor.document.text|, event);
      if !env.identities then step == Step(s, Err(Environment))
      else if limit.Some? then step == Step(s, Err(limit.value))
      else if !env.persistence.identities then step.result == Err(Environment) && step.state.failure.Some?
      else if !env.persistence.ack.Acknowledged? then step.result == Err(RecordingFailed) && step.state.failure.Some?
      else step == Step(Acknowledge(p, s, editor, event), Ok(true))
  }

  lemma {:induction false} PersistError(p: Platform, genesis: Document, s: State, editor: Editor, env: Persistence,
                                        event: Event)
    requires Healthy(p, genesis, s)
    requires StateRefusal(p, s, true, |editor.document.text|, event).None?
    requires !env.identities || !env.ack.Acknowledged?
    ensures var step := ChargedState(p, PersistedEvent(p, s.(editor := editor), env, event), |editor.document.text|);
      step.result == Err(if !env.identities then Environment else RecordingFailed) && step.state.failure.Some?
  {
  }

  lemma {:induction false} RecordsExactly(p: Platform, genesis: Document, s: State, env: Surroundings, editor: Editor,
                                          event: Event)
    requires Healthy(p, genesis, s) && env.identities
    requires StateRefusal(p, s, true, |editor.document.text|, event).None?
    ensures DoesExactly(p, genesis, s, env, Wish(editor, event),
                        Finished(ChargedState(p, PersistedEvent(p, s.(editor := editor), env.persistence, event),
                                              |editor.document.text|)))
  {
    RefusalIs(p, genesis, s, true, |editor.document.text|, event);
    PersistOutcome(p, genesis, s, editor, env.persistence, event);
    if !env.persistence.identities || !env.persistence.ack.Acknowledged? {
      PersistError(p, genesis, s, editor, env.persistence, event);
    }
  }

  lemma {:induction false} SelectedExactly(p: Platform, genesis: Document, s: State, env: Surroundings,
                                           after: Selection)
    requires Healthy(p, genesis, s)
    ensures DoesExactly(p, genesis, s, env, SelectionWish(s.editor, after), Selected(p, s, env, after))
  {
    if s.editor.document.selection != after {
      var editor := s.editor.(document := s.editor.document.(selection := after));
      var length, event := |s.editor.document.text|, SelectionChanged(after);
      RefusalIs(p, genesis, s, env.identities, length, event);
      if StateRefusal(p, s, env.identities, length, event).None? {
        RecordsExactly(p, genesis, s, env, editor, event);
      }
    }
  }

  lemma {:induction false} EditedExactly(p: Platform, genesis: Document, s: State, env: Surroundings, t: Transaction)
    requires Healthy(p, genesis, s) && Validate(p.encodes, s.editor, t).Commits?
    ensures DoesExactly(p, genesis, s, env, Wish(Apply(s.editor, t), FileEdited(t)), Edited(p, s, env, Some(t)))
  {
    AfterLengthExact(s.editor.document.text, t.edits);
    RefusalIs(p, genesis, s, env.identities, |Apply(s.editor, t).document.text|, FileEdited(t));
    if StateRefusalOf(p, s, env, t).None? {
      EditUnfolds(p, s, env, t);
      RecordsExactly(p, genesis, s, env, Apply(s.editor, t), FileEdited(t));
    }
  }

  /**
   * Every action on a healthy session: one that asks for nothing changes nothing; one whose record and the two
   * terminal records after it fit every limit is recorded, unless the environment fails; and one that does not fit
   * is refused for the first limit it passes, without a change.
   */
  lemma {:induction false} PerformedExactly(p: Platform, genesis: Document, s: State, env: Surroundings, a: Action)
    requires Healthy(p, genesis, s)
    ensures DoesExactly(p, genesis, s, env, WishOf(p, s.editor, a), Performed(p, s, env, a))
  {
    match a {
      case Move(after) => SelectedExactly(p, genesis, s, env, after);
      case SelectAll => SelectedExactly(p, genesis, s, env, Selection(0, |s.editor.document.text|));
      case _ =>
        if Request(s.editor, a).Some? && Validate(p.encodes, s.editor, Request(s.editor, a).value).Commits? {
          EditedExactly(p, genesis, s, env, Request(s.editor, a).value);
        }
    }
  }

  // ----- Starting -----

  /** The environment of a start: whether the files could be created, and how the writer answers. */
  datatype Opening = Opening(created: bool, ack: Ack, identities: bool)

  function Started(p: Platform, env: Opening, starter: Text): Outcome<State> {
    var genesis := Document(starter, 0, Selection(0, 0));
    if |starter| > MAX_WORKSPACE_FILE_BYTES then Err(LimitExceeded(SourceBytes))
    else if !env.created then Err(Environment)
    else match (p.charge(GENESIS_RECORD), TerminalBudget(p, 1, 1))
      case (Some(charge), Some(terminal)) =>
        if charge + terminal.checkpoint + terminal.finalization > MAX_REPLAY_RETAINED_EVENT_BYTES
        then Err(LimitExceeded(EventBytes))
        else if env.ack.Unconfirmed? then Err(RecordingFailed)
        else if !env.identities then Err(Environment)
        else Ok(State(Editor(genesis, [], []), [], true, 1, StateCharge(p, |starter|), charge, 1, None,
                      Journal([GENESIS_RECORD], map[1 := Stored(GENESIS_RECORD, genesis)]), starter))
      case _ => Err(Invariant)
  }

  /** A start succeeds exactly when the text and the first and terminal records fit and the environment cooperates. */
  lemma {:induction false} StartedExactly(p: Platform, env: Opening, starter: Text)
    ensures var records, r := [GENESIS_RECORD] + TerminalEvents(1), Started(p, env, starter);
      if |starter| > MAX_WORKSPACE_FILE_BYTES then r == Err(LimitExceeded(SourceBytes))
      else if !env.created then r == Err(Environment)
      else if !Encodable(p, records) then r == Err(Invariant)
      else if EventTotal(p, records) > MAX_REPLAY_RETAINED_EVENT_BYTES then r == Err(LimitExceeded(EventBytes))
      else if !env.ack.Acknowledged? then r == Err(RecordingFailed)
      else if !env.identities then r == Err(Environment)
      else r.Ok? && r.value.source == starter && r.value.editor.document == Document(starter, 0, Selection(0, 0))
  {
    var records := [GENESIS_RECORD] + TerminalEvents(1);
    TerminalTotal(p, [GENESIS_RECORD], 1);
    EventTotalExtends(p, [], GENESIS_RECORD);
    assert [] + [GENESIS_RECORD] == [GENESIS_RECORD];
    assert records[0] == GENESIS_RECORD && records[1] == TerminalEvents(1)[0] && records[2] == TerminalEvents(1)[1];
  }

  /** The fixed structures of one state: far below a mebibyte. */
  predicate SmallLayout(p: Platform) {
    p.layout <= 1024 * 1024
  }

  /** A session that starts is healthy: one state and two more of the largest text fit the state limit. */
  lemma {:induction false} StartHealthy(p: Platform, env: Opening, starter: Text)
    requires SmallLayout(p) && Started(p, env, starter).Ok?
    ensures Healthy(p, Document(starter, 0, Selection(0, 0)), Started(p, env, starter).value)
  {
    var s := Started(p, env, starter).value;
    assert s.journal.events[..0] == [];
  }

  // ----- Finishing -----

  datatype Replacement = Replaced | NotReplaced(landed: bool)

  /** The environment of a finish, in the order it is consulted. */
  datatype Closing = Closing(
    identities: bool,
    replacement: Replacement,
    checkpoint: Persistence,
    finalization: Persistence,
    shutdown: bool,
    ended: bool)

  function FinalizationRefusal(p: Platform, s: State, identities: bool, length: nat): Option<Error> {
    if !identities then Some(Environment)
    else if length > MAX_WORKSPACE_FILE_BYTES then Some(LimitExceeded(SourceBytes))
    else if s.persistedEventCount + RESERVED_TERMINAL_EVENTS > MAX_MILESTONE_EVENTS
        then Some(LimitExceeded(ReplayEvents))
    else if s.retainedStateBytes + RESERVED_TERMINAL_EVENTS * StateCharge(p, length) > MAX_REPLAY_RETAINED_STATE_BYTES
    then Some(LimitExceeded(StateBytes))
    else match TerminalBudget(p, s.persistedEventCount, s.nextMonotonicMillis)
      case None => Some(Invariant)
      case Some(terminal) =>
        if s.retainedEventBytes + terminal.checkpoint + terminal.finalization > MAX_REPLAY_RETAINED_EVENT_BYTES
        then Some(LimitExceeded(EventBytes)) else None
  }

  /** The final checkpoint: charged once it is acknowledged. */
  function Checkpointed(p: Platform, s: State, env: Persistence, charge: nat): Step<bool> {
    var job := PersistedJob(TookMillis(s), env, s.nextMonotonicMillis, WorkspaceCheckpoint, Some(s.editor.document));
    if job.result.Err? then Step(job.state, Err(job.result.error))
    else if s.retainedEventBytes + charge > MAX_REPLAY_RETAINED_EVENT_BYTES
        then Step(job.state, Err(LimitExceeded(EventBytes)))
    else
      ChargedState(p, Step(job.state.(retainedEventBytes := s.retainedEventBytes + charge), Ok(())),
          |s.editor.document.text|)
  }

  /** The terminal event: charged once it is acknowledged, and compared with the preflighted total. */
  function Finalized(p: Platform, s: State, env: Persistence, total: nat): Step<bool> {
    var final := s.persistedEventCount + 1;
    var step := PersistedEvent(p, s, env, SubmissionFinalized(final));
    if step.result.Ok? && step.state.retainedEventBytes != total then Step(step.state, Err(Mismatch))
    else
      var charged := ChargedState(p, step, |s.editor.document.text|);
      if charged.result.Ok? && charged.state.persistedEventCount != final then Step(charged.state, Err(Invariant))
      else charged
  }

  function Closed(s: State): State {
    s.(writerOpen := false)
  }

  /** The terminal records, the orderly shutdown and the end of the session; the value is the number of events. */
  function Ended(p: Platform, s: State, env: Closing, terminal: Terminal): Step<nat> {
    var checkpointed := Checkpointed(p, s, env.checkpoint, terminal.checkpoint);
    if checkpointed.result.Err? then Step(checkpointed.state, Err(checkpointed.result.error))
    else
      var total := s.retainedEventBytes + terminal.checkpoint + terminal.finalization;
      var finalized := Finalized(p, checkpointed.state, env.finalization, total);
      if finalized.result.Err? then Step(finalized.state, Err(finalized.result.error))
      else if !finalized.state.writerOpen then Step(finalized.state, Err(Invariant))
      else if !env.shutdown || !env.ended then Step(Closed(finalized.state), Err(Environment))
      else Step(Closed(finalized.state), Ok(finalized.state.persistedEventCount))
  }

  function TriedFinish(p: Platform, s: State, env: Closing): Step<nat> {
    var text := s.editor.document.text;
    if s.failure.Some? then Step(s, Err(RecordingFailed))
    else if s.captured != [] then Step(s, Err(Invariant))
    else match FinalizationRefusal(p, s, env.identities, |text|)
      case Some(error) => Step(s, Err(error))
      case None =>
        if env.replacement.NotReplaced? then
          Step(if env.replacement.landed then s.(source := text) else s, Err(Environment))
        else
          Ended(p, s.(source := text), env, TerminalBudget(p, s.persistedEventCount, s.nextMonotonicMillis).value)
  }

  /** Finishing consumes the session, whatever it returns. */
  function Finish(p: Platform, s: State, env: Closing): Step<nat> {
    var step := TriedFinish(p, s, env);
    Step(Closed(step.state), step.result)
  }

  /** What a finished session leaves behind. */
  predicate Complete(p: Platform, s: State, after: State) {
    var d, count := s.editor.document, |s.journal.events|;
    && after.journal.events == s.journal.events + TerminalEvents(count)
    && after.journal.checkpoints == s.journal.checkpoints[count + 1 := Stored(TerminalEvents(count)[0], d)]
    && after.source == d.text
    && after.retainedStateBytes == s.retainedStateBytes + 2 * StateCharge(p, |d.text|)
    && after.retainedEventBytes == EventTotal(p, after.journal.events)
    && after.retainedStateBytes <= MAX_REPLAY_RETAINED_STATE_BYTES
    && after.retainedEventBytes <= MAX_REPLAY_RETAINED_EVENT_BYTES
  }

  predicate Cooperates(env: Closing) {
    && env.identities && env.replacement.Replaced? && env.shutdown && env.ended
    && BothAcknowledged(env)
  }

  /** The session after the final checkpoint. */
  function AfterCheckpoint(p: Platform, s: State): State {
    var e := Envelope(s.persistedEventCount + 1, s.nextMonotonicMillis, WorkspaceCheckpoint);
    s.(persistedEventCount := s.persistedEventCount + 1,
       nextMonotonicMillis := s.nextMonotonicMillis + 1,
       retainedStateBytes := s.retainedStateBytes + StateCharge(p, |s.editor.document.text|),
       retainedEventBytes := s.retainedEventBytes + ChargeOrZero(p, e),
       journal := Append(s.journal, e, Some(s.editor.document)))
  }

  lemma {:induction false} CheckpointFits(p: Platform, s: State, env: Persistence)
    requires s.failure.None? && s.writerOpen && Reserved(p, s) && s.nextMonotonicMillis == s.persistedEventCount
    ensures var terminal := TerminalBudget(p, s.persistedEventCount, s.nextMonotonicMillis).value;
      var step := Checkpointed(p, s, env, terminal.checkpoint);
      if env == Persistence(true, Acknowledged) then step == Step(AfterCheckpoint(p, s), Ok(true))
      else step.result.Err? && !step.result.error.LimitExceeded?
  {
  }

  lemma {:induction false} FinalizationFits(p: Platform, s: State, env: Persistence, total: nat)
    requires s.failure.None? && s.writerOpen && s.persistedEventCount <= MAX_MILESTONE_EVENTS
            && s.nextMonotonicMillis == s.persistedEventCount
    requires s.retainedStateBytes + StateCharge(p, |s.editor.document.text|) <= MAX_REPLAY_RETAINED_STATE_BYTES
    requires p.charge(Envelope(s.persistedEventCount + 1, s.nextMonotonicMillis,
            SubmissionFinalized(s.persistedEventCount + 1))).Some?
    requires total == s.retainedEventBytes
      + p.charge(Envelope(s.persistedEventCount + 1, s.nextMonotonicMillis,
          SubmissionFinalized(s.persistedEventCount + 1))).value
    requires total <= MAX_REPLAY_RETAINED_EVENT_BYTES
    ensures var step := Finalized(p, s, env, total);
      if env == Persistence(true, Acknowledged) then
        && step.result == Ok(true) && step.state.writerOpen
        && step.state == Acknowledge(p, s, s.editor, SubmissionFinalized(s.persistedEventCount + 1))
      else step.result.Err? && !step.result.error.LimitExceeded?
  {
  }

  /** In a healthy session the preflight of finish passes unless an identity changed. */
  lemma {:induction false} FinalizationAdmitted(p: Platform, genesis: Document, s: State, identities: bool)
    requires Healthy(p, genesis, s)
    ensures FinalizationRefusal(p, s, identities, |s.editor.document.text|) == if identities then None
            else Some(Environment)
  {
  }

  /** What the final record leaves, given that both were acknowledged. */
  lemma {:induction false} CompleteAfter(p: Platform, genesis: Document, s: State, after: State)
    requires Healthy(p, genesis, s)
    requires var c := AfterCheckpoint(p, s.(source := s.editor.document.text));
      after == Closed(Acknowledge(p, c, c.editor, SubmissionFinalized(c.persistedEventCount + 1)))
    ensures Complete(p, s, after)
  {
    var count := |s.journal.events|;
    TerminalTotal(p, s.journal.events, count);
    assert s.journal.events + [TerminalEvents(count)[0]] + [TerminalEvents(count)[1]]
        == s.journal.events + TerminalEvents(count);
  }

  predicate BothAcknowledged(env: Closing) {
    env.checkpoint == Persistence(true, Acknowledged) && env.finalization == Persistence(true, Acknowledged)
  }

  lemma {:induction false} EndOutcome(p: Platform, genesis: Document, s: State, env: Closing)
    requires Healthy(p, genesis, s)
    ensures var terminal := TerminalBudget(p, s.persistedEventCount, s.nextMonotonicMillis).value;
      var step := Ended(p, s.(source := s.editor.document.text), env, terminal);
      if BothAcknowledged(env) && env.shutdown && env.ended then
        step.result == Ok(|s.journal.events| + 2) && Complete(p, s, step.state) && !step.state.writerOpen
      else step.result.Err? && !step.result.error.LimitExceeded?
  {
    var terminal := TerminalBudget(p, s.persistedEventCount, s.nextMonotonicMillis).value;
    var begun := s.(source := s.editor.document.text);
    CheckpointFits(p, begun, env.checkpoint);
    if env.checkpoint == Persistence(true, Acknowledged) {
      var c := AfterCheckpoint(p, begun);
      FinalizationFits(p, c, env.finalization, s.retainedEventBytes + terminal.checkpoint + terminal.finalization);
      CompleteAfter(p, genesis, s, Closed(Acknowledge(p, c, c.editor, SubmissionFinalized(c.persistedEventCount + 1))));
    }
  }

  /**
   * Finishing a healthy session succeeds exactly when the environment cooperates; a budget never stops it.
   * It leaves the journal with the two terminal records, and the text in the source file.
   */
  lemma {:induction false} FinishOutcome(p: Platform, genesis: Document, s: State, env: Closing)
    requires Healthy(p, genesis, s)
    ensures var step := Finish(p, s, env);
      if Cooperates(env) then step.result == Ok(|s.journal.events| + 2) && Complete(p, s, step.state)
      else step.result.Err? && !step.result.error.LimitExceeded?
  {
    FinalizationAdmitted(p, genesis, s, env.identities);
    if env.identities && env.replacement.Replaced? {
      EndOutcome(p, genesis, s, env);
    }
  }

  /** A session that failed never finishes, and finishing adds nothing to its journal. */
  lemma {:induction false} PoisonedNeverFinishes(p: Platform, s: State, env: Closing)
    requires s.failure.Some?
    ensures Finish(p, s, env).result == Err(RecordingFailed)
    ensures Finish(p, s, env).state.journal == s.journal && Finish(p, s, env).state.source == s.source
  {
  }

  /** Once a run has failed, no further calls change the session, and it never finishes. */
  lemma {:induction false} PoisonedRunIsFinal(p: Platform, s: State, calls: seq<Call>, more: seq<Call>, env: Closing)
    requires Ran(p, s, calls).failure.Some?
    ensures Ran(p, s, calls + more) == Ran(p, s, calls)
    ensures Finish(p, Ran(p, s, calls + more), env).result.Err?
    ensures Finish(p, Ran(p, s, calls + more), env).state.journal == Ran(p, s, calls).journal
    ensures Finish(p, Ran(p, s, calls + more), env).state.source == Ran(p, s, calls).source
    decreases |more|
  {
    if more == [] {
      assert calls + more == calls;
    } else {
      var init, last := more[..|more| - 1], more[|more| - 1];
      PoisonedRunIsFinal(p, s, calls, init, env);
      assert (calls + more)[..|calls + more| - 1] == calls + init;
      PoisonedIsFinal(p, Ran(p, s, calls), last.env, last.action);
    }
    PoisonedNeverFinishes(p, Ran(p, s, calls), env);
  }

  // ----- The session object -----

  /** An active session. The journal file, the source file and the writer's answers stand for the outside. */
  class OneFileSession {
    const platform: Platform
    var editor: Editor
    var captured: seq<Transaction>
    var writerOpen: bool
    var persistedEventCount: nat
    var retainedStateBytes: nat
    var retainedEventBytes: nat
    var nextMonotonicMillis: nat
    var failure: Option<Error>
    var journal: Journal
    var source: Text

    ghost function Snapshot(): State
      reads this
    {
      State(editor, captured, writerOpen, persistedEventCount, retainedStateBytes, retainedEventBytes,
                            nextMonotonicMillis, failure, journal, source)
    }

    /** A session after its genesis checkpoint was acknowledged. */
    constructor (platform: Platform, starter: Text, stateBytes: nat, eventBytes: nat)
      ensures this.platform == platform
      ensures var genesis := Document(starter, 0, Selection(0, 0));
        Snapshot() == State(Editor(genesis, [], []), [], true, 1, stateBytes, eventBytes, 1, None,
                            Journal([GENESIS_RECORD], map[1 := Stored(GENESIS_RECORD, genesis)]), starter)
    {
      var genesis := Document(starter, 0, Selection(0, 0));
      this.platform := platform;
      editor, captured, writerOpen := Editor(genesis, [], []), [], true;
      persistedEventCount, nextMonotonicMillis := 1, 1;
      retainedStateBytes, retainedEventBytes := stateBytes, eventBytes;
      failure, source := None, starter;
      journal := Journal([GENESIS_RECORD], map[1 := Stored(GENESIS_RECORD, genesis)]);
    }

    /**
     * Creates the workspace and persists the genesis checkpoint. Whatever the environment does, a session that
     * starts holds the starter text in its editor and its source, and is healthy from its first moment on.
     */
    static method Start(platform: Platform, env: Opening, starter: Text) returns (r: Outcome<OneFileSession>)
      ensures r.Ok? ==> fresh(r.value) && r.value.platform == platform && r.value.source == starter
      ensures r.Ok? && SmallLayout(platform)
              ==> Healthy(platform, Document(starter, 0, Selection(0, 0)), r.value.Snapshot())
      ensures r.Ok? <==> Started(platform, env, starter).Ok?
      ensures r.Ok? ==> r.value.Snapshot() == Started(platform, env, starter).value
      ensures r.Err? ==> r.error == Started(platform, env, starter).error
    {
      if |starter| > MAX_WORKSPACE_FILE_BYTES {
        return Err(LimitExceeded(SourceBytes));
      }
      var stateBytes := StateCharge(platform, |starter|);
      if !env.created {
        return Err(Environment);
      }
      var charge, terminal := platform.charge(GENESIS_RECORD), TerminalBudget(platform, 1, 1);
      if charge.None? || terminal.None? {
        return Err(Invariant);
      }
      if charge.value + terminal.value.checkpoint + terminal.value.finalization > MAX_REPLAY_RETAINED_EVENT_BYTES {
        return Err(LimitExceeded(EventBytes));
      }
      if !env.ack.Acknowledged? {
        return Err(RecordingFailed);
      }
      if !env.identities {
        return Err(Environment);
      }
      var session := new OneFileSession(platform, starter, stateBytes, charge.value);
      if SmallLayout(platform) {
        StartHealthy(platform, env, starter);
      }
      return Ok(session);
    }

    method RecordFailure(error: Error)
      modifies this`failure, this`writerOpen
      ensures Snapshot() == Fail(old(Snapshot()), error)
    {
      if failure.None? {
        failure := Some(error);
      }
      writerOpen := false;
    }

    method TakeMonotonicMillis() returns (current: nat)
      modifies this`nextMonotonicMillis
      ensures current == old(nextMonotonicMillis) && Snapshot() == TookMillis(old(Snapshot()))
    {
      current := nextMonotonicMillis;
      nextMonotonicMillis := SaturatingAdd(nextMonotonicMillis, 1);
    }

    /** Submits a record and waits for the writer; any failure ends recording. */
    method PersistJob(env: Persistence, millis: nat, event: Event, checkpoint: Option<Document>)
      returns (r: Outcome<()>)
      modifies this
      ensures Step(Snapshot(), r) == PersistedJob(old(Snapshot()), env, millis, event, checkpoint)
    {
      r := Ok(());
      if failure.Some? {
        r := Err(RecordingFailed);
      } else if !env.identities {
        r := Err(Environment);
      } else if !writerOpen {
        r := Err(Invariant);
      } else {
        var record := Envelope(persistedEventCount + 1, millis, event);
        if env.ack.Acknowledged? || env.ack.landed {
          journal := Append(journal, record, checkpoint);
        }
        if env.ack.Acknowledged? {
          persistedEventCount := persistedEventCount + 1;
        } else {
          r := Err(RecordingFailed);
        }
      }
      if r.Err? {
        RecordFailure(r.error);
      }
    }

    method PersistEvent(env: Persistence, event: Event) returns (r: Outcome<()>)
      modifies this
      ensures Step(Snapshot(), r) == PersistedEvent(platform, old(Snapshot()), env, event)
    {
      var charge := platform.charge(Envelope(persistedEventCount + 1, nextMonotonicMillis, event));
      if charge.None? {
        return Err(Invariant);
      }
      var total := retainedEventBytes + charge.value;
      if total > MAX_REPLAY_RETAINED_EVENT_BYTES {
        return Err(LimitExceeded(EventBytes));
      }
      var millis := TakeMonotonicMillis();
      r := PersistJob(env, millis, event, None);
      if r.Ok? {
        retainedEventBytes := total;
      }
    }

    method PreflightRecordedEvent(event: Event) returns (r: Option<Error>)
      ensures r == EventRefusal(platform, Snapshot(), event)
    {
      var sequence := persistedEventCount + 1;
      var charge := platform.charge(Envelope(sequence, nextMonotonicMillis, event));
      var terminal := TerminalBudget(platform, sequence, SaturatingAdd(nextMonotonicMillis, 1));
      if charge.None? || terminal.None? {
        return Some(Invariant);
      }
      var attempted := retainedEventBytes + charge.value + terminal.value.checkpoint + terminal.value.finalization;
      return if attempted > MAX_REPLAY_RETAINED_EVENT_BYTES then Some(LimitExceeded(EventBytes)) else None;
    }

    method PreflightRecordedState(identities: bool, prospective: nat, event: Event) returns (r: Option<Error>)
      ensures r == StateRefusal(platform, Snapshot(), identities, prospective, event)
    {
      if !identities {
        return Some(Environment);
      }
      if prospective > MAX_WORKSPACE_FILE_BYTES {
        return Some(LimitExceeded(SourceBytes));
      }
      if persistedEventCount + 1 + RESERVED_TERMINAL_EVENTS > MAX_MILESTONE_EVENTS {
        return Some(LimitExceeded(ReplayEvents));
      }
      var charge := StateCharge(platform, prospective);
      if retainedStateBytes + charge + RESERVED_TERMINAL_EVENTS * charge > MAX_REPLAY_RETAINED_STATE_BYTES {
        return Some(LimitExceeded(StateBytes));
      }
      r := PreflightRecordedEvent(event);
    }

    /** Charges the state after a persisted record, unless persisting failed. */
    method ChargeState(persisted: Outcome<()>, length: nat) returns (r: Outcome<bool>)
      modifies this`retainedStateBytes
      ensures Step(Snapshot(), r) == ChargedState(platform, Step(old(Snapshot()), persisted), length)
    {
      if persisted.Err? {
        return Err(persisted.error);
      }
      var attempted := retainedStateBytes + StateCharge(platform, length);
      if attempted > MAX_REPLAY_RETAINED_STATE_BYTES {
        return Err(LimitExceeded(StateBytes));
      }
      retainedStateBytes := attempted;
      return Ok(true);
    }

    method PersistAppliedEdit(env: Persistence, changed: bool, prospective: nat) returns (r: Outcome<bool>)
      modifies this
      ensures Step(Snapshot(), r) == PersistedEdit(platform, old(Snapshot()), env, changed, prospective)
    {
      if !changed {
        return if captured == [] then Ok(false) else Err(Invariant);
      }
      if |captured| != 1 {
        return Err(Invariant);
      }
      var transaction := captured[0];
      captured := [];
      var persisted := PersistEvent(env, FileEdited(transaction));
      var after := |editor.document.text|;
      r := ChargeState(persisted, after);
      if r.Ok? && after != prospective {
        r := Err(Invariant);
      }
    }

    /** The editor commits a transaction and its effect callback captures it. */
    method CommitTransaction(t: Transaction)
      requires Prepare(editor.document, t).Commits? && HistoryAllows(editor, t)
      modifies this`editor, this`captured
      ensures Snapshot() == old(Snapshot()).(editor := Apply(old(editor), t), captured := old(captured) + [t])
    {
      editor := Apply(editor, t);
      captured := captured + [t];
    }

    method FinishMutatedOperation(result: Outcome<bool>) returns (r: Outcome<bool>)
      modifies this`failure, this`writerOpen
      ensures Step(Snapshot(), r) == Finished(Step(old(Snapshot()), result))
    {
      if result.Err? {
        RecordFailure(result.error);
      }
      return result;
    }

    method ApplyEditorEdit(env: Surroundings, transaction: Option<Transaction>) returns (r: Outcome<bool>)
      modifies this
      ensures Step(Snapshot(), r) == Edited(platform, old(Snapshot()), env, transaction)
    {
      if failure.Some? {
        return Err(RecordingFailed);
      }
      if captured != [] {
        return Err(Invariant);
      }
      if transaction.None? {
        return Ok(false);
      }
      var t := transaction.value;
      var prospective := TransactionAfterLength(|editor.document.text|, t.edits);
      if !prospective.Length? {
        return Err(if prospective.OutOfRange? then Invariant else LimitExceeded(StateBytes));
      }
      var refusal := PreflightRecordedState(env.identities, prospective.bytes, FileEdited(t));
      if refusal.Some? {
        return Err(refusal.value);
      }
      var prepared := Validate(platform.encodes, editor, t);
      if prepared.Rejected? {
        return Err(EditorRefused);
      }
      if prepared.Commits? {
        CommitTransaction(t);
      }
      r := PersistAppliedEdit(env.persistence, prepared.Commits?, prospective.bytes);
      r := FinishMutatedOperation(r);
    }

    /** Previews an edit and records it. */
    method Edit(env: Surroundings, a: Action) returns (r: Outcome<bool>)
      requires !a.Move? && !a.SelectAll?
      modifies this
      ensures Step(Snapshot(), r) == Performed(platform, old(Snapshot()), env, a)
    {
      if failure.Some? {
        return Err(RecordingFailed);
      }
      var preview := Previewed(platform, editor, a);
      if preview.Err? {
        return Err(preview.error);
      }
      r := ApplyEditorEdit(env, preview.value);
    }

    method PersistSelectionChange(env: Persistence, before: Selection) returns (r: Outcome<bool>)
      modifies this
      ensures var after, length := old(editor.document.selection), |old(editor.document.text)|;
        if after == before then Step(Snapshot(), r) == Step(old(Snapshot()), Ok(false))
        else Step(Snapshot(), r)
             == ChargedState(platform, PersistedEvent(platform, old(Snapshot()), env, SelectionChanged(after)), length)
    {
      var after := editor.document.selection;
      if after == before {
        return Ok(false);
      }
      var persisted := PersistEvent(env, SelectionChanged(after));
      r := ChargeState(persisted, |editor.document.text|);
    }

    /** Moves the selection and records the change. */
    method MoveCursor(env: Surroundings, after: Selection) returns (r: Outcome<bool>)
      modifies this
      ensures Step(Snapshot(), r) == Selected(platform, old(Snapshot()), env, after)
    {
      if failure.Some? {
        return Err(RecordingFailed);
      }
      var before := editor.document.selection;
      if before == after {
        return Ok(false);
      }
      var refusal := PreflightRecordedState(env.identities, |editor.document.text|, SelectionChanged(after));
      if refusal.Some? {
        return Err(refusal.value);
      }
      editor := editor.(document := editor.document.(selection := after));
      r := PersistSelectionChange(env.persistence, before);
      r := FinishMutatedOperation(r);
    }

    /** Selects the whole document as one action. */
    method SelectAllText(env: Surroundings) returns (r: Outcome<bool>)
      modifies this
      ensures Step(Snapshot(), r) == Performed(platform, old(Snapshot()), env, SelectAll)
    {
      r := MoveCursor(env, Selection(0, |editor.document.text|));
    }

    method PreflightFinalization(identities: bool, final: nat) returns (r: Option<Error>)
      ensures r == FinalizationRefusal(platform, Snapshot(), identities, final)
    {
      if !identities {
        return Some(Environment);
      }
      if final > MAX_WORKSPACE_FILE_BYTES {
        return Some(LimitExceeded(SourceBytes));
      }
      if persistedEventCount + RESERVED_TERMINAL_EVENTS > MAX_MILESTONE_EVENTS {
        return Some(LimitExceeded(ReplayEvents));
      }
      if retainedStateBytes + RESERVED_TERMINAL_EVENTS * StateCharge(platform, final)
          > MAX_REPLAY_RETAINED_STATE_BYTES {
        return Some(LimitExceeded(StateBytes));
      }
      var terminal := TerminalBudget(platform, persistedEventCount, nextMonotonicMillis);
      if terminal.None? {
        return Some(Invariant);
      }
      var attempted := retainedEventBytes + terminal.value.checkpoint + terminal.value.finalization;
      return if attempted > MAX_REPLAY_RETAINED_EVENT_BYTES then Some(LimitExceeded(EventBytes)) else None;
    }

    method PersistFinalCheckpoint(env: Persistence, charge: nat) returns (r: Outcome<bool>)
      modifies this
      ensures Step(Snapshot(), r) == Checkpointed(platform, old(Snapshot()), env, charge)
    {
      var millis := TakeMonotonicMillis();
      var persisted := PersistJob(env, millis, WorkspaceCheckpoint, Some(editor.document));
      if persisted.Err? {
        return Err(persisted.error);
      }
      if retainedEventBytes + charge > MAX_REPLAY_RETAINED_EVENT_BYTES {
        return Err(LimitExceeded(EventBytes));
      }
      retainedEventBytes := retainedEventBytes + charge;
      r := ChargeState(Ok(()), |editor.document.text|);
    }

    method PersistFinalization(env: Persistence, total: nat) returns (r: Outcome<bool>)
      modifies this
      ensures Step(Snapshot(), r) == Finalized(platform, old(Snapshot()), env, total)
    {
      var final := persistedEventCount + 1;
      var persisted := PersistEvent(env, SubmissionFinalized(final));
      if persisted.Ok? && retainedEventBytes != total {
        return Err(Mismatch);
      }
      r := ChargeState(persisted, |editor.document.text|);
      if r.Ok? && persistedEventCount != final {
        r := Err(Invariant);
      }
    }

    method PersistEnd(env: Closing, terminal: Terminal) returns (r: Outcome<nat>)
      modifies this
      ensures Step(Snapshot(), r) == Ended(platform, old(Snapshot()), env, terminal)
    {
      var total := retainedEventBytes + terminal.checkpoint + terminal.finalization;
      var checkpointed := PersistFinalCheckpoint(env.checkpoint, terminal.checkpoint);
      if checkpointed.Err? {
        return Err(checkpointed.error);
      }
      var finalized := PersistFinalization(env.finalization, total);
      if finalized.Err? {
        return Err(finalized.error);
      }
      if !writerOpen {
        return Err(Invariant);
      }
      writerOpen := false;
      return if env.shutdown && env.ended then Ok(persistedEventCount) else Err(Environment);
    }

    method TryFinish(env: Closing) returns (r: Outcome<nat>)
      modifies this
      ensures Step(Snapshot(), r) == TriedFinish(platform, old(Snapshot()), env)
    {
      if failure.Some? {
        return Err(RecordingFailed);
      }
      if captured != [] {
        return Err(Invariant);
      }
      var text := editor.document.text;
      var refusal := PreflightFinalization(env.identities, |text|);
      if refusal.Some? {
        return Err(refusal.value);
      }
      var terminal := TerminalBudget(platform, persistedEventCount, nextMonotonicMillis).value;
      if env.replacement.Replaced? || env.replacement.landed {
        source := text;
      }
      if env.replacement.NotReplaced? {
        return Err(Environment);
      }
      r := PersistEnd(env, terminal);
    }

    /** Persists the final source, the final checkpoint and the terminal event, and closes the session. */
    method FinishSession(env: Closing) returns (r: Outcome<nat>)
      modifies this
      ensures Step(Snapshot(), r) == Finish(platform, old(Snapshot()), env)
    {
      r := TryFinish(env);
      writerOpen := false;
    }
  }
}
