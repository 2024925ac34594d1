/** Review indicators counted over one attempt (src/process_indicators.rs). */
module ProcessIndicators {
  import opened CargoActions
  import opened Common
  import Diagnostics = CommandDiagnostics
  import opened Editing
  import opened OutputCapture
  import Utf8

  /** A sum of 64-bit counters, or an overflow, which ends the whole count. */
  datatype Checked<+T> = Fine(value: T) | Overflowed {
    predicate IsFailure() {
      Overflowed?
    }

    function PropagateFailure<U>(): Checked<U>
      requires IsFailure()
    {
      Overflowed
    }

    function Extract(): T
      requires !IsFailure()
    {
      value
    }
  }

  function CheckedAdd(value: nat, addition: nat): (r: Checked<nat>)
    ensures r.Fine? ==> r.value == value + addition
  {
    if value + addition > U64_MAX then Overflowed else Fine(value + addition)
  }

  // ----- Events -----

  /** The events the count looks at; a legacy start carries its action when it is a Cargo command. */
  datatype Event =
    | FileEdited(transaction: Transaction, before: Option<Text>)
    | InternalPaste(transaction: Transaction)
    | ExternalObservation
    | PasteRejected
    | FileDeleted
    | FileRenamed
    | SessionResumed
    | CommandStarted(start: Diagnostics.Start)
    | CommandOutput(chunk: Diagnostics.Chunk)
    | CommandFinished(finish: Diagnostics.Finish)
    | LegacyStarted(id: nat, action: Option<Action>)
    | LegacyFinished(id: nat)
    | Other

  /** The Unicode scalars of a text. */
  function ScalarCount(text: Text): nat {
    if text == [] then 0
    else ScalarCount(text[..|text| - 1]) + (if Utf8.Continuation(text[|text| - 1]) then 0 else 1)
  }

  function InsertedScalars(edits: seq<TextEdit>): Checked<nat> {
    if edits == [] then Fine(0)
    else
      var before :- InsertedScalars(edits[..|edits| - 1]);
      CheckedAdd(before, ScalarCount(edits[|edits| - 1].inserted))
  }

  // ----- Counters -----

  datatype Origins = Origins(
    keyboard: nat,
    internalPaste: nat,
    historicalPaste: nat,
    completion: nat,
    formatter: nat,
    dependencyTool: nat,
    unknown: nat,
    other: nat)

  datatype Values = Values(
    insertedKeyboard: nat,
    keyboardTransactions: nat,
    appendedKeyboard: nat,
    removedKeyboard: nat,
    forwardInserted: nat,
    beforeFirstBuild: nat,
    feedbackOpportunities: nat,
    errorEditRebuilds: nat,
    completeCommands: nat,
    compilerErrorCommands: nat,
    failedTests: nat,
    origins: Origins)

  /** The counts of one action. */
  datatype Facts = Facts(started: nat, complete: nat, exitZero: nat, nonzeroExit: nat, compilerErrors: nat,
      unknown: nat)

  /** The counts of every action. */
  datatype Commands = Commands(
    build: Facts,
    check: Facts,
    test: Facts,
    run: Facts,
    clippy: Facts,
    format: Facts,
    doc: Facts,
    add: Facts,
    remove: Facts,
    update: Facts)
  {
    function Of(action: Action): Facts {
      match action
      case Build => build
      case Check => check
      case Test => test
      case Run => run
      case Clippy => clippy
      case Format => format
      case Doc => doc
      case Add => add
      case Remove => remove
      case Update => update
    }

    /** The counts with those of one action replaced. */
    function With(action: Action, facts: Facts): (r: Commands)
      ensures forall a :: r.Of(a) == if a == action then facts else Of(a)
    {
      match action
      case Build => this.(build := facts)
      case Check => this.(check := facts)
      case Test => this.(test := facts)
      case Run => this.(run := facts)
      case Clippy => this.(clippy := facts)
      case Format => this.(format := facts)
      case Doc => this.(doc := facts)
      case Add => this.(add := facts)
      case Remove => this.(remove := facts)
      case Update => this.(update := facts)
    }
  }

  datatype EditFacts = EditFacts(transactions: nat, scalars: nat)

  datatype Factual = Factual(
    internalPaste: EditFacts,
    historicalPaste: EditFacts,
    unknownOrigin: EditFacts,
    externalChanges: nat,
    rejectedPastes: nat,
    commands: Commands)

  datatype Active = Active(start: Diagnostics.Start, output: seq<Diagnostics.Chunk>)

  /** The state of the count; `lastComplete` says whether the last complete check or test had compiler errors. */
  datatype State = State(
    factual: Factual,
    values: Values,
    unavailable: bool,
    active: Option<Active>,
    lastComplete: Option<bool>,
    editSinceCommand: bool,
    checkTestStarted: bool)

  const NO_FACTS := Facts(0, 0, 0, 0, 0, 0)

  const NO_COMMANDS := Commands(NO_FACTS, NO_FACTS, NO_FACTS, NO_FACTS, NO_FACTS, NO_FACTS, NO_FACTS, NO_FACTS,
      NO_FACTS, NO_FACTS)

  function FactsOf(f: Factual, action: Action): Facts {
    f.commands.Of(action)
  }

  function WithFacts(s: State, action: Action, facts: Facts): State {
    s.(factual := s.factual.(commands := s.factual.commands.With(action, facts)))
  }

  const EMPTY := State(
    Factual(EditFacts(0, 0), EditFacts(0, 0), EditFacts(0, 0), 0, 0, NO_COMMANDS),
    Values(0, 0, 0, 0, 0, 0, 0, 0, 0, 0, 0, Origins(0, 0, 0, 0, 0, 0, 0, 0)),
    false, None, None, false, false)

  function MarkedUnavailable(s: State): State {
    s.(unavailable := true)
  }

  // ----- Edits -----

  function EditAdded(f: EditFacts, inserted: nat): Checked<EditFacts> {
    var transactions :- CheckedAdd(f.transactions, 1);
    var scalars :- CheckedAdd(f.scalars, inserted);
    Fine(EditFacts(transactions, scalars))
  }

  /** The total of the group of origins one origin belongs to, increased. */
  function OriginAdded(o: Origins, origin: Origin, internalPaste: bool, inserted: nat): Checked<Origins>
    requires !Reverses(origin)
  {
    if internalPaste then var n :- CheckedAdd(o.internalPaste, inserted); Fine(o.(internalPaste := n))
    else if origin == Keyboard then var n :- CheckedAdd(o.keyboard, inserted); Fine(o.(keyboard := n))
    else if origin == Paste then var n :- CheckedAdd(o.historicalPaste, inserted); Fine(o.(historicalPaste := n))
    else if origin == Completion || origin == AdditionalCompletionEdit then
      var n :- CheckedAdd(o.completion, inserted); Fine(o.(completion := n))
    else if origin == Formatter then var n :- CheckedAdd(o.formatter, inserted); Fine(o.(formatter := n))
    else if origin == DependencyTool then var n :- CheckedAdd(o.dependencyTool, inserted); Fine(o.(dependencyTool := n))
    else if origin == Unknown then var n :- CheckedAdd(o.unknown, inserted); Fine(o.(unknown := n))
    else var n :- CheckedAdd(o.other, inserted); Fine(o.(other := n))
  }

  function Forwarded(s: State, origin: Origin, inserted: nat, internalPaste: bool): Checked<State>
    requires !Reverses(origin)
  {
    var forward :- CheckedAdd(s.values.forwardInserted, inserted);
    var origins :- OriginAdded(s.values.origins, origin, internalPaste, inserted);
    Fine(s.(values := s.values.(forwardInserted := forward, origins := origins)))
  }

  /** The scalars an edit takes out of the text before it, when its range is one of the text. */
  function RemovedScalars(text: Text, edit: TextEdit): Option<nat> {
    if edit.start <= edit.end && Boundary(text, edit.start) && Boundary(text, edit.end)
    then Some(ScalarCount(text[edit.start..edit.end])) else None
  }

  /** What one keyboard edit of one range adds before its evidence is looked at. */
  function Typed(v: Values, inserted: nat, nonempty: bool): Checked<Values> {
    var total :- CheckedAdd(v.insertedKeyboard, inserted);
    var transactions :- CheckedAdd(v.keyboardTransactions, if nonempty then 1 else 0);
    Fine(v.(insertedKeyboard := total, keyboardTransactions := transactions))
  }

  /** What the same edit adds once the text before it is known. */
  function Placed(s: State, edit: TextEdit, length: nat, removed: nat): Checked<State> {
    var v, inserted := s.values, ScalarCount(edit.inserted);
    var taken :- CheckedAdd(v.removedKeyboard, removed);
    var appended :- CheckedAdd(v.appendedKeyboard, if edit.start == edit.end == length then inserted else 0);
    var early :- CheckedAdd(v.beforeFirstBuild, if s.checkTestStarted then 0 else inserted);
    Fine(s.(values := v.(removedKeyboard := taken, appendedKeyboard := appended, beforeFirstBuild := early),
            editSinceCommand := true))
  }

  function KeyboardEdited(s: State, edits: seq<TextEdit>, before: Option<Text>): Checked<State> {
    if |edits| != 1 then Fine(MarkedUnavailable(s))
    else
      var edit := edits[0];
      var values :- Typed(s.values, ScalarCount(edit.inserted), edit.inserted != []);
      var typed := s.(values := values);
      match before
      case None => Fine(MarkedUnavailable(typed))
      case Some(text) =>
        match RemovedScalars(text, edit)
        case None => Fine(MarkedUnavailable(typed))
        case Some(removed) => Placed(typed, edit, |text|, removed)
  }

  /** Edits of unverified origin are counted as facts of their own. */
  function FactuallyEdited(s: State, origin: Origin, inserted: nat): Checked<State> {
    match origin
    case Paste =>
      var facts :- EditAdded(s.factual.historicalPaste, inserted);
      Fine(s.(factual := s.factual.(historicalPaste := facts)))
    case Unknown =>
      var facts :- EditAdded(s.factual.unknownOrigin, inserted);
      Fine(s.(factual := s.factual.(unknownOrigin := facts)))
    case _ => Fine(s)
  }

  function TransactionObserved(s: State, t: Transaction, before: Option<Text>): Checked<State> {
    var inserted :- InsertedScalars(t.edits);
    var known :- FactuallyEdited(s, t.origin, inserted);
    if Reverses(t.origin) then Fine(MarkedUnavailable(known))
    else
      var forwarded :- Forwarded(known, t.origin, inserted, false);
      if t.origin != Keyboard then Fine(forwarded) else KeyboardEdited(forwarded, t.edits, before)
  }

  function PasteObserved(s: State, t: Transaction): Checked<State> {
    var inserted :- InsertedScalars(t.edits);
    var facts :- EditAdded(s.factual.internalPaste, inserted);
    Forwarded(s.(factual := s.factual.(internalPaste := facts)), Paste, inserted, true)
  }

  // ----- Commands -----

  predicate IsCheckTest(action: Action) {
    action == Check || action == Test
  }

  predicate HasDiagnostics(start: Diagnostics.Start) {
    start.action in {Build, Check, Test, Run, Clippy, Doc} && !start.natural
  }

  function Diagnosed(active: Active, finish: Diagnostics.Finish,
                     parse: Diagnostics.Parser): Option<Diagnostics.DiagnosticOutcome> {
    if HasDiagnostics(active.start) then Some(Diagnostics.Derived(active.start, active.output, finish, parse).outcome)
    else None
  }

  predicate EvidenceKnown(start: Diagnostics.Start, finish: Diagnostics.Finish,
                          diagnosed: Option<Diagnostics.DiagnosticOutcome>) {
    && finish.stdout.completeness == Complete && finish.stderr.completeness == Complete
    && finish.outcome.Exited?
    && (start.natural || diagnosed.None? || !(diagnosed.value in {Diagnostics.ExecutionFailed, Diagnostics.Unknown}))
  }

  function CommandStartObserved(s: State, start: Diagnostics.Start): Checked<State> {
    if s.active.Some? then Fine(MarkedUnavailable(s))
    else
      var facts := FactsOf(s.factual, start.action);
      var started :- CheckedAdd(facts.started, 1);
      Fine(WithFacts(s, start.action, facts.(started := started)).(
             active := Some(Active(start, [])), checkTestStarted := s.checkTestStarted || IsCheckTest(start.action)))
  }

  function CommandOutputObserved(s: State, chunk: Diagnostics.Chunk): State {
    match s.active
    case None => s
    case Some(active) =>
      if active.start.id != chunk.id then (if IsCheckTest(active.start.action) then MarkedUnavailable(s) else s)
      else s.(active := Some(active.(output := active.output + [chunk])))
  }

  /** The facts of a command whose evidence is known: one more complete, by its code and its diagnosis. */
  function FactsCompleted(f: Facts, code: int, compilerErrors: bool): Checked<Facts> {
    var complete :- CheckedAdd(f.complete, 1);
    var zero :- CheckedAdd(f.exitZero, if code == 0 then 1 else 0);
    var nonzero :- CheckedAdd(f.nonzeroExit, if code == 0 then 0 else 1);
    var errors :- CheckedAdd(f.compilerErrors, if compilerErrors then 1 else 0);
    Fine(f.(complete := complete, exitZero := zero, nonzeroExit := nonzero, compilerErrors := errors))
  }

  function FactsFinished(f: Facts, known: bool, code: int, compilerErrors: bool): Checked<Facts> {
    if known then FactsCompleted(f, code, compilerErrors)
    else var unknown :- CheckedAdd(f.unknown, 1); Fine(f.(unknown := unknown))
  }

  /** A complete check or test: an opportunity when an edit lies between it and the one before. */
  function FeedbackObserved(s: State, action: Action,
                            diagnosed: Option<Diagnostics.DiagnosticOutcome>): Checked<State> {
    var v, errors := s.values, diagnosed == Some(Diagnostics.CompilerErrors);
    var complete :- CheckedAdd(v.completeCommands, 1);
    var failing :- CheckedAdd(v.compilerErrorCommands, if errors then 1 else 0);
    var failedTests :- CheckedAdd(v.failedTests, if action == Test && diagnosed == Some(Diagnostics.NonzeroExit) then 1
        else 0);
    var opportunity := s.lastComplete.Some? && s.editSinceCommand;
    var opportunities :- CheckedAdd(v.feedbackOpportunities, if opportunity then 1 else 0);
    var rebuilds :- CheckedAdd(v.errorEditRebuilds, if opportunity && s.lastComplete.value then 1 else 0);
    Fine(s.(values := v.(completeCommands := complete, compilerErrorCommands := failing, failedTests := failedTests,
                         feedbackOpportunities := opportunities, errorEditRebuilds := rebuilds),
            lastComplete := Some(errors), editSinceCommand := false))
  }

  function CommandFinishObserved(s: State, finish: Diagnostics.Finish, parse: Diagnostics.Parser): Checked<State> {
    match s.active
    case None => Fine(MarkedUnavailable(s))
    case Some(active) =>
      var taken, action := s.(active := None), active.start.action;
      if active.start.id != finish.id then Fine(if IsCheckTest(action) then MarkedUnavailable(taken) else taken)
      else
        var diagnosed := Diagnosed(active, finish, parse);
        var known := EvidenceKnown(active.start, finish, diagnosed);
        var code := if finish.outcome.Exited? then finish.outcome.code else 0;
        var facts :- FactsFinished(FactsOf(s.factual, action), known, code, diagnosed
            == Some(Diagnostics.CompilerErrors));
        var counted := WithFacts(taken, action, facts);
        if !IsCheckTest(action) then Fine(counted)
        else if !known then Fine(MarkedUnavailable(counted))
        else FeedbackObserved(counted, action, diagnosed)
  }

  /** Legacy evidence is never known. */
  function LegacyStartObserved(s: State, action: Option<Action>): Checked<State> {
    match action
    case None => Fine(s)
    case Some(a) =>
      var facts := FactsOf(s.factual, a);
      var started :- CheckedAdd(facts.started, 1);
      var unknown :- CheckedAdd(facts.unknown, 1);
      var counted := WithFacts(s, a, facts.(started := started, unknown := unknown));
      Fine(if IsCheckTest(a) then MarkedUnavailable(counted).(checkTestStarted := true) else counted)
  }

  // ----- Observation -----

  function Observed(s: State, e: Event, parse: Diagnostics.Parser): Checked<State> {
    match e
    case FileEdited(t, before) => TransactionObserved(s, t, before)
    case InternalPaste(t) => PasteObserved(s, t)
    case ExternalObservation =>
      var n :- CheckedAdd(s.factual.externalChanges, 1); Fine(s.(factual := s.factual.(externalChanges := n)))
    case PasteRejected =>
      var n :- CheckedAdd(s.factual.rejectedPastes, 1); Fine(s.(factual := s.factual.(rejectedPastes := n)))
    case FileDeleted => Fine(MarkedUnavailable(s))
    case FileRenamed => Fine(MarkedUnavailable(s))
    case SessionResumed => Fine(s.(lastComplete := None, editSinceCommand := false))
    case CommandStarted(start) => CommandStartObserved(s, start)
    case CommandOutput(chunk) => Fine(CommandOutputObserved(s, chunk))
    case CommandFinished(finish) => CommandFinishObserved(s, finish, parse)
    case LegacyStarted(_, action) => LegacyStartObserved(s, action)
    case LegacyFinished(_) => Fine(s)
    case Other => Fine(s)
  }

  function ObservedAll(events: seq<Event>, parse: Diagnostics.Parser): Checked<State> {
    if events == [] then Fine(EMPTY)
    else
      var s :- ObservedAll(events[..|events| - 1], parse);
      Observed(s, events[|events| - 1], parse)
  }

  /** A command still running at the end is unknown. */
  function Finished(s: State): Checked<State> {
    match s.active
    case None => Fine(s)
    case Some(active) =>
      var facts := FactsOf(s.factual, active.start.action);
      var unknown :- CheckedAdd(facts.unknown, 1);
      var counted := WithFacts(s.(active := None), active.start.action, facts.(unknown := unknown));
      Fine(if IsCheckTest(active.start.action) then MarkedUnavailable(counted) else counted)
  }

  // ----- Conservation -----

  function OriginTotal(o: Origins): nat {
    o.keyboard + o.internalPaste + o.historicalPaste + o.completion + o.formatter + o.dependencyTool + o.unknown
        + o.other
  }

  /** Forward insertions are the sum over origins, and the keyboard counts nest. */
  predicate EditsConserved(v: Values) {
    && v.forwardInserted == OriginTotal(v.origins)
    && v.appendedKeyboard <= v.insertedKeyboard
    && v.beforeFirstBuild <= v.insertedKeyboard
    && v.insertedKeyboard <= v.origins.keyboard
  }

  /**
   * Each opportunity needs an earlier complete check or test, and each error-edit-rebuild an opportunity and
   * an earlier one with compiler errors.
   */
  predicate FeedbackConserved(s: State) {
    var v := s.values;
    && v.errorEditRebuilds <= v.feedbackOpportunities
    && v.errorEditRebuilds + (if s.lastComplete == Some(true) then 1 else 0) <= v.compilerErrorCommands
    && v.compilerErrorCommands <= v.completeCommands
    && v.compilerErrorCommands + v.failedTests <= v.completeCommands
    && (v.completeCommands == 0 ==> v.feedbackOpportunities == 0 && s.lastComplete.None?)
    && (v.completeCommands > 0 ==> v.feedbackOpportunities < v.completeCommands)
  }

  /** Every start is complete, unknown, still running or was dropped; complete ones split by exit code. */
  predicate FactsConserved(f: Facts, running: nat) {
    && f.complete == f.exitZero + f.nonzeroExit
    && f.complete + f.unknown + running <= f.started
    && f.compilerErrors <= f.nonzeroExit
  }

  function RunningOf(s: State, action: Action): nat {
    if s.active.Some? && s.active.value.start.action == action then 1 else 0
  }

  predicate CommandsConserved(s: State, a: Action) {
    FactsConserved(FactsOf(s.factual, a), RunningOf(s, a))
  }

  /** The parts of the state that an edit may not touch. */
  predicate SameCommands(s: State, s': State) {
    && s'.factual.commands == s.factual.commands && s'.active == s.active && s'.lastComplete == s.lastComplete
    && s'.values.completeCommands == s.values.completeCommands && s'.values.failedTests == s.values.failedTests
    && s'.values.compilerErrorCommands == s.values.compilerErrorCommands
    && s'.values.feedbackOpportunities == s.values.feedbackOpportunities
    && s'.values.errorEditRebuilds == s.values.errorEditRebuilds
  }

  /** Facts stay conserved when no more commands run than before. */
  lemma {:induction false} FewerRunningConserve(a: Action, s: State, s': State)
    requires CommandsConserved(s, a) && s'.factual.commands == s.factual.commands
    requires s'.active.None? || (s.active.Some? && s'.active.value.start == s.active.value.start)
    ensures CommandsConserved(s', a)
  {
  }

  lemma {:induction false} PlacedConserves(s: State, edit: TextEdit, length: nat, removed: nat, s': State)
    requires Placed(s, edit, length, removed) == Fine(s')
    requires s.values.forwardInserted == OriginTotal(s.values.origins)
            && s.values.insertedKeyboard <= s.values.origins.keyboard
    requires s.values.appendedKeyboard + ScalarCount(edit.inserted) <= s.values.insertedKeyboard
    requires s.values.beforeFirstBuild + ScalarCount(edit.inserted) <= s.values.insertedKeyboard
    ensures EditsConserved(s'.values) && SameCommands(s, s')
  {
  }

  lemma {:induction false} KeyboardConserves(s: State, edits: seq<TextEdit>, before: Option<Text>, s': State)
    requires KeyboardEdited(s, edits, before) == Fine(s') && EditsConserved(s.values)
    requires |edits| == 1 ==> s.values.insertedKeyboard + ScalarCount(edits[0].inserted) <= s.values.origins.keyboard
    ensures EditsConserved(s'.values) && SameCommands(s, s')
  {
    if |edits| == 1 {
      var edit := edits[0];
      var typed := s.(values := Typed(s.values, ScalarCount(edit.inserted), edit.inserted != []).value);
      if before.Some? && RemovedScalars(before.value, edit).Some? {
        PlacedConserves(typed, edit, |before.value|, RemovedScalars(before.value, edit).value, s');
      }
    }
  }

  lemma {:induction false} OneEdit(edits: seq<TextEdit>)
    requires |edits| == 1 && InsertedScalars(edits).Fine?
    ensures InsertedScalars(edits).value == ScalarCount(edits[0].inserted)
  {
    assert edits[..0] == [];
  }

  lemma {:induction false} FactuallyKeeps(s: State, origin: Origin, inserted: nat, s': State)
    requires FactuallyEdited(s, origin, inserted) == Fine(s')
    ensures s'.values == s.values && SameCommands(s, s')
  {
  }

  lemma {:induction false} ForwardedConserves(s: State, origin: Origin, inserted: nat, internalPaste: bool, s': State)
    requires !Reverses(origin) && Forwarded(s, origin, inserted, internalPaste) == Fine(s') && EditsConserved(s.values)
    ensures EditsConserved(s'.values) && SameCommands(s, s') && s'.values.insertedKeyboard == s.values.insertedKeyboard
    ensures origin == Keyboard && !internalPaste ==> s'.values.origins.keyboard == s.values.origins.keyboard + inserted
  {
  }

  lemma {:induction false} TransactionConserves(s: State, t: Transaction, before: Option<Text>, s': State)
    requires EditsConserved(s.values) && TransactionObserved(s, t, before) == Fine(s')
    ensures EditsConserved(s'.values) && SameCommands(s, s')
  {
    var inserted := InsertedScalars(t.edits).value;
    var known := FactuallyEdited(s, t.origin, inserted).value;
    FactuallyKeeps(s, t.origin, inserted, known);
    if !Reverses(t.origin) {
      var forwarded := Forwarded(known, t.origin, inserted, false).value;
      ForwardedConserves(known, t.origin, inserted, false, forwarded);
      if t.origin == Keyboard {
        if |t.edits| == 1 {
          OneEdit(t.edits);
        }
        KeyboardConserves(forwarded, t.edits, before, s');
      }
    }
  }

  lemma {:induction false} PasteConserves(s: State, t: Transaction, s': State)
    requires EditsConserved(s.values) && PasteObserved(s, t) == Fine(s')
    ensures EditsConserved(s'.values) && SameCommands(s, s')
  {
    var inserted := InsertedScalars(t.edits).value;
    var facts := EditAdded(s.factual.internalPaste, inserted).value;
    ForwardedConserves(s.(factual := s.factual.(internalPaste := facts)), Paste, inserted, true, s');
  }

  // ----- Commands conserve -----

  /** The facts of one action change, and no other action runs more than before. */
  lemma {:induction false} WithFactsConserve(a: Action, s: State, action: Action, facts: Facts, s': State)
    requires CommandsConserved(s, a) && s'.factual.commands == s.factual.commands.With(action, facts)
    requires a == action ==> FactsConserved(facts, RunningOf(s', action))
    requires s'.active.None? || s'.active == s.active || s'.active.value.start.action == action
    ensures CommandsConserved(s', a)
  {
  }

  lemma {:induction false} StartSplits(s: State, start: Diagnostics.Start, s': State)
    requires CommandStartObserved(s, start) == Fine(s') && s.active.None?
    ensures var facts := FactsOf(s.factual, start.action);
      s'.factual.commands == s.factual.commands.With(start.action, facts.(started := facts.started + 1))
    ensures s'.active == Some(Active(start, [])) && s'.values == s.values && s'.lastComplete == s.lastComplete
  {
  }

  /** One more start, which runs from now on or is unknown at once. */
  lemma {:induction false} OneMoreStart(a: Action, s: State, action: Action, s': State, unknown: nat)
    requires CommandsConserved(s, a) && RunningOf(s, action) + 1 == RunningOf(s', action) + unknown
    requires var facts := FactsOf(s.factual, action);
      s'.factual.commands == s.factual.commands.With(action,
          facts.(started := facts.started + 1, unknown := facts.unknown + unknown))
    requires s'.active.None? || s'.active == s.active || s'.active.value.start.action == action
    ensures CommandsConserved(s', a)
  {
    var facts := FactsOf(s.factual, action);
    WithFactsConserve(a, s, action, facts.(started := facts.started + 1, unknown := facts.unknown + unknown), s');
  }

  lemma {:induction false} StartConserves(a: Action, s: State, start: Diagnostics.Start, s': State)
    requires CommandsConserved(s, a) && CommandStartObserved(s, start) == Fine(s')
    ensures CommandsConserved(s', a)
  {
    if s.active.Some? {
      FewerRunningConserve(a, s, s');
    } else {
      StartSplits(s, start, s');
      OneMoreStart(a, s, start.action, s', 0);
    }
  }

  lemma {:induction false} OutputConserves(a: Action, s: State, chunk: Diagnostics.Chunk, s': State)
    requires CommandsConserved(s, a) && CommandOutputObserved(s, chunk) == s'
    ensures CommandsConserved(s', a)
  {
    FewerRunningConserve(a, s, s');
  }

  /** Compiler errors are only diagnosed of a command that exited with a nonzero code. */
  lemma {:induction false} ErrorsExitNonzero(active: Active, finish: Diagnostics.Finish, parse: Diagnostics.Parser)
    requires Diagnosed(active, finish, parse) == Some(Diagnostics.CompilerErrors)
    ensures finish.outcome.Exited? && finish.outcome.code != 0
  {
    Diagnostics.OutcomeMeans(active.start, active.output, finish, parse);
  }

  lemma {:induction false} FactsFinishedConserve(f: Facts, known: bool, code: int, compilerErrors: bool, f': Facts)
    requires FactsConserved(f, 1) && FactsFinished(f, known, code, compilerErrors) == Fine(f')
            && (compilerErrors ==> code != 0)
    ensures FactsConserved(f', 0)
  {
  }

  lemma {:induction false} FeedbackConserves(s: State, action: Action, diagnosed: Option<Diagnostics.DiagnosticOutcome>,
                                             s': State)
    requires FeedbackConserved(s) && FeedbackObserved(s, action, diagnosed) == Fine(s')
    ensures FeedbackConserved(s')
  {
  }

  lemma {:induction false} FeedbackKeeps(s: State, action: Action, diagnosed: Option<Diagnostics.DiagnosticOutcome>,
                                         s': State)
    requires FeedbackObserved(s, action, diagnosed) == Fine(s')
    ensures s'.factual == s.factual && s'.active == s.active && SameEdits(s.values, s'.values)
  {
  }

  /** The counters of edits are the same. */
  predicate SameEdits(v: Values, v': Values) {
    && v'.insertedKeyboard == v.insertedKeyboard && v'.appendedKeyboard == v.appendedKeyboard
    && v'.beforeFirstBuild == v.beforeFirstBuild && v'.forwardInserted == v.forwardInserted && v'.origins == v.origins
  }

  /** The facts of the running command once it finished. */
  function FactsAfter(s: State, finish: Diagnostics.Finish, parse: Diagnostics.Parser): Checked<Facts>
    requires s.active.Some?
  {
    var active := s.active.value;
    var diagnosed := Diagnosed(active, finish, parse);
    FactsFinished(FactsOf(s.factual, active.start.action), EvidenceKnown(active.start, finish, diagnosed),
                  if finish.outcome.Exited? then finish.outcome.code
                  else 0, diagnosed == Some(Diagnostics.CompilerErrors))
  }

  lemma {:induction false} CountedConserves(a: Action, s: State, finish: Diagnostics.Finish, parse: Diagnostics.Parser,
                                            facts: Facts, s': State)
    requires CommandsConserved(s, a) && s.active.Some? && FactsAfter(s, finish, parse) == Fine(facts)
    requires s'.active.None? && s'.factual.commands == s.factual.commands.With(s.active.value.start.action, facts)
    ensures CommandsConserved(s', a)
  {
    var active, action := s.active.value, s.active.value.start.action;
    var diagnosed := Diagnosed(active, finish, parse);
    if diagnosed == Some(Diagnostics.CompilerErrors) {
      ErrorsExitNonzero(active, finish, parse);
    }
    if a == action {
      FactsFinishedConserve(FactsOf(s.factual, action), EvidenceKnown(active.start, finish, diagnosed),
                            if finish.outcome.Exited? then finish.outcome.code else 0,
                            diagnosed == Some(Diagnostics.CompilerErrors), facts);
    }
  }

  /** A finish that is not the running command's drops it; one that is counts it first. */
  lemma {:induction false} FinishSplits(s: State, finish: Diagnostics.Finish, parse: Diagnostics.Parser, s': State)
    requires CommandFinishObserved(s, finish, parse) == Fine(s')
    ensures if s.active.None? || s.active.value.start.id != finish.id then
        s'.factual == s.factual && s'.values == s.values && s'.lastComplete == s.lastComplete && s'.active.None?
      else
        && FactsAfter(s, finish, parse).Fine?
        && (var action := s.active.value.start.action;
            var counted := WithFacts(s.(active := None), action, FactsAfter(s, finish, parse).value);
            || s' == counted || s' == MarkedUnavailable(counted)
            || FeedbackObserved(counted, action, Diagnosed(s.active.value, finish, parse)) == Fine(s'))
  {
  }

  /** A finish that is counted: its facts, and either the old feedback counters or those of one more command. */
  lemma {:induction false} CountedFinish(s: State, finish: Diagnostics.Finish, parse: Diagnostics.Parser, s': State)
    requires CommandFinishObserved(s, finish, parse) == Fine(s') && s.active.Some?
            && s.active.value.start.id == finish.id
    ensures FactsAfter(s, finish, parse).Fine? && s'.active.None?
    ensures s'.factual.commands == s.factual.commands.With(s.active.value.start.action,
            FactsAfter(s, finish, parse).value)
    ensures SameEdits(s.values, s'.values)
    ensures FeedbackConserved(s) ==> FeedbackConserved(s')
  {
    FinishSplits(s, finish, parse, s');
    var action, diagnosed := s.active.value.start.action, Diagnosed(s.active.value, finish, parse);
    var counted := WithFacts(s.(active := None), action, FactsAfter(s, finish, parse).value);
    if s' != counted && s' != MarkedUnavailable(counted) {
      FeedbackKeeps(counted, action, diagnosed, s');
      if FeedbackConserved(s) {
        FeedbackConserves(counted, action, diagnosed, s');
      }
    }
  }

  lemma {:induction false} FinishConserves(a: Action, s: State, finish: Diagnostics.Finish, parse: Diagnostics.Parser,
                                           s': State)
    requires CommandsConserved(s, a) && CommandFinishObserved(s, finish, parse) == Fine(s')
    ensures CommandsConserved(s', a)
  {
    if s.active.None? || s.active.value.start.id != finish.id {
      FinishSplits(s, finish, parse, s');
      FewerRunningConserve(a, s, s');
    } else {
      CountedFinish(s, finish, parse, s');
      CountedConserves(a, s, finish, parse, FactsAfter(s, finish, parse).value, s');
    }
  }

  lemma {:induction false} LegacySplits(s: State, action: Action, s': State)
    requires LegacyStartObserved(s, Some(action)) == Fine(s')
    ensures var facts := FactsOf(s.factual, action);
      s'.factual.commands == s.factual.commands.With(action,
          facts.(started := facts.started + 1, unknown := facts.unknown + 1))
    ensures s'.active == s.active && s'.values == s.values && s'.lastComplete == s.lastComplete
  {
  }

  lemma {:induction false} LegacyConserves(a: Action, s: State, action: Option<Action>, s': State)
    requires CommandsConserved(s, a) && LegacyStartObserved(s, action) == Fine(s')
    ensures CommandsConserved(s', a)
  {
    if action.Some? {
      LegacySplits(s, action.value, s');
      OneMoreStart(a, s, action.value, s', 1);
    }
  }

  // ----- One event -----

  predicate AboutCommands(e: Event) {
    e.CommandStarted? || e.CommandOutput? || e.CommandFinished? || e.LegacyStarted?
  }

  /** Events that are not about commands keep every counter of commands; a resumption forgets the last one. */
  lemma {:induction false} OtherEvent(s: State, e: Event, parse: Diagnostics.Parser, s': State)
    requires Observed(s, e, parse) == Fine(s') && !AboutCommands(e)
    ensures if e.SessionResumed? then s' == s.(lastComplete := None, editSinceCommand := false)
            else EditsConserved(s.values) ==> EditsConserved(s'.values) && SameCommands(s, s')
  {
    if EditsConserved(s.values) {
      if e.FileEdited? {
        TransactionConserves(s, e.transaction, e.before, s');
      } else if e.InternalPaste? {
        PasteConserves(s, e.transaction, s');
      }
    }
  }

  /** Events about commands that are no counted finish keep the counters of edits and of feedback. */
  lemma {:induction false} CommandEvent(s: State, e: Event, parse: Diagnostics.Parser, s': State)
    requires Observed(s, e, parse) == Fine(s') && AboutCommands(e)
    requires e.CommandFinished? ==> s.active.None? || s.active.value.start.id != e.finish.id
    ensures s'.values == s.values && s'.lastComplete == s.lastComplete
  {
    if e.CommandFinished? {
      FinishSplits(s, e.finish, parse, s');
    } else if e.LegacyStarted? && e.action.Some? {
      LegacySplits(s, e.action.value, s');
    } else if e.CommandStarted? && s.active.None? {
      StartSplits(s, e.start, s');
    }
  }

  predicate Counts(s: State, e: Event) {
    e.CommandFinished? && s.active.Some? && s.active.value.start.id == e.finish.id
  }

  lemma {:induction false} ObservedEdits(s: State, e: Event, parse: Diagnostics.Parser, s': State)
    requires EditsConserved(s.values) && Observed(s, e, parse) == Fine(s')
    ensures EditsConserved(s'.values)
  {
    if !AboutCommands(e) {
      OtherEvent(s, e, parse, s');
    } else if Counts(s, e) {
      CountedFinish(s, e.finish, parse, s');
    } else {
      CommandEvent(s, e, parse, s');
    }
  }

  lemma {:induction false} SameFeedback(s: State, s': State)
    requires FeedbackConserved(s)
    requires s'.values.completeCommands == s.values.completeCommands && s'.values.failedTests == s.values.failedTests
    requires s'.values.compilerErrorCommands == s.values.compilerErrorCommands
    requires s'.values.feedbackOpportunities == s.values.feedbackOpportunities
    requires s'.values.errorEditRebuilds == s.values.errorEditRebuilds
    requires s'.lastComplete == s.lastComplete || s'.lastComplete.None?
    ensures FeedbackConserved(s')
  {
  }

  lemma {:induction false} ObservedFeedback(s: State, e: Event, parse: Diagnostics.Parser, s': State)
    requires EditsConserved(s.values) && FeedbackConserved(s) && Observed(s, e, parse) == Fine(s')
    ensures FeedbackConserved(s')
  {
    if !AboutCommands(e) {
      OtherEvent(s, e, parse, s');
      SameFeedback(s, s');
    } else if Counts(s, e) {
      CountedFinish(s, e.finish, parse, s');
    } else {
      CommandEvent(s, e, parse, s');
      SameFeedback(s, s');
    }
  }

  lemma {:induction false} ObservedCommands(a: Action, s: State, e: Event, parse: Diagnostics.Parser, s': State)
    requires EditsConserved(s.values) && CommandsConserved(s, a) && Observed(s, e, parse) == Fine(s')
    ensures CommandsConserved(s', a)
  {
    if e.CommandStarted? {
      StartConserves(a, s, e.start, s');
    } else if e.CommandOutput? {
      OutputConserves(a, s, e.chunk, s');
    } else if e.CommandFinished? {
      FinishConserves(a, s, e.finish, parse, s');
    } else if e.LegacyStarted? {
      LegacyConserves(a, s, e.action, s');
    } else {
      OtherEvent(s, e, parse, s');
      FewerRunningConserve(a, s, s');
    }
  }

  // ----- Every stream -----

  lemma {:induction false} ObservedAllSplits(events: seq<Event>, parse: Diagnostics.Parser, s: State)
    returns (before: State)
    requires events != [] && ObservedAll(events, parse) == Fine(s)
    ensures ObservedAll(events[..|events| - 1], parse) == Fine(before)
    ensures Observed(before, events[|events| - 1], parse) == Fine(s)
  {
    before := ObservedAll(events[..|events| - 1], parse).value;
  }

  lemma {:induction false} EmptyEdits(s: State)
    requires s == EMPTY
    ensures EditsConserved(s.values)
  {
  }

  lemma {:induction false} EmptyFeedback(s: State)
    requires s == EMPTY
    ensures FeedbackConserved(s)
  {
  }

  lemma {:induction false} NoFacts(a: Action, commands: Commands, none: Facts)
    requires commands == Commands(none, none, none, none, none, none, none, none, none, none)
    ensures commands.Of(a) == none
  {
  }

  lemma {:induction false} EmptyCommands(a: Action, s: State)
    requires s == EMPTY
    ensures CommandsConserved(s, a)
  {
    NoFacts(a, s.factual.commands, NO_FACTS);
    assert RunningOf(s, a) == 0;
  }

  /** For every stream: J is the sum over origins, A and B are at most I, and I is at most the keyboard origin. */
  lemma {:induction false} EditCountersConserve(events: seq<Event>, parse: Diagnostics.Parser, s: State)
    requires ObservedAll(events, parse) == Fine(s)
    ensures EditsConserved(s.values)
    decreases |events|
  {
    if events == [] {
      EmptyEdits(s);
    } else {
      var before := ObservedAllSplits(events, parse, s);
      EditCountersConserve(events[..|events| - 1], parse, before);
      ObservedEdits(before, events[|events| - 1], parse, s);
    }
  }

  /** For every stream: F is at most O and the compiler-error commands, and O is below the complete commands, if any. */
  lemma {:induction false} FeedbackCountersConserve(events: seq<Event>, parse: Diagnostics.Parser, s: State)
    requires ObservedAll(events, parse) == Fine(s)
    ensures FeedbackConserved(s)
    decreases |events|
  {
    if events == [] {
      EmptyFeedback(s);
    } else {
      var before := ObservedAllSplits(events, parse, s);
      EditCountersConserve(events[..|events| - 1], parse, before);
      FeedbackCountersConserve(events[..|events| - 1], parse, before);
      ObservedFeedback(before, events[|events| - 1], parse, s);
    }
  }

  /** For every stream and action: complete commands split by exit code; starts cover complete, unknown and running. */
  lemma {:induction false} CommandCountersConserve(a: Action, events: seq<Event>, parse: Diagnostics.Parser, s: State)
    requires ObservedAll(events, parse) == Fine(s)
    ensures CommandsConserved(s, a)
    decreases |events|
  {
    if events == [] {
      EmptyCommands(a, s);
    } else {
      var before := ObservedAllSplits(events, parse, s);
      EditCountersConserve(events[..|events| - 1], parse, before);
      CommandCountersConserve(a, events[..|events| - 1], parse, before);
      ObservedCommands(a, before, events[|events| - 1], parse, s);
    }
  }

  /** Finishing leaves nothing running: every start was complete, unknown or dropped. */
  lemma {:induction false} FinishedConserves(a: Action, events: seq<Event>, parse: Diagnostics.Parser, s: State,
                                             s': State)
    requires ObservedAll(events, parse) == Fine(s) && Finished(s) == Fine(s')
    ensures CommandsConserved(s', a) && s'.active.None? && s'.values == s.values
  {
    CommandCountersConserve(a, events, parse, s);
    if s.active.Some? {
      var facts := FactsOf(s.factual, s.active.value.start.action);
      WithFactsConserve(a, s, s.active.value.start.action, facts.(unknown := facts.unknown + 1), s');
    }
  }

  // ----- The process rule -----

  /** `value / denominator` is at least, or at most, `numerator / divisor`; never without a denominator. */
  predicate RatioAtLeast(value: nat, denominator: nat, numerator: nat, divisor: nat) {
    denominator > 0 && value * divisor >= denominator * numerator
  }

  predicate RatioAtMost(value: nat, denominator: nat, numerator: nat, divisor: nat) {
    denominator > 0 && value * divisor <= denominator * numerator
  }

  datatype Observations = Observations(entry: bool, feedback: bool, beforeBuild: bool)

  /** Why the rule does not apply to an attempt. */
  datatype Shortfall =
    | TooFewScalars
    | TooFewTransactions
    | NoForwardInsertion
    | TooLittleTyped
    | TooFewCommands
    | NoOpportunity
    | EntryUnsupported
    | NothingElseSupported

  datatype RuleOutcome = Suggested | NotEligible(reason: Shortfall) | RuleUnavailable

  function ObservationsOf(v: Values): Observations {
    var typed := v.insertedKeyboard > 0;
    Observations(
      typed && RatioAtLeast(v.appendedKeyboard, v.insertedKeyboard, 4, 5)
            && RatioAtMost(v.removedKeyboard, v.insertedKeyboard, 1, 10),
      v.feedbackOpportunities >= 2 && RatioAtMost(v.errorEditRebuilds, v.feedbackOpportunities, 1, 4),
      typed && RatioAtLeast(v.beforeFirstBuild, v.insertedKeyboard, 4, 5))
  }

  function Evaluated(v: Values, unavailable: bool): RuleOutcome {
    if unavailable then RuleUnavailable
    else if v.insertedKeyboard < 1_000 then NotEligible(TooFewScalars)
    else if v.keyboardTransactions < 20 then NotEligible(TooFewTransactions)
    else if v.forwardInserted == 0 then NotEligible(NoForwardInsertion)
    else if !RatioAtLeast(v.insertedKeyboard, v.forwardInserted, 4, 5) then NotEligible(TooLittleTyped)
    else if v.completeCommands < 2 then NotEligible(TooFewCommands)
    else if v.feedbackOpportunities == 0 then NotEligible(NoOpportunity)
    else
      var observed := ObservationsOf(v);
      if observed.entry && (observed.feedback || observed.beforeBuild) then Suggested
      else NotEligible(if observed.entry then NothingElseSupported else EntryUnsupported)
  }

  function Ratio(value: nat, denominator: nat): real
    requires denominator > 0
  {
    value as real / denominator as real
  }

  /** The integer tests compare the ratios exactly. */
  lemma {:induction false} RatioExact(value: nat, denominator: nat, numerator: nat, divisor: nat)
    requires denominator > 0 && divisor > 0
    ensures RatioAtLeast(value, denominator, numerator, divisor)
            <==> Ratio(value, denominator) >= Ratio(numerator, divisor)
    ensures RatioAtMost(value, denominator, numerator, divisor)
            <==> Ratio(value, denominator) <= Ratio(numerator, divisor)
  {
    var x, y := Ratio(value, denominator), Ratio(numerator, divisor);
    var scale := denominator as real * divisor as real;
    assert x * scale == value as real * divisor as real;
    assert y * scale == numerator as real * denominator as real;
    assert (x - y) * scale == (value * divisor) as real - (denominator * numerator) as real;
  }

  /** What a review is suggested for, in terms of the ratios. */
  predicate Suggestive(v: Values) {
    && v.insertedKeyboard >= 1_000 && v.keyboardTransactions >= 20 && v.completeCommands >= 2
    && v.feedbackOpportunities >= 1 && v.forwardInserted > 0
    && Ratio(v.insertedKeyboard, v.forwardInserted) >= Ratio(4, 5)
    && Ratio(v.appendedKeyboard, v.insertedKeyboard) >= Ratio(4, 5)
    && Ratio(v.removedKeyboard, v.insertedKeyboard) <= Ratio(1, 10)
    && ((v.feedbackOpportunities >= 2 && Ratio(v.errorEditRebuilds, v.feedbackOpportunities) <= Ratio(1, 4))
        || Ratio(v.beforeFirstBuild, v.insertedKeyboard) >= Ratio(4, 5))
  }

  lemma {:induction false} SuggestedExactly(v: Values)
    ensures Evaluated(v, false) == Suggested <==> Suggestive(v)
  {
    if v.insertedKeyboard >= 1_000 && v.forwardInserted > 0 && v.feedbackOpportunities > 0 {
      RatioExact(v.insertedKeyboard, v.forwardInserted, 4, 5);
      RatioExact(v.appendedKeyboard, v.insertedKeyboard, 4, 5);
      RatioExact(v.removedKeyboard, v.insertedKeyboard, 1, 10);
      RatioExact(v.errorEditRebuilds, v.feedbackOpportunities, 1, 4);
      RatioExact(v.beforeFirstBuild, v.insertedKeyboard, 4, 5);
    }
  }

  /** The first of the demands that an attempt does not meet, in terms of the ratios. */
  predicate FallsShort(v: Values, reason: Shortfall) {
    var enough := v.insertedKeyboard >= 1_000 && v.keyboardTransactions >= 20 && v.forwardInserted > 0;
    var typed := enough && Ratio(v.insertedKeyboard, v.forwardInserted) >= Ratio(4, 5);
    var built := typed && v.completeCommands >= 2 && v.feedbackOpportunities >= 1;
    var entered := built && Ratio(v.appendedKeyboard, v.insertedKeyboard) >= Ratio(4, 5)
      && Ratio(v.removedKeyboard, v.insertedKeyboard) <= Ratio(1, 10);
    match reason
    case TooFewScalars => v.insertedKeyboard < 1_000
    case TooFewTransactions => v.insertedKeyboard >= 1_000 && v.keyboardTransactions < 20
    case NoForwardInsertion => v.insertedKeyboard >= 1_000 && v.keyboardTransactions >= 20 && v.forwardInserted == 0
    case TooLittleTyped => enough && !typed
    case TooFewCommands => typed && v.completeCommands < 2
    case NoOpportunity => typed && v.completeCommands >= 2 && v.feedbackOpportunities == 0
    case EntryUnsupported => built && !entered
    case NothingElseSupported => entered && !Suggestive(v)
  }

  /** A review is not suggested for exactly the first demand that is not met. */
  lemma {:induction false} ReasonExactly(v: Values, reason: Shortfall)
    ensures Evaluated(v, false) == NotEligible(reason) <==> FallsShort(v, reason)
  {
    if v.insertedKeyboard >= 1_000 && v.forwardInserted > 0 {
      RatioExact(v.insertedKeyboard, v.forwardInserted, 4, 5);
      RatioExact(v.appendedKeyboard, v.insertedKeyboard, 4, 5);
      RatioExact(v.removedKeyboard, v.insertedKeyboard, 1, 10);
    }
    SuggestedExactly(v);
  }

  /** The ratios of the rule but that of removals are at most one, and feedback takes three complete commands. */
  predicate RatiosBounded(v: Values) {
    && v.appendedKeyboard <= v.insertedKeyboard <= v.forwardInserted && v.beforeFirstBuild <= v.insertedKeyboard
    && v.errorEditRebuilds <= v.feedbackOpportunities
    && (ObservationsOf(v).feedback ==> v.completeCommands >= 3)
  }

  /**
   * Of every stream that was counted to its end: a review is suggested exactly when the ratios say so and nothing
   * was unavailable; no ratio the rule looks at but that of removals can pass one; and an attempt is never
   * turned away for want of forward insertions, because a thousand typed scalars are a thousand inserted ones.
   */
  lemma {:induction false} RuleExact(events: seq<Event>, parse: Diagnostics.Parser, s: State, s': State)
    requires ObservedAll(events, parse) == Fine(s) && Finished(s) == Fine(s')
    ensures Evaluated(s'.values, s'.unavailable) == Suggested <==> !s'.unavailable && Suggestive(s'.values)
    ensures Evaluated(s'.values, s'.unavailable) != NotEligible(NoForwardInsertion)
    ensures RatiosBounded(s'.values)
  {
    EditCountersConserve(events, parse, s);
    FeedbackCountersConserve(events, parse, s);
    FinishedConserves(Build, events, parse, s, s');
    RuleMeans(s, s'.unavailable);
  }

  lemma {:induction false} RuleMeans(s: State, unavailable: bool)
    requires EditsConserved(s.values) && FeedbackConserved(s)
    ensures Evaluated(s.values, unavailable) == Suggested <==> !unavailable && Suggestive(s.values)
    ensures Evaluated(s.values, unavailable) != NotEligible(NoForwardInsertion)
    ensures RatiosBounded(s.values)
  {
    SuggestedExactly(s.values);
  }

  // ----- Merging attempts -----

  function FactsMerged(a: Facts, b: Facts): Checked<Facts> {
    var started :- CheckedAdd(a.started, b.started);
    var complete :- CheckedAdd(a.complete, b.complete);
    var zero :- CheckedAdd(a.exitZero, b.exitZero);
    var nonzero :- CheckedAdd(a.nonzeroExit, b.nonzeroExit);
    var errors :- CheckedAdd(a.compilerErrors, b.compilerErrors);
    var unknown :- CheckedAdd(a.unknown, b.unknown);
    Fine(Facts(started, complete, zero, nonzero, errors, unknown))
  }

  const ACTIONS := [Build, Check, Test, Run, Clippy, Format, Doc, Add, Remove, Update]

  /** The first `n` actions merged into the target. */
  function CommandsMerged(target: Commands, source: Commands, n: nat): Checked<Commands>
    requires n <= |ACTIONS|
  {
    if n == 0 then Fine(target)
    else
      var before :- CommandsMerged(target, source, n - 1);
      var facts :- FactsMerged(before.Of(ACTIONS[n - 1]), source.Of(ACTIONS[n - 1]));
      Fine(before.With(ACTIONS[n - 1], facts))
  }

  method MergeCommands(target: Commands, source: Commands) returns (r: Checked<Commands>)
    ensures r == CommandsMerged(target, source, |ACTIONS|)
  {
    var merged := target;
    for n := 0 to |ACTIONS|
      invariant CommandsMerged(target, source, n) == Fine(merged)
    {
      var facts := FactsMerged(merged.Of(ACTIONS[n]), source.Of(ACTIONS[n]));
      if facts.Overflowed? {
        OverflowStays(target, source, n + 1, |ACTIONS|);
        return Overflowed;
      }
      merged := merged.With(ACTIONS[n], facts.value);
    }
    return Fine(merged);
  }

  function EditsMerged(a: EditFacts, b: EditFacts): Checked<EditFacts> {
    var transactions :- CheckedAdd(a.transactions, b.transactions);
    var scalars :- CheckedAdd(a.scalars, b.scalars);
    Fine(EditFacts(transactions, scalars))
  }

  /** The facts of two attempts, kind by kind. */
  function FactualMerged(target: Factual, source: Factual): Checked<Factual> {
    var internalPaste :- EditsMerged(target.internalPaste, source.internalPaste);
    var historicalPaste :- EditsMerged(target.historicalPaste, source.historicalPaste);
    var unknownOrigin :- EditsMerged(target.unknownOrigin, source.unknownOrigin);
    var externalChanges :- CheckedAdd(target.externalChanges, source.externalChanges);
    var rejectedPastes :- CheckedAdd(target.rejectedPastes, source.rejectedPastes);
    var commands :- CommandsMerged(target.commands, source.commands, |ACTIONS|);
    Fine(Factual(internalPaste, historicalPaste, unknownOrigin, externalChanges, rejectedPastes, commands))
  }

  /** Merges the edit facts, then the rejections, then the commands, and gives up at the first overflow. */
  method MergeFactual(target: Factual, source: Factual) returns (r: Checked<Factual>)
    ensures r == FactualMerged(target, source)
  {
    var merged := target;
    var edits := EditsMerged(merged.internalPaste, source.internalPaste);
    if edits.Overflowed? {
      return Overflowed;
    }
    merged := merged.(internalPaste := edits.value);
    edits := EditsMerged(merged.historicalPaste, source.historicalPaste);
    if edits.Overflowed? {
      return Overflowed;
    }
    merged := merged.(historicalPaste := edits.value);
    edits := EditsMerged(merged.unknownOrigin, source.unknownOrigin);
    if edits.Overflowed? {
      return Overflowed;
    }
    merged := merged.(unknownOrigin := edits.value);
    var count := CheckedAdd(merged.externalChanges, source.externalChanges);
    if count.Overflowed? {
      return Overflowed;
    }
    merged := merged.(externalChanges := count.value);
    count := CheckedAdd(merged.rejectedPastes, source.rejectedPastes);
    if count.Overflowed? {
      return Overflowed;
    }
    merged := merged.(rejectedPastes := count.value);
    var commands := MergeCommands(merged.commands, source.commands);
    if commands.Overflowed? {
      return Overflowed;
    }
    return Fine(merged.(commands := commands.value));
  }

  lemma {:induction false} OverflowStays(target: Commands, source: Commands, n: nat, later: nat)
    requires n <= later <= |ACTIONS| && CommandsMerged(target, source, n).Overflowed?
    ensures CommandsMerged(target, source, later).Overflowed?
    decreases later
  {
    if n < later {
      OverflowStays(target, source, n, later - 1);
    }
  }

  lemma {:induction false} MergedOf(a: Action, target: Commands, source: Commands, n: nat)
    requires n <= |ACTIONS| && CommandsMerged(target, source, n).Fine?
    ensures (FactsMerged(target.Of(a), source.Of(a)).Fine?
             && CommandsMerged(target, source, n).value.Of(a) == FactsMerged(target.Of(a), source.Of(a)).value)
            || (CommandsMerged(target, source, n).value.Of(a) == target.Of(a) && a !in ACTIONS[..n])
    ensures a !in ACTIONS[..n] ==> CommandsMerged(target, source, n).value.Of(a) == target.Of(a)
  {
    if n > 0 {
      MergedOf(a, target, source, n - 1);
      assert ACTIONS[..n] == ACTIONS[..n - 1] + [ACTIONS[n - 1]];
      DistinctActions(n - 1);
    }
  }

  lemma {:induction false} DistinctActions(n: nat)
    requires n < |ACTIONS|
    ensures ACTIONS[n] !in ACTIONS[..n]
  {
  }

  /** The sum of two counts of one action. */
  function FactsSum(a: Facts, b: Facts): Facts {
    Facts(a.started + b.started, a.complete + b.complete, a.exitZero + b.exitZero, a.nonzeroExit + b.nonzeroExit,
          a.compilerErrors + b.compilerErrors, a.unknown + b.unknown)
  }

  predicate FactsFit(f: Facts) {
    && f.started <= U64_MAX && f.complete <= U64_MAX && f.exitZero <= U64_MAX
    && f.nonzeroExit <= U64_MAX && f.compilerErrors <= U64_MAX && f.unknown <= U64_MAX
  }

  function EditsSum(a: EditFacts, b: EditFacts): EditFacts {
    EditFacts(a.transactions + b.transactions, a.scalars + b.scalars)
  }

  predicate EditsFit(f: EditFacts) {
    f.transactions <= U64_MAX && f.scalars <= U64_MAX
  }

  /** Every sum of counters fits its 64 bits. */
  predicate MergeFits(target: Factual, source: Factual) {
    && EditsFit(EditsSum(target.internalPaste, source.internalPaste))
    && EditsFit(EditsSum(target.historicalPaste, source.historicalPaste))
    && EditsFit(EditsSum(target.unknownOrigin, source.unknownOrigin))
    && target.externalChanges + source.externalChanges <= U64_MAX
    && target.rejectedPastes + source.rejectedPastes <= U64_MAX
    && forall a :: FactsFit(FactsSum(target.commands.Of(a), source.commands.Of(a)))
  }

  /** The sums of these actions fit. */
  predicate SumsFit(target: Commands, source: Commands, actions: seq<Action>) {
    forall a | a in actions :: FactsFit(FactsSum(target.Of(a), source.Of(a)))
  }

  lemma {:induction false} SumsFitSnoc(target: Commands, source: Commands, whole: seq<Action>, init: seq<Action>,
                                       a: Action)
    requires whole == init + [a]
    ensures SumsFit(target, source, whole)
            <==> SumsFit(target, source, init) && FactsFit(FactsSum(target.Of(a), source.Of(a)))
  {
    assert a in whole && forall b | b in init :: b in whole;
  }

  /** Merging one more action overflows exactly when its sum does not fit. */
  lemma {:induction false} CommandFits(target: Commands, source: Commands, n: nat)
    requires n < |ACTIONS| && CommandsMerged(target, source, n).Fine?
    ensures CommandsMerged(target, source, n + 1).Fine?
            <==> FactsFit(FactsSum(target.Of(ACTIONS[n]), source.Of(ACTIONS[n])))
  {
    DistinctActions(n);
    MergedOf(ACTIONS[n], target, source, n);
    FactsMergeFit(target.Of(ACTIONS[n]), source.Of(ACTIONS[n]));
  }

  lemma {:induction false} CommandsFit(target: Commands, source: Commands, n: nat)
    requires n <= |ACTIONS|
    ensures CommandsMerged(target, source, n).Fine? <==> SumsFit(target, source, ACTIONS[..n])
  {
    if n > 0 {
      CommandsFit(target, source, n - 1);
      SumsFitSnoc(target, source, ACTIONS[..n], ACTIONS[..n - 1], ACTIONS[n - 1]);
      if CommandsMerged(target, source, n - 1).Fine? {
        CommandFits(target, source, n - 1);
      }
    }
  }

  lemma {:induction false} FactsMergeFit(a: Facts, b: Facts)
    ensures FactsMerged(a, b) == if FactsFit(FactsSum(a, b)) then Fine(FactsSum(a, b)) else Overflowed
  {
  }

  /** Merging overflows exactly when some sum does not fit; otherwise every counter is the sum. */
  lemma {:induction false} MergedSums(target: Factual, source: Factual)
    ensures FactualMerged(target, source).Fine? <==> MergeFits(target, source)
    ensures FactualMerged(target, source).Fine? ==>
              var merged := FactualMerged(target, source).value;
              && merged.internalPaste == EditsSum(target.internalPaste, source.internalPaste)
              && merged.historicalPaste == EditsSum(target.historicalPaste, source.historicalPaste)
              && merged.unknownOrigin == EditsSum(target.unknownOrigin, source.unknownOrigin)
              && merged.externalChanges == target.externalChanges + source.externalChanges
              && merged.rejectedPastes == target.rejectedPastes + source.rejectedPastes
              && forall a :: merged.commands.Of(a) == FactsSum(target.commands.Of(a), source.commands.Of(a))
  {
    CommandsSums(target.commands, source.commands);
  }

  lemma {:induction false} CommandsSums(target: Commands, source: Commands)
    ensures CommandsMerged(target, source, |ACTIONS|).Fine?
            <==> forall a :: FactsFit(FactsSum(target.Of(a), source.Of(a)))
    ensures CommandsMerged(target, source, |ACTIONS|).Fine? ==>
              forall a :: CommandsMerged(target, source, |ACTIONS|).value.Of(a) == FactsSum(target.Of(a), source.Of(a))
  {
    CommandsFit(target, source, |ACTIONS|);
    forall a
      ensures a in ACTIONS[..|ACTIONS|]
    {
      EveryAction(a);
    }
    if CommandsMerged(target, source, |ACTIONS|).Fine? {
      forall a
        ensures CommandsMerged(target, source, |ACTIONS|).value.Of(a) == FactsSum(target.Of(a), source.Of(a))
      {
        MergedOf(a, target, source, |ACTIONS|);
        FactsMergeFit(target.Of(a), source.Of(a));
      }
    }
  }

  /** Merging the facts of two attempts in which nothing runs any more conserves them. */
  lemma {:induction false} MergedConserves(a: Action, target: Factual, source: Factual, merged: Factual)
    requires FactsConserved(FactsOf(target, a), 0) && FactsConserved(FactsOf(source, a), 0)
    requires FactualMerged(target, source) == Fine(merged)
    ensures FactsConserved(FactsOf(merged, a), 0)
  {
    MergedSums(target, source);
  }

  lemma {:induction false} EveryAction(a: Action)
    ensures a in ACTIONS[..|ACTIONS|]
  {
    assert ACTIONS[..|ACTIONS|] == ACTIONS;
    match a {
      case Build => assert ACTIONS[0] == a;
      case Check => assert ACTIONS[1] == a;
      case Test => assert ACTIONS[2] == a;
      case Run => assert ACTIONS[3] == a;
      case Clippy => assert ACTIONS[4] == a;
      case Format => assert ACTIONS[5] == a;
      case Doc => assert ACTIONS[6] == a;
      case Add => assert ACTIONS[7] == a;
      case Remove => assert ACTIONS[8] == a;
      case Update => assert ACTIONS[9] == a;
    }
  }

  // ----- The accumulator object -----

  method Diagnose(active: Active, finish: Diagnostics.Finish, parse: Diagnostics.Parser)
    returns (diagnosed: Option<Diagnostics.DiagnosticOutcome>)
    ensures diagnosed == Diagnosed(active, finish, parse)
  {
    if !HasDiagnostics(active.start) {
      return None;
    }
    var d := Diagnostics.DeriveCommandDiagnostics(active.start, active.output, finish, parse);
    return Some(d.outcome);
  }

  /** Counts one attempt; a method that returns false met an overflow, and the count is abandoned. */
  class AttemptIndicatorAccumulator {
    var factual: Factual
    var values: Values
    var unavailable: bool
    var active: Option<Active>
    var lastComplete: Option<bool>
    var editSinceCommand: bool
    var checkTestStarted: bool

    ghost function Snapshot(): State
      reads this
    {
      State(factual, values, unavailable, active, lastComplete, editSinceCommand, checkTestStarted)
    }

    constructor ()
      ensures Snapshot() == EMPTY
    {
      factual, values, unavailable := EMPTY.factual, EMPTY.values, false;
      active, lastComplete, editSinceCommand, checkTestStarted := None, None, false, false;
    }

    method MarkUnavailable()
      modifies this`unavailable
      ensures Snapshot() == MarkedUnavailable(old(Snapshot()))
    {
      unavailable := true;
    }

    method ObserveForwardScalars(origin: Origin, inserted: nat, internalPaste: bool) returns (ok: bool)
      requires !Reverses(origin)
      modifies this`values
      ensures ok <==> Forwarded(old(Snapshot()), origin, inserted, internalPaste).Fine?
      ensures ok ==> Snapshot() == Forwarded(old(Snapshot()), origin, inserted, internalPaste).value
    {
      var forward := CheckedAdd(values.forwardInserted, inserted);
      if forward.Overflowed? {
        return false;
      }
      var origins := OriginAdded(values.origins, origin, internalPaste, inserted);
      if origins.Overflowed? {
        return false;
      }
      values := values.(forwardInserted := forward.value, origins := origins.value);
      return true;
    }

    method ObserveFacts(origin: Origin, inserted: nat) returns (ok: bool)
      modifies this`factual
      ensures ok <==> FactuallyEdited(old(Snapshot()), origin, inserted).Fine?
      ensures ok ==> Snapshot() == FactuallyEdited(old(Snapshot()), origin, inserted).value
    {
      if origin == Paste {
        var facts := EditAdded(factual.historicalPaste, inserted);
        if facts.Overflowed? {
          return false;
        }
        factual := factual.(historicalPaste := facts.value);
      } else if origin == Unknown {
        var facts := EditAdded(factual.unknownOrigin, inserted);
        if facts.Overflowed? {
          return false;
        }
        factual := factual.(unknownOrigin := facts.value);
      }
      return true;
    }

    method ObserveKeyboard(edits: seq<TextEdit>, before: Option<Text>) returns (ok: bool)
      modifies this
      ensures ok <==> KeyboardEdited(old(Snapshot()), edits, before).Fine?
      ensures ok ==> Snapshot() == KeyboardEdited(old(Snapshot()), edits, before).value
    {
      if |edits| != 1 {
        MarkUnavailable();
        return true;
      }
      var edit := edits[0];
      var typed := Typed(values, ScalarCount(edit.inserted), edit.inserted != []);
      if typed.Overflowed? {
        return false;
      }
      values := typed.value;
      if before.None? || RemovedScalars(before.value, edit).None? {
        MarkUnavailable();
        return true;
      }
      ok := ObservePlace(edit, |before.value|, RemovedScalars(before.value, edit).value);
    }

    method ObservePlace(edit: TextEdit, length: nat, removed: nat) returns (ok: bool)
      modifies this`values, this`editSinceCommand
      ensures ok <==> Placed(old(Snapshot()), edit, length, removed).Fine?
      ensures ok ==> Snapshot() == Placed(old(Snapshot()), edit, length, removed).value
    {
      var inserted := ScalarCount(edit.inserted);
      var taken := CheckedAdd(values.removedKeyboard, removed);
      var appended := CheckedAdd(values.appendedKeyboard, if edit.start == edit.end == length then inserted else 0);
      var early := CheckedAdd(values.beforeFirstBuild, if checkTestStarted then 0 else inserted);
      if taken.Overflowed? || appended.Overflowed? || early.Overflowed? {
        return false;
      }
      values := values.(removedKeyboard := taken.value, appendedKeyboard := appended.value,
          beforeFirstBuild := early.value);
      editSinceCommand := true;
      return true;
    }

    method ObserveTransaction(t: Transaction, before: Option<Text>) returns (ok: bool)
      modifies this
      ensures ok <==> TransactionObserved(old(Snapshot()), t, before).Fine?
      ensures ok ==> Snapshot() == TransactionObserved(old(Snapshot()), t, before).value
    {
      var inserted := InsertedScalars(t.edits);
      if inserted.Overflowed? {
        return false;
      }
      ok := ObserveFacts(t.origin, inserted.value);
      if !ok {
        return;
      }
      if Reverses(t.origin) {
        MarkUnavailable();
        return;
      }
      ok := ObserveForwardScalars(t.origin, inserted.value, false);
      if ok && t.origin == Keyboard {
        ok := ObserveKeyboard(t.edits, before);
      }
    }

    method StartCommand(start: Diagnostics.Start) returns (ok: bool)
      modifies this
      ensures ok <==> CommandStartObserved(old(Snapshot()), start).Fine?
      ensures ok ==> Snapshot() == CommandStartObserved(old(Snapshot()), start).value
    {
      if active.Some? {
        MarkUnavailable();
        return true;
      }
      var facts := factual.commands.Of(start.action);
      var started := CheckedAdd(facts.started, 1);
      if started.Overflowed? {
        return false;
      }
      factual := factual.(commands := factual.commands.With(start.action, facts.(started := started.value)));
      if IsCheckTest(start.action) {
        checkTestStarted := true;
      }
      active := Some(Active(start, []));
      return true;
    }

    method CollectOutput(chunk: Diagnostics.Chunk)
      modifies this`active, this`unavailable
      ensures Snapshot() == CommandOutputObserved(old(Snapshot()), chunk)
    {
      if active.None? {
        return;
      }
      var running := active.value;
      if running.start.id == chunk.id {
        active := Some(running.(output := running.output + [chunk]));
      } else if IsCheckTest(running.start.action) {
        MarkUnavailable();
      }
    }

    method CountFeedback(action: Action, diagnosed: Option<Diagnostics.DiagnosticOutcome>) returns (ok: bool)
      modifies this`values, this`lastComplete, this`editSinceCommand
      ensures ok <==> FeedbackObserved(old(Snapshot()), action, diagnosed).Fine?
      ensures ok ==> Snapshot() == FeedbackObserved(old(Snapshot()), action, diagnosed).value
    {
      var errors := diagnosed == Some(Diagnostics.CompilerErrors);
      var complete := CheckedAdd(values.completeCommands, 1);
      var failing := CheckedAdd(values.compilerErrorCommands, if errors then 1 else 0);
      var failed := CheckedAdd(values.failedTests, if action == Test && diagnosed == Some(Diagnostics.NonzeroExit)
          then 1 else 0);
      var opportunity := lastComplete.Some? && editSinceCommand;
      var opportunities := CheckedAdd(values.feedbackOpportunities, if opportunity then 1 else 0);
      var rebuilds := CheckedAdd(values.errorEditRebuilds, if opportunity && lastComplete.value then 1 else 0);
      if complete.Overflowed? || failing.Overflowed? || failed.Overflowed? || opportunities.Overflowed?
         || rebuilds.Overflowed? {
        return false;
      }
      values := values.(completeCommands := complete.value, compilerErrorCommands := failing.value,
                        failedTests := failed.value, feedbackOpportunities := opportunities.value,
                        errorEditRebuilds := rebuilds.value);
      lastComplete, editSinceCommand := Some(errors), false;
      return true;
    }

    /** Ends the running command: derives its diagnostics, counts it, and counts the feedback it closes. */
    method FinishCommand(finish: Diagnostics.Finish, parse: Diagnostics.Parser) returns (ok: bool)
      modifies this
      ensures ok <==> CommandFinishObserved(old(Snapshot()), finish, parse).Fine?
      ensures ok ==> Snapshot() == CommandFinishObserved(old(Snapshot()), finish, parse).value
    {
      if active.None? {
        MarkUnavailable();
        return true;
      }
      var running := active.value;
      var action := running.start.action;
      active := None;
      if running.start.id != finish.id {
        unavailable := unavailable || IsCheckTest(action);
        return true;
      }
      var diagnosed := Diagnose(running, finish, parse);
      var known := EvidenceKnown(running.start, finish, diagnosed);
      var code := if finish.outcome.Exited? then finish.outcome.code else 0;
      var facts := FactsFinished(factual.commands.Of(action), known, code, diagnosed
          == Some(Diagnostics.CompilerErrors));
      if facts.Overflowed? {
        return false;
      }
      factual := factual.(commands := factual.commands.With(action, facts.value));
      ok := true;
      if IsCheckTest(action) {
        if known {
          ok := CountFeedback(action, diagnosed);
        } else {
          MarkUnavailable();
        }
      }
    }

    method ObserveInternalPaste(t: Transaction) returns (ok: bool)
      modifies this
      ensures ok <==> PasteObserved(old(Snapshot()), t).Fine?
      ensures ok ==> Snapshot() == PasteObserved(old(Snapshot()), t).value
    {
      var inserted := InsertedScalars(t.edits);
      if inserted.Overflowed? {
        return false;
      }
      var facts := EditAdded(factual.internalPaste, inserted.value);
      if facts.Overflowed? {
        return false;
      }
      factual := factual.(internalPaste := facts.value);
      ok := ObserveForwardScalars(Paste, inserted.value, true);
    }

    method StartLegacyCommand(action: Option<Action>) returns (ok: bool)
      modifies this
      ensures ok <==> LegacyStartObserved(old(Snapshot()), action).Fine?
      ensures ok ==> Snapshot() == LegacyStartObserved(old(Snapshot()), action).value
    {
      if action.None? {
        return true;
      }
      var facts := factual.commands.Of(action.value);
      var started := CheckedAdd(facts.started, 1);
      var unknown := CheckedAdd(facts.unknown, 1);
      if started.Overflowed? || unknown.Overflowed? {
        return false;
      }
      factual := factual.(commands :=
        factual.commands.With(action.value, facts.(started := started.value, unknown := unknown.value)));
      if IsCheckTest(action.value) {
        checkTestStarted := true;
        MarkUnavailable();
      }
      return true;
    }

    /** Ends the count and applies the rule to it. */
    method Finish() returns (ok: bool, observations: Observations, outcome: RuleOutcome)
      modifies this
      ensures ok <==> Finished(old(Snapshot())).Fine?
      ensures ok ==> Snapshot() == Finished(old(Snapshot())).value
      ensures ok ==> observations == ObservationsOf(values) && outcome == Evaluated(values, unavailable)
    {
      ok, observations, outcome := true, Observations(false, false, false), RuleUnavailable;
      if active.Some? {
        var action := active.value.start.action;
        active := None;
        var facts := factual.commands.Of(action);
        var unknown := CheckedAdd(facts.unknown, 1);
        if unknown.Overflowed? {
          ok := false;
          return;
        }
        factual := factual.(commands := factual.commands.With(action, facts.(unknown := unknown.value)));
        if IsCheckTest(action) {
          MarkUnavailable();
        }
      }
      observations, outcome := ObservationsOf(values), Evaluated(values, unavailable);
    }

    /** Takes one event of the attempt. */
    method Observe(e: Event, parse: Diagnostics.Parser) returns (ok: bool)
      modifies this
      ensures ok <==> Observed(old(Snapshot()), e, parse).Fine?
      ensures ok ==> Snapshot() == Observed(old(Snapshot()), e, parse).value
    {
      ok := true;
      match e {
        case FileEdited(t, before) => ok := ObserveTransaction(t, before);
        case InternalPaste(t) => ok := ObserveInternalPaste(t);
        case ExternalObservation =>
          ok := factual.externalChanges < U64_MAX;
          if ok {
            factual := factual.(externalChanges := factual.externalChanges + 1);
          }
        case PasteRejected =>
          ok := factual.rejectedPastes < U64_MAX;
          if ok {
            factual := factual.(rejectedPastes := factual.rejectedPastes + 1);
          }
        case FileDeleted => MarkUnavailable();
        case FileRenamed => MarkUnavailable();
        case SessionResumed => lastComplete, editSinceCommand := None, false;
        case CommandStarted(start) => ok := StartCommand(start);
        case CommandOutput(chunk) => CollectOutput(chunk);
        case CommandFinished(finish) => ok := FinishCommand(finish, parse);
        case LegacyStarted(_, action) => ok := StartLegacyCommand(action);
        case LegacyFinished(_) =>
        case Other =>
      }
    }
  }
}
