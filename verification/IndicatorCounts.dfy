/** What the review indicators count, said of the whole stream (src/process_indicators.rs). */
module IndicatorCounts {
  import opened CargoActions
  import opened Common
  import Diagnostics = CommandDiagnostics
  import opened Editing
  import opened IndicatorLinks
  import opened ProcessIndicators
  import Utf8

  // ----- Scalars -----

  /** Within the bytes of one scalar only the first is no continuation. */
  lemma {:induction false} ScalarBytes(c: Utf8.Scalar, first: Text)
    requires first == Utf8.EncodedScalar(c)
    ensures 1 <= |first| <= 4 && !Utf8.Continuation(first[0])
    ensures forall i | 0 < i < |first| :: Utf8.Continuation(first[i])
  {
  }

  lemma {:induction false} CountConcat(a: Text, b: Text)
    ensures ScalarCount(a + b) == ScalarCount(a) + ScalarCount(b)
    decreases |b|
  {
    if b == [] {
      assert a + b == a;
    } else {
      var init, last := b[..|b| - 1], b[|b| - 1];
      CountConcat(a, init);
      assert (a + b)[..|a + b| - 1] == a + init;
    }
  }

  lemma {:induction false} NoneCounted(bytes: Text)
    requires forall i | 0 <= i < |bytes| :: Utf8.Continuation(bytes[i])
    ensures ScalarCount(bytes) == 0
  {
    if bytes != [] {
      NoneCounted(bytes[..|bytes| - 1]);
    }
  }

  lemma {:induction false} OneCounted(c: Utf8.Scalar, first: Text)
    requires first == Utf8.EncodedScalar(c)
    ensures ScalarCount(first) == 1
  {
    ScalarBytes(c, first);
    var lead := [first[0]];
    assert first == lead + first[1..] && lead[..0] == [];
    NoneCounted(first[1..]);
    CountConcat(lead, first[1..]);
  }

  /** The count of a text is the number of its scalars. */
  lemma {:induction false} ScalarsCounted(scalars: seq<Utf8.Scalar>)
    ensures ScalarCount(Utf8.Encoded(scalars)) == |scalars|
    decreases |scalars|
  {
    if scalars != [] {
      var first := Utf8.EncodedScalar(scalars[0]);
      OneCounted(scalars[0], first);
      ScalarsCounted(scalars[1..]);
      CountConcat(first, Utf8.Encoded(scalars[1..]));
    }
  }

  /** How far the first `i` scalars reach. */
  function Reach(scalars: seq<Utf8.Scalar>, i: nat): nat
    requires i <= |scalars|
  {
    |Utf8.Encoded(scalars[..i])|
  }

  lemma {:induction false} EncodedConcat(a: seq<Utf8.Scalar>, b: seq<Utf8.Scalar>)
    ensures Utf8.Encoded(a + b) == Utf8.Encoded(a) + Utf8.Encoded(b)
    decreases |a|
  {
    hide Utf8.EncodedScalar;
    if a == [] {
      assert a + b == b && Utf8.Encoded(a) + Utf8.Encoded(b) == Utf8.Encoded(b);
    } else {
      EncodedConcat(a[1..], b);
      assert (a + b)[1..] == a[1..] + b;
      var first := Utf8.EncodedScalar(a[0]);
      assert first + (Utf8.Encoded(a[1..]) + Utf8.Encoded(b)) == first + Utf8.Encoded(a[1..]) + Utf8.Encoded(b);
    }
  }

  lemma {:induction false} EncodedStarts(scalars: seq<Utf8.Scalar>)
    ensures StartsScalar(Utf8.Encoded(scalars))
  {
    if scalars != [] {
      ScalarBytes(scalars[0], Utf8.EncodedScalar(scalars[0]));
    }
  }

  lemma {:induction false} ReachNext(scalars: seq<Utf8.Scalar>, i: nat)
    requires 0 < i <= |scalars|
    ensures Reach(scalars, i) == |Utf8.EncodedScalar(scalars[0])| + Reach(scalars[1..], i - 1)
  {
    assert scalars[..i][1..] == scalars[1..][..i - 1];
  }

  /** The number of scalars before a boundary of the text. */
  lemma {:induction false} BoundaryReached(scalars: seq<Utf8.Scalar>, at: nat) returns (i: nat)
    requires Boundary(Utf8.Encoded(scalars), at)
    ensures i <= |scalars| && at == Reach(scalars, i)
    decreases |scalars|
  {
    i := 0;
    assert scalars[..0] == [];
    if at > 0 {
      var first, rest := Utf8.EncodedScalar(scalars[0]), Utf8.Encoded(scalars[1..]);
      ScalarBytes(scalars[0], first);
      assert forall k | 0 <= k < |first| :: (first + rest)[k] == first[k];
      assert forall k | 0 <= k < |rest| :: (first + rest)[|first| + k] == rest[k];
      var k := BoundaryReached(scalars[1..], at - |first|);
      i := k + 1;
      ReachNext(scalars, i);
    }
  }

  /** Where some scalars end is a boundary of the text. */
  lemma {:induction false} ReachBoundary(scalars: seq<Utf8.Scalar>, i: nat)
    requires i <= |scalars|
    ensures Boundary(Utf8.Encoded(scalars), Reach(scalars, i))
  {
    var head, tail := scalars[..i], scalars[i..];
    assert scalars == head + tail;
    EncodedConcat(head, tail);
    EncodedStarts(tail);
    assert tail != [] ==> Utf8.Encoded(tail) != [];
  }

  /** Between two boundaries lie the scalars between them. */
  lemma {:induction false} ScalarsBetween(scalars: seq<Utf8.Scalar>, i: nat, j: nat)
    requires i <= j <= |scalars|
    ensures Reach(scalars, i) <= Reach(scalars, j) <= |Utf8.Encoded(scalars)|
    ensures ScalarCount(Utf8.Encoded(scalars)[Reach(scalars, i)..Reach(scalars, j)]) == j - i
  {
    var head, middle, tail := scalars[..i], scalars[i..j], scalars[j..];
    assert scalars[..j] == head + middle && scalars == scalars[..j] + tail;
    EncodedConcat(head, middle);
    EncodedConcat(scalars[..j], tail);
    ScalarsCounted(middle);
    assert Utf8.Encoded(scalars)[Reach(scalars, i)..Reach(scalars, j)] == Utf8.Encoded(middle);
  }

  lemma {:induction false} ReachGrows(scalars: seq<Utf8.Scalar>, i: nat, j: nat)
    requires i <= |scalars| && j <= |scalars| && Reach(scalars, i) <= Reach(scalars, j)
    ensures i <= j
  {
    if j < i {
      ReachStrict(scalars, j, i);
    }
  }

  /** More scalars reach further. */
  lemma {:induction false} ReachStrict(scalars: seq<Utf8.Scalar>, i: nat, j: nat)
    requires i < j <= |scalars|
    ensures Reach(scalars, i) < Reach(scalars, j)
  {
    ScalarsBetween(scalars, i, j);
    var between := Utf8.Encoded(scalars)[Reach(scalars, i)..Reach(scalars, j)];
    assert between == [] ==> ScalarCount(between) == 0;
  }

  /** The scalars from the `i`-th up to the `j`-th are those of the range. */
  predicate Covers(scalars: seq<Utf8.Scalar>, edit: TextEdit, i: nat, j: nat) {
    i <= j <= |scalars| && edit.start == Reach(scalars, i) && edit.end == Reach(scalars, j)
  }

  /** An edit of a text takes out as many scalars as its range covers, and is unplaced when it splits a scalar. */
  lemma {:induction false} RemovedExactly(scalars: seq<Utf8.Scalar>, edit: TextEdit)
    ensures RemovedScalars(Utf8.Encoded(scalars), edit).Some? <==> exists i, j :: Covers(scalars, edit, i, j)
    ensures forall i, j :: Covers(scalars, edit, i, j) ==> RemovedScalars(Utf8.Encoded(scalars), edit) == Some(j - i)
  {
    var text := Utf8.Encoded(scalars);
    if RemovedScalars(text, edit).Some? {
      var i := BoundaryReached(scalars, edit.start);
      var j := BoundaryReached(scalars, edit.end);
      ReachGrows(scalars, i, j);
      assert Covers(scalars, edit, i, j);
    }
    forall i, j | Covers(scalars, edit, i, j)
      ensures RemovedScalars(text, edit) == Some(j - i)
    {
      ReachBoundary(scalars, i);
      ReachBoundary(scalars, j);
      ScalarsBetween(scalars, i, j);
    }
  }

  // ----- What one event counts for -----

  /** The scalars that edits put in. */
  function InsertedBy(edits: seq<TextEdit>): nat {
    if edits == [] then 0 else InsertedBy(edits[..|edits| - 1]) + ScalarCount(edits[|edits| - 1].inserted)
  }

  lemma {:induction false} InsertedSum(edits: seq<TextEdit>)
    requires InsertedScalars(edits).Fine?
    ensures InsertedScalars(edits).value == InsertedBy(edits)
  {
    if edits != [] {
      InsertedSum(edits[..|edits| - 1]);
    }
  }

  lemma {:induction false} InsertedByOne(edits: seq<TextEdit>)
    requires |edits| == 1
    ensures InsertedBy(edits) == ScalarCount(edits[0].inserted)
  {
    assert edits[..0] == [];
  }

  datatype Group =
    | Typing
    | InternalPasting
    | HistoricalPasting
    | Completing
    | Formatting
    | Depending
    | Unverified
    | Rest

  /** The origins that are counted together; steps through the history are not counted. */
  function GroupOf(origin: Origin): Group
    requires !Reverses(origin)
  {
    match origin
    case Keyboard => Typing
    case Paste => HistoricalPasting
    case Completion => Completing
    case AdditionalCompletionEdit => Completing
    case Formatter => Formatting
    case DependencyTool => Depending
    case Unknown => Unverified
    case _ => Rest
  }

  /** The counters of the rule. */
  datatype Quantity =
    | InsertedKeyboard
    | KeyboardTransactions
    | AppendedKeyboard
    | RemovedKeyboard
    | BeforeFirstBuild
    | ForwardInserted
    | FromOrigin(group: Group)
    | FeedbackOpportunities
    | ErrorEditRebuilds
    | CompleteCommands
    | CompilerErrorCommands
    | FailedTests

  function FromOf(o: Origins, group: Group): nat {
    match group
    case Typing => o.keyboard
    case InternalPasting => o.internalPaste
    case HistoricalPasting => o.historicalPaste
    case Completing => o.completion
    case Formatting => o.formatter
    case Depending => o.dependencyTool
    case Unverified => o.unknown
    case Rest => o.other
  }

  function ValueOf(q: Quantity, v: Values): nat {
    match q
    case InsertedKeyboard => v.insertedKeyboard
    case KeyboardTransactions => v.keyboardTransactions
    case AppendedKeyboard => v.appendedKeyboard
    case RemovedKeyboard => v.removedKeyboard
    case BeforeFirstBuild => v.beforeFirstBuild
    case ForwardInserted => v.forwardInserted
    case FromOrigin(group) => FromOf(v.origins, group)
    case FeedbackOpportunities => v.feedbackOpportunities
    case ErrorEditRebuilds => v.errorEditRebuilds
    case CompleteCommands => v.completeCommands
    case CompilerErrorCommands => v.compilerErrorCommands
    case FailedTests => v.failedTests
  }

  /**
   * What a keyboard edit of one range counts for: what it puts in, and once its range is known to be one of the text
   * before it, what it takes out, what it appends at the end of that text, and what is typed before the first build.
   */
  function TypedAmount(q: Quantity, edit: TextEdit, before: Option<Text>, early: bool): nat {
    var inserted := ScalarCount(edit.inserted);
    var removed := if before.Some? then RemovedScalars(before.value, edit) else None;
    match q
    case InsertedKeyboard => inserted
    case KeyboardTransactions => if edit.inserted != [] then 1 else 0
    case AppendedKeyboard =>
      if removed.Some? && edit.start == |before.value| && edit.end == |before.value| then inserted else 0
    case RemovedKeyboard => if removed.Some? then removed.value else 0
    case BeforeFirstBuild => if removed.Some? && early then inserted else 0
    case _ => 0
  }

  /** What text that is put in counts for, whoever put it in. */
  function ForwardAmount(q: Quantity, group: Group, inserted: nat): nat {
    if q == ForwardInserted || q == FromOrigin(group) then inserted else 0
  }

  function EditAmount(q: Quantity, t: Transaction, before: Option<Text>, early: bool): nat {
    if Reverses(t.origin) then 0
    else
      ForwardAmount(q, GroupOf(t.origin), InsertedBy(t.edits))
      + (if t.origin == Keyboard && |t.edits| == 1 then TypedAmount(q, t.edits[0], before, early) else 0)
  }

  /** What a complete check or test counts for. */
  function CompleteAmount(q: Quantity, action: Action, diagnosed: Option<Diagnostics.DiagnosticOutcome>,
                          opportunity: bool, rebuild: bool): nat {
    var counts := match q
      case CompleteCommands => true
      case CompilerErrorCommands => diagnosed == Some(Diagnostics.CompilerErrors)
      case FailedTests => action == Test && diagnosed == Some(Diagnostics.NonzeroExit)
      case FeedbackOpportunities => opportunity
      case ErrorEditRebuilds => opportunity && rebuild
      case _ => false;
    if counts then 1 else 0
  }

  /**
   * The evidence of a command is known exactly when it exited and both of its streams were captured completely, and
   * for a command with structured diagnostics, when no issue at all comes up in them.
   */
  lemma {:induction false} KnownExactly(active: Active, finish: Diagnostics.Finish, parse: Diagnostics.Parser)
    ensures EvidenceKnown(active.start, finish, Diagnosed(active, finish, parse))
            <==> && finish.outcome.Exited?
                 && finish.stdout.completeness.Complete? && finish.stderr.completeness.Complete?
                 && (!active.start.natural && active.start.action in {Build, Check, Test, Run, Clippy, Doc} ==>
                       Diagnostics.AllIssues(active.start, active.output, finish, parse) == [])
  {
    hide Diagnostics.Derived, Diagnostics.AllIssues;
    Diagnostics.DecidedExactly(active.start, active.output, finish, parse);
    match Diagnostics.Derived(active.start, active.output, finish, parse).outcome {
      case ExecutionFailed =>
      case Unknown =>
      case CompilerErrors =>
      case NonzeroExit =>
      case Success =>
    }
  }

  // ----- The commands of a stream -----

  /** The command started by an event runs exactly when nothing ran then and no finish came since. */
  lemma {:induction false} RunningExactly(h: seq<Seen>, k: nat, n: nat)
    requires n <= |h|
    ensures RunningAt(h, n) == Some(k)
            <==> && k < n && h[k].event.CommandStarted? && RunningAt(h, k).None?
                 && forall m | k < m < n :: !h[m].event.CommandFinished?
  {
    if n > 0 {
      RunningExactly(h, k, n - 1);
    }
  }

  /** Nothing runs exactly when a finish came after every start. */
  lemma {:induction false} NothingRunsExactly(h: seq<Seen>, n: nat)
    requires n <= |h|
    ensures RunningAt(h, n).None?
            <==> forall k | 0 <= k < n && h[k].event.CommandStarted? :: EndedSince(h, k, n)
  {
    if n > 0 {
      NothingRunsExactly(h, n - 1);
      forall k | 0 <= k < n
        ensures EndedSince(h, k, n)
                <==> EndedSince(h, k, n - 1) || (k < n - 1 && h[n - 1].event.CommandFinished?)
      {
        EndedNext(h, k, n - 1);
      }
      assert h[n - 1].event.CommandStarted? ==> !EndedSince(h, n - 1, n);
    }
  }

  predicate EndedSince(h: seq<Seen>, k: nat, n: nat)
    requires n <= |h|
  {
    exists m | k < m < n :: h[m].event.CommandFinished?
  }

  lemma {:induction false} EndedNext(h: seq<Seen>, k: nat, n: nat)
    requires n < |h|
    ensures EndedSince(h, k, n + 1) <==> EndedSince(h, k, n) || (k < n && h[n].event.CommandFinished?)
  {
    if EndedSince(h, k, n) {
      var m :| k < m < n && h[m].event.CommandFinished?;
    }
  }

  /** A check or a test was started, legacy ones included. */
  predicate BuildStarted(h: seq<Seen>, n: nat)
    requires n <= |h|
  {
    exists i | 0 <= i < n :: StartAt(h, i).Some? && IsCheckTest(StartAt(h, i).value)
  }

  /** The output recorded for a command between its start and another event. */
  function OutputOf(h: seq<Seen>, k: nat, n: nat): seq<Diagnostics.Chunk>
    requires k < n <= |h| && h[k].event.CommandStarted?
  {
    if n == k + 1 then []
    else
      var e := h[n - 1].event;
      OutputOf(h, k, n - 1) + (if e.CommandOutput? && e.chunk.id == h[k].event.start.id then [e.chunk] else [])
  }

  /** The event ends the running command under its identifier. */
  predicate Ends(h: seq<Seen>, i: nat)
    requires i < |h|
  {
    h[i].event.CommandFinished? && FinishedAt(h, i).Some?
  }

  function EndedAction(h: seq<Seen>, i: nat): Action
    requires i < |h| && Ends(h, i)
  {
    h[FinishedAt(h, i).value].event.start.action
  }

  /** The diagnosis of the command an event ends, from its start, its recorded output and its finish. */
  function DiagnosisAt(h: seq<Seen>, i: nat, parse: Diagnostics.Parser): Option<Diagnostics.DiagnosticOutcome>
    requires i < |h| && Ends(h, i)
  {
    var k := FinishedAt(h, i).value;
    Diagnosed(Active(h[k].event.start, OutputOf(h, k, i)), h[i].event.finish, parse)
  }

  predicate KnownAt(h: seq<Seen>, i: nat, parse: Diagnostics.Parser)
    requires i < |h| && Ends(h, i)
  {
    EvidenceKnown(h[FinishedAt(h, i).value].event.start, h[i].event.finish, DiagnosisAt(h, i, parse))
  }

  /** The event completes a check or a test whose evidence is known. */
  predicate Completes(h: seq<Seen>, i: nat, parse: Diagnostics.Parser)
    requires i < |h|
  {
    Ends(h, i) && IsCheckTest(EndedAction(h, i)) && KnownAt(h, i, parse)
  }

  /** It found compiler errors. */
  predicate FoundErrors(h: seq<Seen>, i: nat, parse: Diagnostics.Parser)
    requires i < |h|
  {
    Completes(h, i, parse) && DiagnosisAt(h, i, parse) == Some(Diagnostics.CompilerErrors)
  }

  /** The last complete check or test, with no resumption of the session since. */
  predicate LastComplete(h: seq<Seen>, j: nat, n: nat, parse: Diagnostics.Parser)
    requires n <= |h|
  {
    && j < n && Completes(h, j, parse)
    && forall k | j < k < n :: !Completes(h, k, parse) && !h[k].event.SessionResumed?
  }

  predicate PlacedAt(h: seq<Seen>, i: nat)
    requires i < |h|
  {
    h[i].event.FileEdited? && IsPlaced(h[i].event.transaction, h[i].event.before)
  }

  predicate EditedBetween(h: seq<Seen>, j: nat, n: nat)
    requires n <= |h|
  {
    exists k | j < k < n :: PlacedAt(h, k)
  }

  /** An opportunity for feedback: an edit lies between the last complete check or test and this one. */
  ghost predicate Opportunity(h: seq<Seen>, i: nat, parse: Diagnostics.Parser)
    requires i < |h|
  {
    exists j :: LastComplete(h, j, i, parse) && EditedBetween(h, j, i)
  }

  /** The last complete check or test found compiler errors. */
  ghost predicate AfterErrors(h: seq<Seen>, i: nat, parse: Diagnostics.Parser)
    requires i < |h|
  {
    exists j :: LastComplete(h, j, i, parse) && FoundErrors(h, j, parse)
  }

  /** What one event of a stream adds to a counter. */
  ghost function Amount(q: Quantity, h: seq<Seen>, i: nat, parse: Diagnostics.Parser): nat
    requires i < |h|
  {
    match h[i].event
    case FileEdited(t, before) => EditAmount(q, t, before, !BuildStarted(h, i))
    case InternalPaste(t) => ForwardAmount(q, InternalPasting, InsertedBy(t.edits))
    case CommandFinished(_) =>
      if Completes(h, i, parse)
      then CompleteAmount(q, EndedAction(h, i), DiagnosisAt(h, i, parse), Opportunity(h, i, parse),
                          AfterErrors(h, i, parse))
      else 0
    case _ => 0
  }

  // ----- What makes the rule unavailable -----

  /** The start of the running command, when it is a check or a test. */
  predicate ChecksOrTests(h: seq<Seen>, n: nat)
    requires n <= |h|
  {
    RunningAt(h, n).Some? && IsCheckTest(h[RunningAt(h, n).value].event.start.action)
  }

  /** An edit whose place is not known: a step through the history, or a keyboard edit that is not placed. */
  predicate Unplaced(t: Transaction, before: Option<Text>) {
    Reverses(t.origin) || (t.origin == Keyboard && !IsPlaced(t, before))
  }

  /**
   * An event after which the rule cannot be applied: an edit whose place is not known, a file deleted or renamed,
   * commands that overlap, output or a finish that belongs to another command than the check or test that runs, a
   * finish of nothing, a check or test whose evidence is not known, and a legacy one.
   */
  predicate Spoils(h: seq<Seen>, i: nat, parse: Diagnostics.Parser)
    requires i < |h|
  {
    match h[i].event
    case FileEdited(t, before) => Unplaced(t, before)
    case FileDeleted => true
    case FileRenamed => true
    case CommandStarted(_) => RunningAt(h, i).Some?
    case CommandOutput(chunk) => ChecksOrTests(h, i) && h[RunningAt(h, i).value].event.start.id != chunk.id
    case CommandFinished(_) => RunningAt(h, i).None? || (ChecksOrTests(h, i) && !Completes(h, i, parse))
    case LegacyStarted(_, action) => action.Some? && IsCheckTest(action.value)
    case _ => false
  }

  predicate Spoiled(h: seq<Seen>, n: nat, parse: Diagnostics.Parser)
    requires n <= |h|
  {
    exists i | 0 <= i < n :: Spoils(h, i, parse)
  }

  // ----- Edits, one step -----

  /** A counter that fits still fits. */
  predicate Bounded(count: nat, count': nat) {
    count <= U64_MAX ==> count' <= U64_MAX
  }

  lemma {:induction false} NotedKeeps(s: State, origin: Origin, inserted: nat, s': State)
    requires FactuallyEdited(s, origin, inserted) == Fine(s')
    ensures s' == s.(factual := s'.factual)
  {
  }

  lemma {:induction false} OriginAmounts(group: Group, o: Origins, origin: Origin, inserted: nat, internalPaste: bool,
                                         o': Origins)
    requires !Reverses(origin) && OriginAdded(o, origin, internalPaste, inserted) == Fine(o')
    ensures var added := if internalPaste then InternalPasting else GroupOf(origin);
      FromOf(o', group) == FromOf(o, group) + (if group == added then inserted else 0)
    ensures Bounded(FromOf(o, group), FromOf(o', group))
  {
  }

  lemma {:induction false} ForwardedAmounts(q: Quantity, s: State, origin: Origin, inserted: nat, internalPaste: bool,
                                            s': State)
    requires !Reverses(origin) && Forwarded(s, origin, inserted, internalPaste) == Fine(s')
    ensures s' == s.(values := s'.values)
    ensures ValueOf(q, s'.values)
            == ValueOf(q, s.values)
               + ForwardAmount(q, if internalPaste then InternalPasting else GroupOf(origin), inserted)
    ensures Bounded(ValueOf(q, s.values), ValueOf(q, s'.values))
  {
    hide OriginAdded, FromOf, GroupOf, Reverses;
    if q.FromOrigin? {
      OriginAmounts(q.group, s.values.origins, origin, inserted, internalPaste, s'.values.origins);
    }
  }

  lemma {:induction false} PlacedAmounts(q: Quantity, s: State, typed: State, edit: TextEdit, text: Text, s': State)
    requires RemovedScalars(text, edit).Some?
    requires Typed(s.values, ScalarCount(edit.inserted), edit.inserted != []) == Fine(typed.values)
    requires typed == s.(values := typed.values)
    requires Placed(typed, edit, |text|, RemovedScalars(text, edit).value) == Fine(s')
    ensures s' == s.(values := s'.values, editSinceCommand := true)
    ensures ValueOf(q, s'.values) == ValueOf(q, s.values) + TypedAmount(q, edit, Some(text), !s.checkTestStarted)
    ensures Bounded(ValueOf(q, s.values), ValueOf(q, s'.values))
  {
    hide ScalarCount, RemovedScalars;
  }

  lemma {:induction false} UnplacedAmounts(q: Quantity, s: State, edit: TextEdit, before: Option<Text>, v: Values,
                                           early: bool)
    requires before.Some? ==> RemovedScalars(before.value, edit).None?
    requires Typed(s.values, ScalarCount(edit.inserted), edit.inserted != []) == Fine(v)
    ensures ValueOf(q, v) == ValueOf(q, s.values) + TypedAmount(q, edit, before, early)
    ensures Bounded(ValueOf(q, s.values), ValueOf(q, v))
  {
    hide ScalarCount, RemovedScalars;
  }

  lemma {:induction false} KeyboardAmounts(q: Quantity, s: State, edits: seq<TextEdit>, before: Option<Text>, s': State)
    requires KeyboardEdited(s, edits, before) == Fine(s')
    ensures ValueOf(q, s'.values)
            == ValueOf(q, s.values)
               + (if |edits| == 1 then TypedAmount(q, edits[0], before, !s.checkTestStarted) else 0)
    ensures Bounded(ValueOf(q, s.values), ValueOf(q, s'.values))
    ensures var placed := |edits| == 1 && before.Some? && RemovedScalars(before.value, edits[0]).Some?;
      s' == s.(values := s'.values, editSinceCommand := s.editSinceCommand || placed,
               unavailable := s.unavailable || !placed)
  {
    hide ScalarCount, RemovedScalars, Placed, TypedAmount, ValueOf;
    if |edits| == 1 {
      var edit := edits[0];
      var typed := s.(values := Typed(s.values, ScalarCount(edit.inserted), edit.inserted != []).value);
      if before.Some? && RemovedScalars(before.value, edit).Some? {
        PlacedAmounts(q, s, typed, edit, before.value, s');
      } else {
        UnplacedAmounts(q, s, edit, before, typed.values, !s.checkTestStarted);
      }
    }
  }

  /** The parts of the state that edits change. */
  predicate EditsOnly(s: State, s': State) {
    s'.active == s.active && s'.lastComplete == s.lastComplete && s'.checkTestStarted == s.checkTestStarted
  }

  lemma {:induction false} TransactionAmounts(q: Quantity, s: State, t: Transaction, before: Option<Text>, s': State)
    requires TransactionObserved(s, t, before) == Fine(s')
    ensures ValueOf(q, s'.values) == ValueOf(q, s.values) + EditAmount(q, t, before, !s.checkTestStarted)
    ensures Bounded(ValueOf(q, s.values), ValueOf(q, s'.values))
    ensures EditsOnly(s, s') && s'.editSinceCommand == (s.editSinceCommand || IsPlaced(t, before))
    ensures s'.unavailable == (s.unavailable || Unplaced(t, before))
  {
    hide ScalarCount, RemovedScalars, FactuallyEdited, Forwarded, KeyboardEdited, InsertedScalars, InsertedBy, ValueOf,
      ForwardAmount, TypedAmount;
    var inserted := InsertedScalars(t.edits).value;
    var known := FactuallyEdited(s, t.origin, inserted).value;
    InsertedSum(t.edits);
    NotedKeeps(s, t.origin, inserted, known);
    if !Reverses(t.origin) {
      var forwarded := Forwarded(known, t.origin, inserted, false).value;
      ForwardedAmounts(q, known, t.origin, inserted, false, forwarded);
      if t.origin == Keyboard {
        KeyboardAmounts(q, forwarded, t.edits, before, s');
      }
    }
  }

  lemma {:induction false} PasteAmounts(q: Quantity, s: State, t: Transaction, s': State)
    requires PasteObserved(s, t) == Fine(s')
    ensures ValueOf(q, s'.values) == ValueOf(q, s.values) + ForwardAmount(q, InternalPasting, InsertedBy(t.edits))
    ensures Bounded(ValueOf(q, s.values), ValueOf(q, s'.values))
    ensures s' == s.(values := s'.values, factual := s'.factual)
  {
    hide ScalarCount, Forwarded, InsertedScalars, InsertedBy, ValueOf, ForwardAmount;
    var inserted := InsertedScalars(t.edits).value;
    InsertedSum(t.edits);
    var noted := s.(factual := s.factual.(internalPaste := EditAdded(s.factual.internalPaste, inserted).value));
    ForwardedAmounts(q, noted, Paste, inserted, true, s');
  }

  // ----- Commands, one step -----

  lemma {:induction false} FeedbackAmounts(q: Quantity, s: State, action: Action,
                                           diagnosed: Option<Diagnostics.DiagnosticOutcome>, s': State)
    requires FeedbackObserved(s, action, diagnosed) == Fine(s')
    ensures ValueOf(q, s'.values)
            == ValueOf(q, s.values) + CompleteAmount(q, action, diagnosed, s.lastComplete.Some? && s.editSinceCommand,
                                                     s.lastComplete == Some(true))
    ensures Bounded(ValueOf(q, s.values), ValueOf(q, s'.values))
    ensures s' == s.(values := s'.values, lastComplete := Some(diagnosed == Some(Diagnostics.CompilerErrors)),
                     editSinceCommand := false)
  {
  }

  /** A finish under the identifier of the running command: counted, and as feedback when a known check or test. */
  lemma {:induction false} FinishAmounts(q: Quantity, s: State, finish: Diagnostics.Finish, parse: Diagnostics.Parser,
                                         s': State)
    requires CommandFinishObserved(s, finish, parse) == Fine(s')
    requires s.active.Some? && s.active.value.start.id == finish.id
    ensures var active := s.active.value;
      var action, diagnosed := active.start.action, Diagnosed(active, finish, parse);
      var known, errors := EvidenceKnown(active.start, finish, diagnosed),
          diagnosed == Some(Diagnostics.CompilerErrors);
      && ValueOf(q, s'.values)
         == ValueOf(q, s.values)
            + (if IsCheckTest(action) && known
               then CompleteAmount(q, action, diagnosed, s.lastComplete.Some? && s.editSinceCommand,
                                   s.lastComplete == Some(true))
               else 0)
      && s'.active.None? && s'.checkTestStarted == s.checkTestStarted
      && s'.unavailable == (s.unavailable || (IsCheckTest(action) && !known))
      && s'.lastComplete == (if IsCheckTest(action) && known then Some(errors) else s.lastComplete)
      && s'.editSinceCommand == (s.editSinceCommand && !(IsCheckTest(action) && known))
    ensures Bounded(ValueOf(q, s.values), ValueOf(q, s'.values))
  {
    hide ValueOf, CompleteAmount, Diagnosed, EvidenceKnown, FactsFinished, FeedbackObserved;
    var active := s.active.value;
    var action, diagnosed := active.start.action, Diagnosed(active, finish, parse);
    if IsCheckTest(action) && EvidenceKnown(active.start, finish, diagnosed) {
      var code := if finish.outcome.Exited? then finish.outcome.code else 0;
      var facts := FactsFinished(FactsOf(s.factual, action), true, code, diagnosed == Some(Diagnostics.CompilerErrors));
      FeedbackAmounts(q, WithFacts(s.(active := None), action, facts.value), action, diagnosed, s');
    }
  }

  lemma {:induction false} StrayFinish(s: State, finish: Diagnostics.Finish, parse: Diagnostics.Parser, s': State)
    requires CommandFinishObserved(s, finish, parse) == Fine(s')
    requires s.active.None? || s.active.value.start.id != finish.id
    ensures s' == s.(active := None, unavailable :=
              s.unavailable || s.active.None? || IsCheckTest(s.active.value.start.action))
  {
  }

  lemma {:induction false} LegacyKeeps(s: State, action: Option<Action>, s': State)
    requires LegacyStartObserved(s, action) == Fine(s')
    ensures var builds := action.Some? && IsCheckTest(action.value);
      s' == s.(factual := s'.factual, checkTestStarted := s.checkTestStarted || builds,
               unavailable := s.unavailable || builds)
  {
  }

  lemma {:induction false} StartKeeps(s: State, start: Diagnostics.Start, s': State)
    requires CommandStartObserved(s, start) == Fine(s')
    ensures if s.active.Some? then s' == MarkedUnavailable(s)
            else s' == s.(factual := s'.factual, active := Some(Active(start, [])),
                          checkTestStarted := s.checkTestStarted || IsCheckTest(start.action))
  {
  }

  // ----- What the state means -----

  /** The running command with its output. */
  predicate ActiveMeans(h: seq<Seen>, n: nat, s: State)
    requires n <= |h|
  {
    var k := RunningAt(h, n);
    s.active == if k.None? then None else Some(Active(h[k.value].event.start, OutputOf(h, k.value, n)))
  }

  /** The last complete check or test, and whether an edit came since. */
  ghost predicate FeedbackMeans(h: seq<Seen>, n: nat, parse: Diagnostics.Parser, s: State)
    requires n <= |h|
  {
    && (s.lastComplete.Some? <==> exists j :: LastComplete(h, j, n, parse))
    && (forall j :: LastComplete(h, j, n, parse) ==>
            && s.lastComplete == Some(FoundErrors(h, j, parse))
            && (s.editSinceCommand <==> EditedBetween(h, j, n)))
  }

  ghost predicate StateMeans(h: seq<Seen>, n: nat, parse: Diagnostics.Parser, s: State)
    requires n <= |h|
  {
    && ActiveMeans(h, n, s) && FeedbackMeans(h, n, parse, s)
    && (s.checkTestStarted <==> BuildStarted(h, n)) && (s.unavailable <==> Spoiled(h, n, parse))
  }

  /** An event that is no complete check or test and no resumption leaves the last one; an edit may come since. */
  lemma {:induction false} FeedbackStays(h: seq<Seen>, n: nat, parse: Diagnostics.Parser, s: State, s': State)
    requires n < |h| && FeedbackMeans(h, n, parse, s) && !Completes(h, n, parse) && !h[n].event.SessionResumed?
    requires s'.lastComplete == s.lastComplete && s'.editSinceCommand == (s.editSinceCommand || PlacedAt(h, n))
    ensures FeedbackMeans(h, n + 1, parse, s')
  {
    hide Completes, PlacedAt, FoundErrors, LastComplete, EditedBetween;
    var next := n + 1;
    forall j: nat
      ensures LastComplete(h, j, next, parse) <==> LastComplete(h, j, n, parse)
      ensures LastComplete(h, j, n, parse) ==> (EditedBetween(h, j, next) <==> EditedBetween(h, j, n) || PlacedAt(h, n))
    {
      LastCompleteNext(h, j, n, parse);
      EditedNext(h, j, n);
    }
  }

  lemma {:induction false} LastCompleteNext(h: seq<Seen>, j: nat, n: nat, parse: Diagnostics.Parser)
    requires n < |h| && !Completes(h, n, parse) && !h[n].event.SessionResumed?
    ensures LastComplete(h, j, n + 1, parse) <==> LastComplete(h, j, n, parse)
    ensures LastComplete(h, j, n, parse) ==> j < n
  {
    hide Completes;
  }

  lemma {:induction false} EditedNext(h: seq<Seen>, j: nat, n: nat)
    requires n < |h|
    ensures j < n ==> (EditedBetween(h, j, n + 1) <==> EditedBetween(h, j, n) || PlacedAt(h, n))
  {
    hide PlacedAt;
    if EditedBetween(h, j, n) {
      var k :| j < k < n && PlacedAt(h, k);
    }
  }

  lemma {:induction false} FeedbackCompletes(h: seq<Seen>, n: nat, parse: Diagnostics.Parser, s': State)
    requires n < |h| && Completes(h, n, parse)
    requires s'.lastComplete == Some(FoundErrors(h, n, parse)) && !s'.editSinceCommand
    ensures FeedbackMeans(h, n + 1, parse, s')
  {
    hide PlacedAt, FoundErrors, LastComplete;
    var next := n + 1;
    forall j: nat
      ensures LastComplete(h, j, next, parse) <==> j == n
    {
      CompleteIsLast(h, j, n, parse);
    }
    assert LastComplete(h, n, next, parse);
  }

  lemma {:induction false} FeedbackForgotten(h: seq<Seen>, n: nat, parse: Diagnostics.Parser, s': State)
    requires n < |h| && h[n].event.SessionResumed? && s'.lastComplete.None?
    ensures FeedbackMeans(h, n + 1, parse, s')
  {
    hide FoundErrors, LastComplete;
    var next := n + 1;
    forall j: nat
      ensures !LastComplete(h, j, next, parse)
    {
      ResumptionForgets(h, j, n, parse);
    }
  }

  lemma {:induction false} CompleteIsLast(h: seq<Seen>, j: nat, n: nat, parse: Diagnostics.Parser)
    requires n < |h| && Completes(h, n, parse)
    ensures LastComplete(h, j, n + 1, parse) <==> j == n
  {
    hide Completes;
  }

  lemma {:induction false} ResumptionForgets(h: seq<Seen>, j: nat, n: nat, parse: Diagnostics.Parser)
    requires n < |h| && h[n].event.SessionResumed?
    ensures !LastComplete(h, j, n + 1, parse)
  {
    assert !Completes(h, n, parse);
    hide Completes;
  }

  /** The state says whether there is an opportunity, and whether errors came before. */
  lemma {:induction false} OpportunityMeans(h: seq<Seen>, n: nat, parse: Diagnostics.Parser, s: State)
    requires n < |h| && FeedbackMeans(h, n, parse, s)
    ensures Opportunity(h, n, parse) <==> s.lastComplete.Some? && s.editSinceCommand
    ensures AfterErrors(h, n, parse) <==> s.lastComplete == Some(true)
  {
    hide LastComplete, EditedBetween, FoundErrors;
  }

  lemma {:induction false} SpoiledNext(h: seq<Seen>, n: nat, parse: Diagnostics.Parser)
    requires n < |h|
    ensures Spoiled(h, n + 1, parse) <==> Spoiled(h, n, parse) || Spoils(h, n, parse)
  {
    hide Spoils;
  }

  lemma {:induction false} BuildStartedNext(h: seq<Seen>, n: nat)
    requires n < |h|
    ensures BuildStarted(h, n + 1)
            <==> BuildStarted(h, n) || (StartAt(h, n).Some? && IsCheckTest(StartAt(h, n).value))
  {
    hide StartAt, IsCheckTest;
  }

  /** What one event does to the last complete check or test and to the edits since. */
  predicate FeedbackBy(h: seq<Seen>, n: nat, parse: Diagnostics.Parser, s: State, s': State)
    requires n < |h|
  {
    if Completes(h, n, parse) then s'.lastComplete == Some(FoundErrors(h, n, parse)) && !s'.editSinceCommand
    else if h[n].event.SessionResumed? then s'.lastComplete.None?
    else s'.lastComplete == s.lastComplete && s'.editSinceCommand == (s.editSinceCommand || PlacedAt(h, n))
  }

  lemma {:induction false} FeedbackNext(h: seq<Seen>, n: nat, parse: Diagnostics.Parser, s: State, s': State)
    requires n < |h| && FeedbackMeans(h, n, parse, s) && FeedbackBy(h, n, parse, s, s')
    ensures FeedbackMeans(h, n + 1, parse, s')
  {
    hide FeedbackMeans, Completes, FoundErrors, PlacedAt;
    if Completes(h, n, parse) {
      FeedbackCompletes(h, n, parse, s');
    } else if h[n].event.SessionResumed? {
      FeedbackForgotten(h, n, parse, s');
    } else {
      FeedbackStays(h, n, parse, s, s');
    }
  }

  /** What one step has to do to the state. */
  ghost predicate StepMeans(q: Quantity, h: seq<Seen>, n: nat, parse: Diagnostics.Parser, s: State, s': State)
    requires n < |h|
  {
    && ValueOf(q, s'.values) == ValueOf(q, s.values) + Amount(q, h, n, parse)
    && Bounded(ValueOf(q, s.values), ValueOf(q, s'.values))
    && ActiveMeans(h, n + 1, s') && FeedbackBy(h, n, parse, s, s')
    && s'.checkTestStarted == (s.checkTestStarted || (StartAt(h, n).Some? && IsCheckTest(StartAt(h, n).value)))
    && s'.unavailable == (s.unavailable || Spoils(h, n, parse))
  }

  /** Other events leave the output of the running command. */
  lemma {:induction false} OutputNext(h: seq<Seen>, n: nat)
    requires n < |h| && !h[n].event.CommandOutput?
    ensures RunningAt(h, n).Some? ==> OutputOf(h, RunningAt(h, n).value, n + 1) == OutputOf(h, RunningAt(h, n).value, n)
  {
  }

  lemma {:induction false} EditStep(q: Quantity, h: seq<Seen>, n: nat, parse: Diagnostics.Parser, s: State, s': State)
    requires n < |h| && ActiveMeans(h, n, s) && Observed(s, h[n].event, parse) == Fine(s')
    requires h[n].event.FileEdited? && (s.checkTestStarted <==> BuildStarted(h, n))
    ensures StepMeans(q, h, n, parse, s, s')
  {
    hide FeedbackMeans, BuildStarted, Spoiled, TransactionObserved, EditAmount, ValueOf, Unplaced, IsPlaced, OutputOf;
    TransactionAmounts(q, s, h[n].event.transaction, h[n].event.before, s');
    OutputNext(h, n);
  }

  lemma {:induction false} PasteStep(q: Quantity, h: seq<Seen>, n: nat, parse: Diagnostics.Parser, s: State, s': State)
    requires n < |h| && ActiveMeans(h, n, s) && Observed(s, h[n].event, parse) == Fine(s')
    requires h[n].event.InternalPaste?
    ensures StepMeans(q, h, n, parse, s, s')
  {
    hide FeedbackMeans, BuildStarted, Spoiled, PasteObserved, ForwardAmount, ValueOf, OutputOf;
    PasteAmounts(q, s, h[n].event.transaction, s');
    OutputNext(h, n);
  }

  predicate Quiet(e: Event) {
    e.ExternalObservation? || e.PasteRejected? || e.FileDeleted? || e.FileRenamed? || e.LegacyFinished? || e.Other?
  }

  /** Only edits, pastes and finishes count for anything in the values. */
  lemma {:induction false} NoAmount(q: Quantity, h: seq<Seen>, n: nat, parse: Diagnostics.Parser)
    requires n < |h| && !h[n].event.FileEdited? && !h[n].event.InternalPaste? && !h[n].event.CommandFinished?
    ensures Amount(q, h, n, parse) == 0 && !Completes(h, n, parse) && !PlacedAt(h, n)
  {
  }

  lemma {:induction false} QuietShows(h: seq<Seen>, n: nat, parse: Diagnostics.Parser)
    requires n < |h| && Quiet(h[n].event)
    ensures StartAt(h, n).None? && RunningAt(h, n + 1) == RunningAt(h, n)
    ensures Spoils(h, n, parse) == (h[n].event.FileDeleted? || h[n].event.FileRenamed?)
  {
  }

  lemma {:induction false} QuietObserved(s: State, e: Event, parse: Diagnostics.Parser, s': State)
    requires Quiet(e) && Observed(s, e, parse) == Fine(s')
    ensures s' == s.(factual := s'.factual, unavailable := s.unavailable || e.FileDeleted? || e.FileRenamed?)
  {
  }

  lemma {:induction false} QuietStep(q: Quantity, h: seq<Seen>, n: nat, parse: Diagnostics.Parser, s: State, s': State)
    requires n < |h| && ActiveMeans(h, n, s) && Observed(s, h[n].event, parse) == Fine(s') && Quiet(h[n].event)
    ensures StepMeans(q, h, n, parse, s, s')
  {
    hide FeedbackMeans, BuildStarted, Spoiled, ValueOf, OutputOf, Observed, Amount, Spoils, StartAt, RunningAt,
      Completes, PlacedAt;
    QuietObserved(s, h[n].event, parse, s');
    QuietShows(h, n, parse);
    NoAmount(q, h, n, parse);
    OutputNext(h, n);
  }

  lemma {:induction false} ResumeStep(q: Quantity, h: seq<Seen>, n: nat, parse: Diagnostics.Parser, s: State, s': State)
    requires n < |h| && ActiveMeans(h, n, s) && Observed(s, h[n].event, parse) == Fine(s')
    requires h[n].event.SessionResumed?
    ensures StepMeans(q, h, n, parse, s, s')
  {
    hide FeedbackMeans, BuildStarted, Spoiled, ValueOf, OutputOf, Amount, Completes, PlacedAt;
    NoAmount(q, h, n, parse);
    OutputNext(h, n);
  }

  lemma {:induction false} StartShows(h: seq<Seen>, n: nat, parse: Diagnostics.Parser)
    requires n < |h| && h[n].event.CommandStarted?
    ensures StartAt(h, n) == if RunningAt(h, n).None? then Some(h[n].event.start.action) else None
    ensures RunningAt(h, n + 1) == if RunningAt(h, n).None? then Some(n) else RunningAt(h, n)
    ensures Spoils(h, n, parse) == RunningAt(h, n).Some?
    ensures OutputOf(h, n, n + 1) == []
  {
  }

  lemma {:induction false} StartStep(q: Quantity, h: seq<Seen>, n: nat, parse: Diagnostics.Parser, s: State, s': State)
    requires n < |h| && ActiveMeans(h, n, s) && Observed(s, h[n].event, parse) == Fine(s')
    requires h[n].event.CommandStarted?
    ensures StepMeans(q, h, n, parse, s, s')
  {
    hide FeedbackMeans, BuildStarted, Spoiled, ValueOf, OutputOf, CommandStartObserved, Amount, Spoils, StartAt,
      RunningAt, Completes, PlacedAt, IsCheckTest;
    StartKeeps(s, h[n].event.start, s');
    StartShows(h, n, parse);
    NoAmount(q, h, n, parse);
    OutputNext(h, n);
  }

  lemma {:induction false} OutputShows(h: seq<Seen>, n: nat, parse: Diagnostics.Parser)
    requires n < |h| && h[n].event.CommandOutput?
    ensures StartAt(h, n).None? && RunningAt(h, n + 1) == RunningAt(h, n)
    ensures Spoils(h, n, parse)
            == (ChecksOrTests(h, n) && h[RunningAt(h, n).value].event.start.id != h[n].event.chunk.id)
  {
  }

  lemma {:induction false} OutputKeeps(s: State, chunk: Diagnostics.Chunk, s': State)
    requires CommandOutputObserved(s, chunk) == s'
    ensures var stray := s.active.Some? && s.active.value.start.id != chunk.id;
      s' == s.(active := s'.active,
               unavailable := s.unavailable || (stray && IsCheckTest(s.active.value.start.action)))
    ensures s'.active
            == if s.active.Some? && s.active.value.start.id == chunk.id
               then Some(Active(s.active.value.start, s.active.value.output + [chunk])) else s.active
  {
  }

  lemma {:induction false} OutputStep(q: Quantity, h: seq<Seen>, n: nat, parse: Diagnostics.Parser, s: State, s': State)
    requires n < |h| && ActiveMeans(h, n, s) && Observed(s, h[n].event, parse) == Fine(s')
    requires h[n].event.CommandOutput?
    ensures StepMeans(q, h, n, parse, s, s')
  {
    hide FeedbackMeans, BuildStarted, Spoiled, ValueOf, OutputOf, Amount, Spoils, StartAt, RunningAt, Completes,
      PlacedAt, CommandOutputObserved;
    OutputKeeps(s, h[n].event.chunk, s');
    OutputShows(h, n, parse);
    NoAmount(q, h, n, parse);
    if RunningAt(h, n).Some? {
      OutputAdded(h, RunningAt(h, n).value, n);
    }
  }

  lemma {:induction false} OutputAdded(h: seq<Seen>, k: nat, n: nat)
    requires k < n < |h| && h[k].event.CommandStarted? && h[n].event.CommandOutput?
    ensures var chunk := h[n].event.chunk;
      OutputOf(h, k, n + 1)
      == if chunk.id == h[k].event.start.id then OutputOf(h, k, n) + [chunk] else OutputOf(h, k, n)
  {
  }

  lemma {:induction false} LegacyStep(q: Quantity, h: seq<Seen>, n: nat, parse: Diagnostics.Parser, s: State, s': State)
    requires n < |h| && ActiveMeans(h, n, s) && Observed(s, h[n].event, parse) == Fine(s')
    requires h[n].event.LegacyStarted?
    ensures StepMeans(q, h, n, parse, s, s')
  {
    hide FeedbackMeans, BuildStarted, Spoiled, ValueOf, LegacyStartObserved, OutputOf;
    LegacyKeeps(s, h[n].event.action, s');
    OutputNext(h, n);
  }

  lemma {:induction false} StrayStep(q: Quantity, h: seq<Seen>, n: nat, parse: Diagnostics.Parser, s: State, s': State)
    requires n < |h| && ActiveMeans(h, n, s) && Observed(s, h[n].event, parse) == Fine(s')
    requires h[n].event.CommandFinished? && !Ends(h, n)
    ensures StepMeans(q, h, n, parse, s, s')
  {
    hide FeedbackMeans, BuildStarted, Spoiled, ValueOf, CommandFinishObserved, OutputOf;
    StrayFinish(s, h[n].event.finish, parse, s');
  }

  /** The command that ends, and what the state makes of it. */
  lemma {:induction false} EndedMeans(h: seq<Seen>, n: nat, parse: Diagnostics.Parser, s: State)
    requires n < |h| && ActiveMeans(h, n, s) && Ends(h, n)
    ensures s.active.Some? && s.active.value.start.id == h[n].event.finish.id
    ensures s.active.value.start.action == EndedAction(h, n)
    ensures Diagnosed(s.active.value, h[n].event.finish, parse) == DiagnosisAt(h, n, parse)
    ensures EvidenceKnown(s.active.value.start, h[n].event.finish, DiagnosisAt(h, n, parse)) == KnownAt(h, n, parse)
    ensures ChecksOrTests(h, n) == IsCheckTest(EndedAction(h, n))
  {
    hide OutputOf, Diagnosed, EvidenceKnown;
  }

  lemma {:induction false} FinishStep(q: Quantity, h: seq<Seen>, n: nat, parse: Diagnostics.Parser, s: State, s': State)
    requires n < |h| && ActiveMeans(h, n, s) && Observed(s, h[n].event, parse) == Fine(s')
    requires Ends(h, n) && FeedbackMeans(h, n, parse, s)
    ensures StepMeans(q, h, n, parse, s, s')
  {
    hide FeedbackMeans, BuildStarted, Spoiled, ValueOf, CommandFinishObserved, OutputOf, CompleteAmount, Diagnosed,
      EvidenceKnown, DiagnosisAt, KnownAt, Opportunity, AfterErrors, ChecksOrTests;
    EndedMeans(h, n, parse, s);
    FinishAmounts(q, s, h[n].event.finish, parse, s');
    OpportunityMeans(h, n, parse, s);
    if Completes(h, n, parse) {
      FeedbackCompletes(h, n, parse, s');
    } else {
      }
  }

  lemma {:induction false} Step(q: Quantity, h: seq<Seen>, n: nat, parse: Diagnostics.Parser, s: State, s': State)
    requires n < |h| && StateMeans(h, n, parse, s) && Observed(s, h[n].event, parse) == Fine(s')
    ensures StepMeans(q, h, n, parse, s, s')
  {
    hide ActiveMeans, FeedbackMeans, BuildStarted, Spoiled, StepMeans, Observed, Ends;
    match h[n].event {
      case FileEdited(_, _) => EditStep(q, h, n, parse, s, s');
      case InternalPaste(_) => PasteStep(q, h, n, parse, s, s');
      case SessionResumed => ResumeStep(q, h, n, parse, s, s');
      case CommandStarted(_) => StartStep(q, h, n, parse, s, s');
      case CommandOutput(_) => OutputStep(q, h, n, parse, s, s');
      case LegacyStarted(_, _) => LegacyStep(q, h, n, parse, s, s');
      case CommandFinished(_) =>
        if Ends(h, n) {
          FinishStep(q, h, n, parse, s, s');
        } else {
          StrayStep(q, h, n, parse, s, s');
        }
      case _ => QuietStep(q, h, n, parse, s, s');
    }
  }

  lemma {:induction false} StepsOn(q: Quantity, h: seq<Seen>, n: nat, parse: Diagnostics.Parser, s: State, s': State)
    requires n < |h| && StateMeans(h, n, parse, s) && StepMeans(q, h, n, parse, s, s')
    ensures StateMeans(h, n + 1, parse, s')
  {
    hide FeedbackMeans, FeedbackBy, BuildStarted, Spoiled, ValueOf, Amount, ActiveMeans, Spoils, StartAt;
    FeedbackNext(h, n, parse, s, s');
    SpoiledNext(h, n, parse);
    BuildStartedNext(h, n);
  }

  lemma {:induction false} NothingMeans(q: Quantity, h: seq<Seen>, parse: Diagnostics.Parser, s: State)
    requires s == EMPTY
    ensures StateMeans(h, 0, parse, s) && ValueOf(q, s.values) == 0
  {
  }

  // ----- Every counter -----

  /** The counts of one action. */
  datatype Fact = Begun | Completed | ExitedZero | ExitedNonzero | WithErrors | LeftUnknown

  function FactOf(fact: Fact, f: Facts): nat {
    match fact
    case Begun => f.started
    case Completed => f.complete
    case ExitedZero => f.exitZero
    case ExitedNonzero => f.nonzeroExit
    case WithErrors => f.compilerErrors
    case LeftUnknown => f.unknown
  }

  /** Everything that is counted: for the rule, for each action, and the edits and rejections that are facts. */
  datatype Counter =
    | Value(quantity: Quantity)
    | OfCommands(fact: Fact, action: Action)
    | Occurrences(kind: Kind)
    | Scalars(kind: Kind)

  predicate IsEditKind(kind: Kind) {
    kind == InternalPastes || kind == HistoricalPastes || kind == UnknownEdits
  }

  function EditFactsOf(kind: Kind, f: Factual): EditFacts
    requires IsEditKind(kind)
  {
    match kind
    case InternalPastes => f.internalPaste
    case HistoricalPastes => f.historicalPaste
    case UnknownEdits => f.unknownOrigin
  }

  /** The counters of facts. */
  function NoteIn(x: Counter, f: Factual): nat
    requires x.Occurrences? || x.Scalars?
  {
    match x
    case Occurrences(kind) => if kind == Edits then 0 else CountOf(kind, f)
    case Scalars(kind) => if IsEditKind(kind) then EditFactsOf(kind, f).scalars else 0
  }

  function CountIn(x: Counter, s: State): nat {
    match x
    case Value(q) => ValueOf(q, s.values)
    case OfCommands(fact, a) => FactOf(fact, FactsOf(s.factual, a))
    case Occurrences(_) => NoteIn(x, s.factual)
    case Scalars(_) => NoteIn(x, s.factual)
  }

  /** What the end of a command counts for: complete, by its code and its diagnosis, or unknown. */
  function EndAmount(fact: Fact, known: bool, code: int, errors: bool): nat {
    var counts := match fact
      case Begun => false
      case Completed => known
      case ExitedZero => known && code == 0
      case ExitedNonzero => known && code != 0
      case WithErrors => known && errors
      case LeftUnknown => !known;
    if counts then 1 else 0
  }

  /** What one event counts for in the counts of an action; a legacy start is unknown at once. */
  function CommandAmount(fact: Fact, a: Action, h: seq<Seen>, i: nat, parse: Diagnostics.Parser): nat
    requires i < |h|
  {
    if StartAt(h, i) == Some(a)
    then (if fact == Begun || (fact == LeftUnknown && h[i].event.LegacyStarted?) then 1 else 0)
    else if Ends(h, i) && EndedAction(h, i) == a
    then EndAmount(fact, KnownAt(h, i, parse), CodeOf(h[i].event.finish),
                   DiagnosisAt(h, i, parse) == Some(Diagnostics.CompilerErrors))
    else 0
  }

  function CodeOf(finish: Diagnostics.Finish): int {
    if finish.outcome.Exited? then finish.outcome.code else 0
  }

  function NoteAmount(x: Counter, e: Event): nat
    requires x.Occurrences? || x.Scalars?
  {
    if x.kind == Edits || !IsOf(x.kind, e) then 0
    else if x.Occurrences? then 1
    else if IsEditKind(x.kind) then InsertedBy(e.transaction.edits)
    else 0
  }

  /** What one event of a stream counts for. */
  ghost function Adds(x: Counter, h: seq<Seen>, i: nat, parse: Diagnostics.Parser): nat
    requires i < |h|
  {
    match x
    case Value(q) => Amount(q, h, i, parse)
    case OfCommands(fact, a) => CommandAmount(fact, a, h, i, parse)
    case Occurrences(_) => NoteAmount(x, h[i].event)
    case Scalars(_) => NoteAmount(x, h[i].event)
  }

  ghost function Total(x: Counter, h: seq<Seen>, n: nat, parse: Diagnostics.Parser): nat
    requires n <= |h|
  {
    if n == 0 then 0 else Total(x, h, n - 1, parse) + Adds(x, h, n - 1, parse)
  }

  // ----- Facts, one step -----

  lemma {:induction false} NotedAmounts(x: Counter, s: State, t: Transaction, before: Option<Text>, s': State)
    requires x.Occurrences? || x.Scalars?
    requires FactuallyEdited(s, t.origin, InsertedBy(t.edits)) == Fine(s')
    ensures NoteIn(x, s'.factual) == NoteIn(x, s.factual) + NoteAmount(x, FileEdited(t, before))
    ensures Bounded(NoteIn(x, s.factual), NoteIn(x, s'.factual))
  {
    hide InsertedBy, IsPlaced, PutsIn, Reverses;
    match x.kind {
      case HistoricalPastes =>
      case UnknownEdits =>
      case _ =>
        assert NoteAmount(x, FileEdited(t, before)) == 0;
    }
  }

  lemma {:induction false} EditNotes(x: Counter, s: State, t: Transaction, before: Option<Text>, s': State)
    requires x.Occurrences? || x.Scalars?
    requires TransactionObserved(s, t, before) == Fine(s')
    ensures NoteIn(x, s'.factual) == NoteIn(x, s.factual) + NoteAmount(x, FileEdited(t, before))
    ensures Bounded(NoteIn(x, s.factual), NoteIn(x, s'.factual))
  {
    hide InsertedBy, InsertedScalars, FactuallyEdited, Forwarded, KeyboardEdited, NoteIn, NoteAmount;
    var inserted := InsertedScalars(t.edits).value;
    InsertedSum(t.edits);
    var known := FactuallyEdited(s, t.origin, inserted).value;
    NotedAmounts(x, s, t, before, known);
    if !Reverses(t.origin) {
      var forwarded := Forwarded(known, t.origin, inserted, false).value;
      ForwardedFacts(known, t.origin, inserted, false, forwarded);
      if t.origin == Keyboard {
        KeyboardFacts(forwarded, t.edits, before, s');
      }
    }
  }

  lemma {:induction false} PasteNotes(x: Counter, s: State, t: Transaction, s': State)
    requires x.Occurrences? || x.Scalars?
    requires PasteObserved(s, t) == Fine(s')
    ensures NoteIn(x, s'.factual) == NoteIn(x, s.factual) + NoteAmount(x, InternalPaste(t))
    ensures Bounded(NoteIn(x, s.factual), NoteIn(x, s'.factual))
  {
    hide InsertedBy, InsertedScalars, Forwarded, ScalarCount;
    var inserted := InsertedScalars(t.edits).value;
    InsertedSum(t.edits);
    var noted := s.(factual := s.factual.(internalPaste := EditAdded(s.factual.internalPaste, inserted).value));
    ForwardedFacts(noted, Paste, inserted, true, s');
  }

  /** Events about commands leave the other facts. */
  lemma {:induction false} CommandNotes(s: State, e: Event, parse: Diagnostics.Parser, s': State)
    requires AboutCommands(e) && Observed(s, e, parse) == Fine(s')
    ensures s'.factual == s.factual.(commands := s'.factual.commands)
  {
    if e.CommandFinished? {
      FinishNotes(s, e.finish, parse, s');
    }
  }

  lemma {:induction false} FinishNotes(s: State, finish: Diagnostics.Finish, parse: Diagnostics.Parser, s': State)
    requires CommandFinishObserved(s, finish, parse) == Fine(s')
    ensures s'.factual == s.factual.(commands := s'.factual.commands)
  {
    hide CommandFinishObserved, FactsAfter, FeedbackObserved, Diagnosed;
    FinishSplits(s, finish, parse, s');
    if s.active.Some? && s.active.value.start.id == finish.id {
      var action, diagnosed := s.active.value.start.action, Diagnosed(s.active.value, finish, parse);
      var counted := WithFacts(s.(active := None), action, FactsAfter(s, finish, parse).value);
      if s' != counted && s' != MarkedUnavailable(counted) {
        FeedbackKeeps(counted, action, diagnosed, s');
      }
    }
  }

  lemma {:induction false} NoteStep(x: Counter, s: State, e: Event, parse: Diagnostics.Parser, s': State)
    requires x.Occurrences? || x.Scalars?
    requires Observed(s, e, parse) == Fine(s')
    ensures NoteIn(x, s'.factual) == NoteIn(x, s.factual) + NoteAmount(x, e)
    ensures Bounded(NoteIn(x, s.factual), NoteIn(x, s'.factual))
  {
    hide TransactionObserved, PasteObserved, CommandStartObserved, CommandFinishObserved, CommandOutputObserved,
      LegacyStartObserved, InsertedBy;
    if e.FileEdited? {
      EditNotes(x, s, e.transaction, e.before, s');
    } else if e.InternalPaste? {
      PasteNotes(x, s, e.transaction, s');
    } else if AboutCommands(e) {
      CommandNotes(s, e, parse, s');
    }
  }

  // ----- The counts of an action, one step -----

  lemma {:induction false} FactsFinishedAmounts(fact: Fact, f: Facts, known: bool, code: int, errors: bool, f': Facts)
    requires FactsFinished(f, known, code, errors) == Fine(f')
    ensures FactOf(fact, f') == FactOf(fact, f) + EndAmount(fact, known, code, errors)
    ensures Bounded(FactOf(fact, f), FactOf(fact, f'))
  {
  }

  lemma {:induction false} EndStep(fact: Fact, a: Action, h: seq<Seen>, n: nat, parse: Diagnostics.Parser, s: State,
                                   s': State)
    requires n < |h| && ActiveMeans(h, n, s) && Ends(h, n) && Observed(s, h[n].event, parse) == Fine(s')
    ensures FactOf(fact, FactsOf(s'.factual, a))
            == FactOf(fact, FactsOf(s.factual, a)) + CommandAmount(fact, a, h, n, parse)
    ensures Bounded(FactOf(fact, FactsOf(s.factual, a)), FactOf(fact, FactsOf(s'.factual, a)))
  {
    hide CommandFinishObserved, FactsFinished, EndAmount, FactOf, DiagnosisAt, KnownAt, Diagnosed, EvidenceKnown,
      OutputOf, EndedAction;
    var finish := h[n].event.finish;
    EndedMeans(h, n, parse, s);
    CountedFinish(s, finish, parse, s');
    var active := s.active.value;
    var diagnosed := Diagnosed(active, finish, parse);
    FactsFinishedAmounts(fact, FactsOf(s.factual, active.start.action), EvidenceKnown(active.start, finish, diagnosed),
                         CodeOf(finish), diagnosed == Some(Diagnostics.CompilerErrors),
                         FactsAfter(s, finish, parse).value);
  }

  lemma {:induction false} BeginStep(fact: Fact, a: Action, h: seq<Seen>, n: nat, parse: Diagnostics.Parser, s: State,
                                     s': State)
    requires n < |h| && ActiveMeans(h, n, s) && Observed(s, h[n].event, parse) == Fine(s')
    requires h[n].event.CommandStarted? || h[n].event.LegacyStarted?
    ensures FactOf(fact, FactsOf(s'.factual, a))
            == FactOf(fact, FactsOf(s.factual, a)) + CommandAmount(fact, a, h, n, parse)
    ensures Bounded(FactOf(fact, FactsOf(s.factual, a)), FactOf(fact, FactsOf(s'.factual, a)))
  {
    hide OutputOf, CommandStartObserved, LegacyStartObserved;
    if h[n].event.LegacyStarted? {
      LegacyCounts(fact, a, s, h[n].event.action, s');
    } else {
      StartCounts(fact, a, s, h[n].event.start, s');
    }
  }

  lemma {:induction false} StartCounts(fact: Fact, a: Action, s: State, start: Diagnostics.Start, s': State)
    requires CommandStartObserved(s, start) == Fine(s')
    ensures FactOf(fact, FactsOf(s'.factual, a))
            == FactOf(fact, FactsOf(s.factual, a))
               + (if s.active.None? && start.action == a && fact == Begun then 1 else 0)
    ensures Bounded(FactOf(fact, FactsOf(s.factual, a)), FactOf(fact, FactsOf(s'.factual, a)))
  {
    if s.active.None? {
      StartSplits(s, start, s');
    }
  }

  lemma {:induction false} LegacyCounts(fact: Fact, a: Action, s: State, action: Option<Action>, s': State)
    requires LegacyStartObserved(s, action) == Fine(s')
    ensures FactOf(fact, FactsOf(s'.factual, a))
            == FactOf(fact, FactsOf(s.factual, a))
               + (if action == Some(a) && (fact == Begun || fact == LeftUnknown) then 1 else 0)
    ensures Bounded(FactOf(fact, FactsOf(s.factual, a)), FactOf(fact, FactsOf(s'.factual, a)))
  {
    if action.Some? {
      LegacySplits(s, action.value, s');
    }
  }

  /** Events that neither start nor end a command leave the counts of the actions. */
  lemma {:induction false} FactsStay(h: seq<Seen>, n: nat, parse: Diagnostics.Parser, s: State, s': State)
    requires n < |h| && ActiveMeans(h, n, s) && Observed(s, h[n].event, parse) == Fine(s') && EditsConserved(s.values)
    requires !h[n].event.CommandStarted? && !h[n].event.LegacyStarted? && !Ends(h, n)
    ensures s'.factual.commands == s.factual.commands
  {
    hide OutputOf, TransactionObserved, PasteObserved, CommandFinishObserved, EditsConserved;
    if h[n].event.CommandFinished? {
      StrayFinish(s, h[n].event.finish, parse, s');
    } else if !AboutCommands(h[n].event) {
      OtherEvent(s, h[n].event, parse, s');
    }
  }

  lemma {:induction false} FactStep(fact: Fact, a: Action, h: seq<Seen>, n: nat, parse: Diagnostics.Parser, s: State,
                                    s': State)
    requires n < |h| && ActiveMeans(h, n, s) && Observed(s, h[n].event, parse) == Fine(s') && EditsConserved(s.values)
    ensures FactOf(fact, FactsOf(s'.factual, a))
            == FactOf(fact, FactsOf(s.factual, a)) + CommandAmount(fact, a, h, n, parse)
    ensures Bounded(FactOf(fact, FactsOf(s.factual, a)), FactOf(fact, FactsOf(s'.factual, a)))
  {
    hide ActiveMeans, Observed, Ends, EditsConserved, EndAmount, FactOf;
    if h[n].event.CommandStarted? || h[n].event.LegacyStarted? {
      BeginStep(fact, a, h, n, parse, s, s');
    } else if Ends(h, n) {
      EndStep(fact, a, h, n, parse, s, s');
    } else {
      FactsStay(h, n, parse, s, s');
    }
  }

  /** One event adds to every counter exactly what it counts for. */
  lemma {:induction false} CounterStep(x: Counter, h: seq<Seen>, n: nat, parse: Diagnostics.Parser, s: State, s': State)
    requires n < |h| && StateMeans(h, n, parse, s) && EditsConserved(s.values)
    requires Observed(s, h[n].event, parse) == Fine(s')
    ensures CountIn(x, s') == CountIn(x, s) + Adds(x, h, n, parse) && Bounded(CountIn(x, s), CountIn(x, s'))
    ensures StateMeans(h, n + 1, parse, s')
  {
    hide FeedbackMeans, BuildStarted, Spoiled, ActiveMeans, Observed, EditsConserved, ValueOf, FactOf, NoteIn,
      CommandAmount, NoteAmount, Amount, FactsOf, StepMeans;
    var q := if x.Value? then x.quantity else InsertedKeyboard;
    Step(q, h, n, parse, s, s');
    StepsOn(q, h, n, parse, s, s');
    StepAdds(q, h, n, parse, s, s');
    match x {
      case Value(_) =>
      case OfCommands(fact, a) => FactStep(fact, a, h, n, parse, s, s');
      case _ => NoteStep(x, s, h[n].event, parse, s');
    }
  }

  lemma {:induction false} StepAdds(q: Quantity, h: seq<Seen>, n: nat, parse: Diagnostics.Parser, s: State, s': State)
    requires n < |h| && StepMeans(q, h, n, parse, s, s')
    ensures ValueOf(q, s'.values) == ValueOf(q, s.values) + Amount(q, h, n, parse)
    ensures Bounded(ValueOf(q, s.values), ValueOf(q, s'.values))
  {
  }

  // ----- Every stream -----

  lemma {:induction false} NothingCounted(x: Counter, h: seq<Seen>, parse: Diagnostics.Parser, s: State)
    requires s == EMPTY
    ensures StateMeans(h, 0, parse, s) && CountIn(x, s) == 0
  {
    NothingMeans(if x.Value? then x.quantity else InsertedKeyboard, h, parse, s);
    if x.OfCommands? {
      NoFacts(x.action, s.factual.commands, NO_FACTS);
    }
  }

  /**
   * For every stream that is counted, each counter is exactly the sum of what the single events count for and fits
   * its 64 bits, and the running command, the last complete check or test, the first build and the loss of evidence
   * are those that the stream shows.
   */
  lemma {:induction false} CountsExact(x: Counter, h: seq<Seen>, n: nat, parse: Diagnostics.Parser, s: State)
    requires n <= |h| && ObservedAll(EventsOf(h, n), parse) == Fine(s)
    ensures CountIn(x, s) == Total(x, h, n, parse) <= U64_MAX
    ensures StateMeans(h, n, parse, s)
  {
    hide *;
    if n == 0 {
      NothingTotal(x, h, parse, s);
    } else {
      var before := ObservedLast(h, n, parse, s);
      CountsExact(x, h, n - 1, parse, before);
      EditCountersConserve(EventsOf(h, n - 1), parse, before);
      CounterStep(x, h, n - 1, parse, before, s);
      TotalNext(x, h, n - 1, parse);
      BoundedMeans(CountIn(x, before), CountIn(x, s));
    }
  }

  lemma {:induction false} NothingTotal(x: Counter, h: seq<Seen>, parse: Diagnostics.Parser, s: State)
    requires ObservedAll(EventsOf(h, 0), parse) == Fine(s)
    ensures CountIn(x, s) == Total(x, h, 0, parse) <= U64_MAX && StateMeans(h, 0, parse, s)
  {
    hide CountIn, StateMeans;
    NothingCounted(x, h, parse, s);
  }

  lemma {:induction false} TotalNext(x: Counter, h: seq<Seen>, n: nat, parse: Diagnostics.Parser)
    requires n < |h|
    ensures Total(x, h, n + 1, parse) == Total(x, h, n, parse) + Adds(x, h, n, parse)
  {
    hide Adds;
  }

  lemma {:induction false} BoundedMeans(count: nat, count': nat)
    requires Bounded(count, count') && count <= U64_MAX
    ensures count' <= U64_MAX
  {
  }

  /** The count ends without the rule exactly when some event spoiled it, or a check or a test still runs. */
  lemma {:induction false} UnavailableExactly(h: seq<Seen>, parse: Diagnostics.Parser, s: State, s': State)
    requires ObservedAll(EventsOf(h, |h|), parse) == Fine(s) && Finished(s) == Fine(s')
    ensures s'.unavailable <==> Spoiled(h, |h|, parse) || ChecksOrTests(h, |h|)
  {
    hide Spoiled, FeedbackMeans, BuildStarted, OutputOf;
    CountsExact(Value(InsertedKeyboard), h, |h|, parse, s);
  }

  // ----- Counting gives up only when a counter overflows -----

  lemma {:induction false} InsertedFits(edits: seq<TextEdit>)
    ensures InsertedScalars(edits).Fine? <==> InsertedBy(edits) <= U64_MAX
  {
    if edits != [] {
      InsertedFits(edits[..|edits| - 1]);
      if InsertedScalars(edits[..|edits| - 1]).Fine? {
        InsertedSum(edits[..|edits| - 1]);
      }
    }
  }

  /** The scalars of one edit can be counted. */
  predicate EditCountable(e: Event) {
    e.FileEdited? ==> InsertedBy(e.transaction.edits) <= U64_MAX
  }

  ghost predicate HasRoom(x: Counter, h: seq<Seen>, n: nat, parse: Diagnostics.Parser, s: State)
    requires n < |h|
  {
    CountIn(x, s) + Adds(x, h, n, parse) <= U64_MAX
  }

  ghost predicate RoomForAll(h: seq<Seen>, n: nat, parse: Diagnostics.Parser, s: State)
    requires n < |h|
  {
    forall x: Counter :: HasRoom(x, h, n, parse, s)
  }

  lemma {:induction false} NotedFits(s: State, t: Transaction, before: Option<Text>)
    requires forall x: Counter | x.Occurrences? || x.Scalars? ::
            NoteIn(x, s.factual) + NoteAmount(x, FileEdited(t, before)) <= U64_MAX
    ensures FactuallyEdited(s, t.origin, InsertedBy(t.edits)).Fine?
  {
    hide InsertedBy, RemovedScalars;
    var e := FileEdited(t, before);
    if t.origin == Paste {
      assert NoteIn(Occurrences(HistoricalPastes), s.factual) + NoteAmount(Occurrences(HistoricalPastes), e) <= U64_MAX;
      assert NoteIn(Scalars(HistoricalPastes), s.factual) + NoteAmount(Scalars(HistoricalPastes), e) <= U64_MAX;
    } else if t.origin == Unknown {
      assert NoteIn(Occurrences(UnknownEdits), s.factual) + NoteAmount(Occurrences(UnknownEdits), e) <= U64_MAX;
      assert NoteIn(Scalars(UnknownEdits), s.factual) + NoteAmount(Scalars(UnknownEdits), e) <= U64_MAX;
    }
  }

  lemma {:induction false} ForwardedFits(s: State, origin: Origin, inserted: nat, internalPaste: bool)
    requires !Reverses(origin) && s.values.forwardInserted + inserted <= U64_MAX
    requires FromOf(s.values.origins, if internalPaste then InternalPasting else GroupOf(origin)) + inserted <= U64_MAX
    ensures Forwarded(s, origin, inserted, internalPaste).Fine?
  {
  }

  lemma {:induction false} KeyboardFits(s: State, edits: seq<TextEdit>, before: Option<Text>)
    requires |edits| == 1 ==> forall q: Quantity ::
            ValueOf(q, s.values) + TypedAmount(q, edits[0], before, !s.checkTestStarted) <= U64_MAX
    ensures KeyboardEdited(s, edits, before).Fine?
  {
    hide ScalarCount, RemovedScalars;
    if |edits| == 1 {
      var early := !s.checkTestStarted;
      var v, e := s.values, edits[0];
      assert ValueOf(InsertedKeyboard, v) + TypedAmount(InsertedKeyboard, e, before, early) <= U64_MAX;
      assert ValueOf(KeyboardTransactions, v) + TypedAmount(KeyboardTransactions, e, before, early) <= U64_MAX;
      assert ValueOf(AppendedKeyboard, v) + TypedAmount(AppendedKeyboard, e, before, early) <= U64_MAX;
      assert ValueOf(RemovedKeyboard, v) + TypedAmount(RemovedKeyboard, e, before, early) <= U64_MAX;
      assert ValueOf(BeforeFirstBuild, v) + TypedAmount(BeforeFirstBuild, e, before, early) <= U64_MAX;
    }
  }

  lemma {:induction false} FactsFinishedFits(f: Facts, known: bool, code: int, errors: bool)
    requires forall fact :: FactOf(fact, f) + EndAmount(fact, known, code, errors) <= U64_MAX
    ensures FactsFinished(f, known, code, errors).Fine?
  {
    assert FactOf(Completed, f) + EndAmount(Completed, known, code, errors) <= U64_MAX;
    assert FactOf(ExitedZero, f) + EndAmount(ExitedZero, known, code, errors) <= U64_MAX;
    assert FactOf(ExitedNonzero, f) + EndAmount(ExitedNonzero, known, code, errors) <= U64_MAX;
    assert FactOf(WithErrors, f) + EndAmount(WithErrors, known, code, errors) <= U64_MAX;
    assert FactOf(LeftUnknown, f) + EndAmount(LeftUnknown, known, code, errors) <= U64_MAX;
  }

  lemma {:induction false} FeedbackFits(s: State, action: Action, diagnosed: Option<Diagnostics.DiagnosticOutcome>,
                                        opportunity: bool, rebuild: bool)
    requires opportunity == (s.lastComplete.Some? && s.editSinceCommand) && rebuild == (s.lastComplete == Some(true))
    requires forall q: Quantity ::
            ValueOf(q, s.values) + CompleteAmount(q, action, diagnosed, opportunity, rebuild) <= U64_MAX
    ensures FeedbackObserved(s, action, diagnosed).Fine?
  {
    var v := s.values;
    assert ValueOf(CompleteCommands, v)
           + CompleteAmount(CompleteCommands, action, diagnosed, opportunity, rebuild) <= U64_MAX;
    assert ValueOf(CompilerErrorCommands, v)
           + CompleteAmount(CompilerErrorCommands, action, diagnosed, opportunity, rebuild) <= U64_MAX;
    assert ValueOf(FailedTests, v) + CompleteAmount(FailedTests, action, diagnosed, opportunity, rebuild) <= U64_MAX;
    assert ValueOf(FeedbackOpportunities, v)
           + CompleteAmount(FeedbackOpportunities, action, diagnosed, opportunity, rebuild) <= U64_MAX;
    assert ValueOf(ErrorEditRebuilds, v)
           + CompleteAmount(ErrorEditRebuilds, action, diagnosed, opportunity, rebuild) <= U64_MAX;
  }

  lemma {:induction false} RoomFor(x: Counter, h: seq<Seen>, n: nat, parse: Diagnostics.Parser, s: State)
    requires n < |h| && RoomForAll(h, n, parse, s)
    ensures CountIn(x, s) + Adds(x, h, n, parse) <= U64_MAX
  {
    assert HasRoom(x, h, n, parse, s);
  }

  lemma {:induction false} TransactionFits(s: State, t: Transaction, before: Option<Text>, early: bool)
    requires InsertedBy(t.edits) <= U64_MAX && early == !s.checkTestStarted
    requires forall x: Counter | x.Occurrences? || x.Scalars? ::
            NoteIn(x, s.factual) + NoteAmount(x, FileEdited(t, before)) <= U64_MAX
    requires forall q: Quantity :: ValueOf(q, s.values) + EditAmount(q, t, before, early) <= U64_MAX
    ensures TransactionObserved(s, t, before).Fine?
  {
    hide InsertedBy, InsertedScalars, FactuallyEdited, Forwarded, KeyboardEdited, NoteIn, NoteAmount, GroupOf,
      TypedAmount;
    InsertedFits(t.edits);
    InsertedSum(t.edits);
    var inserted := InsertedBy(t.edits);
    NotedFits(s, t, before);
    var known := FactuallyEdited(s, t.origin, inserted).value;
    NotedKeeps(s, t.origin, inserted, known);
    if !Reverses(t.origin) {
      var group := GroupOf(t.origin);
      assert ValueOf(ForwardInserted, s.values) + EditAmount(ForwardInserted, t, before, early) <= U64_MAX;
      assert ValueOf(FromOrigin(group), s.values) + EditAmount(FromOrigin(group), t, before, early) <= U64_MAX;
      ForwardedFits(known, t.origin, inserted, false);
      if t.origin == Keyboard {
        TypedFits(known, t, before, early);
      }
    }
  }

  lemma {:induction false} TypedFits(s: State, t: Transaction, before: Option<Text>, early: bool)
    requires t.origin == Keyboard && early == !s.checkTestStarted
    requires Forwarded(s, t.origin, InsertedBy(t.edits), false).Fine?
    requires forall q: Quantity :: ValueOf(q, s.values) + EditAmount(q, t, before, early) <= U64_MAX
    ensures KeyboardEdited(Forwarded(s, t.origin, InsertedBy(t.edits), false).value, t.edits, before).Fine?
  {
    hide InsertedBy, Forwarded, KeyboardEdited, TypedAmount, ValueOf, ForwardAmount;
    var forwarded := Forwarded(s, t.origin, InsertedBy(t.edits), false).value;
    forall q: Quantity
      ensures |t.edits| == 1 ==> ValueOf(q, forwarded.values) + TypedAmount(q, t.edits[0], before, early) <= U64_MAX
    {
      assert ValueOf(q, s.values) + EditAmount(q, t, before, early) <= U64_MAX;
      ForwardedAmounts(q, s, t.origin, InsertedBy(t.edits), false, forwarded);
    }
    ForwardedAmounts(InsertedKeyboard, s, t.origin, InsertedBy(t.edits), false, forwarded);
    KeyboardFits(forwarded, t.edits, before);
  }

  lemma {:induction false} EditFits(h: seq<Seen>, n: nat, parse: Diagnostics.Parser, s: State)
    requires n < |h| && StateMeans(h, n, parse, s) && RoomForAll(h, n, parse, s)
    requires h[n].event.FileEdited? && EditCountable(h[n].event)
    ensures Observed(s, h[n].event, parse).Fine?
  {
    hide ActiveMeans, FeedbackMeans, BuildStarted, Spoiled, TransactionObserved, ValueOf, EditAmount, NoteIn,
      NoteAmount, RoomForAll, InsertedBy;
    var t, before := h[n].event.transaction, h[n].event.before;
    forall x: Counter | x.Occurrences? || x.Scalars?
      ensures NoteIn(x, s.factual) + NoteAmount(x, FileEdited(t, before)) <= U64_MAX
    {
      RoomFor(x, h, n, parse, s);
    }
    forall q: Quantity
      ensures ValueOf(q, s.values) + EditAmount(q, t, before, !s.checkTestStarted) <= U64_MAX
    {
      RoomFor(Value(q), h, n, parse, s);
    }
    TransactionFits(s, t, before, !s.checkTestStarted);
  }

  lemma {:induction false} PasteFits(h: seq<Seen>, n: nat, parse: Diagnostics.Parser, s: State)
    requires n < |h| && RoomForAll(h, n, parse, s) && h[n].event.InternalPaste?
    ensures Observed(s, h[n].event, parse).Fine?
  {
    hide RoomForAll, InsertedBy, InsertedScalars, Forwarded;
    var t := h[n].event.transaction;
    RoomFor(Value(ForwardInserted), h, n, parse, s);
    RoomFor(Value(FromOrigin(InternalPasting)), h, n, parse, s);
    RoomFor(Occurrences(InternalPastes), h, n, parse, s);
    RoomFor(Scalars(InternalPastes), h, n, parse, s);
    InsertedFits(t.edits);
    InsertedSum(t.edits);
    var inserted := InsertedBy(t.edits);
    ForwardedFits(s.(factual := s.factual.(internalPaste := EditAdded(s.factual.internalPaste, inserted).value)), Paste,
        inserted, true);
  }

  lemma {:induction false} StartFits(h: seq<Seen>, n: nat, parse: Diagnostics.Parser, s: State)
    requires n < |h| && ActiveMeans(h, n, s) && RoomForAll(h, n, parse, s)
    requires h[n].event.CommandStarted? || h[n].event.LegacyStarted?
    ensures Observed(s, h[n].event, parse).Fine?
  {
    hide RoomForAll, OutputOf;
    if StartAt(h, n).Some? {
      RoomFor(OfCommands(Begun, StartAt(h, n).value), h, n, parse, s);
      RoomFor(OfCommands(LeftUnknown, StartAt(h, n).value), h, n, parse, s);
    }
  }

  lemma {:induction false} EndFits(h: seq<Seen>, n: nat, parse: Diagnostics.Parser, s: State)
    requires n < |h| && StateMeans(h, n, parse, s) && RoomForAll(h, n, parse, s) && Ends(h, n)
    ensures Observed(s, h[n].event, parse).Fine?
  {
    hide FeedbackMeans, BuildStarted, Spoiled, RoomForAll, ValueOf, FactOf, CompleteAmount, EndAmount, DiagnosisAt,
      KnownAt, Diagnosed, EvidenceKnown, OutputOf, Opportunity, AfterErrors, FactsFinished, FeedbackObserved,
      EndedAction;
    var finish, a := h[n].event.finish, EndedAction(h, n);
    EndedMeans(h, n, parse, s);
    OpportunityMeans(h, n, parse, s);
    var diagnosed := DiagnosisAt(h, n, parse);
    var known, errors := KnownAt(h, n, parse), diagnosed == Some(Diagnostics.CompilerErrors);
    forall fact
      ensures FactOf(fact, FactsOf(s.factual, a)) + EndAmount(fact, known, CodeOf(finish), errors) <= U64_MAX
    {
      RoomFor(OfCommands(fact, a), h, n, parse, s);
    }
    FactsFinishedFits(FactsOf(s.factual, a), known, CodeOf(finish), errors);
    if Completes(h, n, parse) {
      forall q: Quantity
        ensures ValueOf(q, s.values)
                + CompleteAmount(q, a, diagnosed, Opportunity(h, n, parse), AfterErrors(h, n, parse)) <= U64_MAX
      {
        RoomFor(Value(q), h, n, parse, s);
      }
      var facts := FactsFinished(FactsOf(s.factual, a), known, CodeOf(finish), errors).value;
      FeedbackFits(WithFacts(s.(active := None), a, facts), a, diagnosed, Opportunity(h, n, parse),
                   AfterErrors(h, n, parse));
    }
  }

  lemma {:induction false} OtherFits(h: seq<Seen>, n: nat, parse: Diagnostics.Parser, s: State)
    requires n < |h| && RoomForAll(h, n, parse, s) && ActiveMeans(h, n, s)
    requires Quiet(h[n].event) || h[n].event.SessionResumed? || h[n].event.CommandOutput?
             || (h[n].event.CommandFinished? && !Ends(h, n))
    ensures Observed(s, h[n].event, parse).Fine?
  {
    hide RoomForAll, OutputOf;
    RoomFor(Occurrences(ExternalChanges), h, n, parse, s);
    RoomFor(Occurrences(RejectedPastes), h, n, parse, s);
  }

  lemma {:induction false} StepFits(h: seq<Seen>, n: nat, parse: Diagnostics.Parser, s: State)
    requires n < |h| && StateMeans(h, n, parse, s) && RoomForAll(h, n, parse, s) && EditCountable(h[n].event)
    ensures Observed(s, h[n].event, parse).Fine?
  {
    hide FeedbackMeans, BuildStarted, Spoiled, ActiveMeans, RoomForAll, Observed, Ends, EditCountable;
    match h[n].event {
      case FileEdited(_, _) => EditFits(h, n, parse, s);
      case InternalPaste(_) => PasteFits(h, n, parse, s);
      case CommandStarted(_) => StartFits(h, n, parse, s);
      case LegacyStarted(_, _) => StartFits(h, n, parse, s);
      case CommandFinished(_) =>
        if Ends(h, n) {
          EndFits(h, n, parse, s);
        } else {
          OtherFits(h, n, parse, s);
        }
      case _ => OtherFits(h, n, parse, s);
    }
  }

  /** Everything that is counted fits 64 bits. */
  ghost predicate AllFit(h: seq<Seen>, n: nat, parse: Diagnostics.Parser)
    requires n <= |h|
  {
    && (forall x: Counter :: Total(x, h, n, parse) <= U64_MAX)
    && (forall i | 0 <= i < n :: EditCountable(h[i].event))
  }

  lemma {:induction false} AllFitBefore(h: seq<Seen>, n: nat, parse: Diagnostics.Parser)
    requires n < |h|
    ensures AllFit(h, n + 1, parse)
            <==> && AllFit(h, n, parse) && EditCountable(h[n].event)
                 && forall x: Counter :: Total(x, h, n, parse) + Adds(x, h, n, parse) <= U64_MAX
  {
    hide Adds, EditCountable;
    var next := n + 1;
    assert forall x: Counter :: Total(x, h, next, parse) == Total(x, h, n, parse) + Adds(x, h, n, parse);
  }

  /** A stream is counted exactly when every sum fits 64 bits. */
  lemma {:induction false} CountedExactly(h: seq<Seen>, n: nat, parse: Diagnostics.Parser)
    requires n <= |h|
    ensures ObservedAll(EventsOf(h, n), parse).Fine? <==> AllFit(h, n, parse)
  {
    hide Adds, EditCountable, AllFit, Observed, StateMeans, CountIn, Total;
    if n == 0 {
      NothingOverflows(h, parse);
    } else {
      CountedExactly(h, n - 1, parse);
      AllFitBefore(h, n - 1, parse);
      if ObservedAll(EventsOf(h, n), parse).Fine? {
        CountedFits(h, n, parse);
      } else if AllFit(h, n, parse) {
        var before := ObservedAll(EventsOf(h, n - 1), parse).value;
        FitsCounted(h, n - 1, parse, before);
        ObservedNext(h, n, parse);
      }
    }
  }

  lemma {:induction false} NothingOverflows(h: seq<Seen>, parse: Diagnostics.Parser)
    ensures ObservedAll(EventsOf(h, 0), parse).Fine? && AllFit(h, 0, parse)
  {
  }

  lemma {:induction false} ObservedNext(h: seq<Seen>, n: nat, parse: Diagnostics.Parser)
    requires 0 < n <= |h| && ObservedAll(EventsOf(h, n - 1), parse).Fine?
    ensures ObservedAll(EventsOf(h, n), parse)
            == Observed(ObservedAll(EventsOf(h, n - 1), parse).value, h[n - 1].event, parse)
  {
    hide Observed;
    assert EventsOf(h, n)[..n - 1] == EventsOf(h, n - 1);
  }

  lemma {:induction false} FitsCounted(h: seq<Seen>, n: nat, parse: Diagnostics.Parser, s: State)
    requires n < |h| && ObservedAll(EventsOf(h, n), parse) == Fine(s) && AllFit(h, n + 1, parse)
    ensures Observed(s, h[n].event, parse).Fine?
  {
    hide Adds, EditCountable, AllFit, Observed, StateMeans, CountIn, Total;
    AllFitBefore(h, n, parse);
    CountsExact(Value(InsertedKeyboard), h, n, parse, s);
    forall x: Counter
      ensures HasRoom(x, h, n, parse, s)
    {
      CountsExact(x, h, n, parse, s);
      assert Total(x, h, n, parse) + Adds(x, h, n, parse) <= U64_MAX;
    }
    StepFits(h, n, parse, s);
  }

  lemma {:induction false} CountedFits(h: seq<Seen>, n: nat, parse: Diagnostics.Parser)
    requires n <= |h| && ObservedAll(EventsOf(h, n), parse).Fine?
    ensures AllFit(h, n, parse)
  {
    hide Adds, EditCountable, Observed, StateMeans, CountIn, Total;
    var s := ObservedAll(EventsOf(h, n), parse).value;
    forall x: Counter
      ensures Total(x, h, n, parse) <= U64_MAX
    {
      CountsExact(x, h, n, parse, s);
    }
    EditsCounted(h, n, parse, s);
  }

  lemma {:induction false} EditsCounted(h: seq<Seen>, n: nat, parse: Diagnostics.Parser, s: State)
    requires n <= |h| && ObservedAll(EventsOf(h, n), parse) == Fine(s)
    ensures forall i | 0 <= i < n :: EditCountable(h[i].event)
  {
    hide TransactionObserved, InsertedBy;
    if n > 0 {
      var before := ObservedLast(h, n, parse, s);
      EditsCounted(h, n - 1, parse, before);
      var e := h[n - 1].event;
      if e.FileEdited? {
        EditWasCountable(before, e.transaction, e.before);
      }
    }
  }

  lemma {:induction false} EditWasCountable(s: State, t: Transaction, before: Option<Text>)
    requires TransactionObserved(s, t, before).Fine?
    ensures InsertedBy(t.edits) <= U64_MAX
  {
    hide InsertedBy, InsertedScalars;
    InsertedFits(t.edits);
  }
}
