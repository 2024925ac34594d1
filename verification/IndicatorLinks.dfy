/** The events that the indicators of an attempt point at (src/process_indicators.rs). */
module IndicatorLinks {
  import opened CargoActions
  import opened Common
  import Diagnostics = CommandDiagnostics
  import opened Editing
  import opened ProcessIndicators

  const MAX_RETAINED_INDICATOR_LINKS := 256

  datatype Link = Link(segment: nat, session: string, sequence: nat)

  /** The start of a command and, once it is known, its finish. */
  datatype CommandLink = CommandLink(start: Link, finish: Option<Link>)

  /** Where the link of a command was retained. */
  datatype Slot = Slot(action: Action, index: nat)

  datatype Running = Running(id: nat, start: Link, slot: Option<Slot>)

  type Paired = map<Action, seq<CommandLink>>

  /** The links of the factual indicators. */
  datatype FactualLinks = FactualLinks(
    internalPaste: seq<Link>,
    historicalPaste: seq<Link>,
    unknownOrigin: seq<Link>,
    externalChange: seq<Link>,
    rejectedPaste: seq<Link>,
    paired: Paired)

  /** All links of an attempt, the running command, and the legacy commands that did not finish yet. */
  datatype Links = Links(
    factual: FactualLinks,
    edits: seq<Link>,
    commands: seq<Link>,
    running: Option<Running>,
    legacy: map<nat, Option<Slot>>)

  const NO_FACTUAL_LINKS := FactualLinks([], [], [], [], [], map[])

  const NO_LINKS := Links(NO_FACTUAL_LINKS, [], [], None, map[])

  // ----- Bounded lists -----

  function Retained<T>(target: seq<T>, item: T): seq<T> {
    if |target| < MAX_RETAINED_INDICATOR_LINKS then target + [item] else target
  }

  function RetainedUnique(target: seq<Link>, link: Link): seq<Link> {
    if |target| < MAX_RETAINED_INDICATOR_LINKS && link !in target then target + [link] else target
  }

  function Extended<T>(target: seq<T>, source: seq<T>): seq<T> {
    target + source[..Min(SaturatingSub(MAX_RETAINED_INDICATOR_LINKS, |target|), |source|)]
  }

  /** What is kept of a list without a bound. */
  function First<T>(all: seq<T>): (r: seq<T>)
    ensures |r| == Min(|all|, MAX_RETAINED_INDICATOR_LINKS) && r <= all
  {
    all[..Min(|all|, MAX_RETAINED_INDICATOR_LINKS)]
  }

  /** Retaining items one after another keeps the first of them. */
  lemma {:induction false} RetainedFirst<T>(all: seq<T>, item: T)
    ensures Retained(First(all), item) == First(all + [item])
  {
  }

  /** Extending by a bounded list keeps the first of both. */
  lemma {:induction false} ExtendedFirst<T>(target: seq<T>, source: seq<T>)
    ensures Extended(First(target), First(source)) == First(target + source)
  {
  }

  lemma {:induction false} UpdatedFirst<T>(all: seq<T>, k: nat, item: T)
    requires k < |all|
    ensures First(all[k := item])
            == if k < MAX_RETAINED_INDICATOR_LINKS then First(all)[k := item] else First(all)
  {
  }

  // ----- One event -----

  function PairedOf(paired: Paired, a: Action): seq<CommandLink> {
    if a in paired then paired[a] else []
  }

  /** Where the next command of an action is linked, if it still is. */
  function NextSlot(paired: Paired, a: Action): Option<Slot> {
    if |PairedOf(paired, a)| < MAX_RETAINED_INDICATOR_LINKS then Some(Slot(a, |PairedOf(paired, a)|)) else None
  }

  function Opened(paired: Paired, a: Action, start: Link): Paired {
    paired[a := Retained(PairedOf(paired, a), CommandLink(start, None))]
  }

  function Closed(paired: Paired, slot: Option<Slot>, finish: Link): Paired {
    match slot
    case None => paired
    case Some(Slot(a, k)) =>
      var links := PairedOf(paired, a);
      if k < |links| then paired[a := links[k := links[k].(finish := Some(finish))]] else paired
  }

  predicate PutsIn(t: Transaction) {
    InsertedScalars(t.edits).Fine? && InsertedScalars(t.edits).value > 0
  }

  /** A keyboard edit of one range whose range is known to be one of the text. */
  predicate IsPlaced(t: Transaction, before: Option<Text>) {
    t.origin == Keyboard && |t.edits| == 1 && before.Some? && RemovedScalars(before.value, t.edits[0]).Some?
  }

  function EditNoted(f: FactualLinks, origin: Origin, link: Link): FactualLinks {
    if origin == Paste then f.(historicalPaste := Retained(f.historicalPaste, link))
    else if origin == Unknown then f.(unknownOrigin := Retained(f.unknownOrigin, link))
    else f
  }

  function EditLinked(l: Links, t: Transaction, before: Option<Text>, link: Link): Links {
    var noted := l.(factual := EditNoted(l.factual, t.origin, link));
    if Reverses(t.origin) then noted
    else
      var put := if PutsIn(t) then RetainedUnique(l.edits, link) else l.edits;
      noted.(edits := if IsPlaced(t, before) then RetainedUnique(put, link) else put)
  }

  function PasteLinked(l: Links, t: Transaction, link: Link): Links {
    l.(factual := l.factual.(internalPaste := Retained(l.factual.internalPaste, link)),
       edits := if PutsIn(t) then RetainedUnique(l.edits, link) else l.edits)
  }

  function StartLinked(l: Links, id: nat, a: Action, link: Link): Links {
    if l.running.Some? then l
    else l.(factual := l.factual.(paired := Opened(l.factual.paired, a, link)),
            running := Some(Running(id, link, NextSlot(l.factual.paired, a))))
  }

  function FinishLinked(l: Links, id: nat, link: Link): Links {
    match l.running
    case None => l
    case Some(running) =>
      var taken := l.(running := None);
      if running.id != id then taken
      else taken.(factual := l.factual.(paired := Closed(l.factual.paired, running.slot, link)),
                  commands := Retained(Retained(l.commands, running.start), link))
  }

  function LegacyStartLinked(l: Links, id: nat, action: Option<Action>, link: Link): Links {
    match action
    case None => l
    case Some(a) =>
      l.(factual := l.factual.(paired := Opened(l.factual.paired, a, link)),
         legacy := l.legacy[id := NextSlot(l.factual.paired, a)])
  }

  function LegacyFinishLinked(l: Links, id: nat, link: Link): Links {
    if id !in l.legacy then l
    else l.(factual := l.factual.(paired := Closed(l.factual.paired, l.legacy[id], link)),
            legacy := l.legacy - {id})
  }

  /** What one event does to the links. */
  function Linked(l: Links, e: Event, link: Link): Links {
    match e
    case FileEdited(t, before) => EditLinked(l, t, before, link)
    case InternalPaste(t) => PasteLinked(l, t, link)
    case ExternalObservation =>
      l.(factual := l.factual.(externalChange := Retained(l.factual.externalChange, link)))
    case PasteRejected => l.(factual := l.factual.(rejectedPaste := Retained(l.factual.rejectedPaste, link)))
    case CommandStarted(start) => StartLinked(l, start.id, start.action, link)
    case CommandFinished(finish) => FinishLinked(l, finish.id, link)
    case LegacyStarted(id, action) => LegacyStartLinked(l, id, action, link)
    case LegacyFinished(id) => LegacyFinishLinked(l, id, link)
    case _ => l
  }

  // ----- Whole streams -----

  datatype Seen = Seen(event: Event, link: Link)

  /** The links after the first `n` events. */
  function LinkedAll(h: seq<Seen>, n: nat): Links
    requires n <= |h|
  {
    if n == 0 then NO_LINKS else Linked(LinkedAll(h, n - 1), h[n - 1].event, h[n - 1].link)
  }

  /** The lists that take one link of each event of a kind. */
  datatype Kind = InternalPastes | HistoricalPastes | UnknownEdits | ExternalChanges | RejectedPastes | Edits

  /** An event that puts text in, or a keyboard edit that is counted. */
  predicate Contributes(e: Event) {
    || (e.InternalPaste? && PutsIn(e.transaction))
    || (e.FileEdited? && !Reverses(e.transaction.origin)
        && (PutsIn(e.transaction) || IsPlaced(e.transaction, e.before)))
  }

  predicate IsOf(kind: Kind, e: Event) {
    match kind
    case InternalPastes => e.InternalPaste?
    case HistoricalPastes => e.FileEdited? && e.transaction.origin == Paste
    case UnknownEdits => e.FileEdited? && e.transaction.origin == Unknown
    case ExternalChanges => e.ExternalObservation?
    case RejectedPastes => e.PasteRejected?
    case Edits => Contributes(e)
  }

  function FactualListOf(kind: Kind, f: FactualLinks): seq<Link>
    requires kind != Edits
  {
    match kind
    case InternalPastes => f.internalPaste
    case HistoricalPastes => f.historicalPaste
    case UnknownEdits => f.unknownOrigin
    case ExternalChanges => f.externalChange
    case RejectedPastes => f.rejectedPaste
  }

  function ListOf(kind: Kind, l: Links): seq<Link> {
    if kind == Edits then l.edits else FactualListOf(kind, l.factual)
  }

  /** The links of all events of a kind among the first `n`, in order. */
  function LinksOf(kind: Kind, h: seq<Seen>, n: nat): seq<Link>
    requires n <= |h|
  {
    if n == 0 then []
    else LinksOf(kind, h, n - 1) + (if IsOf(kind, h[n - 1].event) then [h[n - 1].link] else [])
  }

  /** No two events have the same link. */
  predicate Distinct(h: seq<Seen>) {
    forall i, j | 0 <= i < j < |h| :: h[i].link != h[j].link
  }

  lemma {:induction false} LinksOfEarlier(kind: Kind, h: seq<Seen>, n: nat, link: Link)
    requires n <= |h| && link in LinksOf(kind, h, n)
    ensures exists i | 0 <= i < n :: h[i].link == link
  {
    if link in LinksOf(kind, h, n - 1) {
      LinksOfEarlier(kind, h, n - 1, link);
    }
  }

  /** A link that the list does not hold yet is retained once, however often it is offered. */
  lemma {:induction false} RetainedOnce(all: seq<Link>, link: Link)
    requires link !in all
    ensures RetainedUnique(First(all), link) == First(all + [link])
    ensures RetainedUnique(RetainedUnique(First(all), link), link) == First(all + [link])
  {
    RetainedFirst(all, link);
    assert link !in First(all);
  }

  lemma {:induction false} ListStep(kind: Kind, l: Links, e: Event, link: Link, all: seq<Link>)
    requires ListOf(kind, l) == First(all) && (kind == Edits ==> link !in all)
    ensures ListOf(kind, Linked(l, e, link)) == First(if IsOf(kind, e) then all + [link] else all)
  {
    if kind == Edits {
      EditsStep(l, e, link, all);
    } else {
      RetainedFirst(all, link);
    }
  }

  lemma {:induction false} EditsStep(l: Links, e: Event, link: Link, all: seq<Link>)
    requires l.edits == First(all) && link !in all
    ensures Linked(l, e, link).edits == First(if Contributes(e) then all + [link] else all)
  {
    RetainedOnce(all, link);
  }

  /**
   * For every stream each list holds exactly the links of the first 256 events of its kind, in order. An event that
   * contributes to the edits twice is linked there once, as events have links of their own.
   */
  lemma {:induction false} ListsExact(kind: Kind, h: seq<Seen>, n: nat)
    requires n <= |h| && (kind == Edits ==> Distinct(h))
    ensures ListOf(kind, LinkedAll(h, n)) == First(LinksOf(kind, h, n))
  {
    if n > 0 {
      ListsExact(kind, h, n - 1);
      var all, link := LinksOf(kind, h, n - 1), h[n - 1].link;
      if kind == Edits && link in all {
        LinksOfEarlier(kind, h, n - 1, link);
      }
      ListStep(kind, LinkedAll(h, n - 1), h[n - 1].event, link, all);
      assert all + [] == all;
    }
  }

  // ----- Commands and their finishes -----

  /** The start of the command that is running after the first `n` events. */
  function RunningAt(h: seq<Seen>, n: nat): (r: Option<nat>)
    requires n <= |h|
    ensures r.Some? ==> r.value < n && h[r.value].event.CommandStarted? && RunningAt(h, r.value).None?
    decreases n
  {
    if n == 0 then None
    else match h[n - 1].event
      case CommandStarted(_) => if RunningAt(h, n - 1).Some? then RunningAt(h, n - 1) else Some(n - 1)
      case CommandFinished(_) => None
      case _ => RunningAt(h, n - 1)
  }

  /** The last start of a legacy command under this identifier, if it did not finish since. */
  function LegacyAt(h: seq<Seen>, n: nat, id: nat): (r: Option<nat>)
    requires n <= |h|
    ensures r.Some? ==> r.value < n && h[r.value].event.LegacyStarted?
    ensures r.Some? ==> h[r.value].event.id == id && h[r.value].event.action.Some?
  {
    if n == 0 then None
    else match h[n - 1].event
      case LegacyStarted(other, Some(_)) => if other == id then Some(n - 1) else LegacyAt(h, n - 1, id)
      case LegacyFinished(other) => if other == id then None else LegacyAt(h, n - 1, id)
      case _ => LegacyAt(h, n - 1, id)
  }

  /** The action of the command an event starts; a start while another command runs does not count. */
  function StartAt(h: seq<Seen>, i: nat): Option<Action>
    requires i < |h|
  {
    match h[i].event
    case CommandStarted(start) => if RunningAt(h, i).None? then Some(start.action) else None
    case LegacyStarted(_, action) => action
    case _ => None
  }

  /** The start of the command an event finishes: the running one, or the legacy one, of the same identifier. */
  function FinishedAt(h: seq<Seen>, i: nat): (r: Option<nat>)
    requires i < |h|
    ensures r.Some? ==> r.value < i && StartAt(h, r.value).Some?
  {
    match h[i].event
    case CommandFinished(finish) =>
      var k := RunningAt(h, i);
      if k.Some? && h[k.value].event.start.id == finish.id then k else None
    case LegacyFinished(id) => LegacyAt(h, i, id)
    case _ => None
  }

  /** The finish, among the first `n` events, of the command started at `k`. */
  function FinishOf(h: seq<Seen>, k: nat, n: nat): Option<Link>
    requires n <= |h|
  {
    if n == 0 then None
    else if FinishedAt(h, n - 1) == Some(k) then Some(h[n - 1].link)
    else FinishOf(h, k, n - 1)
  }

  /** The starts of an action's commands among the first `n` events. */
  function Starts(h: seq<Seen>, a: Action, n: nat): (r: seq<nat>)
    requires n <= |h|
    ensures forall j | 0 <= j < |r| :: r[j] < n && StartAt(h, r[j]) == Some(a)
  {
    if n == 0 then []
    else Starts(h, a, n - 1) + (if StartAt(h, n - 1) == Some(a) then [n - 1] else [])
  }

  /** These starts, each with its finish among the first `n` events. */
  function PairsOf(h: seq<Seen>, starts: seq<nat>, n: nat): seq<CommandLink>
    requires n <= |h| && forall j | 0 <= j < |starts| :: starts[j] < |h|
  {
    seq(|starts|, j requires 0 <= j < |starts| => CommandLink(h[starts[j]].link, FinishOf(h, starts[j], n)))
  }

  /** Where the link of a command is kept: at its place among the commands of its action, up to the bound. */
  function SlotOf(h: seq<Seen>, k: nat): Option<Slot>
    requires k < |h| && StartAt(h, k).Some?
  {
    var a := StartAt(h, k).value;
    if |Starts(h, a, k)| < MAX_RETAINED_INDICATOR_LINKS then Some(Slot(a, |Starts(h, a, k)|)) else None
  }

  lemma {:induction false} NotFinishedYet(h: seq<Seen>, k: nat, n: nat)
    requires n <= |h| && n <= k + 1
    ensures FinishOf(h, k, n) == None
  {
    if n > 0 {
      NotFinishedYet(h, k, n - 1);
    }
  }

  /** A start stands at its place among the starts of its action, and nowhere else. */
  lemma {:induction false} StartPlaced(h: seq<Seen>, a: Action, k: nat, n: nat)
    requires k < n <= |h| && StartAt(h, k) == Some(a)
    ensures var starts, p := Starts(h, a, n), |Starts(h, a, k)|;
      && p < |starts| && starts[p] == k && forall j | 0 <= j < |starts| && starts[j] == k :: j == p
  {
    if k == n - 1 {
      assert forall j | 0 <= j < |Starts(h, a, k)| :: Starts(h, a, k)[j] in Starts(h, a, k);
    } else {
      StartPlaced(h, a, k, n - 1);
    }
  }

  /** What the links say of the commands after the first `n` events. */
  ghost predicate PairedMeans(h: seq<Seen>, n: nat, paired: Paired, a: Action)
    requires n <= |h|
  {
    PairedOf(paired, a) == First(PairsOf(h, Starts(h, a, n), n))
  }

  ghost predicate RunningMeans(h: seq<Seen>, n: nat, running: Option<Running>)
    requires n <= |h|
  {
    running == match RunningAt(h, n)
               case None => None
               case Some(k) => Some(Running(h[k].event.start.id, h[k].link, SlotOf(h, k)))
  }

  ghost predicate LegacyMeans(h: seq<Seen>, n: nat, legacy: map<nat, Option<Slot>>, id: nat)
    requires n <= |h|
  {
    && (id in legacy <==> LegacyAt(h, n, id).Some?)
    && (id in legacy ==> legacy[id] == SlotOf(h, LegacyAt(h, n, id).value))
  }

  /** The next slot is the one of a command that starts now. */
  lemma {:induction false} NextSlotMeans(h: seq<Seen>, n: nat, paired: Paired, a: Action)
    requires n < |h| && StartAt(h, n) == Some(a) && PairedMeans(h, n, paired, a)
    ensures NextSlot(paired, a) == SlotOf(h, n)
  {
  }

  /** An event that finishes nothing changes no pair. */
  lemma {:induction false} PairsStay(h: seq<Seen>, starts: seq<nat>, n: nat)
    requires n < |h| && FinishedAt(h, n).None? && forall j | 0 <= j < |starts| :: starts[j] < |h|
    ensures PairsOf(h, starts, n + 1) == PairsOf(h, starts, n)
  {
  }

  lemma {:induction false} PairsOpen(h: seq<Seen>, starts: seq<nat>, n: nat)
    requires n < |h| && FinishedAt(h, n).None? && forall j | 0 <= j < |starts| :: starts[j] < |h|
    ensures PairsOf(h, starts + [n], n + 1) == PairsOf(h, starts, n) + [CommandLink(h[n].link, None)]
  {
    PairsStay(h, starts, n);
    NotFinishedYet(h, n, n + 1);
  }

  lemma {:induction false} OpenedOf(paired: Paired, b: Action, start: Link, a: Action)
    ensures PairedOf(Opened(paired, b, start), a)
            == if a == b then Retained(PairedOf(paired, a), CommandLink(start, None)) else PairedOf(paired, a)
  {
  }

  lemma {:induction false} OpenedMeans(h: seq<Seen>, n: nat, paired: Paired, a: Action, b: Action)
    requires n < |h| && StartAt(h, n) == Some(b) && PairedMeans(h, n, paired, a)
    ensures PairedMeans(h, n + 1, Opened(paired, b, h[n].link), a)
  {
    var starts, next := Starts(h, a, n), Starts(h, a, n + 1);
    OpenedOf(paired, b, h[n].link, a);
    assert FinishedAt(h, n).None?;
    if a == b {
      PairsOpen(h, starts, n);
      RetainedFirst(PairsOf(h, starts, n), CommandLink(h[n].link, None));
    } else {
      assert next == starts;
      PairsStay(h, starts, n);
    }
  }

  /** A finish is entered at the place of its start, and changes no other pair. */
  lemma {:induction false} PairsClose(h: seq<Seen>, a: Action, n: nat, k: nat)
    requires n < |h| && FinishedAt(h, n) == Some(k)
    ensures Starts(h, a, n + 1) == Starts(h, a, n)
    ensures var pairs, p := PairsOf(h, Starts(h, a, n), n), |Starts(h, StartAt(h, k).value, k)|;
      PairsOf(h, Starts(h, a, n), n + 1)
      == if StartAt(h, k) == Some(a) && p < |pairs| then pairs[p := pairs[p].(finish := Some(h[n].link))] else pairs
    ensures StartAt(h, k) == Some(a) ==> |Starts(h, a, k)| < |Starts(h, a, n)|
  {
    var starts := Starts(h, a, n);
    assert StartAt(h, n).None?;
    if StartAt(h, k) == Some(a) {
      StartPlaced(h, a, k, n);
    } else {
      assert k !in starts;
    }
  }

  lemma {:induction false} ClosedOf(paired: Paired, b: Action, p: nat, finish: Link, a: Action)
    requires p < |PairedOf(paired, b)|
    ensures PairedOf(Closed(paired, Some(Slot(b, p)), finish), a)
            == if a == b then PairedOf(paired, a)[p := PairedOf(paired, a)[p].(finish := Some(finish))]
               else PairedOf(paired, a)
  {
  }

  /** The list of the finished command. */
  lemma {:induction false} ClosedSame(h: seq<Seen>, n: nat, paired: Paired, a: Action, k: nat)
    requires n < |h| && FinishedAt(h, n) == Some(k) && StartAt(h, k) == Some(a) && PairedMeans(h, n, paired, a)
    ensures PairedMeans(h, n + 1, Closed(paired, SlotOf(h, k), h[n].link), a)
  {
    var pairs, p, link := PairsOf(h, Starts(h, a, n), n), |Starts(h, a, k)|, h[n].link;
    PairsClose(h, a, n, k);
    UpdatedFirst(pairs, p, pairs[p].(finish := Some(link)));
    if p < MAX_RETAINED_INDICATOR_LINKS {
      ClosedOf(paired, a, p, link, a);
    }
  }

  /** The lists of other actions. */
  lemma {:induction false} ClosedOther(h: seq<Seen>, n: nat, paired: Paired, a: Action, k: nat, b: Action)
    requires n < |h| && FinishedAt(h, n) == Some(k) && StartAt(h, k) == Some(b) && a != b
    requires PairedMeans(h, n, paired, a) && PairedMeans(h, n, paired, b)
    ensures PairedMeans(h, n + 1, Closed(paired, SlotOf(h, k), h[n].link), a)
  {
    PairsClose(h, a, n, k);
    PairsClose(h, b, n, k);
    if |Starts(h, b, k)| < MAX_RETAINED_INDICATOR_LINKS {
      ClosedOf(paired, b, |Starts(h, b, k)|, h[n].link, a);
    }
  }

  lemma {:induction false} ClosedMeans(h: seq<Seen>, n: nat, paired: Paired, a: Action, k: nat)
    requires n < |h| && FinishedAt(h, n) == Some(k) && PairedMeans(h, n, paired, a)
    requires PairedMeans(h, n, paired, StartAt(h, k).value)
    ensures PairedMeans(h, n + 1, Closed(paired, SlotOf(h, k), h[n].link), a)
  {
    var b := StartAt(h, k).value;
    if a == b {
      ClosedSame(h, n, paired, a, k);
    } else {
      ClosedOther(h, n, paired, a, k, b);
    }
  }

  lemma {:induction false} QuietMeans(h: seq<Seen>, n: nat, paired: Paired, a: Action)
    requires n < |h| && FinishedAt(h, n).None? && StartAt(h, n).None? && PairedMeans(h, n, paired, a)
    ensures PairedMeans(h, n + 1, paired, a)
  {
    assert Starts(h, a, n + 1) == Starts(h, a, n);
    PairsStay(h, Starts(h, a, n), n);
  }

  ghost predicate CommandsMean(h: seq<Seen>, n: nat, l: Links)
    requires n <= |h|
  {
    && (forall a :: PairedMeans(h, n, l.factual.paired, a))
    && RunningMeans(h, n, l.running)
    && (forall id :: LegacyMeans(h, n, l.legacy, id))
  }

  /** The pairs change when a command starts or finishes, and not otherwise. */
  lemma {:induction false} PairedStep(h: seq<Seen>, n: nat, l: Links)
    requires n < |h| && CommandsMean(h, n, l)
    ensures var paired, link := l.factual.paired, h[n].link;
      Linked(l, h[n].event, link).factual.paired
      == if StartAt(h, n).Some? then Opened(paired, StartAt(h, n).value, link)
         else if FinishedAt(h, n).Some? then Closed(paired, SlotOf(h, FinishedAt(h, n).value), link)
         else paired
  {
    if h[n].event.LegacyFinished? {
      assert LegacyMeans(h, n, l.legacy, h[n].event.id);
    }
  }

  lemma {:induction false} RunningStep(h: seq<Seen>, n: nat, l: Links)
    requires n < |h| && CommandsMean(h, n, l)
    ensures RunningMeans(h, n + 1, Linked(l, h[n].event, h[n].link).running)
  {
    if h[n].event.CommandStarted? && RunningAt(h, n).None? {
      NextSlotMeans(h, n, l.factual.paired, h[n].event.start.action);
    }
  }

  lemma {:induction false} LegacyStep(h: seq<Seen>, n: nat, l: Links, id: nat)
    requires n < |h| && CommandsMean(h, n, l)
    ensures LegacyMeans(h, n + 1, Linked(l, h[n].event, h[n].link).legacy, id)
  {
    assert LegacyMeans(h, n, l.legacy, id);
    if h[n].event.LegacyStarted? && h[n].event.action.Some? {
      NextSlotMeans(h, n, l.factual.paired, h[n].event.action.value);
    }
  }

  lemma {:induction false} CommandsStep(h: seq<Seen>, n: nat, l: Links)
    requires n < |h| && CommandsMean(h, n, l)
    ensures CommandsMean(h, n + 1, Linked(l, h[n].event, h[n].link))
  {
    var paired, next, after := l.factual.paired, n + 1, Linked(l, h[n].event, h[n].link);
    PairedStep(h, n, l);
    RunningStep(h, n, l);
    forall id
      ensures LegacyMeans(h, next, after.legacy, id)
    {
      LegacyStep(h, n, l, id);
    }
    forall a
      ensures PairedMeans(h, next, after.factual.paired, a)
    {
      if StartAt(h, n).Some? {
        OpenedMeans(h, n, paired, a, StartAt(h, n).value);
      } else if FinishedAt(h, n).Some? {
        ClosedMeans(h, n, paired, a, FinishedAt(h, n).value);
      } else {
        QuietMeans(h, n, paired, a);
      }
    }
  }

  lemma {:induction false} CommandsMeanAll(h: seq<Seen>, n: nat)
    requires n <= |h|
    ensures CommandsMean(h, n, LinkedAll(h, n))
  {
    if n == 0 {
      forall a
        ensures PairedMeans(h, 0, map[], a)
      {
        assert PairsOf(h, [], 0) == [];
      }
    } else {
      CommandsMeanAll(h, n - 1);
      CommandsStep(h, n - 1, LinkedAll(h, n - 1));
    }
  }

  /**
   * For every stream and action the command links are exactly the first 256 commands started, in order,
   * each with the event that finished it: the one that ended it while it ran, under its identifier.
   */
  lemma {:induction false} PairsExact(a: Action, h: seq<Seen>, n: nat)
    requires n <= |h|
    ensures PairedOf(LinkedAll(h, n).factual.paired, a) == First(PairsOf(h, Starts(h, a, n), n))
  {
    CommandsMeanAll(h, n);
    assert PairedMeans(h, n, LinkedAll(h, n).factual.paired, a);
  }

  // ----- A command finishes once -----

  /** A command that runs now ran ever since its start. */
  lemma {:induction false} RunsSince(h: seq<Seen>, m: nat, n: nat)
    requires m <= n <= |h| && RunningAt(h, n).Some? && RunningAt(h, n).value < m
    ensures RunningAt(h, m) == RunningAt(h, n)
    decreases n
  {
    if m < n {
      RunsSince(h, m, n - 1);
    }
  }

  lemma {:induction false} LegacySince(h: seq<Seen>, m: nat, n: nat, id: nat)
    requires m <= n <= |h| && LegacyAt(h, n, id).Some? && LegacyAt(h, n, id).value < m
    ensures LegacyAt(h, m, id) == LegacyAt(h, n, id)
    decreases n
  {
    if m < n {
      LegacySince(h, m, n - 1, id);
    }
  }

  /** No command is finished by two events. */
  lemma {:induction false} FinishedOnce(h: seq<Seen>, i: nat, j: nat)
    requires i < |h| && j < |h| && FinishedAt(h, i).Some? && FinishedAt(h, i) == FinishedAt(h, j)
    ensures i == j
  {
    if i < j {
      FinishedBefore(h, i, j);
    } else if j < i {
      FinishedBefore(h, j, i);
    }
  }

  lemma {:induction false} FinishedBefore(h: seq<Seen>, i: nat, j: nat)
    requires i < j < |h| && FinishedAt(h, i).Some?
    ensures FinishedAt(h, j) != FinishedAt(h, i)
  {
    if FinishedAt(h, j) == FinishedAt(h, i) {
      if h[j].event.CommandFinished? {
        RunsSince(h, i + 1, j);
      } else {
        LegacySince(h, i + 1, j, h[j].event.id);
      }
    }
  }

  // ----- The links of an attempt's commands -----

  /** Start and finish of each controlled command that was finished under its identifier, in order. */
  function CommandLinks(h: seq<Seen>, n: nat): seq<Link>
    requires n <= |h|
  {
    if n == 0 then []
    else CommandLinks(h, n - 1)
         + (if h[n - 1].event.CommandFinished? && FinishedAt(h, n - 1).Some?
            then [h[FinishedAt(h, n - 1).value].link, h[n - 1].link] else [])
  }

  lemma {:induction false} CommandLinksStep(h: seq<Seen>, n: nat, l: Links, all: seq<Link>)
    requires n < |h| && RunningMeans(h, n, l.running) && l.commands == First(all)
    ensures Linked(l, h[n].event, h[n].link).commands
            == First(if h[n].event.CommandFinished? && FinishedAt(h, n).Some?
                     then all + [h[FinishedAt(h, n).value].link, h[n].link] else all)
  {
    if h[n].event.CommandFinished? && FinishedAt(h, n).Some? {
      var start := h[FinishedAt(h, n).value].link;
      RetainedFirst(all, start);
      RetainedFirst(all + [start], h[n].link);
      assert all + [start] + [h[n].link] == all + [start, h[n].link];
    }
  }

  /** For every stream the command links are the first 256 of the starts and finishes of the finished commands. */
  lemma {:induction false} CommandLinksExact(h: seq<Seen>, n: nat)
    requires n <= |h|
    ensures LinkedAll(h, n).commands == First(CommandLinks(h, n))
  {
    if n > 0 {
      CommandLinksExact(h, n - 1);
      CommandsMeanAll(h, n - 1);
      CommandLinksStep(h, n - 1, LinkedAll(h, n - 1), CommandLinks(h, n - 1));
      assert CommandLinks(h, n - 1) + [] == CommandLinks(h, n - 1);
    }
  }

  // ----- Links and counters -----

  function EventsOf(h: seq<Seen>, n: nat): (r: seq<Event>)
    requires n <= |h|
    ensures |r| == n
  {
    if n == 0 then [] else EventsOf(h, n - 1) + [h[n - 1].event]
  }

  function CountOf(kind: Kind, f: Factual): nat
    requires kind != Edits
  {
    match kind
    case InternalPastes => f.internalPaste.transactions
    case HistoricalPastes => f.historicalPaste.transactions
    case UnknownEdits => f.unknownOrigin.transactions
    case ExternalChanges => f.externalChanges
    case RejectedPastes => f.rejectedPastes
  }

  lemma {:induction false} ObservedLast(h: seq<Seen>, n: nat, parse: Diagnostics.Parser, s: State)
    returns (before: State)
    requires 0 < n <= |h| && ObservedAll(EventsOf(h, n), parse) == Fine(s)
    ensures ObservedAll(EventsOf(h, n - 1), parse) == Fine(before)
    ensures Observed(before, h[n - 1].event, parse) == Fine(s)
  {
    before := ObservedAllSplits(EventsOf(h, n), parse, s);
    assert EventsOf(h, n)[..n - 1] == EventsOf(h, n - 1);
  }

  lemma {:induction false} EditCounts(kind: Kind, s: State, t: Transaction, before: Option<Text>, s': State)
    requires kind != Edits && TransactionObserved(s, t, before) == Fine(s')
    ensures CountOf(kind, s'.factual)
            == CountOf(kind, s.factual) + (if IsOf(kind, FileEdited(t, before)) then 1 else 0)
  {
    var inserted := InsertedScalars(t.edits).value;
    var known := FactuallyEdited(s, t.origin, inserted).value;
    NotedCounts(kind, s, t.origin, inserted, known);
    if !Reverses(t.origin) {
      var forwarded := Forwarded(known, t.origin, inserted, false).value;
      ForwardedFacts(known, t.origin, inserted, false, forwarded);
      if t.origin == Keyboard {
        KeyboardFacts(forwarded, t.edits, before, s');
      }
    }
  }

  lemma {:induction false} NotedCounts(kind: Kind, s: State, origin: Origin, inserted: nat, s': State)
    requires kind != Edits && FactuallyEdited(s, origin, inserted) == Fine(s')
    ensures CountOf(kind, s'.factual) == CountOf(kind, s.factual)
            + (if (kind == HistoricalPastes && origin == Paste) || (kind == UnknownEdits && origin == Unknown) then 1
               else 0)
  {
  }

  lemma {:induction false} ForwardedFacts(s: State, origin: Origin, inserted: nat, internalPaste: bool, s': State)
    requires !Reverses(origin) && Forwarded(s, origin, inserted, internalPaste) == Fine(s')
    ensures s'.factual == s.factual
  {
  }

  lemma {:induction false} KeyboardFacts(s: State, edits: seq<TextEdit>, before: Option<Text>, s': State)
    requires KeyboardEdited(s, edits, before) == Fine(s')
    ensures s'.factual == s.factual
  {
  }

  lemma {:induction false} PasteCounts(kind: Kind, s: State, t: Transaction, s': State)
    requires kind != Edits && PasteObserved(s, t) == Fine(s')
    ensures CountOf(kind, s'.factual) == CountOf(kind, s.factual) + (if kind == InternalPastes then 1 else 0)
  {
    var facts := EditAdded(s.factual.internalPaste, InsertedScalars(t.edits).value).value;
    ForwardedFacts(s.(factual := s.factual.(internalPaste := facts)), Paste, InsertedScalars(t.edits).value, true, s');
  }

  lemma {:induction false} FinishCounts(kind: Kind, s: State, finish: Diagnostics.Finish, parse: Diagnostics.Parser,
                                        s': State)
    requires kind != Edits && CommandFinishObserved(s, finish, parse) == Fine(s')
    ensures CountOf(kind, s'.factual) == CountOf(kind, s.factual)
  {
    FinishSplits(s, finish, parse, s');
    if s.active.Some? && s.active.value.start.id == finish.id {
      var action, diagnosed := s.active.value.start.action, Diagnosed(s.active.value, finish, parse);
      var counted := WithFacts(s.(active := None), action, FactsAfter(s, finish, parse).value);
      WithFactsCounts(kind, s.(active := None), action, FactsAfter(s, finish, parse).value, counted);
      if s' != counted && s' != MarkedUnavailable(counted) {
        FeedbackKeeps(counted, action, diagnosed, s');
      }
    }
  }

  lemma {:induction false} WithFactsCounts(kind: Kind, s: State, action: Action, facts: Facts, s': State)
    requires kind != Edits && s' == WithFacts(s, action, facts)
    ensures CountOf(kind, s'.factual) == CountOf(kind, s.factual)
  {
  }

  lemma {:induction false} CountStep(kind: Kind, s: State, e: Event, parse: Diagnostics.Parser, s': State)
    requires kind != Edits && Observed(s, e, parse) == Fine(s')
    ensures CountOf(kind, s'.factual) == CountOf(kind, s.factual) + (if IsOf(kind, e) then 1 else 0)
  {
    if e.FileEdited? {
      EditCounts(kind, s, e.transaction, e.before, s');
    } else if e.InternalPaste? {
      PasteCounts(kind, s, e.transaction, s');
    } else if e.CommandFinished? {
      FinishCounts(kind, s, e.finish, parse, s');
    }
  }

  lemma {:induction false} LinksCounted(kind: Kind, h: seq<Seen>, n: nat, parse: Diagnostics.Parser, s: State)
    requires kind != Edits && n <= |h| && ObservedAll(EventsOf(h, n), parse) == Fine(s)
    ensures |LinksOf(kind, h, n)| == CountOf(kind, s.factual)
  {
    if n > 0 {
      var before := ObservedLast(h, n, parse, s);
      LinksCounted(kind, h, n - 1, parse, before);
      CountStep(kind, before, h[n - 1].event, parse, s);
    }
  }

  /** For every stream that is counted, each list holds as many links as its counter says, up to 256. */
  lemma {:induction false} ListsCounted(kind: Kind, h: seq<Seen>, n: nat, parse: Diagnostics.Parser, s: State)
    requires kind != Edits && n <= |h| && ObservedAll(EventsOf(h, n), parse) == Fine(s)
    ensures |ListOf(kind, LinkedAll(h, n))| == Min(CountOf(kind, s.factual), MAX_RETAINED_INDICATOR_LINKS)
  {
    ListsExact(kind, h, n);
    LinksCounted(kind, h, n, parse, s);
  }

  /** The running command of the count is the one that runs in the stream. */
  predicate SameRunning(h: seq<Seen>, n: nat, s: State)
    requires n <= |h|
  {
    && (s.active.Some? <==> RunningAt(h, n).Some?)
    && (s.active.Some? ==> s.active.value.start == h[RunningAt(h, n).value].event.start)
  }

  /** What an event makes of the running command. */
  lemma {:induction false} RunningBy(s: State, e: Event, parse: Diagnostics.Parser, s': State)
    requires EditsConserved(s.values) && Observed(s, e, parse) == Fine(s')
    ensures e.CommandStarted? ==> s'.active == if s.active.Some? then s.active else Some(Active(e.start, []))
    ensures e.CommandFinished? ==> s'.active.None?
    ensures !e.CommandStarted? && !e.CommandFinished? ==>
              && (s'.active.Some? <==> s.active.Some?)
              && (s.active.Some? ==> s'.active.value.start == s.active.value.start)
  {
    if e.CommandFinished? {
      FinishStarts(Build, s, e.finish, parse, s');
    } else if e.LegacyStarted? && e.action.Some? {
      LegacySplits(s, e.action.value, s');
    } else if e.CommandStarted? && s.active.None? {
      StartSplits(s, e.start, s');
    } else if !AboutCommands(e) {
      OtherEvent(s, e, parse, s');
    }
  }

  predicate CountsStart(s: State, e: Event, a: Action) {
    (e.CommandStarted? && s.active.None? && e.start.action == a) || (e.LegacyStarted? && e.action == Some(a))
  }

  /** Which events count a start of an action. */
  lemma {:induction false} StartedBy(a: Action, s: State, e: Event, parse: Diagnostics.Parser, s': State)
    requires EditsConserved(s.values) && Observed(s, e, parse) == Fine(s')
    ensures FactsOf(s'.factual, a).started
            == FactsOf(s.factual, a).started + (if CountsStart(s, e, a) then 1 else 0)
  {
    if e.CommandFinished? {
      FinishStarts(a, s, e.finish, parse, s');
    } else if e.LegacyStarted? && e.action.Some? {
      LegacySplits(s, e.action.value, s');
    } else if e.CommandStarted? && s.active.None? {
      StartSplits(s, e.start, s');
    } else if !AboutCommands(e) {
      OtherEvent(s, e, parse, s');
    }
  }

  lemma {:induction false} FinishStarts(a: Action, s: State, finish: Diagnostics.Finish, parse: Diagnostics.Parser,
                                        s': State)
    requires CommandFinishObserved(s, finish, parse) == Fine(s')
    ensures s'.active.None? && FactsOf(s'.factual, a).started == FactsOf(s.factual, a).started
  {
    if s.active.Some? && s.active.value.start.id == finish.id {
      CountedFinish(s, finish, parse, s');
      FactsAfterStarted(s, finish, parse, FactsAfter(s, finish, parse).value);
    } else {
      FinishSplits(s, finish, parse, s');
    }
  }

  lemma {:induction false} FactsAfterStarted(s: State, finish: Diagnostics.Finish, parse: Diagnostics.Parser,
                                             facts: Facts)
    requires s.active.Some? && FactsAfter(s, finish, parse) == Fine(facts)
    ensures facts.started == FactsOf(s.factual, s.active.value.start.action).started
  {
  }

  lemma {:induction false} StartedStep(a: Action, h: seq<Seen>, n: nat, parse: Diagnostics.Parser, s: State, s': State)
    requires n < |h| && SameRunning(h, n, s) && EditsConserved(s.values)
    requires Observed(s, h[n].event, parse) == Fine(s')
    ensures SameRunning(h, n + 1, s')
    ensures FactsOf(s'.factual, a).started
            == FactsOf(s.factual, a).started + (if StartAt(h, n) == Some(a) then 1 else 0)
  {
    RunningBy(s, h[n].event, parse, s');
    StartedBy(a, s, h[n].event, parse, s');
  }

  lemma {:induction false} StartedNext(a: Action, h: seq<Seen>, n: nat, parse: Diagnostics.Parser, s: State, s': State)
    requires n < |h| && SameRunning(h, n, s) && ObservedAll(EventsOf(h, n), parse) == Fine(s)
    requires Observed(s, h[n].event, parse) == Fine(s')
    ensures SameRunning(h, n + 1, s')
    ensures FactsOf(s'.factual, a).started
            == FactsOf(s.factual, a).started + (if StartAt(h, n) == Some(a) then 1 else 0)
  {
    EditCountersConserve(EventsOf(h, n), parse, s);
    StartedStep(a, h, n, parse, s, s');
  }

  lemma {:induction false} NothingStarted(a: Action, s: State)
    requires s == EMPTY
    ensures FactsOf(s.factual, a).started == 0 && s.active.None?
  {
    NoFacts(a, s.factual.commands, NO_FACTS);
  }

  lemma {:induction false} StartsCounted(a: Action, h: seq<Seen>, n: nat, parse: Diagnostics.Parser, s: State)
    requires n <= |h| && ObservedAll(EventsOf(h, n), parse) == Fine(s)
    ensures |Starts(h, a, n)| == FactsOf(s.factual, a).started && SameRunning(h, n, s)
  {
    if n == 0 {
      NothingStarted(a, s);
    } else {
      var before := ObservedLast(h, n, parse, s);
      StartsCounted(a, h, n - 1, parse, before);
      StartedNext(a, h, n - 1, parse, before, s);
    }
  }

  /** For every stream that is counted, an action has as many command links as counted starts, up to 256. */
  lemma {:induction false} PairsCounted(a: Action, h: seq<Seen>, n: nat, parse: Diagnostics.Parser, s: State)
    requires n <= |h| && ObservedAll(EventsOf(h, n), parse) == Fine(s)
    ensures |PairedOf(LinkedAll(h, n).factual.paired, a)|
            == Min(FactsOf(s.factual, a).started, MAX_RETAINED_INDICATOR_LINKS)
  {
    PairsExact(a, h, n);
    StartsCounted(a, h, n, parse, s);
  }

  // ----- Merging attempts -----

  function MergedLinks(target: FactualLinks, source: FactualLinks): FactualLinks {
    FactualLinks(
      Extended(target.internalPaste, source.internalPaste),
      Extended(target.historicalPaste, source.historicalPaste),
      Extended(target.unknownOrigin, source.unknownOrigin),
      Extended(target.externalChange, source.externalChange),
      Extended(target.rejectedPaste, source.rejectedPaste),
      MergedPaired(target.paired, source.paired, ACTIONS))
  }

  function MergedPaired(target: Paired, source: Paired, actions: seq<Action>): Paired {
    map a | a in actions :: Extended(PairedOf(target, a), PairedOf(source, a))
  }

  lemma {:induction false} MergedPairedSnoc(target: Paired, source: Paired, whole: seq<Action>, init: seq<Action>,
                                            a: Action)
    requires whole == init + [a]
    ensures MergedPaired(target, source, whole)
            == MergedPaired(target, source, init)[a := Extended(PairedOf(target, a), PairedOf(source, a))]
  {
  }

  lemma {:induction false} MergedPairedOf(a: Action, target: FactualLinks, source: FactualLinks)
    ensures PairedOf(MergedLinks(target, source).paired, a)
            == Extended(PairedOf(target.paired, a), PairedOf(source.paired, a))
  {
    EveryAction(a);
    assert ACTIONS[..|ACTIONS|] == ACTIONS;
  }

  /** Attempts merged in order. */
  function MergedAll(attempts: seq<seq<Seen>>): FactualLinks {
    if attempts == [] then NO_FACTUAL_LINKS
    else
      var last := attempts[|attempts| - 1];
      MergedLinks(MergedAll(attempts[..|attempts| - 1]), LinkedAll(last, |last|).factual)
  }

  function AllLinksOf(kind: Kind, attempts: seq<seq<Seen>>): seq<Link> {
    if attempts == [] then []
    else
      var last := attempts[|attempts| - 1];
      AllLinksOf(kind, attempts[..|attempts| - 1]) + LinksOf(kind, last, |last|)
  }

  function AllPairsOf(a: Action, attempts: seq<seq<Seen>>): seq<CommandLink> {
    if attempts == [] then []
    else
      var last := attempts[|attempts| - 1];
      AllPairsOf(a, attempts[..|attempts| - 1]) + PairsOf(last, Starts(last, a, |last|), |last|)
  }

  /** What is kept of several attempts are the first 256 links of each kind over all of them, in order. */
  lemma {:induction false} MergedListsExact(kind: Kind, attempts: seq<seq<Seen>>)
    requires kind != Edits
    ensures FactualListOf(kind, MergedAll(attempts)) == First(AllLinksOf(kind, attempts))
    decreases |attempts|
  {
    if attempts != [] {
      var init, last := attempts[..|attempts| - 1], attempts[|attempts| - 1];
      MergedListsExact(kind, init);
      ListsExact(kind, last, |last|);
      ExtendedFirst(AllLinksOf(kind, init), LinksOf(kind, last, |last|));
    }
  }

  /** The same of the commands of each action. */
  lemma {:induction false} MergedPairsExact(a: Action, attempts: seq<seq<Seen>>)
    ensures PairedOf(MergedAll(attempts).paired, a) == First(AllPairsOf(a, attempts))
    decreases |attempts|
  {
    if attempts != [] {
      var init, last := attempts[..|attempts| - 1], attempts[|attempts| - 1];
      MergedPairsExact(a, init);
      PairsExact(a, last, |last|);
      ExtendedFirst(AllPairsOf(a, init), PairsOf(last, Starts(last, a, |last|), |last|));
      MergedPairedOf(a, MergedAll(init), LinkedAll(last, |last|).factual);
    }
  }

  method MergePaired(target: Paired, source: Paired, actions: seq<Action>) returns (paired: Paired)
    ensures paired == MergedPaired(target, source, actions)
  {
    paired := map[];
    for n := 0 to |actions|
      invariant paired == MergedPaired(target, source, actions[..n])
    {
      var a := actions[n];
      MergedPairedSnoc(target, source, actions[..n + 1], actions[..n], a);
      paired := paired[a := Extended(PairedOf(target, a), PairedOf(source, a))];
    }
    assert actions[..|actions|] == actions;
  }

  /** Extends every list, and then the commands action by action. */
  method MergeLinks(target: FactualLinks, source: FactualLinks) returns (merged: FactualLinks)
    ensures merged == MergedLinks(target, source)
  {
    var paired := MergePaired(target.paired, source.paired, ACTIONS);
    return FactualLinks(
        Extended(target.internalPaste, source.internalPaste),
        Extended(target.historicalPaste, source.historicalPaste),
        Extended(target.unknownOrigin, source.unknownOrigin),
        Extended(target.externalChange, source.externalChange),
        Extended(target.rejectedPaste, source.rejectedPaste),
        paired);
  }

  // ----- The links of the accumulator -----

  /** The link fields of the accumulator of one attempt. */
  class LinkRecorder {
    var factual: FactualLinks
    var edits: seq<Link>
    var commands: seq<Link>
    var running: Option<Running>
    var legacy: map<nat, Option<Slot>>

    ghost function Snapshot(): Links
      reads this
    {
      Links(factual, edits, commands, running, legacy)
    }

    constructor ()
      ensures Snapshot() == NO_LINKS
    {
      factual, edits, commands, running, legacy := NO_FACTUAL_LINKS, [], [], None, map[];
    }

    method ObserveTransaction(t: Transaction, before: Option<Text>, link: Link)
      modifies this`factual, this`edits
      ensures Snapshot() == EditLinked(old(Snapshot()), t, before, link)
    {
      if t.origin == Paste {
        factual := factual.(historicalPaste := Retained(factual.historicalPaste, link));
      } else if t.origin == Unknown {
        factual := factual.(unknownOrigin := Retained(factual.unknownOrigin, link));
      }
      if Reverses(t.origin) {
        return;
      }
      if PutsIn(t) {
        edits := RetainedUnique(edits, link);
      }
      if IsPlaced(t, before) {
        edits := RetainedUnique(edits, link);
      }
    }

    method StartCommand(id: nat, a: Action, link: Link)
      modifies this`factual, this`running
      ensures Snapshot() == StartLinked(old(Snapshot()), id, a, link)
    {
      if running.Some? {
        return;
      }
      running := Some(Running(id, link, NextSlot(factual.paired, a)));
      factual := factual.(paired := Opened(factual.paired, a, link));
    }

    /** Ends the running command; its link gets the finish, and both events are linked, when it is the right one. */
    method FinishCommand(id: nat, link: Link)
      modifies this`factual, this`commands, this`running
      ensures Snapshot() == FinishLinked(old(Snapshot()), id, link)
    {
      if running.None? {
        return;
      }
      var active := running.value;
      running := None;
      if active.id != id {
        return;
      }
      factual := factual.(paired := Closed(factual.paired, active.slot, link));
      commands := Retained(commands, active.start);
      commands := Retained(commands, link);
    }

    method StartLegacyCommand(id: nat, action: Option<Action>, link: Link)
      modifies this`factual, this`legacy
      ensures Snapshot() == LegacyStartLinked(old(Snapshot()), id, action, link)
    {
      if action.None? {
        return;
      }
      legacy := legacy[id := NextSlot(factual.paired, action.value)];
      factual := factual.(paired := Opened(factual.paired, action.value, link));
    }

    method FinishLegacyCommand(id: nat, link: Link)
      modifies this`factual, this`legacy
      ensures Snapshot() == LegacyFinishLinked(old(Snapshot()), id, link)
    {
      if id !in legacy {
        return;
      }
      factual := factual.(paired := Closed(factual.paired, legacy[id], link));
      legacy := legacy - {id};
    }

    /** Takes the link of one event of the attempt. */
    method Observe(e: Event, link: Link)
      modifies this
      ensures Snapshot() == Linked(old(Snapshot()), e, link)
    {
      match e {
        case FileEdited(t, before) => ObserveTransaction(t, before, link);
        case InternalPaste(t) =>
          factual := factual.(internalPaste := Retained(factual.internalPaste, link));
          if PutsIn(t) {
            edits := RetainedUnique(edits, link);
          }
        case ExternalObservation =>
          factual := factual.(externalChange := Retained(factual.externalChange, link));
        case PasteRejected => factual := factual.(rejectedPaste := Retained(factual.rejectedPaste, link));
        case CommandStarted(start) => StartCommand(start.id, start.action, link);
        case CommandFinished(finish) => FinishCommand(finish.id, link);
        case LegacyStarted(id, action) => StartLegacyCommand(id, action, link);
        case LegacyFinished(id) => FinishLegacyCommand(id, link);
        case _ =>
      }
    }
  }
}
