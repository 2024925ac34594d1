/** Advisories over one attempt's events (src/review_flags.rs). */
module ReviewFlags {
  import opened Common

  const LARGE_SINGLE_INSERTION_BYTES := 200
  const SUSTAINED_HIGH_RATE_WINDOW_MILLIS := 60_000
  const SUSTAINED_HIGH_RATE_CHARACTERS_PER_SECOND := 15
  const TYPED_AFTER_REJECTED_PASTE_CHARACTERS := 200
  const TYPED_AFTER_REJECTED_PASTE_BURST_MILLIS := 60_000
  const TYPED_AFTER_REJECTED_PASTE_WINDOW_MILLIS := 300_000

  /** The most events of a recorded attempt (crates/model/src/rprov.rs). */
  const MAX_RPROV_EVENTS := 1_000_000

  const RATE_THRESHOLD := SUSTAINED_HIGH_RATE_CHARACTERS_PER_SECOND * (SUSTAINED_HIGH_RATE_WINDOW_MILLIS / 1_000)

  /** Sequence number of an event; the segment is the same for a whole attempt. */
  type Link = nat

  /** What the advisories see of one event. */
  datatype Recorded =
    | BlockedPaste(link: Link, millis: nat)
    | Keyboard(link: Link, millis: nat, bytes: nat, characters: nat)
    | Other(link: Link, millis: nat)

  datatype Measured =
    | Bytes(bytes: nat)
    | Rate(characters: nat)
    | Attempts(attempts: nat)
    | Burst(peak: nat, qualifying: nat, blocked: nat)

  datatype AdvisoryKind = LargeSingleInsertion | SustainedHighRate | RejectedPasteAttempts | TypedAfterRejectedPaste

  datatype AdvisoryFlag = AdvisoryFlag(kind: AdvisoryKind, link: Link, measured: Measured)

  // ----- Meaning over the whole stream -----

  predicate Ordered(h: seq<Recorded>) {
    forall i, j | 0 <= i <= j < |h| :: h[i].millis <= h[j].millis
  }

  function Characters(e: Recorded): nat {
    if e.Keyboard? then e.characters else 0
  }

  /** Characters inserted by the Keyboard transactions before index `i`. */
  function Before(h: seq<Recorded>, i: nat): nat
    requires i <= |h|
  {
    if i == 0 then 0 else Before(h, i - 1) + Characters(h[i - 1])
  }

  /** Characters inserted from index `from` up to `until` in the `width` milliseconds ending at event `k`. */
  function InWindow(h: seq<Recorded>, k: nat, width: nat, from: nat, until: nat): nat
    requires k < |h| && until <= |h|
    decreases until
  {
    if until <= from then 0
    else InWindow(h, k, width, from, until - 1)
         + if h[k].millis <= h[until - 1].millis + width then Characters(h[until - 1]) else 0
  }

  /** Characters in the burst ending at `k` that were inserted after the paste at `p`. */
  function BurstAfter(h: seq<Recorded>, p: nat, k: nat): nat
    requires k < |h|
  {
    InWindow(h, k, TYPED_AFTER_REJECTED_PASTE_BURST_MILLIS, p + 1, k + 1)
  }

  predicate InsidePasteWindow(h: seq<Recorded>, p: nat, k: nat) {
    p < k < |h| && h[k].Keyboard? && h[k].millis <= h[p].millis + TYPED_AFTER_REJECTED_PASTE_WINDOW_MILLIS
  }

  predicate QualifiesAt(h: seq<Recorded>, p: nat, k: nat) {
    InsidePasteWindow(h, p, k) && BurstAfter(h, p, k) >= TYPED_AFTER_REJECTED_PASTE_CHARACTERS
  }

  /** Some burst inside the paste's window holds enough characters typed after it. */
  ghost predicate Qualifies(h: seq<Recorded>, p: nat) {
    p < |h| && h[p].BlockedPaste? && exists k :: QualifiesAt(h, p, k)
  }

  /** The paste's window has been seen to end. */
  ghost predicate Expired(h: seq<Recorded>, p: nat) {
    p < |h| && exists k :: p < k < |h| && h[k].Keyboard? && !InsidePasteWindow(h, p, k)
  }

  ghost function TypedPastes(h: seq<Recorded>): set<nat> {
    set p | 0 <= p < |h| && Qualifies(h, p)
  }

  /** The most characters one burst held after the paste at `p`, among the first `until` events. */
  function Peak(h: seq<Recorded>, p: nat, until: nat): nat
    requires until <= |h|
  {
    if until == 0 then 0
    else if InsidePasteWindow(h, p, until - 1) then Max(Peak(h, p, until - 1), BurstAfter(h, p, until - 1))
    else Peak(h, p, until - 1)
  }

  // ----- Appending an event changes nothing about the past -----

  lemma {:induction false} BeforeExtends(h: seq<Recorded>, e: Recorded, i: nat)
    requires i <= |h|
    ensures Before(h + [e], i) == Before(h, i)
  {
    if i > 0 {
      BeforeExtends(h, e, i - 1);
    }
  }

  lemma {:induction false} InWindowExtends(h: seq<Recorded>, e: Recorded, k: nat, width: nat, from: nat, until: nat)
    requires k < |h| && until <= |h|
    ensures InWindow(h + [e], k, width, from, until) == InWindow(h, k, width, from, until)
  {
    if until > from {
      InWindowExtends(h, e, k, width, from, until - 1);
    }
  }

  lemma {:induction false} PeakExtends(h: seq<Recorded>, e: Recorded, p: nat, until: nat)
    requires until <= |h|
    ensures Peak(h + [e], p, until) == Peak(h, p, until)
  {
    if until > 0 {
      PeakExtends(h, e, p, until - 1);
      if p < until - 1 {
        InWindowExtends(h, e, until - 1, TYPED_AFTER_REJECTED_PASTE_BURST_MILLIS, p + 1, until);
      }
    }
  }

  lemma {:induction false} QualifiesAtExtends(h: seq<Recorded>, e: Recorded, p: nat, k: nat)
    requires k < |h|
    ensures QualifiesAt(h + [e], p, k) == QualifiesAt(h, p, k)
  {
    if p < k {
      InWindowExtends(h, e, k, TYPED_AFTER_REJECTED_PASTE_BURST_MILLIS, p + 1, k + 1);
    }
  }

  /** The new event is the only new reason for a paste to qualify. */
  lemma {:induction false} QualifiesExtends(h: seq<Recorded>, e: Recorded, p: nat)
    requires p < |h|
    ensures Qualifies(h + [e], p) <==> Qualifies(h, p) || (h[p].BlockedPaste? && QualifiesAt(h + [e], p, |h|))
  {
    forall k | 0 <= k < |h|
      ensures QualifiesAt(h + [e], p, k) == QualifiesAt(h, p, k)
    {
      QualifiesAtExtends(h, e, p, k);
    }
    if k :| QualifiesAt(h, p, k) {
      assert QualifiesAt(h + [e], p, k);
    }
    if k :| QualifiesAt(h + [e], p, k) {
      assert k == |h| || QualifiesAt(h, p, k);
    }
  }

  lemma {:induction false} ExpiredExtends(h: seq<Recorded>, e: Recorded, p: nat)
    requires p < |h|
    ensures Expired(h + [e], p) <==> Expired(h, p) || (e.Keyboard? && !InsidePasteWindow(h + [e], p, |h|))
  {
    var h' := h + [e];
    if Expired(h, p) {
      var k :| p < k < |h| && h[k].Keyboard? && !InsidePasteWindow(h, p, k);
      assert h'[k].Keyboard? && !InsidePasteWindow(h', p, k);
    }
    if Expired(h', p) {
      var k :| p < k < |h'| && h'[k].Keyboard? && !InsidePasteWindow(h', p, k);
      assert k == |h| || !InsidePasteWindow(h, p, k);
    }
    if e.Keyboard? && !InsidePasteWindow(h', p, |h|) {
      assert h'[|h|].Keyboard?;
    }
  }

  // ----- Windows of Keyboard insertions -----

  /**
   * The entries of a queue stand for runs of events that end where the next run starts: the run of
   * `entries[i]` starts at `starts[i]` with a Keyboard transaction, and all its transactions share
   * the entry's time. The last run ends at the end of the stream.
   */
  ghost predicate Grouped(h: seq<Recorded>, starts: seq<nat>, entries: seq<(nat, nat)>) {
    && |starts| == |entries|
    && (forall i | 0 <= i < |starts| :: starts[i] < |h| && h[starts[i]].Keyboard?)
    && (forall i, j | 0 <= i < j < |starts| :: starts[i] < starts[j])
    && (forall i | 0 <= i < |starts| :: GroupAt(h, starts[i], RunEnd(h, starts, i), entries[i]))
  }

  ghost function RunEnd(h: seq<Recorded>, starts: seq<nat>, i: nat): nat {
    if i + 1 < |starts| then starts[i + 1] else |h|
  }

  ghost predicate GroupAt(h: seq<Recorded>, from: nat, until: nat, entry: (nat, nat)) {
    && from < until <= |h|
    && entry.0 == h[from].millis
    && Before(h, until) == Before(h, from) + entry.1
    && forall e | from <= e < until && h[e].Keyboard? :: h[e].millis == entry.0
  }

  ghost function From(h: seq<Recorded>, starts: seq<nat>): nat {
    if starts == [] then |h| else starts[0]
  }

  function Sum(entries: seq<(nat, nat)>): nat {
    if entries == [] then 0 else entries[0].1 + Sum(entries[1..])
  }

  lemma {:induction false} GroupedSum(h: seq<Recorded>, starts: seq<nat>, entries: seq<(nat, nat)>)
    requires Grouped(h, starts, entries)
    ensures From(h, starts) <= |h| && Before(h, |h|) == Before(h, From(h, starts)) + Sum(entries)
  {
    if starts != [] {
      GroupedPop(h, starts, entries);
      GroupedSum(h, starts[1..], entries[1..]);
      assert GroupAt(h, starts[0], RunEnd(h, starts, 0), entries[0]);
    }
  }

  lemma {:induction false} GroupedPop(h: seq<Recorded>, starts: seq<nat>, entries: seq<(nat, nat)>)
    requires Grouped(h, starts, entries) && starts != []
    ensures Grouped(h, starts[1..], entries[1..])
  {
    forall i | 0 <= i < |starts[1..]|
      ensures GroupAt(h, starts[1..][i], RunEnd(h, starts[1..], i), entries[1..][i])
    {
      assert GroupAt(h, starts[i + 1], RunEnd(h, starts, i + 1), entries[i + 1]);
    }
  }

  lemma {:induction false} GroupAtExtends(h: seq<Recorded>, e: Recorded, from: nat, until: nat, entry: (nat, nat))
    requires GroupAt(h, from, until, entry)
    ensures GroupAt(h + [e], from, until, entry)
    ensures until == |h| && (e.Keyboard? ==> e.millis == entry.0) ==>
              GroupAt(h + [e], from, until + 1, (entry.0, entry.1 + Characters(e)))
  {
    BeforeExtends(h, e, from);
    BeforeExtends(h, e, until);
  }

  /** A Keyboard transaction joins the last run when it shares its time; anything else just lengthens it. */
  lemma {:induction false} GroupedJoin(h: seq<Recorded>, e: Recorded, starts: seq<nat>, entries: seq<(nat, nat)>)
    requires Grouped(h, starts, entries)
    requires e.Keyboard? ==> starts != [] && entries[|entries| - 1].0 == e.millis
    ensures starts != [] ==>
              Grouped(h + [e], starts, entries[|entries| - 1 := (entries[|entries| - 1].0,
                  entries[|entries| - 1].1 + Characters(e))])
    ensures starts == [] ==> Grouped(h + [e], starts, entries)
  {
    if starts != [] {
      var last := |entries| - 1;
      var joined := entries[last := (entries[last].0, entries[last].1 + Characters(e))];
      forall i | 0 <= i < |starts|
        ensures GroupAt(h + [e], starts[i], RunEnd(h + [e], starts, i), joined[i])
      {
        GroupAtExtends(h, e, starts[i], RunEnd(h, starts, i), entries[i]);
      }
    }
  }

  lemma {:induction false} GroupedPush(h: seq<Recorded>, e: Recorded, starts: seq<nat>, entries: seq<(nat, nat)>)
    requires Grouped(h, starts, entries) && e.Keyboard?
    ensures Grouped(h + [e], starts + [|h|], entries + [(e.millis, e.characters)])
  {
    var starts', entries' := starts + [|h|], entries + [(e.millis, e.characters)];
    BeforeExtends(h, e, |h|);
    forall i | 0 <= i < |starts'|
      ensures GroupAt(h + [e], starts'[i], RunEnd(h + [e], starts', i), entries'[i])
    {
      if i < |starts| {
        GroupAtExtends(h, e, starts[i], RunEnd(h, starts, i), entries[i]);
      }
    }
  }

  /** Every Keyboard transaction before `b` lies more than `width` before `now`. */
  ghost predicate OutsideBefore(h: seq<Recorded>, b: nat, now: nat, width: nat) {
    forall e | 0 <= e < b && e < |h| && h[e].Keyboard? :: h[e].millis + width < now
  }

  /** Dropping an entry that is out of the window drops only transactions that are. */
  lemma {:induction false} OutsidePop(h: seq<Recorded>, starts: seq<nat>, entries: seq<(nat, nat)>, now: nat,
                                      width: nat)
    requires Grouped(h, starts, entries) && starts != [] && OutsideBefore(h, starts[0], now, width)
    requires entries[0].0 + width < now
    ensures OutsideBefore(h, From(h, starts[1..]), now, width)
  {
    assert GroupAt(h, starts[0], RunEnd(h, starts, 0), entries[0]);
    assert From(h, starts[1..]) == RunEnd(h, starts, 0);
  }

  /** With everything before `b` outside and `b` inside, a window is a difference of running totals. */
  lemma {:induction false} WindowIsDifference(h: seq<Recorded>, k: nat, width: nat, b: nat, from: nat, until: nat)
    requires Ordered(h) && b <= k < |h| && from <= until <= k + 1
    requires OutsideBefore(h, b, h[k].millis, width) && h[k].millis <= h[b].millis + width
    ensures InWindow(h, k, width, from, until) == SaturatingSub(Before(h, until), Max(Before(h, b), Before(h, from)))
    decreases until
  {
    BeforeMonotone(h, from, until);
    if from < until {
      WindowIsDifference(h, k, width, b, from, until - 1);
      if until <= b {
        BeforeMonotone(h, until, b);
      } else {
        BeforeMonotone(h, b, until - 1);
        BeforeMonotone(h, from, until - 1);
      }
    }
  }

  lemma {:induction false} BeforeMonotone(h: seq<Recorded>, i: nat, j: nat)
    requires i <= j <= |h|
    ensures Before(h, i) <= Before(h, j)
    decreases j
  {
    if i < j {
      BeforeMonotone(h, i, j - 1);
    }
  }

  // ----- Sustained rate: meaning -----

  function FirstKeyboardMillis(h: seq<Recorded>, i: nat): Option<nat>
    requires i <= |h|
  {
    if i == 0 then None
    else if FirstKeyboardMillis(h, i - 1).Some? then FirstKeyboardMillis(h, i - 1)
    else if h[i - 1].Keyboard? then Some(h[i - 1].millis) else None
  }

  /** A full window has passed since the first Keyboard transaction and the last one holds too much. */
  predicate RateQualifies(h: seq<Recorded>, k: nat)
    requires k < |h|
  {
    && FirstKeyboardMillis(h, k + 1).Some?
    && h[k].millis >= FirstKeyboardMillis(h, k + 1).value + SUSTAINED_HIGH_RATE_WINDOW_MILLIS
    && InWindow(h, k, SUSTAINED_HIGH_RATE_WINDOW_MILLIS, 0, k + 1) > RATE_THRESHOLD
  }

  /** Whether the last Keyboard transaction among the first `i` events had a high rate. */
  predicate RateActive(h: seq<Recorded>, i: nat)
    requires i <= |h|
  {
    i > 0 && if h[i - 1].Keyboard? then RateQualifies(h, i - 1) else RateActive(h, i - 1)
  }

  /** The first Keyboard transaction at or after `i` in the window ending at `k`. */
  function FirstInWindow(h: seq<Recorded>, k: nat, width: nat, i: nat): (f: nat)
    requires i <= k < |h|
    ensures i <= f <= k
    decreases k - i
  {
    if i == k || (h[i].Keyboard? && h[k].millis <= h[i].millis + width) then i
    else FirstInWindow(h, k, width, i + 1)
  }

  /** The advisories the event at `k` raises. */
  function FlagsAt(h: seq<Recorded>, k: nat): seq<AdvisoryFlag>
    requires k < |h|
  {
    if !h[k].Keyboard? then [] else
      (if h[k].bytes >= LARGE_SINGLE_INSERTION_BYTES
       then [AdvisoryFlag(LargeSingleInsertion, h[k].link, Bytes(h[k].bytes))] else [])
      + (if RateQualifies(h, k) && !RateActive(h, k)
         then [AdvisoryFlag(SustainedHighRate,
                            h[FirstInWindow(h, k, SUSTAINED_HIGH_RATE_WINDOW_MILLIS, 0)].link,
                            Rate(InWindow(h, k, SUSTAINED_HIGH_RATE_WINDOW_MILLIS, 0, k + 1)))] else [])
  }

  function Flags(h: seq<Recorded>, i: nat): seq<AdvisoryFlag>
    requires i <= |h|
  {
    if i == 0 then [] else Flags(h, i - 1) + FlagsAt(h, i - 1)
  }

  lemma {:induction false} FirstKeyboardExtends(h: seq<Recorded>, e: Recorded, i: nat)
    requires i <= |h|
    ensures FirstKeyboardMillis(h + [e], i) == FirstKeyboardMillis(h, i)
  {
    if i > 0 {
      FirstKeyboardExtends(h, e, i - 1);
    }
  }

  lemma {:induction false} RateQualifiesExtends(h: seq<Recorded>, e: Recorded, k: nat)
    requires k < |h|
    ensures RateQualifies(h + [e], k) == RateQualifies(h, k)
  {
    FirstKeyboardExtends(h, e, k + 1);
    InWindowExtends(h, e, k, SUSTAINED_HIGH_RATE_WINDOW_MILLIS, 0, k + 1);
  }

  lemma {:induction false} RateActiveExtends(h: seq<Recorded>, e: Recorded, i: nat)
    requires i <= |h|
    ensures RateActive(h + [e], i) == RateActive(h, i)
  {
    if i > 0 {
      RateActiveExtends(h, e, i - 1);
      RateQualifiesExtends(h, e, i - 1);
    }
  }

  lemma {:induction false} FirstInWindowExtends(h: seq<Recorded>, e: Recorded, k: nat, width: nat, i: nat)
    requires i <= k < |h|
    ensures FirstInWindow(h + [e], k, width, i) == FirstInWindow(h, k, width, i)
    decreases k - i
  {
    if i < k {
      FirstInWindowExtends(h, e, k, width, i + 1);
    }
  }

  lemma {:induction false} FlagsAtExtend(h: seq<Recorded>, e: Recorded, k: nat)
    requires k < |h|
    ensures FlagsAt(h + [e], k) == FlagsAt(h, k)
  {
    assert (h + [e])[k] == h[k];
    if h[k].Keyboard? {
      RateQualifiesExtends(h, e, k);
      RateActiveExtends(h, e, k);
      InWindowExtends(h, e, k, SUSTAINED_HIGH_RATE_WINDOW_MILLIS, 0, k + 1);
      FirstInWindowExtends(h, e, k, SUSTAINED_HIGH_RATE_WINDOW_MILLIS, 0);
      var f := FirstInWindow(h, k, SUSTAINED_HIGH_RATE_WINDOW_MILLIS, 0);
      assert (h + [e])[f] == h[f];
    }
  }

  lemma {:induction false} FlagsAgree(h: seq<Recorded>, other: seq<Recorded>, i: nat)
    requires i <= |h| && i <= |other| && forall k | 0 <= k < i :: FlagsAt(h, k) == FlagsAt(other, k)
    ensures Flags(h, i) == Flags(other, i)
  {
    if i > 0 {
      FlagsAgree(h, other, i - 1);
    }
  }

  lemma {:induction false} FlagsExtend(h: seq<Recorded>, e: Recorded, i: nat)
    requires i <= |h|
    ensures Flags(h + [e], i) == Flags(h, i)
  {
    forall k | 0 <= k < i ensures FlagsAt(h + [e], k) == FlagsAt(h, k) {
      FlagsAtExtend(h, e, k);
    }
    FlagsAgree(h + [e], h, i);
  }

  lemma {:induction false} FirstInWindowIs(h: seq<Recorded>, k: nat, width: nat, i: nat, b: nat)
    requires i <= b <= k < |h| && h[b].Keyboard? && h[k].millis <= h[b].millis + width
    requires OutsideBefore(h, b, h[k].millis, width)
    ensures FirstInWindow(h, k, width, i) == b
    decreases k - i
  {
    if i < b {
      FirstInWindowIs(h, k, width, i + 1, b);
    }
  }

  // ----- Pastes: meaning of the queue -----

  datatype RejectedPasteWindow = RejectedPasteWindow(link: Link, millis: nat, keyboardCharactersBefore: nat)

  function PasteWindow(h: seq<Recorded>, p: nat): RejectedPasteWindow
    requires p < |h|
  {
    RejectedPasteWindow(h[p].link, h[p].millis, Before(h, p))
  }

  ghost predicate Settled(h: seq<Recorded>, p: nat) {
    Qualifies(h, p) || Expired(h, p)
  }

  /** The queue lists pastes of the stream, oldest first. */
  ghost predicate Listed(h: seq<Recorded>, open: seq<nat>, windows: seq<RejectedPasteWindow>) {
    && |open| == |windows|
    && (forall i, j | 0 <= i < j < |open| :: open[i] < open[j])
    && forall i | 0 <= i < |open| :: open[i] < |h| && h[open[i]].BlockedPaste? && windows[i] == PasteWindow(h, open[i])
  }

  /** Exactly the pastes that neither qualified nor expired are listed. */
  ghost predicate ListsUnsettled(h: seq<Recorded>, open: seq<nat>) {
    forall p | 0 <= p < |h| && h[p].BlockedPaste? :: p in open <==> !Settled(h, p)
  }

  ghost predicate OpenPastes(h: seq<Recorded>, open: seq<nat>, windows: seq<RejectedPasteWindow>) {
    Listed(h, open, windows) && ListsUnsettled(h, open)
  }

  lemma {:induction false} OtherSettles(h: seq<Recorded>, e: Recorded, p: nat)
    requires !e.Keyboard? && p <= |h|
    ensures Qualifies(h + [e], p) <==> p < |h| && Qualifies(h, p)
    ensures Settled(h + [e], p) <==> p < |h| && Settled(h, p)
    ensures Before(h + [e], p) == Before(h, p)
  {
    BeforeExtends(h, e, p);
    if p < |h| {
      QualifiesExtends(h, e, p);
      ExpiredExtends(h, e, p);
    }
  }

  lemma {:induction false} TypedPastesOther(h: seq<Recorded>, e: Recorded)
    requires !e.Keyboard?
    ensures TypedPastes(h + [e]) == TypedPastes(h)
  {
    forall p | 0 <= p <= |h|
      ensures Qualifies(h + [e], p) <==> p < |h| && Qualifies(h, p)
    {
      OtherSettles(h, e, p);
    }
  }

  lemma {:induction false} ListedExtends(h: seq<Recorded>, e: Recorded, open: seq<nat>,
                                         windows: seq<RejectedPasteWindow>)
    requires Listed(h, open, windows)
    ensures Listed(h + [e], open, windows)
  {
    forall p | 0 <= p <= |h|
      ensures Before(h + [e], p) == Before(h, p)
    {
      BeforeExtends(h, e, p);
    }
  }

  lemma {:induction false} OpenPastesOther(h: seq<Recorded>, e: Recorded, open: seq<nat>,
                                           windows: seq<RejectedPasteWindow>)
    requires OpenPastes(h, open, windows) && e.Other?
    ensures OpenPastes(h + [e], open, windows)
  {
    ListedExtends(h, e, open, windows);
    forall p | 0 <= p <= |h|
      ensures Settled(h + [e], p) <==> p < |h| && Settled(h, p)
    {
      OtherSettles(h, e, p);
    }
  }

  lemma {:induction false} ListedPush(h: seq<Recorded>, p: nat, open: seq<nat>, windows: seq<RejectedPasteWindow>)
    requires Listed(h, open, windows) && p < |h| && h[p].BlockedPaste?
    requires forall i | 0 <= i < |open| :: open[i] < p
    ensures Listed(h, open + [p], windows + [PasteWindow(h, p)])
  {
  }

  lemma {:induction false} UnsettledPush(h: seq<Recorded>, e: Recorded, open: seq<nat>)
    requires ListsUnsettled(h, open) && e.BlockedPaste?
    requires forall i | 0 <= i < |open| :: open[i] < |h|
    ensures ListsUnsettled(h + [e], open + [|h|])
  {
    var h', open' := h + [e], open + [|h|];
    forall p | 0 <= p < |h'| && h'[p].BlockedPaste?
      ensures p in open' <==> !Settled(h', p)
    {
      OtherSettles(h, e, p);
      if p == |h| {
        assert open'[|open|] == p;
      } else {
        assert h[p].BlockedPaste?;
      }
    }
  }

  lemma {:induction false} OpenPastesPush(h: seq<Recorded>, e: Recorded, open: seq<nat>,
                                          windows: seq<RejectedPasteWindow>)
    requires OpenPastes(h, open, windows) && e.BlockedPaste?
    ensures OpenPastes(h + [e], open + [|h|], windows + [RejectedPasteWindow(e.link, e.millis, Before(h, |h|))])
  {
    UnsettledPush(h, e, open);
    ListedExtends(h, e, open, windows);
    ListedPush(h + [e], |h|, open, windows);
    BeforeExtends(h, e, |h|);
  }

  /**
   * A paste that is older than a qualifying one, and whose window is still open, qualifies with it:
   * the qualifying pastes are a prefix of the queue.
   */
  lemma {:induction false} EarlierQualifies(h: seq<Recorded>, p: nat, q: nat, k: nat)
    requires p < q && QualifiesAt(h, q, k) && InsidePasteWindow(h, p, k)
    ensures QualifiesAt(h, p, k)
  {
    InWindowShrinks(h, k, TYPED_AFTER_REJECTED_PASTE_BURST_MILLIS, p + 1, q + 1, k + 1);
  }

  lemma {:induction false} InWindowShrinks(h: seq<Recorded>, k: nat, width: nat, from: nat, from': nat, until: nat)
    requires k < |h| && from <= from' && until <= |h|
    ensures InWindow(h, k, width, from, until) >= InWindow(h, k, width, from', until)
    decreases until
  {
    if until > from' {
      InWindowShrinks(h, k, width, from, from', until - 1);
    }
  }

  /** While no burst qualifies, no peak reaches the threshold. */
  lemma {:induction false} PeakBelow(h: seq<Recorded>, p: nat, until: nat)
    requires until <= |h| && forall k | 0 <= k < until :: !QualifiesAt(h, p, k)
    ensures Peak(h, p, until) < TYPED_AFTER_REJECTED_PASTE_CHARACTERS
  {
    if until > 0 {
      PeakBelow(h, p, until - 1);
      assert !QualifiesAt(h, p, until - 1);
    }
  }

  /** An expired paste never qualifies later: times do not decrease. */
  lemma {:induction false} ExpiredStaysOut(h: seq<Recorded>, e: Recorded, p: nat)
    requires Ordered(h + [e]) && p < |h| && Expired(h, p) && e.Keyboard?
    ensures !InsidePasteWindow(h + [e], p, |h|)
  {
    var k :| p < k < |h| && h[k].Keyboard? && !InsidePasteWindow(h, p, k);
    assert (h + [e])[k].millis <= (h + [e])[|h|].millis;
  }

  /** How one Keyboard transaction splits the queue: expired, then qualifying, then still open. */
  ghost predicate Split(h: seq<Recorded>, open: seq<nat>, n1: nat, n2: nat)
    requires h != []
  {
    var k := |h| - 1;
    && n1 <= n2 <= |open|
    && (forall i | 0 <= i < n1 :: !InsidePasteWindow(h, open[i], k))
    && (forall i | n1 <= i < n2 :: QualifiesAt(h, open[i], k))
    && forall i | n2 <= i < |open| :: InsidePasteWindow(h, open[i], k) && !QualifiesAt(h, open[i], k)
  }

  /** What becomes of a paste at a Keyboard transaction, by its place in the queue. */
  lemma {:induction false} KeyboardSettles(h: seq<Recorded>, e: Recorded, open: seq<nat>,
                                           windows: seq<RejectedPasteWindow>,
                        n1: nat, n2: nat, p: nat)
    requires Ordered(h + [e]) && OpenPastes(h, open, windows) && e.Keyboard? && Split(h + [e], open, n1, n2)
    requires p < |h| && h[p].BlockedPaste?
    ensures Qualifies(h + [e], p) <==> Qualifies(h, p) || p in open[n1..n2]
    ensures Settled(h + [e], p) <==> p !in open[n2..]
    ensures p in open[n1..n2] ==> !Qualifies(h, p)
  {
    QualifiesExtends(h, e, p);
    ExpiredExtends(h, e, p);
    if p in open {
      var i :| 0 <= i < |open| && open[i] == p;
      assert p in open[n1..n2] <==> n1 <= i < n2;
      assert p in open[n2..] <==> n2 <= i;
    } else if Expired(h, p) {
      ExpiredStaysOut(h, e, p);
    }
  }

  lemma {:induction false} QueueAfterKeyboard(h: seq<Recorded>, e: Recorded, open: seq<nat>,
                                              windows: seq<RejectedPasteWindow>, n1: nat, n2: nat)
    requires Ordered(h + [e]) && OpenPastes(h, open, windows) && e.Keyboard? && Split(h + [e], open, n1, n2)
    ensures OpenPastes(h + [e], open[n2..], windows[n2..])
  {
    ListedExtends(h, e, open, windows);
    forall p | 0 <= p < |h + [e]| && (h + [e])[p].BlockedPaste?
      ensures p in open[n2..] <==> !Settled(h + [e], p)
    {
      KeyboardSettles(h, e, open, windows, n1, n2, p);
    }
  }

  ghost function Elements(s: seq<nat>): set<nat> {
    set p | p in s
  }

  /** A Keyboard transaction adds exactly the qualifying stretch of the queue. */
  lemma {:induction false} TypedAfterKeyboard(h: seq<Recorded>, e: Recorded, open: seq<nat>,
                                              windows: seq<RejectedPasteWindow>, n1: nat, n2: nat)
    requires Ordered(h + [e]) && OpenPastes(h, open, windows) && e.Keyboard? && Split(h + [e], open, n1, n2)
    ensures TypedPastes(h + [e]) == TypedPastes(h) + Elements(open[n1..n2])
    ensures TypedPastes(h) !! Elements(open[n1..n2])
  {
    var h', added := h + [e], Elements(open[n1..n2]);
    forall p | 0 <= p < |h'|
      ensures p in TypedPastes(h') <==> p in TypedPastes(h) || p in added
      ensures p in added ==> p !in TypedPastes(h)
    {
      if h'[p].BlockedPaste? {
        KeyboardSettles(h, e, open, windows, n1, n2, p);
      }
    }
  }

  lemma {:induction false} TypedCount(h: seq<Recorded>, e: Recorded, open: seq<nat>, windows: seq<RejectedPasteWindow>,
                                      n1: nat, n2: nat)
    requires Ordered(h + [e]) && OpenPastes(h, open, windows) && e.Keyboard? && Split(h + [e], open, n1, n2)
    ensures |TypedPastes(h + [e])| == |TypedPastes(h)| + n2 - n1
  {
    TypedAfterKeyboard(h, e, open, windows, n1, n2);
    IncreasingCount(open[n1..n2]);
    DisjointCount(TypedPastes(h), Elements(open[n1..n2]));
  }

  lemma {:induction false} DisjointCount(s: set<nat>, t: set<nat>)
    requires s !! t
    ensures |s + t| == |s| + |t|
  {
  }

  lemma {:induction false} IncreasingCount(s: seq<nat>)
    requires forall i, j | 0 <= i < j < |s| :: s[i] < s[j]
    ensures |Elements(s)| == |s|
  {
    if s != [] {
      IncreasingCount(s[1..]);
      assert Elements(s) == {s[0]} + Elements(s[1..]);
      assert s[0] !in Elements(s[1..]);
    }
  }

  datatype TypedPaste = TypedPaste(window: RejectedPasteWindow, peakCharacters: nat)

  /** The remembered paste is the earliest qualifying one, with its peak so far. */
  ghost predicate FirstTyped(h: seq<Recorded>, q: nat, first: Option<TypedPaste>) {
    match first
    case None => TypedPastes(h) == {}
    case Some(typed) =>
      && q in TypedPastes(h) && (forall p | p in TypedPastes(h) :: q <= p)
      && typed == TypedPaste(PasteWindow(h, q), Peak(h, q, |h|))
  }

  lemma {:induction false} FirstTypedOther(h: seq<Recorded>, e: Recorded, q: nat, first: Option<TypedPaste>)
    requires FirstTyped(h, q, first) && !e.Keyboard?
    ensures FirstTyped(h + [e], q, first)
  {
    TypedPastesOther(h, e);
    if first.Some? {
      PeakExtends(h, e, q, |h|);
      BeforeExtends(h, e, q);
    }
  }

  /** A paste of the queue is younger than every paste that already qualified. */
  lemma {:induction false} OpenAreYounger(h: seq<Recorded>, q: nat, p: nat)
    requires Qualifies(h, q) && p < |h| && h[p].BlockedPaste? && !Settled(h, p)
    ensures q < p
  {
    var k :| QualifiesAt(h, q, k);
    if p < q {
      if InsidePasteWindow(h, p, k) {
        EarlierQualifies(h, p, q, k);
      }
      assert false;
    }
  }

  /** The remembered paste and its peak after a Keyboard transaction. */
  function NextFirst(h: seq<Recorded>, q: nat, peak: nat): Option<TypedPaste>
    requires q < |h|
  {
    var k := |h| - 1;
    Some(TypedPaste(PasteWindow(h, q),
                                 if InsidePasteWindow(h, q, k) then Max(peak, BurstAfter(h, q, k)) else peak))
  }

  lemma {:induction false} FirstTypedKept(h: seq<Recorded>, e: Recorded, open: seq<nat>,
                                          windows: seq<RejectedPasteWindow>,
                       n1: nat, n2: nat, q: nat, first: TypedPaste)
    requires Ordered(h + [e]) && OpenPastes(h, open, windows) && e.Keyboard? && Split(h + [e], open, n1, n2)
    requires FirstTyped(h, q, Some(first))
    ensures FirstTyped(h + [e], q, NextFirst(h + [e], q, first.peakCharacters))
  {
    TypedAfterKeyboard(h, e, open, windows, n1, n2);
    PeakExtends(h, e, q, |h|);
    BeforeExtends(h, e, q);
    forall p | p in Elements(open[n1..n2])
      ensures q <= p
    {
      OpenAreYounger(h, q, p);
    }
  }

  lemma {:induction false} FirstTypedFound(h: seq<Recorded>, e: Recorded, open: seq<nat>,
                                           windows: seq<RejectedPasteWindow>, n1: nat, n2: nat)
    requires Ordered(h + [e]) && OpenPastes(h, open, windows) && e.Keyboard? && Split(h + [e], open, n1, n2)
    requires TypedPastes(h) == {}
    ensures n1 == n2 ==> TypedPastes(h + [e]) == {}
    ensures n1 < n2 ==> FirstTyped(h + [e], open[n1], NextFirst(h + [e], open[n1], 0))
  {
    TypedAfterKeyboard(h, e, open, windows, n1, n2);
    if n1 < n2 {
      var p := open[n1];
      assert p == open[n1..n2][0];
      assert !Qualifies(h, p);
      PeakExtends(h, e, p, |h|);
      PeakBelow(h, p, |h|);
    }
  }

  // ----- States of the accumulator, as a function of the events seen -----

  function LastMillis(h: seq<Recorded>): nat {
    if h == [] then 0 else h[|h| - 1].millis
  }

  /** The attempt fits the accumulator: times do not decrease and its totals fit 64 bits. */
  predicate Fits(h: seq<Recorded>) {
    Ordered(h) && Before(h, |h|) <= U64_MAX && |h| <= U64_MAX
  }

  /**
   * A recorded attempt: its times do not decrease, it has at most a million events, and each transaction has at
   * most 1024 edits of at most 256 KiB, hence at most so many characters.
   */
  predicate Recordable(h: seq<Recorded>) {
    && Ordered(h) && |h| <= MAX_RPROV_EVENTS
    && forall i | 0 <= i < |h| :: Characters(h[i]) <= MAX_VECTOR_ITEMS * MAX_INSERTED_TEXT_BYTES
  }

  lemma {:induction false} BeforeBounded(h: seq<Recorded>, n: nat, most: nat)
    requires n <= |h| && forall i | 0 <= i < |h| :: Characters(h[i]) <= most
    ensures Before(h, n) <= n * most
  {
    if n > 0 {
      BeforeBounded(h, n - 1, most);
      assert n * most == (n - 1) * most + most;
    }
  }

  /** No counter of a recorded attempt can saturate: the recorded limits keep every total below 64 bits. */
  lemma {:induction false} RecordableFits(h: seq<Recorded>)
    requires Recordable(h)
    ensures Fits(h)
  {
    var most := MAX_VECTOR_ITEMS * MAX_INSERTED_TEXT_BYTES;
    BeforeBounded(h, |h|, most);
    assert |h| * most <= MAX_RPROV_EVENTS * most;
  }

  ghost predicate WindowState(h: seq<Recorded>, starts: seq<nat>, entries: seq<(nat, nat)>, width: nat) {
    Grouped(h, starts, entries) && OutsideBefore(h, From(h, starts), LastMillis(h), width)
  }

  /** An event only moves the end of the stream, so what was outside a window stays outside. */
  lemma {:induction false} OutsideExtends(h: seq<Recorded>, e: Recorded, b: nat, width: nat)
    requires Ordered(h + [e]) && OutsideBefore(h, b, LastMillis(h), width) && b <= |h|
    ensures OutsideBefore(h + [e], b, e.millis, width) && OutsideBefore(h, b, e.millis, width)
  {
    forall i | 0 <= i < b && h[i].Keyboard?
      ensures h[i].millis + width < e.millis
    {
      assert (h + [e])[|h| - 1].millis <= (h + [e])[|h|].millis;
    }
  }

  lemma {:induction false} WindowStateOther(h: seq<Recorded>, e: Recorded, starts: seq<nat>, entries: seq<(nat, nat)>,
                                            width: nat)
    requires Ordered(h + [e]) && WindowState(h, starts, entries, width) && !e.Keyboard?
    ensures WindowState(h + [e], starts, entries, width)
  {
    GroupedJoin(h, e, starts, entries);
    if starts != [] {
      assert entries[|entries| - 1 := (entries[|entries| - 1].0, entries[|entries| - 1].1 + 0)] == entries;
    }
    GroupedSum(h, starts, entries);
    OutsideExtends(h, e, From(h, starts), width);
  }

  /** A Keyboard transaction starts a run of its own. */
  lemma {:induction false} WindowPush(h: seq<Recorded>, e: Recorded, starts: seq<nat>, entries: seq<(nat, nat)>,
                                      width: nat)
    requires Ordered(h + [e]) && WindowState(h, starts, entries, width) && e.Keyboard?
    ensures WindowState(h + [e], starts + [|h|], entries + [(e.millis, e.characters)], width)
    ensures Sum(entries + [(e.millis, e.characters)]) == Sum(entries) + e.characters
    ensures Before(h + [e], |h| + 1) == Before(h, |h|) + e.characters >= Sum(entries) + e.characters
  {
    GroupedPush(h, e, starts, entries);
    GroupedSum(h, starts, entries);
    OutsideExtends(h, e, From(h, starts), width);
    BeforeExtends(h, e, |h|);
    SumLast(entries + [(e.millis, e.characters)]);
    assert (entries + [(e.millis, e.characters)])[..|entries|] == entries;
  }

  /** Dropping the oldest run when it is out of the window. */
  lemma {:induction false} WindowPop(h: seq<Recorded>, starts: seq<nat>, entries: seq<(nat, nat)>, width: nat)
    requires WindowState(h, starts, entries, width) && entries != [] && entries[0].0 + width < LastMillis(h)
    ensures starts != [] && WindowState(h, starts[1..], entries[1..], width)
    ensures Sum(entries) == entries[0].1 + Sum(entries[1..])
  {
    GroupedPop(h, starts, entries);
    OutsidePop(h, starts, entries, LastMillis(h), width);
  }

  /** A queue whose oldest run is inside the window ending at the last event. */
  ghost predicate Pruned(h: seq<Recorded>, starts: seq<nat>, entries: seq<(nat, nat)>, width: nat) {
    && WindowState(h, starts, entries, width)
    && h != [] && starts != [] && h[|h| - 1].millis <= entries[0].0 + width
  }

  /** Nothing before the oldest run is in the window, and the run is. */
  lemma {:induction false} PrunedBounds(h: seq<Recorded>, starts: seq<nat>, entries: seq<(nat, nat)>, width: nat)
    requires Pruned(h, starts, entries, width)
    ensures starts[0] < |h| && h[starts[0]].Keyboard? && h[|h| - 1].millis <= h[starts[0]].millis + width
    ensures OutsideBefore(h, starts[0], h[|h| - 1].millis, width)
    ensures Before(h, |h|) == Before(h, starts[0]) + Sum(entries)
  {
    GroupedSum(h, starts, entries);
    assert GroupAt(h, starts[0], RunEnd(h, starts, 0), entries[0]);
  }

  /** The queue's total is the window's total, and its oldest run starts the window. */
  lemma {:induction false} PrunedTotal(h: seq<Recorded>, starts: seq<nat>, entries: seq<(nat, nat)>, width: nat,
                                       from: nat)
    requires Ordered(h) && Pruned(h, starts, entries, width) && from <= |h|
    ensures Before(h, |h|) >= Sum(entries)
    ensures InWindow(h, |h| - 1, width, from, |h|)
            == SaturatingSub(Before(h, |h|), Max(Before(h, |h|) - Sum(entries), Before(h, from)))
    ensures FirstInWindow(h, |h| - 1, width, 0) == starts[0]
  {
    PrunedBounds(h, starts, entries, width);
    WindowIsDifference(h, |h| - 1, width, starts[0], from, |h|);
    FirstInWindowIs(h, |h| - 1, width, 0, starts[0]);
  }

  datatype KeyboardObservation = KeyboardObservation(link: Link, millis: nat, insertedCharacters: nat)

  function Stripped(rate: seq<KeyboardObservation>): seq<(nat, nat)> {
    seq(|rate|, i requires 0 <= i < |rate| => (rate[i].millis, rate[i].insertedCharacters))
  }

  /** Each entry keeps the link of the first transaction of its run. */
  ghost predicate Linked(h: seq<Recorded>, starts: seq<nat>, rate: seq<KeyboardObservation>) {
    |starts| == |rate| && forall i | 0 <= i < |rate| :: starts[i] < |h| && rate[i].link == h[starts[i]].link
  }

  function SaturatingTotal(rate: seq<KeyboardObservation>): nat {
    if rate == [] then 0
    else SaturatingAdd(SaturatingTotal(rate[..|rate| - 1]), rate[|rate| - 1].insertedCharacters)
  }

  lemma {:induction false} SumLast(entries: seq<(nat, nat)>)
    requires entries != []
    ensures Sum(entries) == Sum(entries[..|entries| - 1]) + entries[|entries| - 1].1
  {
    if |entries| > 1 {
      SumLast(entries[1..]);
      assert entries[1..][..|entries| - 2] == entries[..|entries| - 1][1..];
    } else {
      assert entries[1..] == [];
    }
  }

  lemma {:induction false} SaturatingTotalIsSum(rate: seq<KeyboardObservation>)
    requires Sum(Stripped(rate)) <= U64_MAX
    ensures SaturatingTotal(rate) == Sum(Stripped(rate))
  {
    if rate != [] {
      var init := rate[..|rate| - 1];
      assert Stripped(rate)[..|rate| - 1] == Stripped(init);
      SumLast(Stripped(rate));
      SaturatingTotalIsSum(init);
    }
  }

  function BlockedCount(h: seq<Recorded>, i: nat): nat
    requires i <= |h|
  {
    if i == 0 then 0 else BlockedCount(h, i - 1) + if h[i - 1].BlockedPaste? then 1 else 0
  }

  function FirstBlocked(h: seq<Recorded>, i: nat): Option<Link>
    requires i <= |h|
  {
    if i == 0 then None
    else if FirstBlocked(h, i - 1).Some? then FirstBlocked(h, i - 1)
    else if h[i - 1].BlockedPaste? then Some(h[i - 1].link) else None
  }

  lemma {:induction false} BlockedExtends(h: seq<Recorded>, e: Recorded, i: nat)
    requires i <= |h|
    ensures BlockedCount(h + [e], i) == BlockedCount(h, i) <= i && FirstBlocked(h + [e], i) == FirstBlocked(h, i)
  {
    if i > 0 {
      BlockedExtends(h, e, i - 1);
    }
  }

  // ----- The accumulator as a value -----

  datatype Accumulator = Accumulator(
    advisories: seq<AdvisoryFlag>,
    rateWindow: seq<KeyboardObservation>,
    firstKeyboardMillis: Option<nat>,
    rateAdvisoryActive: bool,
    rejectedPastes: nat,
    firstRejectedPaste: Option<Link>,
    keyboardCharacters: nat,
    burstWindow: seq<(nat, nat)>,
    burstCharacters: nat,
    rejectedPasteWindows: seq<RejectedPasteWindow>,
    typedAfterRejectedPastes: nat,
    firstTyped: Option<TypedPaste>)

  const EMPTY := Accumulator([], [], None, false, 0, None, 0, [], 0, [], 0, None)

  predicate PasteExpired(window: RejectedPasteWindow, now: nat) {
    SaturatingSub(now, window.millis) > TYPED_AFTER_REJECTED_PASTE_WINDOW_MILLIS
  }

  function DropExpired(windows: seq<RejectedPasteWindow>, now: nat): seq<RejectedPasteWindow> {
    if windows != [] && PasteExpired(windows[0], now) then DropExpired(windows[1..], now) else windows
  }

  /** Drops what fell out of the burst window, with its characters. */
  function Slide(entries: seq<(nat, nat)>, characters: nat, now: nat): (seq<(nat, nat)>, nat) {
    if entries != [] && SaturatingSub(now, entries[0].0) > TYPED_AFTER_REJECTED_PASTE_BURST_MILLIS
    then Slide(entries[1..], SaturatingSub(characters, entries[0].1), now) else (entries, characters)
  }

  function AfterPasteInBurst(window: RejectedPasteWindow, total: nat, beforeBurst: nat): nat {
    SaturatingSub(total, Max(beforeBurst, window.keyboardCharactersBefore))
  }

  /** The oldest pastes leave the queue while enough was typed after them. */
  function TakeQualifying(a: Accumulator, beforeBurst: nat): Accumulator
    decreases |a.rejectedPasteWindows|
  {
    var windows := a.rejectedPasteWindows;
    if windows != []
       && AfterPasteInBurst(windows[0], a.keyboardCharacters, beforeBurst) >= TYPED_AFTER_REJECTED_PASTE_CHARACTERS
    then TakeQualifying(a.(rejectedPasteWindows := windows[1..],
                           typedAfterRejectedPastes := SaturatingAdd(a.typedAfterRejectedPastes, 1),
                           firstTyped := if a.firstTyped.None? then Some(TypedPaste(windows[0], 0)) else a.firstTyped),
                        beforeBurst)
    else a
  }

  function RaisePeak(a: Accumulator, now: nat, beforeBurst: nat): Accumulator {
    if a.firstTyped.Some? && !PasteExpired(a.firstTyped.value.window, now)
    then var first := a.firstTyped.value;
         a.(firstTyped := Some(first.(peakCharacters :=
           Max(first.peakCharacters, AfterPasteInBurst(first.window, a.keyboardCharacters, beforeBurst)))))
    else a
  }

  /** Tallies one Keyboard transaction toward the advisory on typing after blocked pastes. */
  function ObserveTyping(a: Accumulator, now: nat, characters: nat): Accumulator {
    var burst := Slide(a.burstWindow + [(now, characters)], SaturatingAdd(a.burstCharacters, characters), now);
    var a' := a.(rejectedPasteWindows := DropExpired(a.rejectedPasteWindows, now),
                 keyboardCharacters := SaturatingAdd(a.keyboardCharacters, characters),
                 burstWindow := burst.0, burstCharacters := burst.1);
    var beforeBurst := SaturatingSub(a'.keyboardCharacters, a'.burstCharacters);
    RaisePeak(TakeQualifying(a', beforeBurst), now, beforeBurst)
  }

  function PruneRate(rate: seq<KeyboardObservation>, now: nat): seq<KeyboardObservation> {
    if rate != [] && SaturatingSub(now, rate[0].millis) > SUSTAINED_HIGH_RATE_WINDOW_MILLIS
    then PruneRate(rate[1..], now) else rate
  }

  /** Transactions of the same millisecond share one entry. */
  function Coalesce(rate: seq<KeyboardObservation>, next: KeyboardObservation): seq<KeyboardObservation> {
    var last := |rate| - 1;
    if rate != [] && rate[last].millis == next.millis
    then rate[last := rate[last].(insertedCharacters := SaturatingAdd(rate[last].insertedCharacters,
        next.insertedCharacters))]
    else rate + [next]
  }

  /** Raises the rate advisory when a full window was observed and holds too much, once per stretch. */
  function JudgeRate(a: Accumulator, now: nat): Accumulator
    requires a.firstKeyboardMillis.Some? && a.rateWindow != []
  {
    var inserted := SaturatingTotal(a.rateWindow);
    var qualifies :=
      SaturatingSub(now, a.firstKeyboardMillis.value) >= SUSTAINED_HIGH_RATE_WINDOW_MILLIS && inserted > RATE_THRESHOLD;
    if qualifies && !a.rateAdvisoryActive
    then a.(rateAdvisoryActive := true,
            advisories := a.advisories + [AdvisoryFlag(SustainedHighRate, a.rateWindow[0].link, Rate(inserted))])
    else a.(rateAdvisoryActive := qualifies)
  }

  function ObserveRate(a: Accumulator, next: KeyboardObservation): Accumulator {
    JudgeRate(a.(firstKeyboardMillis := if a.firstKeyboardMillis.None? then Some(next.millis)
        else a.firstKeyboardMillis,
                 rateWindow := Coalesce(PruneRate(a.rateWindow, next.millis), next)),
              next.millis)
  }

  function ObserveRejectedPaste(a: Accumulator, link: Link, now: nat): Accumulator {
    a.(rejectedPastes := SaturatingAdd(a.rejectedPastes, 1),
       firstRejectedPaste := if a.firstRejectedPaste.None? then Some(link) else a.firstRejectedPaste,
       rejectedPasteWindows := a.rejectedPasteWindows + [RejectedPasteWindow(link, now, a.keyboardCharacters)])
  }

  function LargeFlag(link: Link, bytes: nat): seq<AdvisoryFlag> {
    if bytes >= LARGE_SINGLE_INSERTION_BYTES then [AdvisoryFlag(LargeSingleInsertion, link, Bytes(bytes))] else []
  }

  /** A Keyboard transaction after its typing was tallied: the size advisory, then the rate. */
  function ObserveEntry(a: Accumulator, link: Link, now: nat, bytes: nat, characters: nat): Accumulator {
    ObserveRate(a.(advisories := a.advisories + LargeFlag(link, bytes)), KeyboardObservation(link, now, characters))
  }

  function ObserveKeyboard(a: Accumulator, link: Link, now: nat, bytes: nat, characters: nat): Accumulator {
    ObserveEntry(ObserveTyping(a, now, characters), link, now, bytes, characters)
  }

  function Observe(a: Accumulator, e: Recorded): Accumulator {
    match e
    case BlockedPaste(link, now) => ObserveRejectedPaste(a, link, now)
    case Keyboard(link, now, bytes, characters) => ObserveKeyboard(a, link, now, bytes, characters)
    case Other(_, _) => a
  }

  function Run(h: seq<Recorded>): Accumulator {
    if h == [] then EMPTY else Observe(Run(h[..|h| - 1]), h[|h| - 1])
  }

  // ----- What the accumulator holds after a stream -----

  ghost predicate BurstMeans(h: seq<Recorded>, a: Accumulator, starts: seq<nat>) {
    && WindowState(h, starts, a.burstWindow, TYPED_AFTER_REJECTED_PASTE_BURST_MILLIS)
    && a.burstCharacters == Sum(a.burstWindow) && a.keyboardCharacters == Before(h, |h|)
  }

  ghost predicate PastesMean(h: seq<Recorded>, a: Accumulator, open: seq<nat>, q: nat) {
    && OpenPastes(h, open, a.rejectedPasteWindows)
    && a.typedAfterRejectedPastes == |TypedPastes(h)|
    && FirstTyped(h, q, a.firstTyped)
  }

  ghost predicate RateQueueMeans(h: seq<Recorded>, rate: seq<KeyboardObservation>, starts: seq<nat>) {
    WindowState(h, starts, Stripped(rate), SUSTAINED_HIGH_RATE_WINDOW_MILLIS) && Linked(h, starts, rate)
  }

  ghost predicate RateMeans(h: seq<Recorded>, a: Accumulator) {
    && a.firstKeyboardMillis == FirstKeyboardMillis(h, |h|)
    && a.rateAdvisoryActive == RateActive(h, |h|)
    && a.advisories == Flags(h, |h|)
  }

  ghost predicate BlockedMeans(h: seq<Recorded>, a: Accumulator) {
    a.rejectedPastes == BlockedCount(h, |h|) && a.firstRejectedPaste == FirstBlocked(h, |h|)
  }

  // Sliding the burst window.

  ghost predicate SlidTo(h: seq<Recorded>, starts: seq<nat>, slid: (seq<(nat, nat)>, nat)) {
    Pruned(h, starts, slid.0, TYPED_AFTER_REJECTED_PASTE_BURST_MILLIS) && slid.1 == Sum(slid.0)
  }

  lemma {:induction false} SlideMeans(h: seq<Recorded>, starts: seq<nat>, entries: seq<(nat, nat)>)
    returns (starts': seq<nat>)
    requires WindowState(h, starts, entries, TYPED_AFTER_REJECTED_PASTE_BURST_MILLIS)
    requires h != [] && entries != [] && entries[|entries| - 1].0 == LastMillis(h)
    ensures SlidTo(h, starts', Slide(entries, Sum(entries), LastMillis(h)))
    decreases |entries|
  {
    if SaturatingSub(LastMillis(h), entries[0].0) > TYPED_AFTER_REJECTED_PASTE_BURST_MILLIS {
      WindowPop(h, starts, entries, TYPED_AFTER_REJECTED_PASTE_BURST_MILLIS);
      assert |entries| > 1 && SaturatingSub(Sum(entries), entries[0].1) == Sum(entries[1..]);
      starts' := SlideMeans(h, starts[1..], entries[1..]);
    } else {
      starts' := starts;
      assert SlidTo(h, starts, (entries, Sum(entries)));
    }
  }

  /** After the burst window slid, the accumulator reads off the characters after each paste. */
  lemma {:induction false} ReadAfterPaste(h: seq<Recorded>, entries: seq<(nat, nat)>, starts: seq<nat>, p: nat)
    requires Ordered(h) && Pruned(h, starts, entries, TYPED_AFTER_REJECTED_PASTE_BURST_MILLIS)
    requires p < |h| && h[p].BlockedPaste?
    ensures AfterPasteInBurst(PasteWindow(h, p), Before(h, |h|), SaturatingSub(Before(h, |h|), Sum(entries)))
            == BurstAfter(h, p, |h| - 1)
  {
    PasteAddsNothing(h, p);
    PrunedTotal(h, starts, entries, TYPED_AFTER_REJECTED_PASTE_BURST_MILLIS, p + 1);
  }

  lemma {:induction false} PasteAddsNothing(h: seq<Recorded>, p: nat)
    requires p < |h| && h[p].BlockedPaste?
    ensures Before(h, p + 1) == PasteWindow(h, p).keyboardCharactersBefore
    ensures BurstAfter(h, p, |h| - 1) == InWindow(h, |h| - 1, TYPED_AFTER_REJECTED_PASTE_BURST_MILLIS, p + 1, |h|)
  {
  }

  lemma {:induction false} BurstStep(h: seq<Recorded>, e: Recorded, a: Accumulator, starts: seq<nat>)
    returns (starts': seq<nat>)
    requires Fits(h + [e]) && BurstMeans(h, a, starts) && e.Keyboard?
    ensures SlidTo(h + [e], starts', Slide(a.burstWindow + [(e.millis, e.characters)],
                                           SaturatingAdd(a.burstCharacters, e.characters), e.millis))
    ensures SaturatingAdd(a.keyboardCharacters, e.characters) == Before(h + [e], |h| + 1)
  {
    var pushed := a.burstWindow + [(e.millis, e.characters)];
    WindowPush(h, e, starts, a.burstWindow, TYPED_AFTER_REJECTED_PASTE_BURST_MILLIS);
    assert SaturatingAdd(a.burstCharacters, e.characters) == Sum(pushed);
    assert LastMillis(h + [e]) == e.millis == pushed[|pushed| - 1].0;
    starts' := SlideMeans(h + [e], starts + [|h|], pushed);
  }

  // Splitting the queue of pastes.

  lemma {:induction false} DropExpiredSplits(h: seq<Recorded>, open: seq<nat>, windows: seq<RejectedPasteWindow>,
                                             n: nat)
    returns (n1: nat)
    requires Ordered(h) && Listed(h, open, windows) && n <= |open|
    requires h != [] && h[|h| - 1].Keyboard?
    requires forall i | 0 <= i < n :: !InsidePasteWindow(h, open[i], |h| - 1)
    ensures n1 <= |open| && DropExpired(windows[n..], LastMillis(h)) == windows[n1..]
    ensures forall i | 0 <= i < |open| :: InsidePasteWindow(h, open[i], |h| - 1) <==> n1 <= i
    decreases |open| - n
  {
    if n < |open| && PasteExpired(windows[n], LastMillis(h)) {
      assert windows[n..][1..] == windows[n + 1..];
      n1 := DropExpiredSplits(h, open, windows, n + 1);
    } else {
      n1 := n;
      forall i | n <= i < |open|
        ensures InsidePasteWindow(h, open[i], |h| - 1)
      {
        assert h[open[n]].millis <= h[open[i]].millis;
      }
    }
  }

  /** The accumulator's reading of each queued paste is the burst after it. */
  ghost predicate Reads(h: seq<Recorded>, open: seq<nat>, windows: seq<RejectedPasteWindow>, total: nat,
                        beforeBurst: nat)
    requires h != [] && |open| == |windows|
  {
    forall i | 0 <= i < |open| :: AfterPasteInBurst(windows[i], total, beforeBurst) == BurstAfter(h, open[i], |h| - 1)
  }

  function Taken(a: Accumulator, windows: seq<RejectedPasteWindow>, n: nat, n2: nat): Accumulator
    requires n <= n2 <= |windows|
  {
    a.(rejectedPasteWindows := windows[n2..],
       typedAfterRejectedPastes := a.typedAfterRejectedPastes + (n2 - n),
       firstTyped := if a.firstTyped.None? && n < n2 then Some(TypedPaste(windows[n], 0)) else a.firstTyped)
  }

  lemma {:induction false} TakeSplits(h: seq<Recorded>, open: seq<nat>, windows: seq<RejectedPasteWindow>,
                                      a: Accumulator, beforeBurst: nat, n: nat)
    returns (n2: nat)
    requires Listed(h, open, windows) && n <= |open| && a.rejectedPasteWindows == windows[n..]
    requires h != [] && Reads(h, open, windows, a.keyboardCharacters, beforeBurst)
    requires forall i | n <= i < |open| :: InsidePasteWindow(h, open[i], |h| - 1)
    requires a.typedAfterRejectedPastes + (|open| - n) <= U64_MAX
    ensures n <= n2 <= |open| && TakeQualifying(a, beforeBurst) == Taken(a, windows, n, n2)
    ensures forall i | n <= i < n2 :: QualifiesAt(h, open[i], |h| - 1)
    ensures forall i | n2 <= i < |open| :: !QualifiesAt(h, open[i], |h| - 1)
    decreases |open| - n
  {
    n2 := n;
    if n < |open| {
      assert windows[n..][0] == windows[n] && windows[n..][1..] == windows[n + 1..];
      if QualifiesAt(h, open[n], |h| - 1) {
        var a' := Taken(a, windows, n, n + 1);
        n2 := TakeSplits(h, open, windows, a', beforeBurst, n + 1);
        assert TakeQualifying(a, beforeBurst) == TakeQualifying(a', beforeBurst);
      } else {
        forall i | n < i < |open|
          ensures !QualifiesAt(h, open[i], |h| - 1)
        {
          if QualifiesAt(h, open[i], |h| - 1) {
            EarlierQualifies(h, open[n], open[i], |h| - 1);
          }
        }
      }
    }
  }

  /** Queued and typed pastes are different pastes of the stream. */
  lemma {:induction false} QueueBounded(h: seq<Recorded>, open: seq<nat>, windows: seq<RejectedPasteWindow>)
    requires OpenPastes(h, open, windows)
    ensures |TypedPastes(h)| + |open| <= |h|
  {
    IncreasingCount(open);
    assert TypedPastes(h) !! Elements(open) by {
      forall p | p in TypedPastes(h)
        ensures p !in Elements(open)
      {
        assert Settled(h, p);
      }
    }
    BoundedCount(TypedPastes(h) + Elements(open), |h|);
  }

  lemma {:induction false} BoundedCount(s: set<nat>, n: nat)
    requires forall x | x in s :: x < n
    ensures |s| <= n
  {
    if n > 0 {
      BoundedCount(s - {n - 1}, n - 1);
    } else {
      assert s == {};
    }
  }

  /** What the queue and the remembered paste become, given how the transaction splits the queue. */
  function AfterSplit(h: seq<Recorded>, a: Accumulator, open: seq<nat>, n1: nat, n2: nat, q: nat): Accumulator
    requires h != [] && n1 <= n2 <= |a.rejectedPasteWindows| == |open|
    requires forall i | 0 <= i < |open| :: open[i] < |h|
    requires a.firstTyped.Some? ==> q < |h|
  {
    a.(rejectedPasteWindows := a.rejectedPasteWindows[n2..],
       typedAfterRejectedPastes := a.typedAfterRejectedPastes + (n2 - n1),
       firstTyped := if a.firstTyped.Some? then NextFirst(h, q, a.firstTyped.value.peakCharacters)
                     else if n1 < n2 then NextFirst(h, open[n1], 0) else None)
  }

  lemma {:induction false} AfterSplitMeans(h: seq<Recorded>, e: Recorded, a: Accumulator, open: seq<nat>, n1: nat,
                                           n2: nat, q: nat)
    requires Ordered(h + [e]) && e.Keyboard? && PastesMean(h, a, open, q) && Split(h + [e], open, n1, n2)
    ensures PastesMean(h + [e], AfterSplit(h + [e], a, open, n1, n2, q), open[n2..],
                       if a.firstTyped.None? && n1 < n2 then open[n1] else q)
  {
    QueueAfterKeyboard(h, e, open, a.rejectedPasteWindows, n1, n2);
    TypedCount(h, e, open, a.rejectedPasteWindows, n1, n2);
    if a.firstTyped.Some? {
      FirstTypedKept(h, e, open, a.rejectedPasteWindows, n1, n2, q, a.firstTyped.value);
    } else {
      FirstTypedFound(h, e, open, a.rejectedPasteWindows, n1, n2);
    }
  }

  /** The peak is raised exactly by the burst ending at this transaction. */
  lemma {:induction false} RaisePeakIs(h: seq<Recorded>, a: Accumulator, entries: seq<(nat, nat)>, starts: seq<nat>,
                                       q: nat, peak: nat)
    requires Ordered(h) && Pruned(h, starts, entries, TYPED_AFTER_REJECTED_PASTE_BURST_MILLIS)
    requires h[|h| - 1].Keyboard? && q < |h| - 1 && h[q].BlockedPaste? && a.keyboardCharacters == Before(h, |h|)
    requires a.firstTyped == Some(TypedPaste(PasteWindow(h, q), peak))
    ensures RaisePeak(a, LastMillis(h), SaturatingSub(a.keyboardCharacters, Sum(entries)))
            == a.(firstTyped := NextFirst(h, q, peak))
  {
    ReadAfterPaste(h, entries, starts, q);
    assert h[q].millis <= h[|h| - 1].millis;
  }

  lemma {:induction false} ReadsQueue(h: seq<Recorded>, open: seq<nat>, windows: seq<RejectedPasteWindow>,
                   entries: seq<(nat, nat)>, starts: seq<nat>)
    requires Ordered(h) && Pruned(h, starts, entries, TYPED_AFTER_REJECTED_PASTE_BURST_MILLIS)
            && Listed(h, open, windows)
    ensures Reads(h, open, windows, Before(h, |h|), SaturatingSub(Before(h, |h|), Sum(entries)))
  {
    forall i | 0 <= i < |open|
      ensures AfterPasteInBurst(windows[i], Before(h, |h|), SaturatingSub(Before(h, |h|), Sum(entries)))
              == BurstAfter(h, open[i], |h| - 1)
    {
      ReadAfterPaste(h, entries, starts, open[i]);
    }
  }

  /** The accumulator with the burst window slid to a Keyboard transaction, before it looks at the queue. */
  function Slid(a: Accumulator, now: nat, characters: nat): Accumulator {
    var burst := Slide(a.burstWindow + [(now, characters)], SaturatingAdd(a.burstCharacters, characters), now);
    a.(keyboardCharacters := SaturatingAdd(a.keyboardCharacters, characters),
       burstWindow := burst.0, burstCharacters := burst.1)
  }

  lemma {:induction false} TypingSplits(h: seq<Recorded>, e: Recorded, a: Accumulator, starts: seq<nat>, open: seq<nat>,
                                        q: nat)
    returns (starts': seq<nat>, n1: nat, n2: nat)
    requires Fits(h + [e]) && e.Keyboard? && BurstMeans(h, a, starts) && PastesMean(h, a, open, q)
    ensures Split(h + [e], open, n1, n2)
    ensures ObserveTyping(a, e.millis, e.characters)
            == AfterSplit(h + [e], Slid(a, e.millis, e.characters), open, n1, n2, q)
    ensures BurstMeans(h + [e], Slid(a, e.millis, e.characters), starts')
  {
    var h', windows := h + [e], a.rejectedPasteWindows;
    var slid := Slid(a, e.millis, e.characters);
    starts' := BurstStep(h, e, a, starts);
    ListedExtends(h, e, open, windows);
    n1 := DropExpiredSplits(h', open, windows, 0);
    assert windows[0..] == windows;
    ReadsQueue(h', open, windows, slid.burstWindow, starts');
    QueueBounded(h, open, windows);
    var beforeBurst := SaturatingSub(slid.keyboardCharacters, slid.burstCharacters);
    var queued := slid.(rejectedPasteWindows := windows[n1..]);
    n2 := TakeSplits(h', open, windows, queued, beforeBurst, n1);
    var taken := Taken(queued, windows, n1, n2);
    if a.firstTyped.Some? {
      BeforeExtends(h, e, q);
      RaisePeakIs(h', taken, slid.burstWindow, starts', q, a.firstTyped.value.peakCharacters);
    } else if n1 < n2 {
      RaisePeakIs(h', taken, slid.burstWindow, starts', open[n1], 0);
    }
  }

  // The rate queue.

  lemma {:induction false} StrippedTail(rate: seq<KeyboardObservation>)
    requires rate != []
    ensures Stripped(rate)[1..] == Stripped(rate[1..])
  {
  }

  lemma {:induction false} PruneRateMeans(h: seq<Recorded>, starts: seq<nat>, rate: seq<KeyboardObservation>, now: nat)
    returns (starts': seq<nat>)
    requires Grouped(h, starts, Stripped(rate)) && Linked(h, starts, rate)
    requires OutsideBefore(h, From(h, starts), now, SUSTAINED_HIGH_RATE_WINDOW_MILLIS)
    ensures var pruned := PruneRate(rate, now);
      && Grouped(h, starts', Stripped(pruned)) && Linked(h, starts', pruned)
      && OutsideBefore(h, From(h, starts'), now, SUSTAINED_HIGH_RATE_WINDOW_MILLIS)
      && (pruned != [] ==> now <= pruned[0].millis + SUSTAINED_HIGH_RATE_WINDOW_MILLIS)
  {
    starts' := starts;
    if rate != [] && SaturatingSub(now, rate[0].millis) > SUSTAINED_HIGH_RATE_WINDOW_MILLIS {
      GroupedPop(h, starts, Stripped(rate));
      OutsidePop(h, starts, Stripped(rate), now, SUSTAINED_HIGH_RATE_WINDOW_MILLIS);
      StrippedTail(rate);
      starts' := PruneRateMeans(h, starts[1..], rate[1..], now);
    }
  }

  lemma {:induction false} CoalesceJoins(h: seq<Recorded>, e: Recorded, starts: seq<nat>,
                                         rate: seq<KeyboardObservation>)
    requires Fits(h + [e]) && e.Keyboard? && Grouped(h, starts, Stripped(rate))
    requires rate != [] && rate[|rate| - 1].millis == e.millis
    ensures var next := Coalesce(rate, KeyboardObservation(e.link, e.millis, e.characters));
      && Grouped(h + [e], starts, Stripped(next))
      && |next| == |rate| && forall i | 0 <= i < |rate| ::
         next[i].link == rate[i].link && next[i].millis == rate[i].millis
  {
    var next, last := Coalesce(rate, KeyboardObservation(e.link, e.millis, e.characters)), |rate| - 1;
    GroupedJoin(h, e, starts, Stripped(rate));
    assert GroupAt(h, starts[last], RunEnd(h, starts, last), Stripped(rate)[last]);
    BeforeExtends(h, e, |h|);
    assert SaturatingAdd(rate[last].insertedCharacters, e.characters) == rate[last].insertedCharacters + e.characters;
    assert Stripped(next) == Stripped(rate)[last := (e.millis, rate[last].insertedCharacters + e.characters)];
  }

  lemma {:induction false} CoalescePushes(h: seq<Recorded>, e: Recorded, starts: seq<nat>,
                                          rate: seq<KeyboardObservation>)
    requires e.Keyboard? && Grouped(h, starts, Stripped(rate))
    ensures Grouped(h + [e], starts + [|h|], Stripped(rate + [KeyboardObservation(e.link, e.millis, e.characters)]))
  {
    GroupedPush(h, e, starts, Stripped(rate));
    assert Stripped(rate + [KeyboardObservation(e.link, e.millis, e.characters)])
           == Stripped(rate) + [(e.millis, e.characters)];
  }

  lemma {:induction false} LinkedJoins(h: seq<Recorded>, h': seq<Recorded>, starts: seq<nat>,
                                       rate: seq<KeyboardObservation>, next: seq<KeyboardObservation>)
    requires Linked(h, starts, rate) && h <= h' && |next| == |rate|
    requires forall i | 0 <= i < |rate| :: next[i].link == rate[i].link
    ensures Linked(h', starts, next)
  {
  }

  lemma {:induction false} LinkedPushes(h: seq<Recorded>, e: Recorded, starts: seq<nat>,
                                        rate: seq<KeyboardObservation>, next: KeyboardObservation)
    requires Linked(h, starts, rate) && next.link == e.link
    ensures Linked(h + [e], starts + [|h|], rate + [next])
  {
  }

  lemma {:induction false} CoalesceMeans(h: seq<Recorded>, e: Recorded, starts: seq<nat>,
                                         rate: seq<KeyboardObservation>)
    returns (starts': seq<nat>)
    requires Fits(h + [e]) && e.Keyboard? && Grouped(h, starts, Stripped(rate)) && Linked(h, starts, rate)
    ensures var next := Coalesce(rate, KeyboardObservation(e.link, e.millis, e.characters));
      && Grouped(h + [e], starts', Stripped(next)) && Linked(h + [e], starts', next)
      && starts' != [] && starts'[0] == From(h, starts)
      && next[0].millis == if rate == [] then e.millis else rate[0].millis
  {
    if rate != [] && rate[|rate| - 1].millis == e.millis {
      starts' := starts;
      CoalesceJoins(h, e, starts, rate);
      LinkedJoins(h, h + [e], starts, rate, Coalesce(rate, KeyboardObservation(e.link, e.millis, e.characters)));
    } else {
      starts' := starts + [|h|];
      CoalescePushes(h, e, starts, rate);
      LinkedPushes(h, e, starts, rate, KeyboardObservation(e.link, e.millis, e.characters));
    }
  }

  lemma {:induction false} RateWindowStep(h: seq<Recorded>, e: Recorded, rate: seq<KeyboardObservation>,
                                          starts: seq<nat>)
    returns (starts': seq<nat>)
    requires Fits(h + [e]) && e.Keyboard? && RateQueueMeans(h, rate, starts)
    ensures var next := Coalesce(PruneRate(rate, e.millis), KeyboardObservation(e.link, e.millis, e.characters));
      && Linked(h + [e], starts', next) && next != []
      && Pruned(h + [e], starts', Stripped(next), SUSTAINED_HIGH_RATE_WINDOW_MILLIS)
  {
    OutsideBounds(h, starts, Stripped(rate));
    OutsideExtends(h, e, From(h, starts), SUSTAINED_HIGH_RATE_WINDOW_MILLIS);
    var pruned := PruneRateMeans(h, starts, rate, e.millis);
    OutsideBounds(h, pruned, Stripped(PruneRate(rate, e.millis)));
    starts' := CoalesceMeans(h, e, pruned, PruneRate(rate, e.millis));
  }

  lemma {:induction false} OutsideBounds(h: seq<Recorded>, starts: seq<nat>, entries: seq<(nat, nat)>)
    requires Grouped(h, starts, entries)
    ensures From(h, starts) <= |h|
  {
  }

  /** What one Keyboard transaction adds to the meaning of the rate. */
  lemma {:induction false} RateMeaning(h: seq<Recorded>, e: Recorded, rate: seq<KeyboardObservation>, starts: seq<nat>)
    requires Fits(h + [e]) && e.Keyboard? && Linked(h + [e], starts, rate) && rate != []
    requires Pruned(h + [e], starts, Stripped(rate), SUSTAINED_HIGH_RATE_WINDOW_MILLIS)
    ensures SaturatingTotal(rate) == InWindow(h + [e], |h|, SUSTAINED_HIGH_RATE_WINDOW_MILLIS, 0, |h| + 1)
    ensures rate[0].link == (h + [e])[FirstInWindow(h + [e], |h|, SUSTAINED_HIGH_RATE_WINDOW_MILLIS, 0)].link
  {
    PrunedTotal(h + [e], starts, Stripped(rate), SUSTAINED_HIGH_RATE_WINDOW_MILLIS, 0);
    SaturatingTotalIsSum(rate);
  }

  lemma {:induction false} RateStep(h: seq<Recorded>, e: Recorded, a: Accumulator, starts: seq<nat>)
    returns (starts': seq<nat>)
    requires Fits(h + [e]) && e.Keyboard? && RateMeans(h, a) && RateQueueMeans(h, a.rateWindow, starts)
    ensures RateMeans(h + [e], ObserveEntry(a, e.link, e.millis, e.bytes, e.characters))
    ensures RateQueueMeans(h + [e], ObserveEntry(a, e.link, e.millis, e.bytes, e.characters).rateWindow, starts')
  {
    var rate := Coalesce(PruneRate(a.rateWindow, e.millis), KeyboardObservation(e.link, e.millis, e.characters));
    starts' := RateWindowStep(h, e, a.rateWindow, starts);
    RateMeaning(h, e, rate, starts');
    RateFlags(h, e, a, rate);
    EntryQueue(a, e);
    PrunedQueue(h + [e], rate, starts');
  }

  lemma {:induction false} EntryQueue(a: Accumulator, e: Recorded)
    requires e.Keyboard?
    ensures ObserveEntry(a, e.link, e.millis, e.bytes, e.characters).rateWindow
            == Coalesce(PruneRate(a.rateWindow, e.millis), KeyboardObservation(e.link, e.millis, e.characters))
  {
  }

  lemma {:induction false} PrunedQueue(h: seq<Recorded>, rate: seq<KeyboardObservation>, starts: seq<nat>)
    requires Linked(h, starts, rate) && Pruned(h, starts, Stripped(rate), SUSTAINED_HIGH_RATE_WINDOW_MILLIS)
    ensures RateQueueMeans(h, rate, starts)
  {
  }

  /** What one Keyboard transaction adds to the stream's meaning. */
  lemma {:induction false} StreamStep(h: seq<Recorded>, e: Recorded)
    requires e.Keyboard?
    ensures var h' := h + [e];
      && FirstKeyboardMillis(h', |h'|)
         == Some(if FirstKeyboardMillis(h, |h|).None? then e.millis else FirstKeyboardMillis(h, |h|).value)
      && RateActive(h', |h'|) == RateQualifies(h', |h|) && RateActive(h', |h|) == RateActive(h, |h|)
      && Flags(h', |h'|) == Flags(h, |h|) + FlagsAt(h', |h|)
  {
    FirstKeyboardExtends(h, e, |h|);
    RateActiveExtends(h, e, |h|);
    FlagsExtend(h, e, |h|);
  }

  /** The rate and the advisory read off the queue are those of the stream. */
  lemma {:induction false} RateFlags(h: seq<Recorded>, e: Recorded, a: Accumulator, rate: seq<KeyboardObservation>)
    requires Ordered(h + [e]) && e.Keyboard? && rate != [] && RateMeans(h, a)
    requires rate == Coalesce(PruneRate(a.rateWindow, e.millis), KeyboardObservation(e.link, e.millis, e.characters))
    requires SaturatingTotal(rate) == InWindow(h + [e], |h|, SUSTAINED_HIGH_RATE_WINDOW_MILLIS, 0, |h| + 1)
    requires rate[0].link == (h + [e])[FirstInWindow(h + [e], |h|, SUSTAINED_HIGH_RATE_WINDOW_MILLIS, 0)].link
    ensures RateMeans(h + [e], ObserveEntry(a, e.link, e.millis, e.bytes, e.characters))
  {
    var h' := h + [e];
    StreamStep(h, e);
    var entered := a.(firstKeyboardMillis := FirstKeyboardMillis(h', |h'|), rateWindow := rate,
                      advisories := a.advisories + LargeFlag(e.link, e.bytes));
    assert ObserveEntry(a, e.link, e.millis, e.bytes, e.characters) == JudgeRate(entered, e.millis);
    JudgeRateFlags(h', entered, Flags(h, |h|));
  }

  /** Judging the rate raises what the last event of the stream raises. */
  lemma {:induction false} JudgeRateFlags(h: seq<Recorded>, a: Accumulator, flags: seq<AdvisoryFlag>)
    requires h != [] && h[|h| - 1].Keyboard? && a.rateWindow != []
    requires a.firstKeyboardMillis == FirstKeyboardMillis(h, |h|) && a.firstKeyboardMillis.Some?
    requires SaturatingTotal(a.rateWindow) == InWindow(h, |h| - 1, SUSTAINED_HIGH_RATE_WINDOW_MILLIS, 0, |h|)
    requires a.rateWindow[0].link == h[FirstInWindow(h, |h| - 1, SUSTAINED_HIGH_RATE_WINDOW_MILLIS, 0)].link
    requires a.rateAdvisoryActive == RateActive(h, |h| - 1)
    requires a.advisories == flags + LargeFlag(h[|h| - 1].link, h[|h| - 1].bytes)
    ensures var a' := JudgeRate(a, LastMillis(h));
      && a'.firstKeyboardMillis == a.firstKeyboardMillis && a'.rateAdvisoryActive == RateQualifies(h, |h| - 1)
      && a'.advisories == flags + FlagsAt(h, |h| - 1)
  {
  }

  // Events that are not Keyboard transactions.

  lemma {:induction false} BurstPassive(h: seq<Recorded>, e: Recorded, a: Accumulator, starts: seq<nat>)
    requires Ordered(h + [e]) && !e.Keyboard? && BurstMeans(h, a, starts)
    ensures BurstMeans(h + [e], a, starts)
  {
    WindowStateOther(h, e, starts, a.burstWindow, TYPED_AFTER_REJECTED_PASTE_BURST_MILLIS);
    BeforeExtends(h, e, |h|);
  }

  lemma {:induction false} RatePassive(h: seq<Recorded>, e: Recorded, a: Accumulator)
    requires !e.Keyboard? && RateMeans(h, a)
    ensures RateMeans(h + [e], a)
  {
    FirstKeyboardExtends(h, e, |h|);
    RateActiveExtends(h, e, |h|);
    FlagsExtend(h, e, |h|);
    assert FlagsAt(h + [e], |h|) == [];
  }

  lemma {:induction false} RateQueuePassive(h: seq<Recorded>, e: Recorded, rate: seq<KeyboardObservation>,
                                            starts: seq<nat>)
    requires Ordered(h + [e]) && !e.Keyboard? && RateQueueMeans(h, rate, starts)
    ensures RateQueueMeans(h + [e], rate, starts)
  {
    WindowStateOther(h, e, starts, Stripped(rate), SUSTAINED_HIGH_RATE_WINDOW_MILLIS);
  }

  lemma {:induction false} PastesPassive(h: seq<Recorded>, e: Recorded, a: Accumulator, open: seq<nat>, q: nat)
    requires PastesMean(h, a, open, q) && !e.Keyboard? && a.keyboardCharacters == Before(h, |h|)
    ensures PastesMean(h + [e], Observe(a, e), if e.BlockedPaste? then open + [|h|] else open, q)
  {
    TypedPastesOther(h, e);
    FirstTypedOther(h, e, q, a.firstTyped);
    if e.BlockedPaste? {
      OpenPastesPush(h, e, open, a.rejectedPasteWindows);
    } else {
      OpenPastesOther(h, e, open, a.rejectedPasteWindows);
    }
  }

  lemma {:induction false} BlockedStep(h: seq<Recorded>, e: Recorded, a: Accumulator)
    requires BlockedMeans(h, a) && |h| < U64_MAX
    ensures BlockedMeans(h + [e], if e.BlockedPaste? then ObserveRejectedPaste(a, e.link, e.millis) else a)
  {
    BlockedExtends(h, e, |h|);
  }

  /** Everything the accumulator holds, in terms of the stream. */
  ghost predicate Means(h: seq<Recorded>, a: Accumulator, burst: seq<nat>, rate: seq<nat>, open: seq<nat>, q: nat) {
    && BurstMeans(h, a, burst) && RateMeans(h, a) && RateQueueMeans(h, a.rateWindow, rate)
    && PastesMean(h, a, open, q) && BlockedMeans(h, a)
  }

  lemma {:induction false} KeyboardStep(h: seq<Recorded>, e: Recorded, a: Accumulator,
                                        burst: seq<nat>, rate: seq<nat>, open: seq<nat>, q: nat)
    returns (burst': seq<nat>, rate': seq<nat>, open': seq<nat>, q': nat)
    requires Fits(h + [e]) && e.Keyboard? && Means(h, a, burst, rate, open, q)
    ensures Means(h + [e], Observe(a, e), burst', rate', open', q')
  {
    var n1, n2;
    burst', n1, n2 := TypingSplits(h, e, a, burst, open, q);
    var typed := ObserveTyping(a, e.millis, e.characters);
    AfterSplitMeans(h, e, Slid(a, e.millis, e.characters), open, n1, n2, q);
    open', q' := open[n2..], if a.firstTyped.None? && n1 < n2 then open[n1] else q;
    rate' := RateStep(h, e, typed, rate);
    BlockedStep(h, e, a);
    KeyboardParts(h, e, a, typed, burst', rate', open', q');
  }

  /** The rate and the blocked pastes are read from other fields than typing writes. */
  lemma {:induction false} KeyboardParts(h: seq<Recorded>, e: Recorded, a: Accumulator, typed: Accumulator,
                                         burst: seq<nat>, rate: seq<nat>, open: seq<nat>, q: nat)
    requires e.Keyboard? && typed == ObserveTyping(a, e.millis, e.characters)
    requires BurstMeans(h + [e], typed, burst) && PastesMean(h + [e], typed, open, q)
    requires BlockedMeans(h + [e], typed)
    requires RateMeans(h + [e], ObserveEntry(typed, e.link, e.millis, e.bytes, e.characters))
    requires RateQueueMeans(h + [e], ObserveEntry(typed, e.link, e.millis, e.bytes, e.characters).rateWindow, rate)
    ensures Means(h + [e], Observe(a, e), burst, rate, open, q)
  {
    var next := ObserveEntry(typed, e.link, e.millis, e.bytes, e.characters);
    assert next.burstWindow == typed.burstWindow && next.rejectedPasteWindows == typed.rejectedPasteWindows;
  }

  lemma {:induction false} PassiveStep(h: seq<Recorded>, e: Recorded, a: Accumulator,
                                       burst: seq<nat>, rate: seq<nat>, open: seq<nat>, q: nat)
    requires Fits(h + [e]) && !e.Keyboard? && Means(h, a, burst, rate, open, q)
    ensures Means(h + [e], Observe(a, e), burst, rate, if e.BlockedPaste? then open + [|h|] else open, q)
  {
    BurstPassive(h, e, a, burst);
    RatePassive(h, e, a);
    RateQueuePassive(h, e, a.rateWindow, rate);
    PastesPassive(h, e, a, open, q);
    BlockedStep(h, e, a);
  }

  /** The accumulator's invariant, over every stream. */
  lemma {:induction false} RunMeans(h: seq<Recorded>)
    returns (burst: seq<nat>, rate: seq<nat>, open: seq<nat>, q: nat)
    requires Fits(h)
    ensures Means(h, Run(h), burst, rate, open, q)
  {
    if h == [] {
      burst, rate, open, q := [], [], [], 0;
      assert TypedPastes(h) == {};
    } else {
      var init, e := h[..|h| - 1], h[|h| - 1];
      assert h == init + [e];
      BeforeExtends(init, e, |init|);
      burst, rate, open, q := RunMeans(init);
      burst, rate, open, q := AnyStep(init, e, Run(init), burst, rate, open, q);
    }
  }

  lemma {:induction false} AnyStep(h: seq<Recorded>, e: Recorded, a: Accumulator,
                                   burst: seq<nat>, rate: seq<nat>, open: seq<nat>, q: nat)
    returns (burst': seq<nat>, rate': seq<nat>, open': seq<nat>, q': nat)
    requires Fits(h + [e]) && Means(h, a, burst, rate, open, q)
    ensures Means(h + [e], Observe(a, e), burst', rate', open', q')
  {
    if e.Keyboard? {
      burst', rate', open', q' := KeyboardStep(h, e, a, burst, rate, open, q);
    } else {
      PassiveStep(h, e, a, burst, rate, open, q);
      burst', rate', open', q' := burst, rate, if e.BlockedPaste? then open + [|h|] else open, q;
    }
  }

  // ----- Results -----

  /** The peak is the greatest burst after the paste inside its window. */
  lemma {:induction false} PeakIsGreatest(h: seq<Recorded>, p: nat, until: nat)
    requires until <= |h|
    ensures forall k | 0 <= k < until && InsidePasteWindow(h, p, k) :: BurstAfter(h, p, k) <= Peak(h, p, until)
    ensures Peak(h, p, until) > 0 ==>
              exists k :: 0 <= k < until && InsidePasteWindow(h, p, k) && BurstAfter(h, p, k) == Peak(h, p, until)
  {
    if until > 0 {
      PeakIsGreatest(h, p, until - 1);
      if InsidePasteWindow(h, p, until - 1) {
        assert BurstAfter(h, p, until - 1) <= Peak(h, p, until);
      }
    }
  }

  /**
   * The queues count exactly the blocked pastes that some burst in their window qualifies, remember
   * the earliest of them, and keep the greatest burst after it.
   */
  lemma {:induction false} TypedAfterPastesExact(h: seq<Recorded>)
    requires Recordable(h)
    ensures Run(h).typedAfterRejectedPastes == |TypedPastes(h)|
    ensures Run(h).firstTyped.None? <==> TypedPastes(h) == {}
    ensures forall q | q in TypedPastes(h) && (forall p | p in TypedPastes(h) :: q <= p) ::
              Run(h).firstTyped == Some(TypedPaste(PasteWindow(h, q), Peak(h, q, |h|)))
  {
    RecordableFits(h);
    var burst, rate, open, q := RunMeans(h);
    FirstTypedIs(h, q, Run(h).firstTyped);
  }

  /** The earliest of the typed pastes is the only one remembered. */
  lemma {:induction false} FirstTypedIs(h: seq<Recorded>, first: nat, typed: Option<TypedPaste>)
    requires FirstTyped(h, first, typed)
    ensures typed.None? <==> TypedPastes(h) == {}
    ensures forall q | q in TypedPastes(h) && (forall p | p in TypedPastes(h) :: q <= p) ::
              typed == Some(TypedPaste(PasteWindow(h, q), Peak(h, q, |h|)))
  {
    if typed.Some? {
      forall q | q in TypedPastes(h) && (forall p | p in TypedPastes(h) :: q <= p)
        ensures q == first
      {
      }
    }
  }

  /** The advisories raised so far are those the stream raises event by event. */
  lemma {:induction false} AdvisoriesExact(h: seq<Recorded>)
    requires Recordable(h)
    ensures Run(h).advisories == Flags(h, |h|)
    ensures Run(h).rejectedPastes == BlockedCount(h, |h|) && Run(h).firstRejectedPaste == FirstBlocked(h, |h|)
  {
    RecordableFits(h);
    var burst, rate, open, q := RunMeans(h);
  }

  /** The windows of the pastes among the first `n` events that are not settled, in stream order. */
  ghost function UnsettledWindows(h: seq<Recorded>, n: nat): seq<RejectedPasteWindow>
    requires n <= |h|
  {
    if n == 0 then []
    else
      var before := UnsettledWindows(h, n - 1);
      if h[n - 1].BlockedPaste? && !Settled(h, n - 1) then before + [PasteWindow(h, n - 1)] else before
  }

  lemma {:induction false} OpenAreUnsettled(h: seq<Recorded>, open: seq<nat>, windows: seq<RejectedPasteWindow>, n: nat,
                                            i: nat)
    requires OpenPastes(h, open, windows) && n <= |h| && i <= |open|
    requires forall j | 0 <= j < |open| :: open[j] < n <==> j < i
    ensures UnsettledWindows(h, n) == windows[..i]
  {
    if n > 0 {
      var p := n - 1;
      if i > 0 && open[i - 1] == p {
        assert forall j | 0 <= j < |open| :: open[j] < p <==> j < i - 1;
        OpenAreUnsettled(h, open, windows, p, i - 1);
        assert p in open && windows[..i] == windows[..i - 1] + [windows[i - 1]];
      } else {
        NotListed(open, n, i);
        OpenAreUnsettled(h, open, windows, p, i);
      }
    }
  }

  /** When the last listed paste before `n` is not the one right before it, that one is not listed. */
  lemma {:induction false} NotListed(open: seq<nat>, n: nat, i: nat)
    requires n > 0 && i <= |open| && (i > 0 ==> open[i - 1] != n - 1)
    requires forall j, k | 0 <= j < k < |open| :: open[j] < open[k]
    requires forall j | 0 <= j < |open| :: open[j] < n <==> j < i
    ensures n - 1 !in open
    ensures forall j | 0 <= j < |open| :: open[j] < n - 1 <==> j < i
  {
    assert i > 0 ==> open[i - 1] < n - 1;
    assert forall j | 0 <= j < i - 1 :: open[j] < open[i - 1];
    assert forall j | i <= j < |open| :: open[j] >= n;
  }

  /** The queue is exactly the blocked pastes neither typed through nor timed out, oldest first. */
  lemma {:induction false} QueueExact(h: seq<Recorded>)
    requires Recordable(h)
    ensures Run(h).rejectedPasteWindows == UnsettledWindows(h, |h|)
  {
    RecordableFits(h);
    var burst, rate, open, q := RunMeans(h);
    var windows := Run(h).rejectedPasteWindows;
    OpenAreUnsettled(h, open, windows, |h|, |open|);
    assert windows[..|open|] == windows;
  }

  /** Once the running total is saturated, no later typing is seen to follow a paste. */
  lemma {:induction false} SaturatedTotal(a: Accumulator, now: nat, characters: nat)
    requires a.keyboardCharacters == U64_MAX && a.typedAfterRejectedPastes == 0
    requires forall w | w in a.rejectedPasteWindows :: w.keyboardCharactersBefore == U64_MAX
    ensures ObserveTyping(a, now, characters).typedAfterRejectedPastes == 0
  {
    DropExpiredKeeps(a.rejectedPasteWindows, now);
  }

  lemma {:induction false} DropExpiredKeeps(windows: seq<RejectedPasteWindow>, now: nat)
    ensures forall w | w in DropExpired(windows, now) :: w in windows
  {
    if windows != [] {
      DropExpiredKeeps(windows[1..], now);
    }
  }

  /** A first transaction of the greatest size saturates the total. */
  lemma {:induction false} SaturatedStart(e: Recorded)
    requires e.Keyboard? && e.characters == U64_MAX
    ensures Observe(EMPTY, e).keyboardCharacters == U64_MAX
    ensures Observe(EMPTY, e).rejectedPasteWindows == [] && Observe(EMPTY, e).typedAfterRejectedPastes == 0
  {
  }

  lemma {:induction false} RunSnoc(h: seq<Recorded>, e: Recorded)
    ensures Run(h + [e]) == Observe(Run(h), e)
  {
    assert (h + [e])[..|h|] == h;
  }

  /** Without the bound on an attempt's characters the running total saturates and hides typing. */
  lemma {:induction false} SaturationHidesTyping(k1: Recorded, p2: Recorded, k3: Recorded)
    requires k1.Keyboard? && k1.characters == U64_MAX && p2.BlockedPaste? && k3.Keyboard?
    requires k3.characters >= TYPED_AFTER_REJECTED_PASTE_CHARACTERS
    requires k3.millis <= p2.millis + TYPED_AFTER_REJECTED_PASTE_WINDOW_MILLIS
    ensures Qualifies([k1, p2, k3], 1) && Run([k1, p2, k3]).typedAfterRejectedPastes == 0
  {
    BurstOfOne([k1, p2, k3]);
    assert QualifiesAt([k1, p2, k3], 1, 2);
    SaturatedRun(k1, p2, k3);
  }

  lemma {:induction false} SaturatedRun(k1: Recorded, p2: Recorded, k3: Recorded)
    requires k1.Keyboard? && k1.characters == U64_MAX && p2.BlockedPaste? && k3.Keyboard?
    ensures Run([k1, p2, k3]).typedAfterRejectedPastes == 0
  {
    assert [] + [k1] == [k1] && [k1] + [p2] == [k1, p2] && [k1, p2] + [k3] == [k1, p2, k3];
    RunSnoc([], k1);
    SaturatedStart(k1);
    RunSnoc([k1], p2);
    var a := Observe(Run([k1]), p2);
    RunSnoc([k1, p2], k3);
    SaturatedTotal(a, k3.millis, k3.characters);
    TypedKept(ObserveTyping(a, k3.millis, k3.characters), k3);
  }

  lemma {:induction false} BurstOfOne(h: seq<Recorded>)
    requires |h| == 3 && h[2].Keyboard?
    ensures BurstAfter(h, 1, 2) == h[2].characters
  {
    assert InWindow(h, 2, TYPED_AFTER_REJECTED_PASTE_BURST_MILLIS, 2, 2) == 0;
  }

  lemma {:induction false} TypedKept(a: Accumulator, e: Recorded)
    requires e.Keyboard?
    ensures ObserveEntry(a, e.link, e.millis, e.bytes, e.characters).typedAfterRejectedPastes
            == a.typedAfterRejectedPastes
  {
  }

  // ----- The summary of an attempt -----

  /** The advisories of a whole attempt: those raised by single events, then the summaries. */
  function Finish(a: Accumulator): seq<AdvisoryFlag> {
    a.advisories
    + (if a.firstRejectedPaste.None? then []
       else [AdvisoryFlag(RejectedPasteAttempts, a.firstRejectedPaste.value, Attempts(a.rejectedPastes))])
    + (if a.firstTyped.None? then []
       else [AdvisoryFlag(TypedAfterRejectedPaste, a.firstTyped.value.window.link,
                          Burst(a.firstTyped.value.peakCharacters, a.typedAfterRejectedPastes, a.rejectedPastes))])
  }

  /** The last advisory links the earliest qualifying paste and reports its peak and the exact counts. */
  lemma {:induction false} FinishExact(h: seq<Recorded>, q: nat)
    requires Recordable(h) && q in TypedPastes(h) && forall p | p in TypedPastes(h) :: q <= p
    ensures Finish(Run(h)) != []
    ensures Finish(Run(h))[|Finish(Run(h))| - 1]
            == AdvisoryFlag(TypedAfterRejectedPaste, h[q].link,
                            Burst(Peak(h, q, |h|), |TypedPastes(h)|, BlockedCount(h, |h|)))
    ensures TYPED_AFTER_REJECTED_PASTE_CHARACTERS <= Peak(h, q, |h|)
  {
    TypedAfterPastesExact(h);
    AdvisoriesExact(h);
    PeakIsGreatest(h, q, |h|);
    var k :| QualifiesAt(h, q, k);
  }

  /** The earliest paste from `i` on that was typed through. */
  ghost function EarliestTyped(h: seq<Recorded>, i: nat): (q: Option<nat>)
    requires i <= |h|
    ensures q.None? ==> forall p | i <= p < |h| :: !Qualifies(h, p)
    ensures q.Some? ==> i <= q.value < |h| && Qualifies(h, q.value) && forall p | i <= p < q.value :: !Qualifies(h, p)
    decreases |h| - i
  {
    if i == |h| then None else if Qualifies(h, i) then Some(i) else EarliestTyped(h, i + 1)
  }

  /** The summary of the blocked pastes, when there are any. */
  function BlockedSummary(h: seq<Recorded>): seq<AdvisoryFlag> {
    match FirstBlocked(h, |h|)
    case None => []
    case Some(link) => [AdvisoryFlag(RejectedPasteAttempts, link, Attempts(BlockedCount(h, |h|)))]
  }

  /** The summary of the pastes typed through, when there are any. */
  ghost function TypedSummary(h: seq<Recorded>): seq<AdvisoryFlag> {
    match EarliestTyped(h, 0)
    case None => []
    case Some(q) => [AdvisoryFlag(TypedAfterRejectedPaste, h[q].link,
                                  Burst(Peak(h, q, |h|), |TypedPastes(h)|, BlockedCount(h, |h|)))]
  }

  lemma {:induction false} BlockedSome(h: seq<Recorded>, i: nat)
    requires i <= |h|
    ensures FirstBlocked(h, i).Some? <==> BlockedCount(h, i) > 0
    ensures FirstBlocked(h, i).Some? ==>
              exists p | 0 <= p < i :: h[p].BlockedPaste? && FirstBlocked(h, i) == Some(h[p].link)
                                       && forall k | 0 <= k < p :: !h[k].BlockedPaste?
  {
    if i > 0 {
      BlockedSome(h, i - 1);
      NoneBlocked(h, i - 1);
    }
  }

  lemma {:induction false} NoneBlocked(h: seq<Recorded>, i: nat)
    requires i <= |h|
    ensures FirstBlocked(h, i).None? ==> forall k | 0 <= k < i :: !h[k].BlockedPaste?
  {
    if i > 0 {
      NoneBlocked(h, i - 1);
    }
  }

  /**
   * The advisories of an attempt are exactly those its events raise, in order; then one of the first blocked paste and
   * their number, when some paste was blocked; then one of the earliest paste typed through, when there is one.
   */
  lemma {:induction false} ConcludedExact(h: seq<Recorded>)
    requires Recordable(h)
    ensures Finish(Run(h)) == Flags(h, |h|) + BlockedSummary(h) + TypedSummary(h)
    ensures BlockedSummary(h) != [] <==> exists p | 0 <= p < |h| :: h[p].BlockedPaste?
    ensures TypedSummary(h) != [] <==> TypedPastes(h) != {}
  {
    TypedAfterPastesExact(h);
    AdvisoriesExact(h);
    BlockedSome(h, |h|);
    NoneBlocked(h, |h|);
    var q := EarliestTyped(h, 0);
    assert q.Some? ==> q.value in TypedPastes(h);
  }

  // ----- The accumulator as the object the verifier keeps -----

  class AdvisoryAccumulator {
    var advisories: seq<AdvisoryFlag>
    var rateWindow: seq<KeyboardObservation>
    var firstKeyboardMillis: Option<nat>
    var rateAdvisoryActive: bool
    var rejectedPastes: nat
    var firstRejectedPaste: Option<Link>
    var keyboardCharacters: nat
    var burstWindow: seq<(nat, nat)>
    var burstCharacters: nat
    var rejectedPasteWindows: seq<RejectedPasteWindow>
    var typedAfterRejectedPastes: nat
    var firstTypedAfterRejectedPaste: Option<TypedPaste>

    ghost function State(): Accumulator
      reads this
    {
      Accumulator(advisories, rateWindow, firstKeyboardMillis, rateAdvisoryActive, rejectedPastes, firstRejectedPaste,
                  keyboardCharacters, burstWindow, burstCharacters, rejectedPasteWindows, typedAfterRejectedPastes,
                  firstTypedAfterRejectedPaste)
    }

    constructor ()
      ensures State() == Run([])
    {
      advisories, rateWindow, firstKeyboardMillis, rateAdvisoryActive := [], [], None, false;
      rejectedPastes, firstRejectedPaste := 0, None;
      keyboardCharacters, burstWindow, burstCharacters := 0, [], 0;
      rejectedPasteWindows, typedAfterRejectedPastes, firstTypedAfterRejectedPaste := [], 0, None;
    }

    method ObserveRejectedPasteEvent(link: Link, millis: nat)
      modifies this
      ensures State() == ObserveRejectedPaste(old(State()), link, millis)
    {
      rejectedPastes := SaturatingAdd(rejectedPastes, 1);
      if firstRejectedPaste.None? {
        firstRejectedPaste := Some(link);
      }
      rejectedPasteWindows := rejectedPasteWindows + [RejectedPasteWindow(link, millis, keyboardCharacters)];
    }

    method DropExpiredPastes(millis: nat)
      modifies this`rejectedPasteWindows
      ensures rejectedPasteWindows == DropExpired(old(rejectedPasteWindows), millis)
    {
      while rejectedPasteWindows != [] && PasteExpired(rejectedPasteWindows[0], millis)
        invariant DropExpired(rejectedPasteWindows, millis) == DropExpired(old(rejectedPasteWindows), millis)
        decreases |rejectedPasteWindows|
      {
        rejectedPasteWindows := rejectedPasteWindows[1..];
      }
    }

    method SlideBurst(millis: nat, characters: nat)
      modifies this`burstWindow, this`burstCharacters
      ensures (burstWindow, burstCharacters)
              == Slide(old(burstWindow) + [(millis, characters)], SaturatingAdd(old(burstCharacters), characters),
                  millis)
    {
      burstWindow := burstWindow + [(millis, characters)];
      burstCharacters := SaturatingAdd(burstCharacters, characters);
      while burstWindow != [] && SaturatingSub(millis, burstWindow[0].0) > TYPED_AFTER_REJECTED_PASTE_BURST_MILLIS
        invariant Slide(burstWindow, burstCharacters, millis)
                  == Slide(old(burstWindow) + [(millis, characters)], SaturatingAdd(old(burstCharacters), characters),
                      millis)
        decreases |burstWindow|
      {
        burstCharacters := SaturatingSub(burstCharacters, burstWindow[0].1);
        burstWindow := burstWindow[1..];
      }
    }

    method CountQualifyingPastes(beforeBurst: nat)
      modifies this`rejectedPasteWindows, this`typedAfterRejectedPastes, this`firstTypedAfterRejectedPaste
      ensures State() == TakeQualifying(old(State()), beforeBurst)
    {
      while rejectedPasteWindows != []
            && AfterPasteInBurst(rejectedPasteWindows[0], keyboardCharacters, beforeBurst)
               >= TYPED_AFTER_REJECTED_PASTE_CHARACTERS
        invariant TakeQualifying(State(), beforeBurst) == TakeQualifying(old(State()), beforeBurst)
        decreases |rejectedPasteWindows|
      {
        var window := rejectedPasteWindows[0];
        rejectedPasteWindows := rejectedPasteWindows[1..];
        typedAfterRejectedPastes := SaturatingAdd(typedAfterRejectedPastes, 1);
        if firstTypedAfterRejectedPaste.None? {
          firstTypedAfterRejectedPaste := Some(TypedPaste(window, 0));
        }
      }
    }

    method ObserveTypingAfterRejectedPastes(millis: nat, characters: nat)
      modifies this
      ensures State() == ObserveTyping(old(State()), millis, characters)
    {
      DropExpiredPastes(millis);
      keyboardCharacters := SaturatingAdd(keyboardCharacters, characters);
      SlideBurst(millis, characters);
      var beforeBurst := SaturatingSub(keyboardCharacters, burstCharacters);
      CountQualifyingPastes(beforeBurst);
      if firstTypedAfterRejectedPaste.Some? && !PasteExpired(firstTypedAfterRejectedPaste.value.window, millis) {
        var first := firstTypedAfterRejectedPaste.value;
        firstTypedAfterRejectedPaste := Some(first.(peakCharacters :=
          Max(first.peakCharacters, AfterPasteInBurst(first.window, keyboardCharacters, beforeBurst))));
      }
    }

    /** Drops what fell out of the rate window and adds the observation, merging equal times. */
    method SlideRate(observation: KeyboardObservation)
      modifies this`rateWindow
      ensures rateWindow == Coalesce(PruneRate(old(rateWindow), observation.millis), observation)
    {
      while rateWindow != [] && SaturatingSub(observation.millis, rateWindow[0].millis)
          > SUSTAINED_HIGH_RATE_WINDOW_MILLIS
        invariant PruneRate(rateWindow, observation.millis) == PruneRate(old(rateWindow), observation.millis)
        decreases |rateWindow|
      {
        rateWindow := rateWindow[1..];
      }
      var last := |rateWindow| - 1;
      if rateWindow != [] && rateWindow[last].millis == observation.millis {
        rateWindow := rateWindow[last := rateWindow[last].(insertedCharacters :=
          SaturatingAdd(rateWindow[last].insertedCharacters, observation.insertedCharacters))];
      } else {
        rateWindow := rateWindow + [observation];
      }
    }

    method JudgeSustainedRate(millis: nat)
      requires firstKeyboardMillis.Some? && rateWindow != []
      modifies this`rateAdvisoryActive, this`advisories
      ensures State() == JudgeRate(old(State()), millis)
    {
      var fullWindowObserved := SaturatingSub(millis, firstKeyboardMillis.value) >= SUSTAINED_HIGH_RATE_WINDOW_MILLIS;
      var insertedCharacters := SaturatingTotal(rateWindow);
      var qualifies := fullWindowObserved && insertedCharacters > RATE_THRESHOLD;
      if qualifies && !rateAdvisoryActive {
        advisories := advisories + [AdvisoryFlag(SustainedHighRate, rateWindow[0].link, Rate(insertedCharacters))];
      }
      rateAdvisoryActive := qualifies;
    }

    method ObserveSustainedRate(observation: KeyboardObservation)
      modifies this
      ensures State() == ObserveRate(old(State()), observation)
    {
      hide PruneRate, JudgeRate;
      if firstKeyboardMillis.None? {
        firstKeyboardMillis := Some(observation.millis);
      }
      SlideRate(observation);
      JudgeSustainedRate(observation.millis);
    }

    method ObserveKeyboardEvent(link: Link, millis: nat, bytes: nat, characters: nat)
      modifies this
      ensures State() == ObserveKeyboard(old(State()), link, millis, bytes, characters)
    {
      ObserveTypingAfterRejectedPastes(millis, characters);
      assert advisories + [] == advisories;
      if bytes >= LARGE_SINGLE_INSERTION_BYTES {
        advisories := advisories + [AdvisoryFlag(LargeSingleInsertion, link, Bytes(bytes))];
      }
      ObserveSustainedRate(KeyboardObservation(link, millis, characters));
    }

    method ObserveEvent(e: Recorded, ghost h: seq<Recorded>)
      requires State() == Run(h)
      modifies this
      ensures State() == Run(h + [e])
    {
      RunSnoc(h, e);
      match e
      case BlockedPaste(link, millis) => ObserveRejectedPasteEvent(link, millis);
      case Keyboard(link, millis, bytes, characters) => ObserveKeyboardEvent(link, millis, bytes, characters);
      case Other(_, _) =>
    }

    method Conclude(ghost h: seq<Recorded>) returns (flags: seq<AdvisoryFlag>)
      requires State() == Run(h)
      ensures flags == Finish(State())
      ensures Recordable(h) ==> flags == Flags(h, |h|) + BlockedSummary(h) + TypedSummary(h)
    {
      if Recordable(h) {
        ConcludedExact(h);
      }
      flags := advisories;
      if firstRejectedPaste.Some? {
        flags := flags + [AdvisoryFlag(RejectedPasteAttempts, firstRejectedPaste.value, Attempts(rejectedPastes))];
      }
      if firstTypedAfterRejectedPaste.Some? {
        var first := firstTypedAfterRejectedPaste.value;
        flags := flags + [AdvisoryFlag(TypedAfterRejectedPaste, first.window.link,
                                       Burst(first.peakCharacters, typedAfterRejectedPastes, rejectedPastes))];
      }
    }
  }
}
