/** The lifecycle of the language service around its protocol (src/language_service.rs, `LanguageService`). */
module LanguageLifecycle {
  import opened Common

  const HEALTHY_RESET := 30_000
  const MAX_AUTOMATIC_RETRIES := 5
  const MAX_RETRIES := 255

  datatype State =
    | Resolving
    | Pending(cleanupConfirmed: bool, launchable: bool)
    | Running(ready: bool, readySince: Option<nat>)
    | Backoff(until: nat)
    | Unavailable
    | Stopped

  /**
   * The service, with two records of what it did: how many resolvers and transports it started, and the
   * delays of the back-offs it entered since the retries were last reset.
   */
  datatype Service = Service(
    generation: nat,
    retries: nat,
    cleanupUncertain: bool,
    state: State,
    started: nat,
    delays: seq<nat>)

  /** A resolver that ended: its thread failed, or it left a resolution. */
  datatype Resolution = Failed | Resolved(cleanupConfirmed: bool, launchable: bool)

  datatype Launch = Launched | LaunchFailed(cleanupConfirmed: bool)

  /** What the outside answers during one operation. */
  datatype World = World(
    now: nat,
    resolution: Option<Resolution>,
    cleanup: bool,
    spawns: bool,
    alive: bool,
    polls: bool,
    becomesReady: bool,
    launch: Launch,
    reloads: bool)

  datatype Step<T> = Step(service: Service, result: T)

  // ----- Parts -----

  /** The delay of the back-off after this many retries: 250 ms, doubled each time, at most 8 s. */
  function Delay(retries: nat): nat {
    var shift := Min(SaturatingSub(retries, 1), 5);
    Min(250 * Power(shift), 8_000)
  }

  function Power(n: nat): nat {
    if n == 0 then 1 else 2 * Power(n - 1)
  }

  function BackedOff(s: Service, now: nat): Service {
    s.(state := Backoff(now + Delay(s.retries)), delays := s.delays + [Delay(s.retries)])
  }

  function BegunResolution(s: Service, w: World): Service {
    s.(generation := SaturatingAdd(s.generation, 1), state := if w.spawns then Resolving else Unavailable,
       started := if w.spawns then s.started + 1 else s.started)
  }

  /** Whether what was running is known to be gone. */
  function Cleaned(state: State, w: World): bool {
    match state
    case Resolving => w.cleanup
    case Running(_, _) => w.cleanup
    case Pending(confirmed, _) => confirmed
    case _ => true
  }

  function CancelledAndStopped(s: Service, w: World): Step<bool> {
    var uncertain := s.cleanupUncertain || !Cleaned(s.state, w);
    Step(s.(cleanupUncertain := uncertain, state := Stopped), !uncertain)
  }

  function Retried(s: Service): Service {
    s.(retries := Min(s.retries + 1, MAX_RETRIES))
  }

  function Reset(s: Service): Service {
    s.(retries := 0, delays := [])
  }

  function FailedRunning(s: Service, w: World): Service {
    var stopped := CancelledAndStopped(s, w);
    var retried := Retried(stopped.service);
    if stopped.result && retried.retries <= MAX_AUTOMATIC_RETRIES then BackedOff(retried, w.now)
    else retried.(state := Unavailable)
  }

  // ----- Operations -----

  function Began(w: World): Service {
    Service(1, 0, false, if w.spawns then Resolving else Unavailable, if w.spawns then 1 else 0, [])
  }

  /** A resolver that ended leaves a resolution to authorize, or nothing. */
  function Harvested(s: Service, w: World): Service {
    match w.resolution
    case None => s
    case Some(Failed) => s.(cleanupUncertain := true, state := Unavailable)
    case Some(Resolved(confirmed, launchable)) =>
      s.(cleanupUncertain := s.cleanupUncertain || !confirmed, state := Pending(confirmed, launchable))
  }

  function PolledRunning(s: Service, w: World): Service
    requires s.state.Running?
  {
    var since := s.state.readySince;
    var healthy := if since.Some? && SaturatingSub(w.now, since.value) >= HEALTHY_RESET then Reset(s) else s;
    if !w.alive || !w.polls then FailedRunning(healthy, w)
    else if w.becomesReady && !s.state.ready then healthy.(state := Running(true, Some(w.now)))
    else healthy
  }

  function Polled(s: Service, writesAllowed: bool, w: World): Service {
    var harvested := if s.state.Resolving? then Harvested(s, w) else s;
    match harvested.state
    case Pending(_, _) => harvested
    case Backoff(until) => if writesAllowed && w.now >= until then BegunResolution(harvested, w) else harvested
    case Running(_, _) => PolledRunning(harvested, w)
    case _ => harvested
  }

  function Authorized(s: Service, published: bool, w: World): Service {
    if !s.state.Pending? then s
    else if !s.state.cleanupConfirmed then s.(cleanupUncertain := true, state := Unavailable)
    else if !published || !s.state.launchable then s.(state := Unavailable)
    else match w.launch
      case Launched => s.(state := Running(false, None), started := s.started + 1)
      case LaunchFailed(true) =>
        var retried := Retried(s);
        if retried.retries <= MAX_AUTOMATIC_RETRIES then BackedOff(retried, w.now) else retried.(state := Unavailable)
      case LaunchFailed(false) => s.(cleanupUncertain := true, state := Unavailable)
  }

  function Reloaded(s: Service, w: World): Step<bool> {
    if s.cleanupUncertain then Step(s, false)
    else if s.state.Running? && s.state.ready && w.reloads then Step(s, true)
    else
      var stopped := CancelledAndStopped(s, w);
      if !stopped.result then Step(stopped.service.(state := Unavailable), false)
      else Step(BegunResolution(Reset(stopped.service), w), true)
  }

  function Resumed(s: Service, w: World): Service {
    if !s.cleanupUncertain && s.state.Stopped? then BegunResolution(s, w) else s
  }

  /** The operations of the service; stopping for authority, for a command and at shutdown differ only in waiting. */
  datatype Operation = Poll(writesAllowed: bool) | Authorize(published: bool) | Reload | Stop | Resume

  function Operated(s: Service, op: Operation, w: World): Service {
    match op
    case Poll(writesAllowed) => Polled(s, writesAllowed, w)
    case Authorize(published) => Authorized(s, published, w)
    case Reload => Reloaded(s, w).service
    case Stop => CancelledAndStopped(s, w).service
    case Resume => Resumed(s, w)
  }

  // ----- Safety -----

  /** Once cleanup is uncertain nothing can be running or about to run. */
  predicate Latched(s: Service) {
    && (s.cleanupUncertain ==>
          s.state.Unavailable? || s.state.Stopped? || (s.state.Pending? && !s.state.cleanupConfirmed))
    && (s.state.Pending? && !s.state.cleanupConfirmed ==> s.cleanupUncertain)
  }

  /** The back-offs since the last reset: one per retry up to the limit, each twice as long as the one before. */
  predicate Bounded(s: Service) {
    && (forall i | 0 <= i < |s.delays| :: s.delays[i] == 250 * Power(i))
    && |s.delays| <= Min(s.retries, MAX_AUTOMATIC_RETRIES)
    && (!s.cleanupUncertain ==> |s.delays| == Min(s.retries, MAX_AUTOMATIC_RETRIES))
    && (s.state.Backoff? ==> !s.cleanupUncertain && 1 <= s.retries <= MAX_AUTOMATIC_RETRIES)
    && s.retries <= MAX_RETRIES
  }

  predicate Safe(s: Service) {
    Latched(s) && Bounded(s)
  }

  lemma {:induction false} DelayDoubles(retries: nat)
    requires 1 <= retries <= MAX_AUTOMATIC_RETRIES
    ensures Delay(retries) == 250 * Power(retries - 1)
  {
    assert Power(0) == 1 && Power(1) == 2 && Power(2) == 4 && Power(3) == 8 && Power(4) == 16;
  }

  /** A failure whose cleanup is certain adds one retry, and one back-off while the limit allows. */
  lemma {:induction false} BackedOffBounded(s: Service, now: nat)
    requires Bounded(s) && !s.cleanupUncertain && s.retries < MAX_AUTOMATIC_RETRIES
    ensures Safe(BackedOff(Retried(s), now))
  {
    DelayDoubles(s.retries + 1);
  }

  lemma {:induction false} FailedRunningSafe(s: Service, w: World)
    requires Safe(s) && s.state.Running?
    ensures Safe(FailedRunning(s, w))
  {
    var stopped := CancelledAndStopped(s, w).service;
    if w.cleanup && s.retries < MAX_AUTOMATIC_RETRIES {
      BackedOffBounded(stopped, w.now);
    }
  }

  lemma {:induction false} PolledSafe(s: Service, writesAllowed: bool, w: World)
    requires Safe(s)
    ensures Safe(Polled(s, writesAllowed, w))
  {
    if s.state.Running? {
      FailedRunningSafe(s, w);
      FailedRunningSafe(Reset(s), w);
    }
  }

  lemma {:induction false} AuthorizedSafe(s: Service, published: bool, w: World)
    requires Safe(s)
    ensures Safe(Authorized(s, published, w))
  {
    if s.state.Pending? && s.state.cleanupConfirmed && w.launch == LaunchFailed(true)
        && s.retries < MAX_AUTOMATIC_RETRIES {
      BackedOffBounded(s, w.now);
    }
  }

  /** Every operation keeps the service safe, whatever the outside answers. */
  lemma {:induction false} OperatedSafe(s: Service, op: Operation, w: World)
    requires Safe(s)
    ensures Safe(Operated(s, op, w))
  {
    match op {
      case Poll(writesAllowed) => PolledSafe(s, writesAllowed, w);
      case Authorize(published) => AuthorizedSafe(s, published, w);
      case _ =>
    }
  }

  /** Once cleanup is uncertain it stays so, and no operation starts a resolver or a transport. */
  lemma {:induction false} UncertaintyStopsStarts(s: Service, op: Operation, w: World)
    requires Safe(s) && s.cleanupUncertain
    ensures Operated(s, op, w).cleanupUncertain && Operated(s, op, w).started == s.started
  {
  }

  datatype Call = Call(operation: Operation, world: World)

  function Ran(s: Service, calls: seq<Call>): Service {
    if calls == [] then s
    else Operated(Ran(s, calls[..|calls| - 1]), calls[|calls| - 1].operation, calls[|calls| - 1].world)
  }

  lemma {:induction false} RanSafe(s: Service, calls: seq<Call>)
    requires Safe(s)
    ensures Safe(Ran(s, calls))
  {
    if calls != [] {
      RanSafe(s, calls[..|calls| - 1]);
      OperatedSafe(Ran(s, calls[..|calls| - 1]), calls[|calls| - 1].operation, calls[|calls| - 1].world);
    }
  }

  /** In every run, once cleanup was uncertain nothing was started afterwards. */
  lemma {:induction false} NothingStartsAfterUncertainty(s: Service, calls: seq<Call>, n: nat)
    requires Safe(s) && n <= |calls| && Ran(s, calls[..n]).cleanupUncertain
    ensures Ran(s, calls).cleanupUncertain && Ran(s, calls).started == Ran(s, calls[..n]).started
    decreases |calls|
  {
    if n == |calls| {
      assert calls[..n] == calls;
    } else {
      var init, last := calls[..|calls| - 1], calls[|calls| - 1];
      assert init[..n] == calls[..n];
      NothingStartsAfterUncertainty(s, init, n);
      RanSafe(s, init);
      UncertaintyStopsStarts(Ran(s, init), last.operation, last.world);
    }
  }

  /** From its start, in every run: at most five back-offs between resets, of 250, 500, 1000, 2000 and 4000 ms. */
  lemma {:induction false} BackoffsBounded(w: World, calls: seq<Call>)
    ensures var s := Ran(Began(w), calls);
      |s.delays| <= MAX_AUTOMATIC_RETRIES && forall i | 0 <= i < |s.delays| :: s.delays[i] == 250 * Power(i)
  {
    RanSafe(Began(w), calls);
  }

  // ----- When something starts, backs off or latches -----

  /** A failing transport is stopped: it exited, or talking to it failed. */
  predicate Fails(s: Service, op: Operation, w: World) {
    op.Poll? && s.state.Running? && (!w.alive || !w.polls)
  }

  /** A resolution is launched: it was published, names something to launch, and ended cleanly. */
  predicate Launches(s: Service, op: Operation) {
    op.Authorize? && op.published && s.state.Pending? && s.state.cleanupConfirmed && s.state.launchable
  }

  /** What runs is gone: nothing does, or its end was confirmed. */
  predicate Gone(s: Service, w: World) {
    && (s.state.Resolving? || s.state.Running? ==> w.cleanup)
    && (s.state.Pending? ==> s.state.cleanupConfirmed)
  }

  /** A reload that the running server does not take over. */
  predicate Restarts(s: Service, op: Operation, w: World) {
    op.Reload? && !s.cleanupUncertain && !(s.state.Running? && s.state.ready && w.reloads)
  }

  /** A new resolution is begun: once a back-off ran out, by a reload that restarts, or on resuming. */
  predicate Resolves(s: Service, op: Operation, w: World) {
    || (op.Poll? && op.writesAllowed && s.state.Backoff? && w.now >= s.state.until)
    || (Restarts(s, op, w) && Gone(s, w))
    || (op.Resume? && !s.cleanupUncertain && s.state.Stopped?)
  }

  /** The retries made so far count as none after half a minute of health. */
  function RetriesBefore(s: Service, op: Operation, w: World): nat {
    if op.Poll? && s.state.Running? && s.state.readySince.Some? && w.now >= s.state.readySince.value + HEALTHY_RESET
    then 0 else s.retries
  }

  /** A start is retried: the server failed or could not be launched, and is known to be gone. */
  predicate Retries(s: Service, op: Operation, w: World) {
    || (Fails(s, op, w) && w.cleanup && !s.cleanupUncertain)
    || (Launches(s, op) && w.launch == LaunchFailed(true))
  }

  /** A resolver or a transport is started exactly by a resolution whose thread starts, or a launch that succeeds. */
  lemma {:induction false} StartsExactly(s: Service, op: Operation, w: World)
    requires Safe(s)
    ensures Operated(s, op, w).started
            == s.started + (if Resolves(s, op, w) && w.spawns then 1
                            else if Launches(s, op) && w.launch.Launched? then 1 else 0)
    ensures Operated(s, op, w).generation
            == if Resolves(s, op, w) then SaturatingAdd(s.generation, 1) else s.generation
    ensures Resolves(s, op, w) ==> Operated(s, op, w).state == if w.spawns then Resolving else Unavailable
    ensures Launches(s, op) && w.launch.Launched? ==> Operated(s, op, w).state == Running(false, None)
  {
  }

  /**
   * A retry within the limit backs off for 250 ms, doubled for each retry since the last reset, from the clock then
   * read; a retry past the limit gives up.
   */
  lemma {:induction false} RetriesExactly(s: Service, op: Operation, w: World)
    requires Safe(s) && Retries(s, op, w)
    ensures var retries := RetriesBefore(s, op, w);
      && Operated(s, op, w).retries == Min(retries + 1, MAX_RETRIES)
      && Operated(s, op, w).state == if retries < MAX_AUTOMATIC_RETRIES then Backoff(w.now + 250 * Power(retries))
                                     else Unavailable
  {
    var retries := RetriesBefore(s, op, w);
    if retries < MAX_AUTOMATIC_RETRIES {
      DelayDoubles(retries + 1);
    }
    hide Delay, Power;
  }

  /** A back-off is entered only by a retry within the limit, and otherwise just goes on. */
  lemma {:induction false} BacksOffExactly(s: Service, op: Operation, w: World)
    requires Safe(s)
    ensures Operated(s, op, w).state.Backoff? ==>
              || (Retries(s, op, w) && RetriesBefore(s, op, w) < MAX_AUTOMATIC_RETRIES)
              || (Operated(s, op, w).state == s.state && !op.Stop?
                  && (op.Poll? ==> !op.writesAllowed || w.now < s.state.until))
  {
    hide Delay, Power;
  }

  /** While a back-off lasts, polling changes nothing; the first poll that may write after it resolves anew. */
  lemma {:induction false} BackoffWaits(s: Service, writesAllowed: bool, w: World)
    requires Safe(s) && s.state.Backoff?
    ensures Operated(s, Poll(writesAllowed), w)
            == if writesAllowed && w.now >= s.state.until
               then s.(generation := SaturatingAdd(s.generation, 1), started := s.started + (if w.spawns then 1 else 0),
                       state := if w.spawns then Resolving else Unavailable)
               else s
  {
  }

  /** A resolution in which a launch has to be cleaned up and was not. */
  predicate LeavesUnclean(s: Service, op: Operation, w: World) {
    match op
    case Poll(_) =>
      || (s.state.Resolving? && w.resolution.Some?
          && (w.resolution.value.Failed? || !w.resolution.value.cleanupConfirmed))
      || (Fails(s, op, w) && !w.cleanup)
    case Authorize(_) =>
      s.state.Pending? && (!s.state.cleanupConfirmed || (Launches(s, op) && w.launch == LaunchFailed(false)))
    case Reload => Restarts(s, op, w) && !Gone(s, w)
    case Stop => !Gone(s, w)
    case Resume => false
  }

  /** Cleanup becomes uncertain exactly when something that ended is not known to be gone. */
  lemma {:induction false} LatchesExactly(s: Service, op: Operation, w: World)
    requires Safe(s)
    ensures Operated(s, op, w).cleanupUncertain <==> s.cleanupUncertain || LeavesUnclean(s, op, w)
  {
  }

  /** An operation that starts nothing and is not retried leaves the state, or settles it like this. */
  lemma {:induction false} SettlesExactly(s: Service, op: Operation, w: World)
    requires Safe(s) && !Resolves(s, op, w) && !Retries(s, op, w) && !(Launches(s, op) && w.launch.Launched?)
    ensures var state := Operated(s, op, w).state;
      if op.Stop? then state == Stopped
      else if op.Reload? then state == if Restarts(s, op, w) then Unavailable else s.state
      else if op.Authorize? && s.state.Pending? then state == Unavailable
      else if Fails(s, op, w) then state == Unavailable
      else if op.Poll? && s.state.Resolving? && w.resolution.Some? then
        state == match w.resolution.value
                 case Failed => Unavailable
                 case Resolved(confirmed, launchable) => State.Pending(confirmed, launchable)
      else if op.Poll? && s.state.Running? && w.becomesReady && !s.state.ready then state == Running(true, Some(w.now))
      else state == s.state
  {
  }

  /** A server that is alive and answers stays, and becomes ready when it says so. */
  lemma {:induction false} ReadyExactly(s: Service, w: World)
    requires Safe(s) && s.state.Running? && w.alive && w.polls
    ensures Operated(s, Poll(true), w).state
            == if w.becomesReady && !s.state.ready then Running(true, Some(w.now)) else s.state
    ensures Operated(s, Poll(true), w).retries == RetriesBefore(s, Poll(true), w)
  {
  }

  // ----- The service object -----

  class LanguageService {
    var generation: nat
    var retries: nat
    var cleanupUncertain: bool
    var state: State
    ghost var started: nat
    ghost var delays: seq<nat>

    ghost function Snapshot(): Service
      reads this
    {
      Service(generation, retries, cleanupUncertain, state, started, delays)
    }

    constructor Start(w: World)
      ensures Snapshot() == Began(w)
    {
      generation, retries, cleanupUncertain, delays := 1, 0, false, [];
      state := if w.spawns then Resolving else Unavailable;
      started := if w.spawns then 1 else 0;
    }

    method EnterBackoff(now: nat)
      modifies this`state, this`delays
      ensures Snapshot() == BackedOff(old(Snapshot()), now)
    {
      state := Backoff(now + Delay(retries));
      delays := delays + [Delay(retries)];
    }

    method BeginResolution(w: World)
      modifies this`generation, this`state, this`started
      ensures Snapshot() == BegunResolution(old(Snapshot()), w)
    {
      generation := SaturatingAdd(generation, 1);
      state := if w.spawns then Resolving else Unavailable;
      started := if w.spawns then started + 1 else started;
    }

    /** Takes the state out, ends what it was running, and says whether cleanup is certain. */
    method CancelAndStop(w: World) returns (confirmed: bool)
      modifies this`state, this`cleanupUncertain
      ensures Step(Snapshot(), confirmed) == CancelledAndStopped(old(Snapshot()), w)
    {
      var taken := state;
      state := Stopped;
      cleanupUncertain := cleanupUncertain || !Cleaned(taken, w);
      return !cleanupUncertain;
    }

    method FailRunning(w: World)
      modifies this
      ensures Snapshot() == FailedRunning(old(Snapshot()), w)
    {
      var confirmed := CancelAndStop(w);
      retries := Min(retries + 1, MAX_RETRIES);
      if confirmed && retries <= MAX_AUTOMATIC_RETRIES {
        EnterBackoff(w.now);
      } else {
        state := Unavailable;
      }
    }

    method PollState(writesAllowed: bool, w: World)
      modifies this
      ensures Snapshot() == Polled(old(Snapshot()), writesAllowed, w)
    {
      if state.Resolving? && w.resolution.Some? {
        match w.resolution.value {
          case Failed =>
            cleanupUncertain := true;
            state := Unavailable;
          case Resolved(confirmed, launchable) =>
            cleanupUncertain := cleanupUncertain || !confirmed;
            state := Pending(confirmed, launchable);
        }
      }
      if state.Pending? {
        return;
      }
      if writesAllowed && state.Backoff? && w.now >= state.until {
        BeginResolution(w);
        return;
      }
      if state.Running? {
        PollRunning(w);
      }
    }

    method PollRunning(w: World)
      requires state.Running?
      modifies this
      ensures Snapshot() == PolledRunning(old(Snapshot()), w)
    {
      if state.readySince.Some? && SaturatingSub(w.now, state.readySince.value) >= HEALTHY_RESET {
        retries := 0;
        delays := [];
      }
      if !w.alive || !w.polls {
        FailRunning(w);
      } else if w.becomesReady && !state.ready {
        state := Running(true, Some(w.now));
      }
    }

    method AuthorizeResolution(published: bool, w: World)
      modifies this
      ensures Snapshot() == Authorized(old(Snapshot()), published, w)
    {
      var taken := state;
      if !taken.Pending? {
        return;
      }
      state := Unavailable;
      if !taken.cleanupConfirmed {
        cleanupUncertain := true;
        return;
      }
      if !published || !taken.launchable {
        return;
      }
      match w.launch {
        case Launched =>
          state := Running(false, None);
          started := started + 1;
        case LaunchFailed(confirmed) =>
          if confirmed {
            retries := Min(retries + 1, MAX_RETRIES);
            if retries <= MAX_AUTOMATIC_RETRIES {
              EnterBackoff(w.now);
            }
          } else {
            cleanupUncertain := true;
          }
      }
    }

    method ReloadService(w: World) returns (r: bool)
      modifies this
      ensures Step(Snapshot(), r) == Reloaded(old(Snapshot()), w)
    {
      if cleanupUncertain {
        return false;
      }
      if state.Running? && state.ready && w.reloads {
        return true;
      }
      var confirmed := CancelAndStop(w);
      if !confirmed {
        state := Unavailable;
        return false;
      }
      retries := 0;
      delays := [];
      BeginResolution(w);
      return true;
    }

    method ResumeAfterCommand(w: World)
      modifies this
      ensures Snapshot() == Resumed(old(Snapshot()), w)
    {
      if !cleanupUncertain && state.Stopped? {
        BeginResolution(w);
      }
    }
  }
}
