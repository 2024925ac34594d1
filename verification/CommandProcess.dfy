/** Bounded execution of an owned child process: capture, live output, input and outcome (src/command_process.rs). */
module CommandProcess {
  import opened Common
  import opened OutputCapture

  const MAX_LIVE_OUTPUT_BYTES := 256 * 1024
  const MAX_PENDING_STDIN_BYTES := 64 * 1024
  const MAX_STDIN_LINE_BYTES := 4096
  const MAX_COMMAND_DEADLINE_MILLIS := 300_000
  const MAX_COMMAND_CLEANUP_MILLIS := 2_000
  const READS_PER_TURN := 8

  // ----- Live output -----

  /** The last bytes of `all`, at most `limit` of them. */
  function Tail(all: Bytes, limit: nat): Bytes {
    all[SaturatingSub(|all|, limit)..]
  }

  /** A bounded tail of everything pushed so far, with the position of its first byte. */
  class LiveOutput {
    const limit: nat
    var bytes: Bytes
    var pushed: nat
    ghost var all: Bytes

    ghost predicate Valid()
      reads this
    {
      limit > 0 && bytes == Tail(all, limit) && pushed == Min(|all|, U64_MAX)
    }

    constructor (requested: nat)
      ensures Valid() && all == [] && limit == Max(1, Min(requested, MAX_LIVE_OUTPUT_BYTES))
    {
      limit, bytes, pushed, all := Max(1, Min(requested, MAX_LIVE_OUTPUT_BYTES)), [], 0, [];
    }

    method Push(more: Bytes)
      requires Valid()
      modifies this
      ensures Valid() && all == old(all) + more
    {
      PushKeepsTail(all, more, limit);
      var discard := Min(SaturatingSub(|bytes| + |more|, limit), |bytes|);
      bytes := bytes[discard..];
      var keepFrom := SaturatingSub(|more|, limit);
      bytes := bytes + more[keepFrom..];
      pushed := SaturatingAdd(pushed, |more|);
      all := all + more;
    }

    /** The retained bytes and the position of the first of them among all bytes pushed. */
    method PositionedSnapshot() returns (start: nat, snapshot: Bytes)
      requires Valid() && |all| <= U64_MAX
      ensures start + |snapshot| == |all| && snapshot == all[start..] && |snapshot| == Min(limit, |all|)
    {
      return SaturatingSub(pushed, |bytes|), bytes;
    }
  }

  /** Dropping from the front what no longer fits and appending what does leaves the tail of everything. */
  lemma {:induction false} PushKeepsTail(all: Bytes, more: Bytes, limit: nat)
    requires limit > 0
    ensures var bytes := Tail(all, limit);
      bytes[Min(SaturatingSub(|bytes| + |more|, limit), |bytes|)..] + more[SaturatingSub(|more|, limit)..]
          == Tail(all + more, limit)
  {
    var bytes := Tail(all, limit);
    var discard := Min(SaturatingSub(|bytes| + |more|, limit), |bytes|);
    var from := SaturatingSub(|all + more|, limit);
    if from >= |all| {
      assert bytes[discard..] == [];
      assert (all + more)[from..] == more[from - |all|..];
    } else {
      assert (all + more)[from..] == all[from..] + more;
      assert bytes[discard..] == all[from..];
    }
  }

  // ----- Captured streams -----

  /** What one read returns; the bytes of a read are never empty. */
  datatype ReadResult = Data(bytes: Bytes) | EndOfFile | WouldBlock | Interrupted | Failed

  /** A stream as captured, with everything received from it and whether its end was seen. */
  datatype Capture = Capture(bytes: Bytes, completeness: Completeness, done: bool, received: Bytes, ended: bool)

  datatype Source = Stdout | Stderr

  datatype Chunk = Chunk(source: Source, bytes: Bytes)

  /** The state of draining one stream: the stream, the shared budget, and the kept chunks in drain order. */
  datatype Drain = Drain(pipe: Capture, remaining: nat, log: seq<Chunk>, stopped: bool)

  function Opened(failed: bool): Capture {
    Capture([], if failed then ReadFailed else Complete, failed, [], false)
  }

  function Took(d: Drain, source: Source, r: ReadResult): Drain {
    match r
    case EndOfFile => d.(pipe := d.pipe.(done := true, ended := true), stopped := true)
    case Data(bytes) =>
      var keep := Min(|bytes|, d.remaining);
      var kept := d.pipe.(bytes := d.pipe.bytes + bytes[..keep], received := d.pipe.received + bytes);
      var left := d.remaining - keep;
      var cut := keep < |bytes| || left == 0;
      Drain(if cut then kept.(completeness := Truncated, done := true) else kept, left,
            d.log + [Chunk(source, bytes[..keep])], cut)
    case WouldBlock => d.(stopped := true)
    case Interrupted => d
    case Failed => d.(pipe := d.pipe.(completeness := ReadFailed, done := true), stopped := true)
  }

  function TookAll(d: Drain, source: Source, results: seq<ReadResult>, turns: nat): Drain
    decreases |results|
  {
    if d.stopped || turns == 0 || results == [] then d
    else TookAll(Took(d, source, results[0]), source, results[1..], turns - 1)
  }

  /** One turn of one stream: nothing when it is done, else a bounded number of reads. */
  function Drained(pipe: Capture, source: Source, remaining: nat, log: seq<Chunk>, results: seq<ReadResult>): Drain {
    if pipe.done then Drain(pipe, remaining, log, true)
    else TookAll(Drain(pipe, remaining, log, false), source, results, READS_PER_TURN)
  }

  /** The kept bytes of one stream, or of both, in drain order. */
  function Kept(log: seq<Chunk>, source: Source): Bytes {
    if log == [] then []
    else Kept(log[..|log| - 1], source) + (if log[|log| - 1].source == source then log[|log| - 1].bytes else [])
  }

  function KeptAll(log: seq<Chunk>): Bytes {
    if log == [] then [] else KeptAll(log[..|log| - 1]) + log[|log| - 1].bytes
  }

  lemma {:induction false} KeptSnoc(log: seq<Chunk>, chunk: Chunk)
    ensures KeptAll(log + [chunk]) == KeptAll(log) + chunk.bytes
    ensures Kept(log + [chunk], chunk.source) == Kept(log, chunk.source) + chunk.bytes
    ensures forall other | other != chunk.source :: Kept(log + [chunk], other) == Kept(log, other)
  {
    assert (log + [chunk])[..|log|] == log;
  }

  /** A captured stream is a prefix of what was received, and all of it unless marked otherwise. */
  predicate Faithful(pipe: Capture) {
    && pipe.bytes <= pipe.received
    && (pipe.completeness == Complete ==> pipe.bytes == pipe.received)
    && (pipe.completeness == Complete && pipe.done ==> pipe.ended)
    && (!pipe.done ==> pipe.completeness == Complete)
    && pipe.completeness != Unavailable
  }

  /** The stream holds its kept chunks, and a stream was cut only when the budget is used up. */
  predicate Accounted(d: Drain, source: Source) {
    Faithful(d.pipe) && d.pipe.bytes == Kept(d.log, source) && (d.pipe.completeness == Truncated ==> d.remaining == 0)
  }

  /** What draining one stream may not disturb: the other stream's bytes and the sum of kept and remaining. */
  predicate Conserves(d: Drain, d': Drain, source: Source) {
    && |KeptAll(d'.log)| + d'.remaining == |KeptAll(d.log)| + d.remaining
    && d'.remaining <= d.remaining
    && (forall other | other != source :: Kept(d'.log, other) == Kept(d.log, other))
  }

  lemma {:induction false} TookConserves(d: Drain, source: Source, r: ReadResult)
    requires Accounted(d, source) && !d.pipe.done
    ensures Accounted(Took(d, source, r), source) && Conserves(d, Took(d, source, r), source)
    ensures !Took(d, source, r).stopped ==> !Took(d, source, r).pipe.done
  {
    if r.Data? {
      var keep := Min(|r.bytes|, d.remaining);
      KeptSnoc(d.log, Chunk(source, r.bytes[..keep]));
      TakenPrefix(d.pipe.bytes, r.bytes, keep);
    }
  }

  lemma {:induction false} TakenPrefix(kept: Bytes, more: Bytes, keep: nat)
    requires keep <= |more|
    ensures kept + more[..keep] <= kept + more
    ensures keep == |more| ==> kept + more[..keep] == kept + more
  {
    assert keep == |more| ==> more[..keep] == more;
  }

  lemma {:induction false} TookAllConserves(d: Drain, source: Source, results: seq<ReadResult>, turns: nat)
    requires Accounted(d, source) && (!d.stopped ==> !d.pipe.done)
    ensures Accounted(TookAll(d, source, results, turns), source)
            && Conserves(d, TookAll(d, source, results, turns), source)
    decreases turns
  {
    if !d.stopped && turns != 0 && results != [] {
      TookConserves(d, source, results[0]);
      TookAllConserves(Took(d, source, results[0]), source, results[1..], turns - 1);
    }
  }

  /** Each turn keeps the capture faithful and moves bytes from the budget to the stream, one for one. */
  lemma {:induction false} DrainedConserves(pipe: Capture, source: Source, remaining: nat, log: seq<Chunk>,
                                            results: seq<ReadResult>)
    requires Accounted(Drain(pipe, remaining, log, false), source)
    ensures var d := Drained(pipe, source, remaining, log, results);
      Accounted(d, source) && Conserves(Drain(pipe, remaining, log, false), d, source)
  {
    if !pipe.done {
      TookAllConserves(Drain(pipe, remaining, log, false), source, results, READS_PER_TURN);
    }
  }

  // ----- What one turn takes -----

  /** The bytes that the first `n` reads offer. */
  function Offered(results: seq<ReadResult>, n: nat): Bytes
    requires n <= |results|
  {
    if n == 0 then []
    else Offered(results, n - 1) + (if results[n - 1].Data? then results[n - 1].bytes else [])
  }

  /** After this read the turn goes on: it was interrupted, or gave bytes and left some of the budget. */
  predicate GoesOn(results: seq<ReadResult>, i: nat, budget: nat)
    requires i < |results|
  {
    results[i].Interrupted? || (results[i].Data? && |Offered(results, i + 1)| < budget)
  }

  /** How the last read of a turn leaves the stream. */
  predicate LeftBy(before: Capture, after: Capture, last: ReadResult) {
    match last
    case EndOfFile => after.done && after.ended && after.completeness == before.completeness
    case Data(_) => after.done && after.completeness == Truncated && after.ended == before.ended
    case WouldBlock =>
      after.done == before.done && after.completeness == before.completeness && after.ended == before.ended
    case Interrupted => false
    case Failed => after.done && after.completeness == ReadFailed && after.ended == before.ended
  }

  predicate AllGoOn(results: seq<ReadResult>, n: nat, budget: nat)
    requires n <= |results|
  {
    forall i | 0 <= i < n :: GoesOn(results, i, budget)
  }

  /** Of the offered bytes all are kept that the budget allows. */
  predicate KeepsOffered(d: Drain, d': Drain, source: Source, offered: Bytes) {
    var kept := offered[..Min(|offered|, d.remaining)];
    && d'.pipe.bytes == d.pipe.bytes + kept && d'.pipe.received == d.pipe.received + offered
    && d'.remaining == d.remaining - |kept|
    && KeptAll(d'.log) == KeptAll(d.log) + kept && Kept(d'.log, source) == Kept(d.log, source) + kept
  }

  predicate SameEnd(before: Capture, after: Capture) {
    after.done == before.done && after.completeness == before.completeness && after.ended == before.ended
  }

  /** The turn ended as its last read says, or had no more reads to take. */
  predicate StopsAs(d: Drain, d': Drain, results: seq<ReadResult>, turns: nat, n: nat)
    requires n <= |results|
  {
    if n > 0 && !GoesOn(results, n - 1, d.remaining) then d'.stopped && LeftBy(d.pipe, d'.pipe, results[n - 1])
    else !d'.stopped && (n == turns || n == |results|) && SameEnd(d.pipe, d'.pipe)
  }

  /** The turn took the first `n` reads: it kept their bytes up to the budget, and ended only as the last one says. */
  predicate TookFirst(d: Drain, d': Drain, source: Source, results: seq<ReadResult>, turns: nat, n: nat) {
    && n <= |results| && n <= turns && (n > 0 ==> AllGoOn(results, n - 1, d.remaining))
    && KeepsOffered(d, d', source, Offered(results, n)) && StopsAs(d, d', results, turns, n)
  }

  lemma {:induction false} TookNone(d: Drain, source: Source, results: seq<ReadResult>, turns: nat)
    requires !d.stopped && (turns == 0 || results == [])
    ensures TookFirst(d, d, source, results, turns, 0)
  {
    var none: Bytes := [];
    assert d.pipe.bytes + none == d.pipe.bytes && d.pipe.received + none == d.pipe.received;
    assert KeptAll(d.log) + none == KeptAll(d.log) && Kept(d.log, source) + none == Kept(d.log, source);
  }

  lemma {:induction false} OfferedRest(results: seq<ReadResult>, n: nat)
    requires 0 < n <= |results|
    ensures Offered(results, n) == Offered(results, 1) + Offered(results[1..], n - 1)
  {
    if n > 1 {
      OfferedRest(results, n - 1);
    }
  }

  /** The first read, when it does not end the turn. */
  lemma {:induction false} TookGoingOn(d: Drain, source: Source, results: seq<ReadResult>)
    requires !d.stopped && results != [] && GoesOn(results, 0, d.remaining)
    ensures var next, first := Took(d, source, results[0]), Offered(results, 1);
      && !next.stopped && |first| <= d.remaining && next.remaining == d.remaining - |first|
      && next.pipe == d.pipe.(bytes := d.pipe.bytes + first, received := d.pipe.received + first)
      && KeptAll(next.log) == KeptAll(d.log) + first && Kept(next.log, source) == Kept(d.log, source) + first
  {
    assert Offered(results, 0) == [];
    if results[0].Data? {
      KeptSnoc(d.log, Chunk(source, results[0].bytes));
      assert results[0].bytes[..|results[0].bytes|] == results[0].bytes && [] + results[0].bytes == results[0].bytes;
    }
  }

  /** The first read, when it ends the turn. */
  lemma {:induction false} TookLast(d: Drain, source: Source, results: seq<ReadResult>, turns: nat)
    requires !d.stopped && results != [] && turns > 0 && !GoesOn(results, 0, d.remaining)
    ensures TookFirst(d, Took(d, source, results[0]), source, results, turns, 1)
  {
    assert Offered(results, 0) == [];
    if results[0].Data? {
      var bytes := results[0].bytes;
      assert Offered(results, 1) == bytes;
      KeptSnoc(d.log, Chunk(source, bytes[..Min(|bytes|, d.remaining)]));
    } else {
      TookNone(d, source, [], turns);
      assert Offered(results, 1) == [];
    }
  }

  lemma {:induction false} TookMore(d: Drain, next: Drain, d': Drain, source: Source, results: seq<ReadResult>,
                                    turns: nat, n: nat)
    requires results != [] && turns > 0 && GoesOn(results, 0, d.remaining) && !d.stopped
    requires next == Took(d, source, results[0])
    requires TookFirst(next, d', source, results[1..], turns - 1, n)
    ensures TookFirst(d, d', source, results, turns, n + 1)
  {
    hide Took, GoesOn, Offered, KeepsOffered;
    TookGoingOn(d, source, results);
    OfferedRest(results, n + 1);
    KeepsMore(d, next, d', source, Offered(results, 1), Offered(results[1..], n));
    AllGoOnMore(results, n, d.remaining, next.remaining);
    if n > 0 {
      GoesOnMore(results, n - 1, d.remaining, next.remaining);
    }
  }

  lemma {:induction false} KeepsMore(d: Drain, next: Drain, d': Drain, source: Source, first: Bytes, offered: Bytes)
    requires |first| <= d.remaining && next.remaining == d.remaining - |first|
    requires next.pipe.bytes == d.pipe.bytes + first && next.pipe.received == d.pipe.received + first
    requires KeptAll(next.log) == KeptAll(d.log) + first && Kept(next.log, source) == Kept(d.log, source) + first
    requires KeepsOffered(next, d', source, offered)
    ensures KeepsOffered(d, d', source, first + offered)
  {
    hide KeptAll, Kept;
    var kept, all := offered[..Min(|offered|, next.remaining)], first + offered;
    assert all[..Min(|all|, d.remaining)] == first + kept;
    JoinsOn(d.pipe.bytes, first, kept);
    JoinsOn(d.pipe.received, first, offered);
    JoinsOn(KeptAll(d.log), first, kept);
    JoinsOn(Kept(d.log, source), first, kept);
  }

  lemma {:induction false} JoinsOn(a: Bytes, b: Bytes, c: Bytes)
    ensures a + b + c == a + (b + c)
  {
  }

  /** What follows the first read goes on with the budget it leaves. */
  lemma {:induction false} GoesOnMore(results: seq<ReadResult>, i: nat, budget: nat, left: nat)
    requires i + 1 < |results| && left + |Offered(results, 1)| == budget
    ensures GoesOn(results, i + 1, budget) <==> GoesOn(results[1..], i, left)
  {
    OfferedRest(results, i + 2);
  }

  lemma {:induction false} AllGoOnMore(results: seq<ReadResult>, n: nat, budget: nat, left: nat)
    requires n < |results| && left + |Offered(results, 1)| == budget && GoesOn(results, 0, budget)
    requires n > 0 ==> AllGoOn(results[1..], n - 1, left)
    ensures AllGoOn(results, n, budget)
  {
    hide GoesOn, Offered;
    forall i | 0 <= i < n
      ensures GoesOn(results, i, budget)
    {
      if i > 0 {
        GoesOnMore(results, i - 1, budget, left);
        assert GoesOn(results[1..], i - 1, left);
      }
    }
  }

  lemma {:induction false} TookExactly(d: Drain, source: Source, results: seq<ReadResult>, turns: nat) returns (n: nat)
    requires !d.stopped
    ensures TookFirst(d, TookAll(d, source, results, turns), source, results, turns, n)
    decreases turns
  {
    hide TookFirst, Took, GoesOn;
    if turns == 0 || results == [] {
      TookNone(d, source, results, turns);
      n := 0;
    } else {
      var next := Took(d, source, results[0]);
      if GoesOn(results, 0, d.remaining) {
        TookGoingOn(d, source, results);
        var m := TookExactly(next, source, results[1..], turns - 1);
        TookMore(d, next, TookAll(d, source, results, turns), source, results, turns, m);
        n := m + 1;
      } else {
        TookLast(d, source, results, turns);
        LastStops(d, source, results);
        n := 1;
      }
    }
  }

  lemma {:induction false} LastStops(d: Drain, source: Source, results: seq<ReadResult>)
    requires results != [] && !GoesOn(results, 0, d.remaining)
    ensures Took(d, source, results[0]).stopped
  {
    assert Offered(results, 0) == [];
  }

  /**
   * One turn of an open stream takes its reads until one ends the turn, and at most eight: it keeps everything they
   * offer up to the budget, and leaves the stream open unless the last read ended, broke or cut it.
   */
  lemma {:induction false} DrainedExactly(pipe: Capture, source: Source, remaining: nat, log: seq<Chunk>,
                                          results: seq<ReadResult>) returns (n: nat)
    requires !pipe.done
    ensures TookFirst(Drain(pipe, remaining, log, false), Drained(pipe, source, remaining, log, results), source,
                      results, 8, n)
  {
    hide TookFirst;
    n := TookExactly(Drain(pipe, remaining, log, false), source, results, READS_PER_TURN);
  }

  /** A captured pipe; the ghost fields record what was received and whether the end was seen. */
  class Pipe {
    const source: Source
    var bytes: Bytes
    var completeness: Completeness
    var done: bool
    ghost var received: Bytes
    ghost var ended: bool

    ghost function Captured(): Capture
      reads this
    {
      Capture(bytes, completeness, done, received, ended)
    }

    constructor (source: Source, failed: bool)
      ensures Captured() == Opened(failed) && this.source == source
    {
      this.source := source;
      bytes, completeness, done := [], if failed then ReadFailed else Complete, failed;
      received, ended := [], false;
    }

    method DrainWithLive(budget: nat, live: LiveOutput?, results: seq<ReadResult>, ghost log: seq<Chunk>)
      returns (remaining: nat, ghost after: seq<Chunk>)
      requires live != null ==> live.Valid() && live.all == KeptAll(log)
      modifies this, live
      ensures live != null ==> live.Valid() && live.all == KeptAll(after)
      ensures Drained(old(Captured()), source, budget, log, results)
              == Drain(Captured(), remaining, after, Drained(old(Captured()), source, budget, log, results).stopped)
    {
      remaining, after := budget, log;
      if done {
        return;
      }
      var i := 0;
      while i < READS_PER_TURN && i < |results|
        invariant 0 <= i <= READS_PER_TURN && i <= |results|
        invariant live != null ==> live.Valid() && live.all == KeptAll(after)
        invariant TookAll(Drain(Captured(), remaining, after, false), source, results[i..], READS_PER_TURN - i)
                  == Drained(old(Captured()), source, budget, log, results)
      {
        ghost var before := Drain(Captured(), remaining, after, false);
        assert results[i..][0] == results[i] && results[i..][1..] == results[i + 1..];
        var stop, left := TakeOne(remaining, live, results[i], after);
        ghost var taken := Took(before, source, results[i]);
        remaining, after := left, taken.log;
        i := i + 1;
        if stop {
          return;
        }
      }
    }

    /** Keeps what the budget allows; a stream that is cut, or uses the budget up, is done. */
    method TakeData(remaining: nat, live: LiveOutput?, more: Bytes, ghost log: seq<Chunk>)
      returns (stop: bool, left: nat)
      requires live != null ==> live.Valid() && live.all == KeptAll(log)
      modifies this, live
      ensures Took(Drain(old(Captured()), remaining, log, false), source, Data(more))
              == Drain(Captured(), left, log + [Chunk(source, more[..Min(|more|, remaining)])], stop)
      ensures live != null ==>
                live.Valid() && live.all == KeptAll(log + [Chunk(source, more[..Min(|more|, remaining)])])
    {
      var keep := Min(|more|, remaining);
      bytes, received := bytes + more[..keep], received + more;
      ShowLive(live, more[..keep], log);
      left := remaining - keep;
      stop := keep < |more| || left == 0;
      if stop {
        completeness, done := Truncated, true;
      }
    }

    method ShowLive(live: LiveOutput?, kept: Bytes, ghost log: seq<Chunk>)
      requires live != null ==> live.Valid() && live.all == KeptAll(log)
      modifies live
      ensures live != null ==> live.Valid() && live.all == KeptAll(log + [Chunk(source, kept)])
    {
      if live != null {
        KeptSnoc(log, Chunk(source, kept));
        live.Push(kept);
      }
    }

    /** Takes one read; `stop` when the turn is over. */
    method TakeOne(remaining: nat, live: LiveOutput?, r: ReadResult, ghost log: seq<Chunk>)
      returns (stop: bool, left: nat)
      requires live != null ==> live.Valid() && live.all == KeptAll(log)
      modifies this, live
      ensures Took(Drain(old(Captured()), remaining, log, false), source, r)
              == Drain(Captured(), left, Took(Drain(old(Captured()), remaining, log, false), source, r).log, stop)
      ensures live != null ==>
                live.Valid() && live.all == KeptAll(Took(Drain(old(Captured()), remaining, log, false), source, r).log)
    {
      left, stop := remaining, true;
      match r {
        case EndOfFile =>
          done, ended := true, true;
        case Data(more) =>
          stop, left := TakeData(remaining, live, more, log);
        case WouldBlock =>
        case Interrupted =>
          stop := false;
        case Failed =>
          completeness, done := ReadFailed, true;
      }
    }
  }

  // ----- Input -----

  /** What the console submits: lines, then perhaps the end of input; or it hangs up. */
  datatype Submission = Line(bytes: Bytes) | EndOfInput | HungUp

  /** How the pipe takes a write of the pending bytes: at most so many of them, or none. */
  datatype Write = Wrote(count: nat) | WriteBlocked | WriteFailed

  /** A line of the console: bounded, and without line breaks of its own. */
  predicate Acceptable(line: Bytes) {
    |line| <= MAX_STDIN_LINE_BYTES && LF !in line && CR !in line
  }

  predicate IsLine(submission: Submission) {
    submission.Line? && Acceptable(submission.bytes)
  }

  /** The lines submitted before anything else was. */
  function Leading(submissions: seq<Submission>): seq<Bytes> {
    if submissions == [] || !IsLine(submissions[0]) then [] else [submissions[0].bytes] + Leading(submissions[1..])
  }

  /** The input that lines make: the initial bytes, then each line with its line feed. */
  function Submitted(initial: Bytes, lines: seq<Bytes>): Bytes {
    if lines == [] then initial else Submitted(initial, lines[..|lines| - 1]) + lines[|lines| - 1] + [LF]
  }

  /**
   * The feeding of a child's standard input: what waits in the channel and what waits for the pipe; and everything
   * that arrived, the lines taken from it, what the pipe took, and whether it broke.
   */
  datatype Input = Input(
    channel: seq<Submission>,
    receiving: bool,
    writing: bool,
    pending: Bytes,
    eof: bool,
    arrived: seq<Submission>,
    lines: seq<Bytes>,
    written: Bytes,
    broken: bool)

  function Arrives(i: Input, submissions: seq<Submission>): Input {
    i.(channel := i.channel + submissions, arrived := i.arrived + submissions)
  }

  /** One submission: a line joins the pending bytes; anything else ends the input. */
  function Takes(i: Input): Input
    requires i.channel != []
  {
    var first, rest := i.channel[0], i.(channel := i.channel[1..]);
    if IsLine(first) then rest.(pending := i.pending + first.bytes + [LF], lines := i.lines + [first.bytes])
    else rest.(eof := true, receiving := false)
  }

  predicate MayTake(i: Input) {
    i.receiving && |i.pending| <= MAX_PENDING_STDIN_BYTES - (MAX_STDIN_LINE_BYTES + 1)
  }

  /** Takes at most a batch of lines, each only when it is sure to fit the bounded buffer. */
  function Receives(i: Input, turns: nat): Input
    decreases |i.channel|
  {
    if turns == 0 || i.channel == [] || !MayTake(i) then i else Receives(Takes(i), turns - 1)
  }

  lemma {:induction false} ReceivesNext(i: Input, turns: nat)
    requires turns > 0 && i.channel != [] && MayTake(i)
    ensures Receives(i, turns) == Receives(Takes(i), turns - 1)
  {
  }

  lemma {:induction false} ReceivesNothing(i: Input, turns: nat)
    requires turns == 0 || i.channel == [] || !MayTake(i)
    ensures Receives(i, turns) == i
  {
  }

  /** Writes from the front of what is pending; a pipe that takes nothing or fails is given up. */
  function Writes(i: Input, answer: Write): Input {
    if i.pending == [] then i
    else match answer
      case WriteBlocked => i
      case WriteFailed => i.(pending := [], writing := false, receiving := false, broken := true)
      case Wrote(offered) =>
        var count := Min(offered, |i.pending|);
        if count == 0 then i.(writing := false, receiving := false, broken := true)
        else i.(pending := i.pending[count..], written := i.written + i.pending[..count])
  }

  const LINES_PER_TURN := 16

  function Fed(i: Input, answer: Write): Input {
    if !i.writing then i.(receiving := false)
    else
      var next := Writes(Receives(i, LINES_PER_TURN), answer);
      if next.eof && next.pending == [] then next.(writing := false, receiving := false) else next
  }

  function AsSubmissions(lines: seq<Bytes>): seq<Submission> {
    seq(|lines|, i requires 0 <= i < |lines| => Line(lines[i]))
  }

  /**
   * What the pipe took is a beginning of what the taken lines make, the pending bytes are the rest while it is open,
   * and all of it was taken once it closed without breaking.
   */
  predicate Feeding(initial: Bytes, i: Input) {
    && i.written <= Submitted(initial, i.lines)
    && (i.writing ==> i.written + i.pending == Submitted(initial, i.lines))
    && (!i.writing && !i.broken ==> i.written == Submitted(initial, i.lines))
    && (i.receiving ==> i.writing && |i.pending| <= MAX_PENDING_STDIN_BYTES)
    && (i.broken ==> !i.writing)
  }

  /** The lines taken are the first ones that arrived; while receiving, what arrived is them and the channel. */
  predicate Queued(i: Input) {
    && i.lines <= Leading(i.arrived) && (forall l | l in i.lines :: Acceptable(l))
    && (i.receiving ==> i.arrived == AsSubmissions(i.lines) + i.channel)
  }

  lemma {:induction false} LeadingLines(lines: seq<Bytes>, rest: seq<Submission>)
    requires forall l | l in lines :: Acceptable(l)
    ensures Leading(AsSubmissions(lines) + rest) == lines + Leading(rest)
  {
    var all := AsSubmissions(lines) + rest;
    if lines == [] {
      assert all == rest;
    } else {
      LeadingLines(lines[1..], rest);
      assert all[0] == Line(lines[0]) && all[1..] == AsSubmissions(lines[1..]) + rest;
      assert lines + Leading(rest) == [lines[0]] + (lines[1..] + Leading(rest));
    }
  }

  lemma {:induction false} LeadingExtends(submissions: seq<Submission>, more: seq<Submission>)
    ensures Leading(submissions) <= Leading(submissions + more)
  {
    if submissions != [] && IsLine(submissions[0]) {
      LeadingExtends(submissions[1..], more);
      assert (submissions + more)[1..] == submissions[1..] + more;
    }
  }

  lemma {:induction false} SubmittedExtends(initial: Bytes, lines: seq<Bytes>, more: seq<Bytes>)
    requires lines <= more
    ensures Submitted(initial, lines) <= Submitted(initial, more)
    decreases |more|
  {
    if |lines| < |more| {
      SubmittedExtends(initial, lines, more[..|more| - 1]);
    } else {
      assert lines == more;
    }
  }

  lemma {:induction false} ArrivesFeeding(initial: Bytes, i: Input, submissions: seq<Submission>)
    requires Feeding(initial, i) && Queued(i)
    ensures Feeding(initial, Arrives(i, submissions)) && Queued(Arrives(i, submissions))
  {
    LeadingExtends(i.arrived, submissions);
    assert AsSubmissions(i.lines) + i.channel + submissions == AsSubmissions(i.lines) + (i.channel + submissions);
  }

  lemma {:induction false} TakesFeeding(initial: Bytes, i: Input)
    requires Feeding(initial, i) && i.channel != [] && MayTake(i)
    ensures Feeding(initial, Takes(i)) && Takes(i).writing && |Takes(i).pending| <= MAX_PENDING_STDIN_BYTES
  {
    if IsLine(i.channel[0]) {
      var line := i.channel[0].bytes;
      assert (i.lines + [line])[..|i.lines|] == i.lines;
      assert i.written + (i.pending + line + [LF]) == i.written + i.pending + line + [LF];
    }
  }

  lemma {:induction false} TakesQueued(i: Input)
    requires Queued(i) && i.channel != [] && MayTake(i)
    ensures Queued(Takes(i))
  {
    var first, rest := i.channel[0], i.channel[1..];
    LeadingLines(i.lines, i.channel);
    if IsLine(first) {
      var lines := i.lines + [first.bytes];
      assert AsSubmissions(lines) + rest == AsSubmissions(i.lines) + ([Line(first.bytes)] + rest);
      assert [Line(first.bytes)] + rest == i.channel;
      LeadingLines(lines, rest);
    }
  }

  lemma {:induction false} ReceivesFeeding(initial: Bytes, i: Input, turns: nat)
    requires Feeding(initial, i) && Queued(i) && i.writing
    ensures Feeding(initial, Receives(i, turns)) && Queued(Receives(i, turns)) && Receives(i, turns).writing
    ensures Receives(i, turns).written == i.written
    decreases turns
  {
    if turns != 0 && i.channel != [] && MayTake(i) {
      TakesFeeding(initial, i);
      TakesQueued(i);
      ReceivesFeeding(initial, Takes(i), turns - 1);
    }
  }

  /** The pending bytes once these lines were taken. */
  function PendingWith(pending: Bytes, lines: seq<Bytes>): Bytes {
    Submitted(pending, lines)
  }

  /** The first submissions that fit a turn were taken: lines, and at most one that ends the input as the last. */
  predicate TakesFirst(i: Input, r: Input, turns: nat, n: nat) {
    && n <= turns && n <= |i.channel|
    && (var lines := Leading(i.channel[..n]);
        && r == i.(channel := i.channel[n..], lines := i.lines + lines, pending := PendingWith(i.pending, lines),
                   eof := i.eof || |lines| < n, receiving := |lines| == n)
        && n <= |lines| + 1)
    && (n == turns || n == |i.channel| || !MayTake(r))
    && forall k | 0 <= k < n :: Spacious(PendingWith(i.pending, Leading(i.channel[..k])))
  }

  /** A line of any allowed length still fits the buffer. */
  predicate Spacious(pending: Bytes) {
    |pending| <= MAX_PENDING_STDIN_BYTES - (MAX_STDIN_LINE_BYTES + 1)
  }

  lemma {:induction false} SubmittedFirst(pending: Bytes, line: Bytes, lines: seq<Bytes>)
    ensures Submitted(pending, [line] + lines) == Submitted(pending + line + [LF], lines)
    decreases |lines|
  {
    var all := [line] + lines;
    if lines == [] {
      assert all == [line] && all[..|all| - 1] == [];
    } else {
      SubmittedFirst(pending, line, lines[..|lines| - 1]);
      assert all[..|all| - 1] == [line] + lines[..|lines| - 1];
    }
  }

  lemma {:induction false} LeadingFirst(channel: seq<Submission>, n: nat)
    requires 0 < n <= |channel| && IsLine(channel[0])
    ensures Leading(channel[..n]) == [channel[0].bytes] + Leading(channel[1..][..n - 1])
  {
    assert channel[..n][1..] == channel[1..][..n - 1];
  }

  lemma {:induction false} TakesNone(i: Input, turns: nat)
    requires i.receiving && (turns == 0 || i.channel == [] || !MayTake(i))
    ensures TakesFirst(i, i, turns, 0)
  {
    assert i.channel[..0] == [] && i.channel[0..] == i.channel && i.lines + [] == i.lines;
  }

  lemma {:induction false} TakesEnd(i: Input, turns: nat)
    requires turns > 0 && i.channel != [] && MayTake(i) && !IsLine(i.channel[0])
    ensures TakesFirst(i, Takes(i), turns, 1)
  {
    var first := i.channel[..1];
    assert !IsLine(first[0]);
    assert Leading(first) == [] && i.lines + [] == i.lines && i.channel[..0] == [];
  }

  lemma {:induction false} TakesMore(i: Input, r: Input, turns: nat, n: nat)
    requires turns > 0 && i.channel != [] && MayTake(i) && IsLine(i.channel[0])
    requires TakesFirst(Takes(i), r, turns - 1, n)
    ensures TakesFirst(i, r, turns, n + 1)
  {
    hide Leading, Submitted, MayTake, Acceptable;
    var next, line := Takes(i), i.channel[0].bytes;
    LeadingFirst(i.channel, n + 1);
    var rest := Leading(next.channel[..n]);
    SubmittedFirst(i.pending, line, rest);
    assert i.lines + [line] + rest == i.lines + ([line] + rest);
    assert next.channel[n..] == i.channel[n + 1..];
    forall k | 0 <= k < n + 1
      ensures Spacious(PendingWith(i.pending, Leading(i.channel[..k])))
    {
      if k == 0 {
        NothingLeads(i);
      } else {
        LeadingFirst(i.channel, k);
        SubmittedFirst(i.pending, line, Leading(next.channel[..k - 1]));
        assert Spacious(PendingWith(next.pending, Leading(next.channel[..k - 1])));
      }
    }
  }

  lemma {:induction false} NothingLeads(i: Input)
    requires MayTake(i)
    ensures Spacious(PendingWith(i.pending, Leading(i.channel[..0])))
  {
  }

  lemma {:induction false} ReceivesExactly(i: Input, turns: nat) returns (n: nat)
    requires i.receiving
    ensures TakesFirst(i, Receives(i, turns), turns, n)
    decreases turns
  {
    hide TakesFirst, MayTake, Leading;
    if turns == 0 || i.channel == [] || !MayTake(i) {
      TakesNone(i, turns);
      n := 0;
    } else if IsLine(i.channel[0]) {
      StillReceives(i);
      var m := ReceivesExactly(Takes(i), turns - 1);
      TakesMore(i, Receives(i, turns), turns, m);
      n := m + 1;
    } else {
      TakesEnd(i, turns);
      EndReceives(i, turns - 1);
      n := 1;
    }
  }

  lemma {:induction false} StillReceives(i: Input)
    requires i.channel != [] && MayTake(i) && IsLine(i.channel[0])
    ensures Takes(i).receiving
  {
  }

  lemma {:induction false} EndReceives(i: Input, turns: nat)
    requires i.channel != [] && !IsLine(i.channel[0])
    ensures Receives(Takes(i), turns) == Takes(i)
  {
  }

  /**
   * A turn of an open input takes the first submissions while it receives, at most sixteen and while any line is sure
   * to fit, writes from the front as much as the pipe takes, and closes once the input ended and all is written.
   */
  lemma {:induction false} FedExactly(i: Input, answer: Write) returns (n: nat, taken: Input)
    requires i.writing
    ensures if i.receiving then TakesFirst(i, taken, 16, n) else taken == i
    ensures var r, offered := Fed(i, answer), if answer.Wrote? then Min(answer.count, |taken.pending|) else 0;
      var broken := taken.pending != [] && (answer.WriteFailed? || (answer.Wrote? && offered == 0));
      && r.written == i.written + taken.pending[..offered] && r.lines == taken.lines && r.channel == taken.channel
      && r.broken == (i.broken || broken)
      && r.writing == (!broken && !(taken.eof && offered == |taken.pending|))
      && (r.writing ==> r.pending == taken.pending[offered..] && r.receiving == taken.receiving)
  {
    n, taken := 0, Receives(i, LINES_PER_TURN);
    if i.receiving {
      n := ReceivesExactly(i, LINES_PER_TURN);
    } else {
      ReceivesNothing(i, LINES_PER_TURN);
    }
    hide Receives, Leading, Submitted, MayTake;
    assert taken.pending[..0] == [] && taken.pending[0..] == taken.pending;
    assert i.written + [] == i.written;
  }

  lemma {:induction false} WritesFeeding(initial: Bytes, i: Input, answer: Write)
    requires Feeding(initial, i) && Queued(i) && i.writing
    ensures Feeding(initial, Writes(i, answer)) && Queued(Writes(i, answer))
    ensures i.written <= Writes(i, answer).written
  {
    if answer.Wrote? {
      var count := Min(answer.count, |i.pending|);
      assert i.written + i.pending == i.written + i.pending[..count] + i.pending[count..];
    }
  }

  /** Each turn keeps the order and loses nothing while the pipe holds. */
  lemma {:induction false} FedFeeding(initial: Bytes, i: Input, answer: Write)
    requires Feeding(initial, i) && Queued(i)
    ensures Feeding(initial, Fed(i, answer)) && Queued(Fed(i, answer))
    ensures i.written <= Fed(i, answer).written
  {
    if i.writing {
      ReceivesFeeding(initial, i, LINES_PER_TURN);
      WritesFeeding(initial, Receives(i, LINES_PER_TURN), answer);
    }
  }

  /** Feeds a child's standard input; the channel stands for what its other end submits. */
  class SubmittedInput {
    var channel: seq<Submission>
    var receiving: bool
    var writing: bool
    var pending: Bytes
    var eof: bool
    ghost var arrived: seq<Submission>
    ghost var lines: seq<Bytes>
    ghost var written: Bytes
    ghost var broken: bool

    ghost function Snapshot(): Input
      reads this
    {
      Input(channel, receiving, writing, pending, eof, arrived, lines, written, broken)
    }

    constructor (source: InputSource)
      ensures Snapshot() == Awaiting(source)
    {
      var usable := source.InitialBytes? || source.usable;
      channel, receiving, writing := [], source.Console? && usable, usable;
      pending, eof := if source.InitialBytes? then source.bytes else [], source.InitialBytes? || !usable;
      arrived, lines, written, broken := [], [], [], false;
    }

    method Arrive(submissions: seq<Submission>)
      modifies this`channel, this`arrived
      ensures Snapshot() == Arrives(old(Snapshot()), submissions)
    {
      channel, arrived := channel + submissions, arrived + submissions;
    }

    method TakeOne()
      requires channel != []
      modifies this`channel, this`receiving, this`pending, this`eof, this`lines
      ensures Snapshot() == Takes(old(Snapshot()))
    {
      var submission := channel[0];
      channel := channel[1..];
      if submission.Line? && Acceptable(submission.bytes) {
        pending := pending + submission.bytes + [LF];
        lines := lines + [submission.bytes];
      } else {
        eof, receiving := true, false;
      }
    }

    method Receive(batch: nat)
      modifies this`channel, this`receiving, this`pending, this`eof, this`lines
      ensures Snapshot() == Receives(old(Snapshot()), batch)
    {
      var turns := batch;
      while turns > 0 && receiving && |pending| <= MAX_PENDING_STDIN_BYTES - (MAX_STDIN_LINE_BYTES + 1) && channel != []
        invariant Receives(Snapshot(), turns) == Receives(old(Snapshot()), batch)
      {
        ReceivesNext(Snapshot(), turns);
        TakeOne();
        turns := turns - 1;
      }
      ReceivesNothing(Snapshot(), turns);
    }

    method WritePending(answer: Write)
      modifies this`receiving, this`writing, this`pending, this`written, this`broken
      ensures Snapshot() == Writes(old(Snapshot()), answer)
    {
      if pending == [] {
        return;
      }
      match answer {
        case Wrote(offered) =>
          var count := Min(offered, |pending|);
          if count == 0 {
            writing, receiving, broken := false, false, true;
          } else {
            written := written + pending[..count];
            pending := pending[count..];
          }
        case WriteBlocked =>
        case WriteFailed =>
          pending, writing, receiving, broken := [], false, false, true;
      }
    }

    /** One turn: receive, write, and close once everything submitted was written. */
    method PollOnce(answer: Write)
      modifies this
      ensures Snapshot() == Fed(old(Snapshot()), answer)
    {
      if !writing {
        receiving := false;
        return;
      }
      Receive(LINES_PER_TURN);
      WritePending(answer);
      if eof && pending == [] {
        writing, receiving := false, false;
      }
    }
  }

  /** Where input comes from: a console, whose pipe may turn out unusable, or bytes known beforehand. */
  datatype InputSource = Console(usable: bool) | InitialBytes(bytes: Bytes)

  function Awaiting(source: InputSource): Input {
    match source
    case Console(usable) => Input([], usable, usable, [], !usable, [], [], [], false)
    case InitialBytes(bytes) => Input([], false, true, bytes, true, [], [], [], false)
  }

  /** The bytes that were there before anything was submitted. */
  function Initial(source: InputSource): Bytes {
    if source.InitialBytes? then source.bytes else []
  }

  lemma {:induction false} AwaitingFeeding(source: InputSource)
    ensures Feeding(Initial(source), Awaiting(source)) && Queued(Awaiting(source))
  {
  }

  // ----- The execution loop -----

  datatype Reason = Quit | Cancelled | OutputLimit | CaptureFailure | Deadline | CleanupFailure | Signal

  datatype Status = Status(code: Option<int>, signal: Option<nat>)

  datatype Wait = Running | Reaped(status: Status) | WaitFailed

  /** The answer to signalling the group. */
  datatype Kill = Delivered | NoSuchGroup | KillFailed

  /** What is submitted and all the operating system answers in one turn of the loop, and the clock where it is read. */
  datatype Turn = Turn(
    submitted: seq<Submission>,
    write: Write,
    stdout: seq<ReadResult>,
    stderr: seq<ReadResult>,
    wait: Wait,
    cancel: nat,
    elapsed: nat,
    clock: nat,
    kill: Kill,
    probe: Kill,
    later: nat)

  /** The variables of the loop; `ended` once it was left. */
  datatype Run = Run(
    input: Option<Input>,
    stdout: Option<Capture>,
    stderr: Capture,
    remaining: nat,
    log: seq<Chunk>,
    reason: Option<Reason>,
    status: Option<Status>,
    cleanupStarted: Option<nat>,
    groupAbsent: bool,
    ended: bool)

  function InputFed(s: Run, t: Turn): Run {
    match s.input
    case None => s
    case Some(i) => s.(input := Some(FedOnce(i, t)))
  }

  function OutDrained(s: Run, t: Turn): Run {
    match s.stdout
    case None => s
    case Some(pipe) =>
      var d := Drained(pipe, Stdout, s.remaining, s.log, t.stdout);
      s.(stdout := Some(d.pipe), remaining := d.remaining, log := d.log)
  }

  function ErrDrained(s: Run, t: Turn): Run {
    var d := Drained(s.stderr, Stderr, s.remaining, s.log, t.stderr);
    s.(stderr := d.pipe, remaining := d.remaining, log := d.log)
  }

  function OrElse(reason: Option<Reason>, fallback: Reason): Option<Reason> {
    if reason.Some? then reason else Some(fallback)
  }

  function Waited(s: Run, t: Turn): Run {
    if s.status.Some? then s
    else match t.wait
      case Running => s
      case Reaped(status) => s.(status := Some(status))
      case WaitFailed => s.(reason := OrElse(s.reason, CleanupFailure))
  }

  predicate ReadBroken(s: Run) {
    (s.stdout.Some? && s.stdout.value.completeness == ReadFailed) || s.stderr.completeness == ReadFailed
  }

  function Decided(s: Run, deadline: nat, t: Turn): Run {
    if s.reason.Some? then s
    else if t.cancel == 2 then s.(reason := Some(Quit))
    else if t.cancel == 1 then s.(reason := Some(Cancelled))
    else if s.remaining == 0 then s.(reason := Some(OutputLimit))
    else if ReadBroken(s) then s.(reason := Some(CaptureFailure))
    else if s.status.None? && t.elapsed >= deadline then s.(reason := Some(Deadline))
    else s
  }

  function Signalled(s: Run, answer: Kill): Run {
    match answer
    case Delivered => s
    case NoSuchGroup => s.(groupAbsent := true)
    case KillFailed => s.(reason := Some(CleanupFailure))
  }

  function Killed(s: Run, t: Turn): Run {
    if s.cleanupStarted.None? && (s.reason.Some? || s.status.Some?)
    then Signalled(s.(cleanupStarted := Some(t.clock)), t.kill) else s
  }

  function Probed(s: Run, t: Turn): Run {
    if s.cleanupStarted.Some? && !s.groupAbsent then Signalled(s, t.probe) else s
  }

  function Unfinished(pipe: Capture): Capture {
    if pipe.done then pipe else pipe.(completeness := ReadFailed)
  }

  predicate StreamsDone(s: Run) {
    (s.stdout.Some? ==> s.stdout.value.done) && s.stderr.done
  }

  function Left(s: Run, t: Turn): Run {
    if s.status.Some? && s.groupAbsent && StreamsDone(s) then s.(ended := true)
    else if s.cleanupStarted.Some? && SaturatingSub(t.later, s.cleanupStarted.value) >= MAX_COMMAND_CLEANUP_MILLIS then
      var stdout := if s.stdout.Some? then Some(Unfinished(s.stdout.value)) else None;
      var reason := if s.status.Some? && s.groupAbsent then OrElse(s.reason, CaptureFailure) else Some(CleanupFailure);
      s.(stdout := stdout, stderr := Unfinished(s.stderr), reason := reason, ended := true)
    else s
  }

  /** Feeds the input and drains the streams. */
  function Heard(s: Run, t: Turn): Run {
    ErrDrained(OutDrained(InputFed(s, t), t), t)
  }

  /** Waits for the leader, settles on a reason, and kills and probes the group. */
  function Weighed(s: Run, deadline: nat, t: Turn): Run {
    Probed(Killed(Decided(Waited(s, t), deadline, t), t), t)
  }

  /** From the drained streams to the decision whether the loop ends. */
  function Judged(s: Run, deadline: nat, t: Turn): Run {
    Left(Weighed(s, deadline, t), t)
  }

  function Turned(s: Run, deadline: nat, t: Turn): Run {
    if s.ended then s else Judged(Heard(s, t), deadline, t)
  }

  function Ran(s: Run, deadline: nat, turns: seq<Turn>): Run
    decreases turns
  {
    if turns == [] then s else Ran(Turned(s, deadline, turns[0]), deadline, turns[1..])
  }

  function Spawned(input: Option<InputSource>, capturesStdout: bool, outFailed: bool, errFailed: bool,
                   outputBytes: nat): Run {
    var fed := if input.Some? then Some(Awaiting(input.value)) else None;
    var stdout := if capturesStdout then Some(Opened(outFailed)) else None;
    Run(fed, stdout, Opened(errFailed), outputBytes, [], None, None, None, false, false)
  }

  // ----- The result -----

  datatype Outcome = Exited(code: int) | Terminated(reason: Reason, signal: Option<nat>) | LaunchFailed

  datatype Captures = Captures(bytes: Bytes, completeness: Completeness)

  datatype ProcessResult = ProcessResult(
    outcome: Outcome,
    stdout: Captures,
    stderr: Captures,
    cleanupConfirmed: bool,
    pendingCleanup: bool)

  function Confirmed(s: Run): bool {
    s.status.Some? && s.groupAbsent
  }

  function Finished(s: Run): ProcessResult {
    var signal := if s.status.Some? then s.status.value.signal else None;
    var outcome :=
      if s.reason.Some? then Terminated(s.reason.value, signal)
      else if s.status.Some? && s.status.value.code.Some? then Exited(s.status.value.code.value)
      else Terminated(Signal, signal);
    ProcessResult(
      outcome,
      if s.stdout.Some? then Captures(s.stdout.value.bytes, s.stdout.value.completeness) else Captures([], Unavailable),
      Captures(s.stderr.bytes, s.stderr.completeness),
      Confirmed(s),
      !Confirmed(s))
  }

  // ----- What every run keeps -----

  predicate OutAccounted(s: Run) {
    if s.stdout.Some? then Accounted(Drain(s.stdout.value, s.remaining, s.log, false), Stdout)
    else Kept(s.log, Stdout) == []
  }

  predicate ErrAccounted(s: Run) {
    Accounted(Drain(s.stderr, s.remaining, s.log, false), Stderr)
  }

  /** Captures are faithful, and what was kept plus what remains is the output limit. */
  predicate Balanced(s: Run, outputBytes: nat) {
    OutAccounted(s) && ErrAccounted(s) && |KeptAll(s.log)| + s.remaining == outputBytes
  }

  lemma {:induction false} CapturedBalanced(s: Run, outputBytes: nat, t: Turn)
    requires Balanced(s, outputBytes)
    ensures Balanced(Heard(s, t), outputBytes)
  {
    var s1 := OutDrained(InputFed(s, t), t);
    if s.stdout.Some? {
      DrainedConserves(s.stdout.value, Stdout, s.remaining, s.log, t.stdout);
      var d := Drained(s.stdout.value, Stdout, s.remaining, s.log, t.stdout);
      assert Kept(d.log, Stderr) == Kept(s.log, Stderr);
    }
    assert ErrAccounted(s1);
    DrainedConserves(s1.stderr, Stderr, s1.remaining, s1.log, t.stderr);
    var d := Drained(s1.stderr, Stderr, s1.remaining, s1.log, t.stderr);
    assert Kept(d.log, Stdout) == Kept(s1.log, Stdout);
  }

  predicate SameStreams(s: Run, s': Run) {
    && s'.stdout == s.stdout && s'.stderr == s.stderr && s'.remaining == s.remaining && s'.log == s.log
       && s'.ended == s.ended
  }

  lemma {:induction false} KilledKeeps(s: Run, t: Turn)
    ensures SameStreams(s, Killed(s, t)) && (Killed(s, t).reason.None? ==> s.reason.None?)
    ensures s.cleanupStarted.Some? ==> Killed(s, t) == s
    ensures s.reason.Some? || s.status.Some? ==> Killed(s, t).cleanupStarted.Some?
  {
  }

  lemma {:induction false} ProbedKeeps(s: Run, t: Turn)
    ensures SameStreams(s, Probed(s, t)) && (Probed(s, t).reason.None? ==> s.reason.None?)
    ensures Probed(s, t).cleanupStarted == s.cleanupStarted
  {
  }

  lemma {:induction false} DecidedKeeps(s: Run, deadline: nat, t: Turn)
    ensures SameStreams(s, Decided(s, deadline, t)) && Decided(s, deadline, t).cleanupStarted == s.cleanupStarted
    ensures Decided(s, deadline, t).reason.None? ==> s.remaining > 0 && !ReadBroken(s)
    ensures t.elapsed >= deadline ==> Decided(s, deadline, t).reason.Some? || Decided(s, deadline, t).status.Some?
  {
  }

  /** Weighing leaves the streams alone, and without a reason afterwards the budget and the reads were sound. */
  lemma {:induction false} WeighedKeeps(s: Run, deadline: nat, t: Turn)
    ensures SameStreams(s, Weighed(s, deadline, t))
    ensures Weighed(s, deadline, t).reason.None? ==> s.remaining > 0 && !ReadBroken(s)
    ensures t.elapsed >= deadline ==> Weighed(s, deadline, t).cleanupStarted.Some?
    ensures s.cleanupStarted.Some? ==> Weighed(s, deadline, t).cleanupStarted == s.cleanupStarted
  {
    var waited := Waited(s, t);
    assert SameStreams(s, waited) && waited.cleanupStarted == s.cleanupStarted;
    DecidedKeeps(waited, deadline, t);
    KilledKeeps(Decided(waited, deadline, t), t);
    ProbedKeeps(Killed(Decided(waited, deadline, t), t), t);
  }

  /** Leaving the loop changes no byte. */
  lemma {:induction false} LeftKeeps(s: Run, t: Turn)
    ensures var s' := Left(s, t);
      && s'.remaining == s.remaining && s'.log == s.log && s'.cleanupStarted == s.cleanupStarted
      && (!s'.ended ==> s' == s)
      && (s'.stdout.Some? <==> s.stdout.Some?)
      && (s.stdout.Some? ==> s'.stdout.value.bytes == s.stdout.value.bytes)
      && s'.stderr.bytes == s.stderr.bytes
  {
  }

  /** The captures hold what was kept, in order, within the limit; a stream never holds more than was received. */
  predicate Bounded(s: Run, outputBytes: nat) {
    && (if s.stdout.Some? then s.stdout.value.bytes == Kept(s.log, Stdout) else Kept(s.log, Stdout) == [])
    && s.stderr.bytes == Kept(s.log, Stderr)
    && |KeptAll(s.log)| + s.remaining == outputBytes
  }

  lemma {:induction false} TurnedBalanced(s: Run, outputBytes: nat, deadline: nat, t: Turn)
    requires !s.ended && Balanced(s, outputBytes)
    ensures !Turned(s, deadline, t).ended ==> Balanced(Turned(s, deadline, t), outputBytes)
    ensures Bounded(Turned(s, deadline, t), outputBytes)
  {
    CapturedBalanced(s, outputBytes, t);
    WeighedKeeps(Heard(s, t), deadline, t);
    LeftKeeps(Weighed(Heard(s, t), deadline, t), t);
  }

  lemma {:induction false} RanEnded(s: Run, deadline: nat, turns: seq<Turn>)
    requires s.ended
    ensures Ran(s, deadline, turns) == s
    decreases turns
  {
    if turns != [] {
      RanEnded(s, deadline, turns[1..]);
    }
  }

  /** In every run, kept stdout and stderr bytes and the remaining budget add up to the limit. */
  lemma {:induction false} RanBounded(s: Run, outputBytes: nat, deadline: nat, turns: seq<Turn>)
    requires !s.ended && Balanced(s, outputBytes)
    ensures Bounded(Ran(s, deadline, turns), outputBytes)
    decreases turns
  {
    if turns != [] {
      var next := Turned(s, deadline, turns[0]);
      TurnedBalanced(s, outputBytes, deadline, turns[0]);
      if next.ended {
        RanEnded(next, deadline, turns[1..]);
      } else {
        RanBounded(next, outputBytes, deadline, turns[1..]);
      }
    }
  }

  lemma {:induction false} KeptSplits(log: seq<Chunk>)
    ensures |KeptAll(log)| == |Kept(log, Stdout)| + |Kept(log, Stderr)|
  {
    if log != [] {
      KeptSplits(log[..|log| - 1]);
    }
  }

  /** A stream was received whole. */
  predicate Whole(pipe: Capture) {
    pipe.completeness == Complete && pipe.done && pipe.ended && pipe.bytes == pipe.received
  }

  lemma {:induction false} WholeWhenSound(pipe: Capture, remaining: nat, log: seq<Chunk>, source: Source)
    requires Accounted(Drain(pipe, remaining, log, false), source)
    requires pipe.done && remaining > 0 && pipe.completeness != ReadFailed
    ensures Whole(pipe)
  {
  }

  /** A loop left without a reason was left because everything was done. */
  lemma {:induction false} LeftWithoutReason(s: Run, t: Turn)
    requires !s.ended && Left(s, t).ended && Left(s, t).reason.None?
    ensures s.reason.None? && Confirmed(s) && StreamsDone(s) && Left(s, t) == s.(ended := true)
  {
  }

  /** The turn that ends the loop without a reason found both streams whole and the process and its group gone. */
  lemma {:induction false} EndsWithoutReason(s: Run, outputBytes: nat, deadline: nat, t: Turn)
    requires Balanced(s, outputBytes)
    requires Judged(s, deadline, t).ended && Judged(s, deadline, t).reason.None? && !s.ended
    ensures var s' := Judged(s, deadline, t);
      && (s'.stdout.Some? ==> Whole(s'.stdout.value)) && Whole(s'.stderr) && Confirmed(s')
  {
    WeighedKeeps(s, deadline, t);
    LeftWithoutReason(Weighed(s, deadline, t), t);
    if s.stdout.Some? {
      WholeWhenSound(s.stdout.value, s.remaining, s.log, Stdout);
    }
    WholeWhenSound(s.stderr, s.remaining, s.log, Stderr);
  }

  /** The turn that ends the loop with an unconfirmed process gives the reason for it. */
  lemma {:induction false} EndsUnconfirmed(s: Run, deadline: nat, t: Turn)
    requires Judged(s, deadline, t).ended && !s.ended && !Confirmed(Judged(s, deadline, t))
    ensures Judged(s, deadline, t).reason == Some(CleanupFailure)
  {
  }

  /**
   * Whatever the operating system does: a normal exit is reported only with every captured stream complete and
   * whole; cleanup is pending exactly when it is unconfirmed, and then the outcome is a cleanup failure.
   */
  lemma {:induction false} OutcomeSound(s: Run, outputBytes: nat, deadline: nat, turns: seq<Turn>)
    requires !s.ended && Balanced(s, outputBytes) && Ran(s, deadline, turns).ended
    ensures var e := Ran(s, deadline, turns);
      var r := Finished(e);
      && (r.outcome.Exited? ==> (e.stdout.Some? ==> Whole(e.stdout.value)) && Whole(e.stderr) && r.cleanupConfirmed)
      && (r.pendingCleanup <==> !r.cleanupConfirmed)
      && (r.pendingCleanup ==> r.outcome.Terminated? && r.outcome.reason == CleanupFailure)
    decreases turns
  {
    var next := Turned(s, deadline, turns[0]);
    TurnedBalanced(s, outputBytes, deadline, turns[0]);
    if next.ended {
      RanEnded(next, deadline, turns[1..]);
      CapturedBalanced(s, outputBytes, turns[0]);
      var captured := Heard(s, turns[0]);
      if next.reason.None? {
        EndsWithoutReason(captured, outputBytes, deadline, turns[0]);
      }
      if !Confirmed(next) {
        EndsUnconfirmed(captured, deadline, turns[0]);
      }
    } else {
      OutcomeSound(next, outputBytes, deadline, turns[1..]);
    }
  }

  lemma {:induction false} SpawnedBalanced(input: Option<InputSource>, capturesStdout: bool, outFailed: bool,
                                           errFailed: bool, outputBytes: nat)
    requires outputBytes > 0
    ensures Balanced(Spawned(input, capturesStdout, outFailed, errFailed, outputBytes), outputBytes)
  {
  }

  /** Cleanup starts no later than the turn that sees the deadline, and two seconds later the loop ends. */
  lemma {:induction false} LoopBounded(s: Run, deadline: nat, t: Turn)
    requires !s.ended
    ensures t.elapsed >= deadline ==> Turned(s, deadline, t).cleanupStarted.Some?
    ensures s.cleanupStarted.Some? && t.later >= s.cleanupStarted.value + MAX_COMMAND_CLEANUP_MILLIS
            ==> Turned(s, deadline, t).ended
  {
    WeighedKeeps(Heard(s, t), deadline, t);
    LeftKeeps(Weighed(Heard(s, t), deadline, t), t);
  }

  // ----- Execution -----

  /** What is asked for, and what the operating system answers to opening it; `pipes` when a pipe for bytes opened. */
  datatype Launch = Launch(
    deadline: nat,
    outputBytes: nat,
    cancelled: nat,
    input: Option<InputSource>,
    pipes: bool,
    spawns: bool,
    capturesStdout: bool,
    outFailed: bool,
    errFailed: bool)

  predicate InBounds(l: Launch) {
    0 < l.deadline <= MAX_COMMAND_DEADLINE_MILLIS && 0 < l.outputBytes <= MAX_COMMAND_OUTPUT_BYTES
  }

  function NotLaunched(outcome: Outcome): ProcessResult {
    ProcessResult(outcome, Captures([], Unavailable), Captures([], Unavailable), true, false)
  }

  function Begun(l: Launch): Run {
    Spawned(l.input, l.capturesStdout, l.outFailed, l.errFailed, l.outputBytes)
  }

  /** Bytes known beforehand need a pipe before the child is spawned. */
  predicate Opens(l: Launch) {
    l.input.Some? && l.input.value.InitialBytes? ==> l.pipes
  }

  /** The result of an execution, or None while the given turns have not ended it. */
  function Executed(l: Launch, turns: seq<Turn>): Option<ProcessResult> {
    if !InBounds(l) then Some(NotLaunched(LaunchFailed))
    else if l.cancelled != 0 then Some(NotLaunched(Terminated(if l.cancelled == 2 then Quit else Cancelled, None)))
    else if !Opens(l) || !l.spawns then Some(NotLaunched(LaunchFailed))
    else
      var e := Ran(Begun(l), l.deadline, turns);
      if e.ended then Some(Finished(e)) else None
  }

  predicate Launches(l: Launch) {
    InBounds(l) && l.cancelled == 0 && Opens(l) && l.spawns
  }

  /** What the live output sees of an execution: the kept bytes of both streams in drain order. */
  function Streamed(l: Launch, turns: seq<Turn>): Bytes {
    if Launches(l) then KeptAll(Ran(Begun(l), l.deadline, turns).log) else []
  }

  /** Every result of an execution: what an exit means, when cleanup is pending, and that no output limit is passed. */
  lemma {:induction false} ExecutedSound(l: Launch, turns: seq<Turn>)
    requires Executed(l, turns).Some?
    ensures var r := Executed(l, turns).value;
      && (r.outcome.Exited? ==> r.cleanupConfirmed && r.stderr.completeness == Complete
                                && (l.capturesStdout ==> r.stdout.completeness == Complete))
      && (r.pendingCleanup <==> !r.cleanupConfirmed)
      && (r.pendingCleanup ==> r.outcome.Terminated? && r.outcome.reason == CleanupFailure)
      && (InBounds(l) ==> |r.stdout.bytes| + |r.stderr.bytes| <= l.outputBytes)
      && |Streamed(l, turns)| == |r.stdout.bytes| + |r.stderr.bytes|
  {
    if Launches(l) {
      SpawnedBalanced(l.input, l.capturesStdout, l.outFailed, l.errFailed, l.outputBytes);
      OutcomeSound(Begun(l), l.outputBytes, l.deadline, turns);
      RanBounded(Begun(l), l.outputBytes, l.deadline, turns);
      KeptSplits(Ran(Begun(l), l.deadline, turns).log);
      RanCaptures(Begun(l), l.deadline, turns);
    }
  }

  lemma {:induction false} RanCaptures(s: Run, deadline: nat, turns: seq<Turn>)
    ensures Ran(s, deadline, turns).stdout.Some? <==> s.stdout.Some?
    decreases turns
  {
    if turns != [] {
      WeighedKeeps(Heard(s, turns[0]), deadline, turns[0]);
      LeftKeeps(Weighed(Heard(s, turns[0]), deadline, turns[0]), turns[0]);
      RanCaptures(Turned(s, deadline, turns[0]), deadline, turns[1..]);
    }
  }

  // ----- What the outcome says -----

  /** The streams and the input after the first `i` turns, which only depend on draining and feeding. */
  function HeardAll(l: Launch, turns: seq<Turn>, i: nat): Run
    requires i <= |turns|
  {
    if i == 0 then Begun(l) else Heard(HeardAll(l, turns, i - 1), turns[i - 1])
  }

  /** The status the leader was first reaped with, among the first `i` turns. */
  function FirstReaped(turns: seq<Turn>, i: nat): Option<Status>
    requires i <= |turns|
  {
    if i == 0 then None
    else if FirstReaped(turns, i - 1).Some? then FirstReaped(turns, i - 1)
    else if turns[i - 1].wait.Reaped? then Some(turns[i - 1].wait.status)
    else None
  }

  /**
   * The reason a turn gives, in this order: waiting failed before the leader was reaped, the user quit, the user
   * cancelled, the budget is used up, a read failed, or the deadline passed without a status.
   */
  function ReasonAt(t: Turn, waiting: bool, running: bool, spent: bool, broken: bool, deadline: nat): Option<Reason> {
    if waiting && t.wait.WaitFailed? then Some(CleanupFailure)
    else if t.cancel == 2 then Some(Quit)
    else if t.cancel == 1 then Some(Cancelled)
    else if spent then Some(OutputLimit)
    else if broken then Some(CaptureFailure)
    else if running && t.elapsed >= deadline then Some(Deadline)
    else None
  }

  /** A read of one of the captured streams failed in the first `i` turns. */
  predicate ReadFails(l: Launch, turns: seq<Turn>, i: nat)
    requires i <= |turns|
  {
    var streams := HeardAll(l, turns, i);
    || streams.stderr.completeness == ReadFailed
    || (streams.stdout.Some? && streams.stdout.value.completeness == ReadFailed)
  }

  /** Every captured stream is over after the first `i` turns. */
  predicate HeardEverything(l: Launch, turns: seq<Turn>, i: nat)
    requires i <= |turns|
  {
    var streams := HeardAll(l, turns, i);
    streams.stderr.done && (streams.stdout.None? || streams.stdout.value.done)
  }

  function ReasonOf(l: Launch, turns: seq<Turn>, i: nat): Option<Reason>
    requires i < |turns|
  {
    var streams := HeardAll(l, turns, i + 1);
    ReasonAt(turns[i], FirstReaped(turns, i).None?, FirstReaped(turns, i + 1).None?, streams.remaining == 0,
             ReadFails(l, turns, i + 1), l.deadline)
  }

  /** The reason of the first turn that gives one. */
  function FirstReason(l: Launch, turns: seq<Turn>, i: nat): Option<Reason>
    requires i <= |turns|
  {
    if i == 0 then None
    else if FirstReason(l, turns, i - 1).Some? then FirstReason(l, turns, i - 1)
    else ReasonOf(l, turns, i - 1)
  }

  /** The first turn with a reason or a status: it kills the group. */
  function KillTurn(l: Launch, turns: seq<Turn>, i: nat): (k: Option<nat>)
    requires i <= |turns|
    ensures k.Some? ==> k.value < i
  {
    if i == 0 then None
    else if KillTurn(l, turns, i - 1).Some? then KillTurn(l, turns, i - 1)
    else if FirstReason(l, turns, i).Some? || FirstReaped(turns, i).Some? then Some(i - 1)
    else None
  }

  /** Some signal sent in the first `i` turns found no group. */
  predicate GroupGone(l: Launch, turns: seq<Turn>, i: nat)
    requires i <= |turns|
  {
    i > 0 &&
    (GroupGone(l, turns, i - 1) || GoneAtKill(l, turns, i - 1)
     || (KillTurn(l, turns, i).Some? && turns[i - 1].probe.NoSuchGroup?))
  }

  predicate GoneAtKill(l: Launch, turns: seq<Turn>, i: nat)
    requires i < |turns|
  {
    KillTurn(l, turns, i + 1) == Some(i) && turns[i].kill.NoSuchGroup?
  }

  /** Some signal sent in the first `i` turns failed: the killing one, or a probe of a group not known to be gone. */
  predicate SignalFailed(l: Launch, turns: seq<Turn>, i: nat)
    requires i <= |turns|
  {
    i > 0 &&
    (SignalFailed(l, turns, i - 1)
     || (KillTurn(l, turns, i) == Some(i - 1) && turns[i - 1].kill.KillFailed?)
     || (KillTurn(l, turns, i).Some? && !GroupGone(l, turns, i - 1) && !GoneAtKill(l, turns, i - 1)
         && turns[i - 1].probe.KillFailed?))
  }

  /** Everything is over: the leader was reaped, its group is gone, and the streams ended. */
  predicate AllOver(l: Launch, turns: seq<Turn>, i: nat)
    requires i <= |turns|
  {
    FirstReaped(turns, i).Some? && GroupGone(l, turns, i) && HeardEverything(l, turns, i)
  }

  /** Cleanup has taken its two seconds at the end of turn `i - 1`. */
  predicate Overdue(l: Launch, turns: seq<Turn>, i: nat)
    requires i <= |turns|
  {
    KillTurn(l, turns, i).Some?
    && turns[i - 1].later >= turns[KillTurn(l, turns, i).value].clock + MAX_COMMAND_CLEANUP_MILLIS
  }

  predicate Over(l: Launch, turns: seq<Turn>, i: nat)
    requires i <= |turns|
  {
    AllOver(l, turns, i) || Overdue(l, turns, i)
  }

  /** The reason in the end: failed cleanup before any other, then the first one given, then streams left open. */
  function LastingReason(l: Launch, turns: seq<Turn>, i: nat): Option<Reason>
    requires i <= |turns|
  {
    if SignalFailed(l, turns, i) then Some(CleanupFailure)
    else if FirstReaped(turns, i).None? || !GroupGone(l, turns, i) then Some(CleanupFailure)
    else if FirstReason(l, turns, i).Some? then FirstReason(l, turns, i)
    else if !HeardEverything(l, turns, i) then Some(CaptureFailure)
    else None
  }

  function SignalOf(status: Option<Status>): Option<nat> {
    if status.Some? then status.value.signal else None
  }

  /** The loop's variables are those of the turns taken, while it goes on. */
  predicate Follows(l: Launch, turns: seq<Turn>, i: nat, s: Run)
    requires i <= |turns|
  {
    && SameStreams(HeardAll(l, turns, i), s)
    && s.status == FirstReaped(turns, i)
    && s.groupAbsent == GroupGone(l, turns, i)
    && s.reason == (if SignalFailed(l, turns, i) then Some(CleanupFailure) else FirstReason(l, turns, i))
    && s.cleanupStarted == match KillTurn(l, turns, i) case None => None case Some(k) => Some(turns[k].clock)
  }

  /** Draining does not look at the variables of the loop. */
  lemma {:induction false} HeardSame(s: Run, s': Run, t: Turn)
    requires SameStreams(s, s')
    ensures SameStreams(Heard(s, t), Heard(s', t))
    ensures Heard(s', t).status == s'.status && Heard(s', t).reason == s'.reason
    ensures Heard(s', t).groupAbsent == s'.groupAbsent && Heard(s', t).cleanupStarted == s'.cleanupStarted
  {
  }

  /** Signals are only sent once there is a reason or a status. */
  lemma {:induction false} SignalsAfterKill(l: Launch, turns: seq<Turn>, i: nat)
    requires i <= |turns|
    ensures GroupGone(l, turns, i) || SignalFailed(l, turns, i) ==> KillTurn(l, turns, i).Some?
  {
    if i > 0 {
      SignalsAfterKill(l, turns, i - 1);
    }
  }

  /** After the leader was waited for and a reason was settled on. */
  lemma {:induction false} DecidedIs(heard: Run, deadline: nat, t: Turn, decided: Run)
    requires decided == Decided(Waited(heard, t), deadline, t)
    ensures SameStreams(heard, decided)
    ensures decided.groupAbsent == heard.groupAbsent && decided.cleanupStarted == heard.cleanupStarted
    ensures decided.status == if heard.status.Some? then heard.status
                              else if t.wait.Reaped? then Some(t.wait.status) else None
    ensures decided.reason
            == if heard.reason.Some? then heard.reason
               else ReasonAt(t, heard.status.None?, decided.status.None?, heard.remaining == 0, ReadBroken(heard),
                             deadline)
  {
    var waited := Waited(heard, t);
    WaitedIs(heard, t, waited);
    SameShows(heard, waited);
    hide Waited, ReadBroken;
  }

  lemma {:induction false} WaitedIs(heard: Run, t: Turn, waited: Run)
    requires waited == Waited(heard, t)
    ensures SameStreams(heard, waited)
    ensures waited.groupAbsent == heard.groupAbsent && waited.cleanupStarted == heard.cleanupStarted
    ensures waited.status == if heard.status.Some? then heard.status
                             else if t.wait.Reaped? then Some(t.wait.status) else None
    ensures waited.reason == if heard.status.None? && t.wait.WaitFailed? then OrElse(heard.reason, CleanupFailure)
                             else heard.reason
  {
  }

  /** What the drained streams show, whatever the loop's variables are. */
  lemma {:induction false} SameShows(s: Run, s': Run)
    requires SameStreams(s, s')
    ensures ReadBroken(s) == ReadBroken(s') && (s.remaining == 0 <==> s'.remaining == 0)
  {
  }

  lemma {:induction false} DecidedFollows(l: Launch, turns: seq<Turn>, i: nat, heard: Run, decided: Run)
    requires i < |turns| && SameStreams(HeardAll(l, turns, i + 1), heard) && heard.status == FirstReaped(turns, i)
    requires heard.reason == if SignalFailed(l, turns, i) then Some(CleanupFailure) else FirstReason(l, turns, i)
    requires decided == Decided(Waited(heard, turns[i]), l.deadline, turns[i])
    ensures SameStreams(heard, decided) && decided.status == FirstReaped(turns, i + 1)
    ensures decided.groupAbsent == heard.groupAbsent && decided.cleanupStarted == heard.cleanupStarted
    ensures decided.reason
            == if SignalFailed(l, turns, i) then Some(CleanupFailure) else FirstReason(l, turns, i + 1)
  {
    DecidedIs(heard, l.deadline, turns[i], decided);
    SameShows(HeardAll(l, turns, i + 1), heard);
  }

  /** After the group was killed, if this is the turn to do it. */
  lemma {:induction false} KilledFollows(l: Launch, turns: seq<Turn>, i: nat, decided: Run, killed: Run)
    requires i < |turns| && killed == Killed(decided, turns[i])
    requires decided.status == FirstReaped(turns, i + 1) && decided.groupAbsent == GroupGone(l, turns, i)
    requires decided.reason
            == if SignalFailed(l, turns, i) then Some(CleanupFailure) else FirstReason(l, turns, i + 1)
    requires decided.cleanupStarted
            == match KillTurn(l, turns, i) case None => None case Some(k) => Some(turns[k].clock)
    ensures SameStreams(decided, killed) && killed.status == decided.status
    ensures killed.cleanupStarted
            == match KillTurn(l, turns, i + 1) case None => None case Some(k) => Some(turns[k].clock)
    ensures killed.groupAbsent == (GroupGone(l, turns, i) || GoneAtKill(l, turns, i))
    ensures killed.reason
            == if SignalFailed(l, turns, i) || (KillTurn(l, turns, i + 1) == Some(i) && turns[i].kill.KillFailed?)
               then Some(CleanupFailure) else FirstReason(l, turns, i + 1)
  {
    SignalsAfterKill(l, turns, i);
  }

  /** Weighing one more turn. */
  lemma {:induction false} WeighedFollows(l: Launch, turns: seq<Turn>, i: nat, s: Run)
    requires i < |turns| && Follows(l, turns, i, s)
    ensures Follows(l, turns, i + 1, Weighed(Heard(s, turns[i]), l.deadline, turns[i]))
  {
    var heard := Heard(s, turns[i]);
    HeardSame(HeardAll(l, turns, i), s, turns[i]);
    var decided := Decided(Waited(heard, turns[i]), l.deadline, turns[i]);
    var killed := Killed(decided, turns[i]);
    DecidedFollows(l, turns, i, heard, decided);
    KilledFollows(l, turns, i, decided, killed);
    ProbedFollows(l, turns, i, killed, Probed(killed, turns[i]));
  }

  lemma {:induction false} ProbedFollows(l: Launch, turns: seq<Turn>, i: nat, killed: Run, probed: Run)
    requires i < |turns| && probed == Probed(killed, turns[i])
    requires SameStreams(HeardAll(l, turns, i + 1), killed) && killed.status == FirstReaped(turns, i + 1)
    requires killed.cleanupStarted
            == match KillTurn(l, turns, i + 1) case None => None case Some(k) => Some(turns[k].clock)
    requires killed.groupAbsent == (GroupGone(l, turns, i) || GoneAtKill(l, turns, i))
    requires killed.reason
            == if SignalFailed(l, turns, i) || (KillTurn(l, turns, i + 1) == Some(i) && turns[i].kill.KillFailed?)
               then Some(CleanupFailure) else FirstReason(l, turns, i + 1)
    ensures Follows(l, turns, i + 1, probed)
  {
  }

  /** The loop is left exactly when it is over, with the lasting reason. */
  lemma {:induction false} LeftFollows(l: Launch, turns: seq<Turn>, i: nat, s: Run)
    requires 0 < i <= |turns| && Follows(l, turns, i, s) && !s.ended
    ensures var left := Left(s, turns[i - 1]);
      && (left.ended <==> Over(l, turns, i))
      && (!left.ended ==> left == s)
      && (left.ended ==> left.reason == LastingReason(l, turns, i) && left.status == s.status
                         && left.groupAbsent == s.groupAbsent)
  {
  }

  /** One more turn. */
  lemma {:induction false} TurnFollows(l: Launch, turns: seq<Turn>, i: nat, s: Run)
    requires i < |turns| && Follows(l, turns, i, s) && !s.ended
    ensures var next := Turned(s, l.deadline, turns[i]);
      && (next.ended <==> Over(l, turns, i + 1))
      && (!next.ended ==> Follows(l, turns, i + 1, next))
      && (next.ended ==> next.reason == LastingReason(l, turns, i + 1) && next.status == FirstReaped(turns, i + 1)
                         && next.groupAbsent == GroupGone(l, turns, i + 1))
  {
    var heard := Heard(s, turns[i]);
    var weighed := Weighed(heard, l.deadline, turns[i]);
    WeighedFollows(l, turns, i, s);
    HeardSame(s, s, turns[i]);
    WeighedKeeps(heard, l.deadline, turns[i]);
    LeftFollows(l, turns, i + 1, weighed);
  }

  lemma {:induction false} RanNext(s: Run, deadline: nat, turns: seq<Turn>, i: nat)
    requires i < |turns|
    ensures Ran(s, deadline, turns[..i + 1]) == Turned(Ran(s, deadline, turns[..i]), deadline, turns[i])
    decreases i
  {
    if i == 0 {
      assert turns[..1][1..] == [] && turns[..0] == [];
    } else {
      var rest := turns[1..];
      assert turns[..i + 1][1..] == rest[..i] && turns[..i][1..] == rest[..i - 1];
      RanNext(Turned(s, deadline, turns[0]), deadline, rest, i - 1);
    }
  }

  /** The run after the first `i` turns. */
  function RanTo(l: Launch, turns: seq<Turn>, i: nat): Run
    requires i <= |turns|
  {
    Ran(Begun(l), l.deadline, turns[..i])
  }

  lemma {:induction false} RanToNext(l: Launch, turns: seq<Turn>, i: nat)
    requires i < |turns|
    ensures RanTo(l, turns, i + 1) == Turned(RanTo(l, turns, i), l.deadline, turns[i])
    ensures RanTo(l, turns, i).ended ==> RanTo(l, turns, i + 1) == RanTo(l, turns, i)
  {
    RanNext(Begun(l), l.deadline, turns, i);
  }

  lemma {:induction false} BegunFollows(l: Launch, turns: seq<Turn>)
    ensures Follows(l, turns, 0, RanTo(l, turns, 0))
  {
    assert RanTo(l, turns, 0) == Begun(l);
  }

  /** While the loop goes on, its variables are those of the turns taken. */
  lemma {:induction false} RanFollows(l: Launch, turns: seq<Turn>, i: nat)
    requires i <= |turns| && !RanTo(l, turns, i).ended
    ensures Follows(l, turns, i, RanTo(l, turns, i))
  {
    hide *;
    if i == 0 {
      BegunFollows(l, turns);
    } else {
      RanToNext(l, turns, i - 1);
      RanFollows(l, turns, i - 1);
      TurnFollows(l, turns, i - 1, RanTo(l, turns, i - 1));
    }
  }

  /** The turn after which the loop has ended is the one after which it is over, and it leaves the lasting reason. */
  lemma {:induction false} RanEnds(l: Launch, turns: seq<Turn>, i: nat)
    requires 0 < i <= |turns| && !RanTo(l, turns, i - 1).ended
    ensures var e := RanTo(l, turns, i);
      && (e.ended <==> Over(l, turns, i))
      && (e.ended ==> e.reason == LastingReason(l, turns, i) && e.status == FirstReaped(turns, i)
                      && e.groupAbsent == GroupGone(l, turns, i))
  {
    hide *;
    RanFollows(l, turns, i - 1);
    RanToNext(l, turns, i - 1);
    TurnFollows(l, turns, i - 1, RanTo(l, turns, i - 1));
  }

  lemma {:induction false} EndedStays(l: Launch, turns: seq<Turn>, i: nat, j: nat)
    requires i <= j <= |turns| && RanTo(l, turns, i).ended
    ensures RanTo(l, turns, j) == RanTo(l, turns, i)
    decreases j
  {
    hide *;
    if i < j {
      EndedStays(l, turns, i, j - 1);
      RanToNext(l, turns, j - 1);
    }
  }

  /** The first turn after which the loop has ended, if there is one. */
  lemma {:induction false} FirstEnded(l: Launch, turns: seq<Turn>, i: nat) returns (n: nat)
    requires 0 < i <= |turns| + 1 && !RanTo(l, turns, i - 1).ended
    ensures i <= n <= |turns| + 1 && !RanTo(l, turns, n - 1).ended
    ensures n <= |turns| ==> RanTo(l, turns, n).ended
    decreases |turns| + 1 - i
  {
    hide *;
    if i == |turns| + 1 || RanTo(l, turns, i).ended {
      n := i;
    } else {
      n := FirstEnded(l, turns, i + 1);
    }
  }

  lemma {:induction false} NotOverBefore(l: Launch, turns: seq<Turn>, n: nat, j: nat)
    requires 0 < j < n <= |turns| + 1 && !RanTo(l, turns, n - 1).ended
    ensures !Over(l, turns, j)
  {
    hide *;
    if RanTo(l, turns, j).ended {
      EndedStays(l, turns, j, n - 1);
    }
    if RanTo(l, turns, j - 1).ended {
      EndedStays(l, turns, j - 1, n - 1);
    }
    RanEnds(l, turns, j);
  }

  /** What a result says when the first `n` turns were taken. */
  predicate Tells(l: Launch, turns: seq<Turn>, n: nat, r: ProcessResult)
    requires n <= |turns|
  {
    var reason, status := LastingReason(l, turns, n), FirstReaped(turns, n);
    && (reason.Some? ==> r.outcome == Terminated(reason.value, SignalOf(status)))
    && (reason.None? ==>
          && status.Some?
          && (status.value.code.Some? ==> r.outcome == Exited(status.value.code.value))
          && (status.value.code.None? ==> r.outcome == Terminated(Signal, SignalOf(status))))
    && (r.cleanupConfirmed <==> status.Some? && GroupGone(l, turns, n))
  }

  lemma {:induction false} FinishedTells(l: Launch, turns: seq<Turn>, n: nat, e: Run)
    requires n <= |turns| && e.reason == LastingReason(l, turns, n) && e.status == FirstReaped(turns, n)
    requires e.groupAbsent == GroupGone(l, turns, n)
    ensures Tells(l, turns, n, Finished(e))
  {
  }

  /**
   * A launched execution has a result exactly once it is over, and the result is that of the first turn after which
   * it is: terminated for the lasting reason with the signal the leader was first reaped with, and without a reason
   * exited with the code of that status, or terminated by its signal when it has none.
   */
  lemma {:induction false} OutcomeExact(l: Launch, turns: seq<Turn>) returns (n: nat)
    requires Launches(l)
    ensures 0 < n <= |turns| + 1 && forall j | 0 < j < n :: !Over(l, turns, j)
    ensures Executed(l, turns).Some? <==> n <= |turns|
    ensures n <= |turns| ==> Over(l, turns, n) && Tells(l, turns, n, Executed(l, turns).value)
  {
    n := FirstEnded(l, turns, 1);
    forall j | 0 < j < n
      ensures !Over(l, turns, j)
    {
      NotOverBefore(l, turns, n, j);
    }
    assert turns[..|turns|] == turns;
    if n <= |turns| {
      RanEnds(l, turns, n);
      EndedStays(l, turns, n, |turns|);
      FinishedTells(l, turns, n, RanTo(l, turns, n));
    }
  }

  /** An execution that is not launched says why, and captures nothing. */
  lemma {:induction false} NotLaunchedExact(l: Launch, turns: seq<Turn>)
    requires !Launches(l)
    ensures Executed(l, turns).Some?
    ensures var r := Executed(l, turns).value;
      && r.outcome == (if InBounds(l) && l.cancelled == 2 then Terminated(Quit, None)
                       else if InBounds(l) && l.cancelled != 0 then Terminated(Cancelled, None)
                       else LaunchFailed)
      && r.stdout == r.stderr == Captures([], Unavailable) && r.cleanupConfirmed && !r.pendingCleanup
  {
  }

  // ----- Input over a whole execution -----

  /** Only feeding touches the input. */
  lemma {:induction false} TurnedInput(s: Run, deadline: nat, t: Turn)
    requires !s.ended
    ensures Turned(s, deadline, t).input == InputFed(s, t).input
  {
    var heard := Heard(s, t);
    assert heard.input == InputFed(s, t).input;
    WeighedInput(heard, deadline, t);
    LeftInput(Weighed(heard, deadline, t), t);
  }

  lemma {:induction false} WeighedInput(s: Run, deadline: nat, t: Turn)
    ensures Weighed(s, deadline, t).input == s.input
  {
    var waited := Waited(s, t);
    assert waited.input == s.input;
    var decided := Decided(waited, deadline, t);
    assert decided.input == s.input;
    assert Killed(decided, t).input == s.input;
  }

  lemma {:induction false} LeftInput(s: Run, t: Turn)
    ensures Left(s, t).input == s.input
  {
  }

  function AllSubmitted(turns: seq<Turn>): seq<Submission> {
    if turns == [] then [] else turns[0].submitted + AllSubmitted(turns[1..])
  }

  function FedOnce(i: Input, t: Turn): Input {
    Fed(Arrives(i, t.submitted), t.write)
  }

  /** The feeding of some turns, on its own. */
  function FedAll(i: Input, turns: seq<Turn>): Input
    decreases turns
  {
    if turns == [] then i else FedAll(FedOnce(i, turns[0]), turns[1..])
  }

  lemma {:induction false} FedOnceFeeding(initial: Bytes, i: Input, t: Turn)
    requires Feeding(initial, i) && Queued(i)
    ensures Feeding(initial, FedOnce(i, t)) && Queued(FedOnce(i, t))
  {
    ArrivesFeeding(initial, i, t.submitted);
    FedFeeding(initial, Arrives(i, t.submitted), t.write);
  }

  /** Over any turns the feeding goes on in order. */
  lemma {:induction false} FedAllFeeding(initial: Bytes, i: Input, turns: seq<Turn>)
    requires Feeding(initial, i) && Queued(i)
    ensures Feeding(initial, FedAll(i, turns)) && Queued(FedAll(i, turns))
    decreases turns
  {
    if turns != [] {
      FedOnceFeeding(initial, i, turns[0]);
      FedAllFeeding(initial, FedOnce(i, turns[0]), turns[1..]);
    }
  }

  /** What arrives is what is submitted. */
  lemma {:induction false} FedAllArrives(i: Input, turns: seq<Turn>)
    ensures FedAll(i, turns).arrived == i.arrived + AllSubmitted(turns)
    decreases turns
  {
    if turns == [] {
      assert i.arrived + [] == i.arrived;
    } else {
      var next := FedOnce(i, turns[0]);
      FedOnceArrives(i, turns[0]);
      FedAllArrives(next, turns[1..]);
      assert i.arrived + turns[0].submitted + AllSubmitted(turns[1..]) == i.arrived + AllSubmitted(turns);
    }
  }

  lemma {:induction false} FedOnceArrives(i: Input, t: Turn)
    ensures FedOnce(i, t).arrived == i.arrived + t.submitted
  {
    ReceivesArrived(Arrives(i, t.submitted), LINES_PER_TURN);
  }

  lemma {:induction false} ReceivesArrived(i: Input, turns: nat)
    ensures Receives(i, turns).arrived == i.arrived
    decreases turns
  {
    if turns != 0 && i.channel != [] && MayTake(i) {
      ReceivesArrived(Takes(i), turns - 1);
    }
  }

  /** The loop feeds its input in each turn it takes. */
  lemma {:induction false} RanInput(s: Run, deadline: nat, turns: seq<Turn>) returns (n: nat)
    requires s.input.Some?
    ensures n <= |turns| && Ran(s, deadline, turns).input == Some(FedAll(s.input.value, turns[..n]))
    decreases turns
  {
    n := 0;
    if s.ended {
      RanEnded(s, deadline, turns);
    } else if turns != [] {
      TurnedInput(s, deadline, turns[0]);
      var m := RanInput(Turned(s, deadline, turns[0]), deadline, turns[1..]);
      n := m + 1;
      assert turns[..n][0] == turns[0] && turns[..n][1..] == turns[1..][..m];
    }
  }

  lemma {:induction false} SubmittedBeginning(turns: seq<Turn>, n: nat)
    requires n <= |turns|
    ensures AllSubmitted(turns[..n]) <= AllSubmitted(turns)
  {
    if n > 0 {
      SubmittedBeginning(turns[1..], n - 1);
      assert turns[..n][0] == turns[0] && turns[..n][1..] == turns[1..][..n - 1];
    }
  }

  /**
   * Over a whole execution, whatever the child and the operating system do: what the child's standard input took
   * is a beginning of the initial bytes followed by the lines submitted before anything else; and all that was
   * taken from the console was passed on once the input closed without breaking.
   */
  lemma {:induction false} ExecutedFed(l: Launch, turns: seq<Turn>) returns (i: Input)
    requires Launches(l) && l.input.Some?
    ensures Ran(Begun(l), l.deadline, turns).input == Some(i)
    ensures i.written <= Submitted(Initial(l.input.value), Leading(AllSubmitted(turns)))
    ensures i.lines <= Leading(AllSubmitted(turns))
    ensures !i.writing && !i.broken ==> i.written == Submitted(Initial(l.input.value), i.lines)
  {
    var initial := Initial(l.input.value);
    AwaitingFeeding(l.input.value);
    var n := RanInput(Begun(l), l.deadline, turns);
    i := FedAll(Awaiting(l.input.value), turns[..n]);
    FedBeginning(initial, Awaiting(l.input.value), turns, n);
  }

  lemma {:induction false} FedBeginning(initial: Bytes, start: Input, turns: seq<Turn>, n: nat)
    requires Feeding(initial, start) && Queued(start) && start.arrived == [] && n <= |turns|
    ensures var i, lines := FedAll(start, turns[..n]), Leading(AllSubmitted(turns));
      && Feeding(initial, i) && i.lines <= lines && i.written <= Submitted(initial, lines)
  {
    var i := FedAll(start, turns[..n]);
    FedAllFeeding(initial, start, turns[..n]);
    FedAllArrives(start, turns[..n]);
    assert i.arrived == AllSubmitted(turns[..n]);
    SubmittedBeginning(turns, n);
    TakenBeginning(initial, i, AllSubmitted(turns));
  }

  lemma {:induction false} TakenBeginning(initial: Bytes, i: Input, all: seq<Submission>)
    requires Feeding(initial, i) && Queued(i) && i.arrived <= all
    ensures i.lines <= Leading(all) && i.written <= Submitted(initial, Leading(all))
  {
    LeadingExtends(i.arrived, all[|i.arrived|..]);
    assert i.arrived + all[|i.arrived|..] == all;
    SubmittedExtends(initial, i.lines, Leading(all));
  }

  // ----- The execution object -----

  /** One child process under execution. */
  class Execution {
    const deadline: nat
    const input: SubmittedInput?
    const stdout: Pipe?
    const stderr: Pipe
    const live: LiveOutput?
    var remaining: nat
    var reason: Option<Reason>
    var status: Option<Status>
    var cleanupStarted: Option<nat>
    var groupAbsent: bool
    var ended: bool
    ghost var log: seq<Chunk>

    ghost predicate Valid()
      reads this, stdout, stderr, live
    {
      && (stdout != null ==> stdout != stderr && stdout.source == Stdout)
      && stderr.source == Stderr
      && (live != null ==> live.Valid() && live.all == KeptAll(log))
    }

    ghost function Snapshot(): Run
      reads this, input, stdout, stderr
    {
      Run(if input == null then None else Some(input.Snapshot()),
          if stdout == null then None else Some(stdout.Captured()), stderr.Captured(), remaining, log, reason, status,
          cleanupStarted, groupAbsent, ended)
    }

    constructor (l: Launch, live: LiveOutput?)
      requires live != null ==> live.Valid() && live.all == []
      ensures Valid() && Snapshot() == Begun(l) && deadline == l.deadline && this.live == live
      ensures fresh(stderr) && (stdout != null ==> fresh(stdout)) && (input != null ==> fresh(input))
    {
      deadline, remaining, this.live := l.deadline, l.outputBytes, live;
      reason, status, cleanupStarted, groupAbsent, ended, log := None, None, None, false, false, [];
      stderr := new Pipe(Stderr, l.errFailed);
      if l.input.Some? {
        input := new SubmittedInput(l.input.value);
      } else {
        input := null;
      }
      if l.capturesStdout {
        stdout := new Pipe(Stdout, l.outFailed);
      } else {
        stdout := null;
      }
    }

    method FeedInput(t: Turn)
      requires Valid()
      modifies input
      ensures Valid() && Snapshot() == InputFed(old(Snapshot()), t)
    {
      if input != null {
        input.Arrive(t.submitted);
        input.PollOnce(t.write);
      }
    }

    /** Drains both streams into one budget, the live output seeing what is kept in that order. */
    method CaptureStreams(t: Turn)
      requires Valid()
      modifies this`remaining, this`log, stdout, stderr, live
      ensures Valid() && Snapshot() == ErrDrained(OutDrained(old(Snapshot()), t), t)
    {
      if stdout != null {
        remaining, log := stdout.DrainWithLive(remaining, live, t.stdout, log);
      }
      remaining, log := stderr.DrainWithLive(remaining, live, t.stderr, log);
    }

    method WaitForLeader(t: Turn)
      modifies this`status, this`reason
      ensures Snapshot() == Waited(old(Snapshot()), t)
    {
      if status.None? {
        match t.wait {
          case Running =>
          case Reaped(value) => status := Some(value);
          case WaitFailed => reason := OrElse(reason, CleanupFailure);
        }
      }
    }

    method DecideReason(t: Turn)
      modifies this`reason
      ensures Snapshot() == Decided(old(Snapshot()), deadline, t)
    {
      if reason.None? {
        if t.cancel == 2 {
          reason := Some(Quit);
        } else if t.cancel == 1 {
          reason := Some(Cancelled);
        } else if remaining == 0 {
          reason := Some(OutputLimit);
        } else if (stdout != null && stdout.completeness == ReadFailed) || stderr.completeness == ReadFailed {
          reason := Some(CaptureFailure);
        } else if status.None? && t.elapsed >= deadline {
          reason := Some(Deadline);
        }
      }
    }

    method SignalGroup(answer: Kill)
      modifies this`reason, this`groupAbsent
      ensures Snapshot() == Signalled(old(Snapshot()), answer)
    {
      match answer {
        case Delivered =>
        case NoSuchGroup => groupAbsent := true;
        case KillFailed => reason := Some(CleanupFailure);
      }
    }

    /** Kills the group once there is a reason or a status, then probes until it is gone. */
    method CleanUp(t: Turn)
      modifies this`reason, this`groupAbsent, this`cleanupStarted
      ensures Snapshot() == Probed(Killed(old(Snapshot()), t), t)
    {
      if cleanupStarted.None? && (reason.Some? || status.Some?) {
        cleanupStarted := Some(t.clock);
        SignalGroup(t.kill);
      }
      if cleanupStarted.Some? && !groupAbsent {
        SignalGroup(t.probe);
      }
    }

    method MarkUnfinished(pipe: Pipe)
      modifies pipe`completeness
      ensures pipe.Captured() == Unfinished(old(pipe.Captured()))
    {
      if !pipe.done {
        pipe.completeness := ReadFailed;
      }
    }

    /** Leaves the loop when everything is done, or when cleanup has taken too long. */
    method LeaveWhenOver(t: Turn)
      requires Valid()
      modifies this`ended, this`reason, stdout, stderr
      ensures Valid() && Snapshot() == Left(old(Snapshot()), t)
    {
      if status.Some? && groupAbsent && (stdout == null || stdout.done) && stderr.done {
        ended := true;
      } else if cleanupStarted.Some? && SaturatingSub(t.later, cleanupStarted.value) >= MAX_COMMAND_CLEANUP_MILLIS {
        if stdout != null {
          MarkUnfinished(stdout);
        }
        MarkUnfinished(stderr);
        reason := if status.Some? && groupAbsent then OrElse(reason, CaptureFailure) else Some(CleanupFailure);
        ended := true;
      }
    }

    method TakeTurn(t: Turn)
      requires Valid() && !ended
      modifies this, input, stdout, stderr, live
      ensures Valid() && Snapshot() == Turned(old(Snapshot()), deadline, t)
    {
      FeedInput(t);
      CaptureStreams(t);
      WaitForLeader(t);
      DecideReason(t);
      CleanUp(t);
      LeaveWhenOver(t);
    }

    /** Takes turns until the loop ends or the given turns do. */
    method Loop(turns: seq<Turn>)
      requires Valid() && !ended
      modifies this, input, stdout, stderr, live
      ensures Valid() && Snapshot() == Ran(old(Snapshot()), deadline, turns)
    {
      var i := 0;
      while i < |turns| && !ended
        invariant i <= |turns| && Valid()
        invariant Ran(Snapshot(), deadline, turns[i..]) == Ran(old(Snapshot()), deadline, turns)
      {
        TakeTurn(turns[i]);
        i := i + 1;
      }
      if ended {
        RanEnded(Snapshot(), deadline, turns[i..]);
      }
    }

    method Finish() returns (r: ProcessResult)
      ensures r == Finished(Snapshot())
    {
      var signal := if status.Some? then status.value.signal else None;
      var confirmed := status.Some? && groupAbsent;
      var outcome :=
        if reason.Some? then Terminated(reason.value, signal)
        else if status.Some? && status.value.code.Some? then Exited(status.value.code.value)
        else Terminated(Signal, signal);
      var out := if stdout == null then Captures([], Unavailable) else Captures(stdout.bytes, stdout.completeness);
      return ProcessResult(outcome, out, Captures(stderr.bytes, stderr.completeness), confirmed, !confirmed);
    }
  }

  /** Runs one child within its limits; the live output holds the end of what was kept, in drain order. */
  method Execute(l: Launch, live: LiveOutput?, turns: seq<Turn>) returns (r: Option<ProcessResult>)
    requires live != null ==> live.Valid() && live.all == []
    modifies live
    ensures r == Executed(l, turns)
    ensures live != null ==> live.Valid() && live.all == Streamed(l, turns)
  {
    if !InBounds(l) {
      return Some(NotLaunched(LaunchFailed));
    }
    if l.cancelled != 0 {
      return Some(NotLaunched(Terminated(if l.cancelled == 2 then Quit else Cancelled, None)));
    }
    if !Opens(l) || !l.spawns {
      return Some(NotLaunched(LaunchFailed));
    }
    var execution := new Execution(l, live);
    execution.Loop(turns);
    if !execution.ended {
      return None;
    }
    var result := execution.Finish();
    return Some(result);
  }
}
