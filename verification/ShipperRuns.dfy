// How the shipper splits, retries and backs off, over every run.
module ShipperRuns {
  import opened Prelude
  import opened Backoff
  import opened LogSource
  import opened Journald
  import opened ShipperSpec

  // ---- Splitting -----------------------------------------------------------

  function Total(log: seq<Request>, weight: Request -> nat): nat {
    if log == [] then 0 else Total(log[..|log| - 1], weight) + weight(log[|log| - 1])
  }

  function Length(r: Request): nat {
    if r.from <= r.to then r.to - r.from else 0
  }

  function ResolvedIn(r: Request): nat { if Resolves(r) then Length(r) else 0 }
  function SplitBy(r: Request): nat { if r.verdict.TooLarge? && Length(r) >= 2 then 1 else 0 }
  function DroppedIn(r: Request): nat { if r.verdict.TooLarge? && Length(r) == 1 then 1 else 0 }
  function RejectedIn(r: Request): nat { if r.verdict.Rejected? then Length(r) else 0 }
  function FailedBy(r: Request): nat { if r.verdict.Transient? then 1 else 0 }

  /** The requests made for the in-flight batch. */
  function BatchLog(w: World): seq<Request> {
    if w.past.since <= |w.past.log| then w.past.log[w.past.since..] else []
  }

  // The counters of the summary line tell what happened to the batch.
  ghost predicate Summarised(w: World) {
    var p, log := w.progress, BatchLog(w);
    && w.past.since <= |w.past.log|
    && (forall r :: r in log ==> r.from < r.to)
    && p.requests == |log|
    && p.sent == Total(log, ResolvedIn)
    && p.splits == Total(log, SplitBy)
    && p.dropped == Total(log, DroppedIn)
    && p.rejected == Total(log, RejectedIn)
  }

  ghost predicate SplitsBounded(w: World) {
    var p, n := w.progress, w.src.hi - w.src.lo;
    p.chunk >= 1 && (p.splits > 0 ==> p.chunk * Pow2(p.splits) <= n) && Summarised(w)
  }

  lemma TotalSnoc(log: seq<Request>, r: Request, weight: Request -> nat)
    ensures Total(log + [r], weight) == Total(log, weight) + weight(r)
  {
    assert (log + [r])[..|log|] == log;
  }

  lemma SendSummarised(c: Config, w: World, r: Round)
    requires Summarised(w) && w.progress.chunk >= 1
    requires w.src.lo + w.progress.sent < w.src.hi
    ensures Summarised(Send(c, w, r))
  {
    hide Retry, Total, Noted;
    NotedLog(c, w, r);
    var v := Send(c, w, r);
    var log, req := BatchLog(w), v.past.log[|w.past.log|];
    assert BatchLog(v) == log + [req];
    TotalSnoc(log, req, ResolvedIn);
    TotalSnoc(log, req, SplitBy);
    TotalSnoc(log, req, DroppedIn);
    TotalSnoc(log, req, RejectedIn);
  }

  lemma NotedLog(c: Config, w: World, r: Round)
    requires w.src.lo + w.progress.sent < w.src.hi
    ensures
      var at := w.src.lo + w.progress.sent;
      var n := Min(w.src.hi - at, w.progress.chunk);
      && Send(c, w, r).past.log == w.past.log + [Request(at, at + n, r.verdict, w.clock, w.clock + r.took)]
      && Send(c, w, r).past.since == w.past.since
  {
  }

  // Every request resolves an entry, splits, or fails for the time being.
  lemma {:induction false} RequestsAddUp(log: seq<Request>)
    requires forall r :: r in log ==> r.from < r.to
    ensures |log| <= Total(log, ResolvedIn) + Total(log, SplitBy) + Total(log, FailedBy)
  {
    if log != [] {
      assert log[|log| - 1] in log;
      RequestsAddUp(log[..|log| - 1]);
    }
  }

  lemma HalvingStep(n: nat, chunk: nat, splits: nat, total: nat)
    requires 2 <= n <= chunk && n <= total
    requires splits > 0 ==> chunk * Pow2(splits) <= total
    ensures (n / 2) * Pow2(splits + 1) <= total
  {
    var p := Pow2(splits);
    calc {
      (n / 2) * Pow2(splits + 1);
      (n / 2) * (2 * p);
      (2 * (n / 2)) * p;
    <=  { MulMono(2 * (n / 2), n, p); }
      n * p;
    }
    if splits > 0 {
      MulMono(n, chunk, p);
    }
  }

  lemma FetchSplitsBounded(c: Config, w: World, r: Round)
    requires Sound(c, w) && SplitsBounded(w)
    ensures SplitsBounded(Fetch(c, w, r))
  {
    hide Fetch, Total, WithinCaps, Pow2;
    FetchFacts(c, w, r);
    assert BatchLog(Fetch(c, w, r)) == BatchLog(w);
  }

  lemma SendSplitsBounded(c: Config, v: World, r: Round)
    requires Sound(c, v) && SplitsBounded(v)
    requires v.src.lo + v.progress.sent < v.src.hi
    ensures SplitsBounded(Send(c, v, r))
  {
    hide Total, WithinCaps, Summarised, Noted, Retry;
    SendSummarised(c, v, r);
    var n := Min(v.src.hi - v.src.lo - v.progress.sent, v.progress.chunk);
    if r.verdict.TooLarge? && n >= 2 {
      HalvingStep(n, v.progress.chunk, v.progress.splits, v.src.hi - v.src.lo);
    }
  }

  lemma NothingTotalled(w: World)
    requires w.progress == UNSENT && w.past.since == |w.past.log|
    ensures SplitsBounded(w)
  {
    assert BatchLog(w) == [];
  }

  lemma StepSplitsBounded(c: Config, w: World, e: Event)
    requires Sound(c, w) && SplitsBounded(w)
    ensures SplitsBounded(Step(c, w, e))
  {
    hide Fetch, Send, Total, WithinCaps, Summarised, SplitsBounded;
    match e
    case Append(es) => AppendSplitsBounded(w, es);
    case Pause(r) => FetchSplitsBounded(c, w, r);
    case Deliver(r) =>
      FetchFacts(c, w, r);
      FetchSplitsBounded(c, w, r);
      var v := Fetch(c, w, r);
      if v.src.lo + v.progress.sent < v.src.hi {
        SendSplitsBounded(c, v, r);
      }
    case Settle =>
      if w.src.lo < w.src.hi <= w.src.lo + w.progress.sent {
        NothingTotalled(Finish(w));
      }
    case Crash => NothingTotalled(Restart(w));
  }

  lemma AppendSplitsBounded(w: World, es: seq<LogEntry>)
    requires SplitsBounded(w)
    ensures SplitsBounded(w.(src := Arrive(w.src, es)))
  {
    hide Total, Pow2;
    assert BatchLog(w.(src := Arrive(w.src, es))) == BatchLog(w);
  }

  lemma {:induction false} RunSplitsBounded(c: Config, w: World, es: seq<Event>)
    requires Sound(c, w) && SplitsBounded(w)
    ensures SplitsBounded(Exec(c, w, es))
  {
    if es != [] {
      RunSplitsBounded(c, w, es[..|es| - 1]);
      StepSplitsBounded(c, Exec(c, w, es[..|es| - 1]), es[|es| - 1]);
    }
  }

  // A batch of n entries takes at most n + floor(log2 n) requests besides its
  // transient failures, even if it was topped up on the way.
  lemma RequestsBounded(c: Config, w: World)
    requires Sound(c, w) && SplitsBounded(w) && w.src.lo < w.src.hi
    ensures
      var n := w.src.hi - w.src.lo;
      |BatchLog(w)| <= n + Log2(n) + Total(BatchLog(w), FailedBy)
  {
    hide Total, WithinCaps;
    var n, p := w.src.hi - w.src.lo, w.progress;
    RequestsAddUp(BatchLog(w));
    if p.splits > 0 {
      MulMono(1, p.chunk, Pow2(p.splits));
      Pow2BelowLog2(p.splits, n);
    }
  }

  lemma SplittingIsLogarithmic(c: Config, j: seq<LogEntry>, saved: Option<Cursor>, es: seq<Event>)
    requires c.caps.batchSize >= 1 && (saved.Some? ==> saved.value < |j|)
    ensures
      var w := Exec(c, Start(j, saved), es);
      var n, p := w.src.hi - w.src.lo, w.progress;
      && Summarised(w)
      && (p.splits > 0 ==> p.chunk >= 1 && p.chunk * Pow2(p.splits) <= n)
      && (n >= 1 ==> |BatchLog(w)| <= n + Log2(n) + Total(BatchLog(w), FailedBy))
  {
    hide Exec, Total;
    NothingTotalled(Start(j, saved));
    RunSplitsBounded(c, Start(j, saved), es);
    var w := Exec(c, Start(j, saved), es);
    if w.src.lo < w.src.hi {
      RequestsBounded(c, w);
    }
  }

  // ---- What a request carries ------------------------------------------------

  /** The length of the latest request of `log` that was split, if any was. */
  function SplitLength(log: seq<Request>): Option<nat> {
    if log == [] then None
    else if SplitBy(log[|log| - 1]) == 1 then Some(Length(log[|log| - 1]))
    else SplitLength(log[..|log| - 1])
  }

  ghost predicate Halving(w: World) {
    var split := SplitLength(BatchLog(w));
    && w.past.since <= |w.past.log|
    && (split.None? ==> w.progress.chunk == USIZE_MAX)
    && (split.Some? ==> split.value >= 2 && w.progress.chunk == split.value / 2)
  }

  lemma FetchHalving(c: Config, w: World, r: Round)
    requires Sound(c, w) && Halving(w)
    ensures Halving(Fetch(c, w, r)) && BatchLog(Fetch(c, w, r)) == BatchLog(w)
  {
    hide Fetch, WithinCaps, SplitLength;
    FetchFacts(c, w, r);
    BeganKeepsLog(w.past, Fetch(c, w, r).src.lo, !(w.src.saved.Some? && r.found));
  }

  lemma SendHalving(c: Config, v: World, r: Round)
    requires Halving(v) && v.src.lo + v.progress.sent < v.src.hi
    ensures Halving(Send(c, v, r))
  {
    hide Retry, Noted;
    NotedLog(c, v, r);
    var u := Send(c, v, r);
    assert BatchLog(u) == BatchLog(v) + [u.past.log[|v.past.log|]];
    assert BatchLog(u)[..|BatchLog(v)|] == BatchLog(v);
  }

  lemma FreshHalving(w: World)
    requires w.progress == UNSENT && w.past.since == |w.past.log|
    ensures Halving(w)
  {
    assert BatchLog(w) == [];
  }

  lemma StepHalving(c: Config, w: World, e: Event)
    requires Sound(c, w) && Halving(w)
    ensures Halving(Step(c, w, e))
  {
    hide Fetch, Send, WithinCaps, Halving;
    match e
    case Append(es) => AppendHalving(w, es);
    case Pause(r) => FetchHalving(c, w, r);
    case Deliver(r) =>
      FetchHalving(c, w, r);
      var v := Fetch(c, w, r);
      if v.src.lo + v.progress.sent < v.src.hi {
        SendHalving(c, v, r);
      }
    case Settle =>
      if w.src.lo < w.src.hi <= w.src.lo + w.progress.sent {
        FreshHalving(Finish(w));
      }
    case Crash => FreshHalving(Restart(w));
  }

  lemma AppendHalving(w: World, es: seq<LogEntry>)
    requires Halving(w)
    ensures Halving(w.(src := Arrive(w.src, es)))
  {
    assert BatchLog(w.(src := Arrive(w.src, es))) == BatchLog(w);
  }

  lemma {:induction false} RunHalving(c: Config, w: World, es: seq<Event>)
    requires Sound(c, w) && Halving(w)
    ensures Halving(Exec(c, w, es))
  {
    hide Step, Halving;
    if es != [] {
      RunHalving(c, w, es[..|es| - 1]);
      StepHalving(c, Exec(c, w, es[..|es| - 1]), es[|es| - 1]);
    }
  }

  // After every run: a pass makes a request exactly when something of its batch
  // is pending. It starts at the first pending entry and carries all of them
  // until a request of the batch was split; from then on half as many as the
  // latest split request, or all that are left.
  lemma RequestsCarryHalf(c: Config, j: seq<LogEntry>, saved: Option<Cursor>, es: seq<Event>, r: Round)
    requires 1 <= c.caps.batchSize <= 0xFFFF_FFFF_FFFF_FFFF && (saved.Some? ==> saved.value < |j|)
    ensures
      var w := Exec(c, Start(j, saved), es);
      var t := Step(c, w, Deliver(r));
      var from, hi := t.src.lo + Total(BatchLog(w), ResolvedIn), t.src.hi;
      if from < hi
      then
        var split := SplitLength(BatchLog(w));
        && |t.past.log| == |w.past.log| + 1 && t.past.log[..|w.past.log|] == w.past.log
        && var q := t.past.log[|w.past.log|];
        && q.from == from
        && q.to == (if split.None? then hi else Min(hi, from + split.value / 2))
      else t.past.log == w.past.log
  {
    hide Exec, Fetch, Total, WithinCaps, Pow2, SplitLength, BatchLog;
    var s := Start(j, saved);
    StartSound(c, j, saved);
    NothingTotalled(s);
    FreshHalving(s);
    RunSplitsBounded(c, s, es);
    RunHalving(c, s, es);
    var w := Exec(c, s, es);
    FetchFacts(c, w, r);
    FetchHalving(c, w, r);
    BeganKeepsLog(w.past, Fetch(c, w, r).src.lo, !(w.src.saved.Some? && r.found));
    var v := Fetch(c, w, r);
    AtMostBatchSize(c, v);
    if v.src.lo + v.progress.sent < v.src.hi {
      NotedLog(c, v, r);
    }
  }

  lemma AtMostBatchSize(c: Config, w: World)
    requires Sound(c, w)
    ensures w.src.hi - w.src.lo <= c.caps.batchSize
  {
    assert |w.src.InFlight()| == w.src.hi - w.src.lo;
  }

  // ---- Backoff ---------------------------------------------------------------

  /** Transient failures at the end of `log` since the last success or rejection. */
  function Streak(log: seq<Request>): nat {
    if log == [] then 0 else
      match log[|log| - 1].verdict
      case Ok => 0
      case Rejected => 0
      case Transient => 1 + Streak(log[..|log| - 1])
      case TooLarge => Streak(log[..|log| - 1])
  }

  /** No request follows a transient failure before its delay is over. */
  ghost predicate Spaced(c: Config, log: seq<Request>) {
    var n := |log|;
    n >= 2 ==>
      && Spaced(c, log[..n - 1])
      && (log[n - 2].verdict.Transient? ==>
           log[n - 2].end + Delay(Streak(log[..n - 1]), c.initial, c.max) <= log[n - 1].start)
  }

  ghost predicate Paced(c: Config, w: World) {
    && w.past.born <= |w.past.log|
    && var life := w.past.log[w.past.born..];
    && OnSchedule(w.retry, c.initial, c.max)
    && w.retry.streak == Streak(life)
    && Spaced(c, life)
    && (life != [] && life[|life| - 1].verdict.Transient? ==> w.retry.until == Some(life[|life| - 1].end + w.retry.delay))
  }

  lemma SpacedNext(c: Config, log: seq<Request>, r: Request)
    requires Spaced(c, log)
    requires log != [] && log[|log| - 1].verdict.Transient? ==>
      log[|log| - 1].end + Delay(Streak(log), c.initial, c.max) <= r.start
    ensures Spaced(c, log + [r])
  {
    hide Streak, Delay;
    assert (log + [r])[..|log|] == log;
  }

  lemma SendPaced(c: Config, w: World, r: Round)
    requires c.initial <= c.max && Paced(c, w) && NotBefore(w.retry) <= w.clock
    requires w.src.lo + w.progress.sent < w.src.hi
    ensures Paced(c, Send(c, w, r))
  {
    hide Spaced, Delay, Judge, Failed;
    var v := Send(c, w, r);
    var life, req := w.past.log[w.past.born..], v.past.log[|w.past.log|];
    assert v.past.log[v.past.born..] == life + [req];
    assert (life + [req])[..|life|] == life;
    FailedOnSchedule(w.retry, v.clock, c.initial, c.max);
    FailedFacts(w.retry, v.clock, c.initial, c.max);
    SpacedNext(c, life, req);
  }

  lemma BeganKeepsLog(h: History, at: nat, tail: bool)
    ensures Began(h, at, tail).log == h.log && Began(h, at, tail).born == h.born
  {
  }

  lemma StepPaced(c: Config, w: World, e: Event)
    requires Sound(c, w) && c.initial <= c.max && Paced(c, w)
    ensures Paced(c, Step(c, w, e))
  {
    hide Fill, Bytes, Flatten, Takes, Open, Fetch, Send, WithinCaps, Began, Position;
    if e.Deliver? || e.Pause? {
      FetchFacts(c, w, e.round);
      BeganKeepsLog(w.past, Fetch(c, w, e.round).src.lo, !(w.src.saved.Some? && e.round.found));
      var v := Fetch(c, w, e.round);
      if e.Deliver? && v.src.lo + v.progress.sent < v.src.hi {
        SendPaced(c, v, e.round);
      }
    }
  }

  // In every process of every run: after k transient failures since the last
  // success or rejection the delay is min(initial * 2^(k-1), max), and no
  // request starts before it is over. Too-large answers leave it alone.
  lemma {:induction false} BackoffOverRuns(c: Config, j: seq<LogEntry>, saved: Option<Cursor>, es: seq<Event>)
    requires c.caps.batchSize >= 1 && (saved.Some? ==> saved.value < |j|) && c.initial <= c.max
    ensures Paced(c, Exec(c, Start(j, saved), es))
  {
    if es != [] {
      BackoffOverRuns(c, j, saved, es[..|es| - 1]);
      StepPaced(c, Exec(c, Start(j, saved), es[..|es| - 1]), es[|es| - 1]);
    }
  }

  /** When the backoff after the requests of the current process is over. */
  function DueAfter(c: Config, life: seq<Request>): nat {
    if life != [] && life[|life| - 1].verdict.Transient?
    then life[|life| - 1].end + Delay(Streak(life), c.initial, c.max)
    else 0
  }

  function Life(w: World): seq<Request> {
    if w.past.born <= |w.past.log| then w.past.log[w.past.born..] else []
  }

  ghost predicate WaitsNoLonger(w: World) {
    && w.past.born <= |w.past.log|
    && (Life(w) == [] || !Life(w)[|Life(w)| - 1].verdict.Transient? ==> NotBefore(w.retry) <= w.clock)
  }

  lemma StepWaitsNoLonger(c: Config, w: World, e: Event)
    requires Sound(c, w) && WaitsNoLonger(w)
    ensures WaitsNoLonger(Step(c, w, e))
  {
    hide Fill, Bytes, Flatten, Takes, Open, Fetch, Judge, WithinCaps, Began, Position;
    if e.Deliver? || e.Pause? {
      FetchFacts(c, w, e.round);
      BeganKeepsLog(w.past, Fetch(c, w, e.round).src.lo, !(w.src.saved.Some? && e.round.found));
    }
  }

  lemma {:induction false} RunWaitsNoLonger(c: Config, w: World, es: seq<Event>)
    requires Sound(c, w) && WaitsNoLonger(w)
    ensures WaitsNoLonger(Exec(c, w, es))
  {
    hide Step, WaitsNoLonger;
    if es != [] {
      RunWaitsNoLonger(c, w, es[..|es| - 1]);
      StepWaitsNoLonger(c, Exec(c, w, es[..|es| - 1]), es[|es| - 1]);
    }
  }

  // Nor does a request wait longer than that: it starts when the delay after
  // the latest transient failure is over, but for the time the source takes to
  // hand out a batch.
  lemma RequestsStartWhenDue(c: Config, j: seq<LogEntry>, saved: Option<Cursor>, es: seq<Event>, r: Round)
    requires c.caps.batchSize >= 1 && (saved.Some? ==> saved.value < |j|) && c.initial <= c.max
    ensures
      var w := Exec(c, Start(j, saved), es);
      var t := Step(c, w, Deliver(r));
      |t.past.log| > |w.past.log| ==>
        && t.past.log[|w.past.log|].start == Max(w.clock, DueAfter(c, Life(w))) + r.late
        && t.past.log[|w.past.log|].end == t.past.log[|w.past.log|].start + r.took
        && t.past.log[|w.past.log|].verdict == r.verdict
  {
    hide Exec, Peek, WithinCaps, Spaced, Streak, Delay, Judge, Retry, Began, Position;
    StartSound(c, j, saved);
    BackoffOverRuns(c, j, saved, es);
    RunWaitsNoLonger(c, Start(j, saved), es);
    var w := Exec(c, Start(j, saved), es);
    FetchFacts(c, w, r);
    BeganKeepsLog(w.past, Fetch(c, w, r).src.lo, !(w.src.saved.Some? && r.found));
  }

  lemma ChunkPositive(w: World)
    requires SplitsBounded(w)
    ensures w.progress.chunk >= 1
  {
  }

  lemma NothingResolved()
    ensures Resolved([]) == []
  {
  }

  lemma ResolvedSnoc(log: seq<Request>, r: Request)
    requires r.from <= r.to
    ensures Resolved(log + [r]) == Resolved(log) + if Resolves(r) then Range(r.from, r.to) else []
    ensures forall i :: i in Resolved(log + [r]) <==> i in Resolved(log) || (Resolves(r) && r.from <= i < r.to)
  {
    assert (log + [r])[..|log|] == log;
    var old_, more := Resolved(log), Range(r.from, r.to);
    if Resolves(r) {
      forall i ensures i in old_ + more <==> i in old_ || r.from <= i < r.to {
        if r.from <= i < r.to {
          assert more[i - r.from] == i;
        }
      }
    }
  }
}
