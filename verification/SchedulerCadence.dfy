// The cadence of one collector: grid-aligned, never bursting, never overlapping.
module SchedulerCadence {
  import opened Prelude
  import opened SchedulerSpec
  import opened SchedulerRuns

  // One run of a collector; `end` is set once the scheduler hears back.
  datatype Run = Run(start: nat, end: Option<nat>)

  function Closed(runs: seq<Run>, at: nat): seq<Run> {
    if runs == [] then [] else runs[|runs| - 1 := runs[|runs| - 1].(end := Some(at))]
  }

  /** What one wake-up does to the runs of collector i. */
  function AfterWake(runs: seq<Run>, u: State, v: State, i: nat): seq<Run>
    requires i < |u.ss| == |v.ss|
  {
    if u.ss[i].active.Some? && v.ss[i].active.None? then Closed(runs, v.clock) else runs
  }

  /** What one pass through the loop head does to them. */
  function AfterTurn(runs: seq<Run>, u: State, v: State, i: nat): seq<Run>
    requires i < |u.ss| == |v.ss|
  {
    if u.ss[i].active.None? && v.ss[i].active.Some? then runs + [Run(v.clock, None)] else runs
  }

  lemma SameCollectors(st: State, e: Event)
    requires Ticking(st.ss)
    ensures |Turn(st).ss| == |st.ss| == |Wake(st, e).ss|
  {
  }

  function RunsOf(st: State, es: seq<Event>, i: nat): seq<Run>
    requires Ticking(st.ss) && i < |Exec(st, es).ss| == |st.ss|
  {
    if es == [] then AfterTurn([], st, Turn(st), i) else
      var u := Exec(st, es[..|es| - 1]);
      var w := Wake(u, es[|es| - 1]);
      SameCollectors(u, es[|es| - 1]);
      WakePositive(u, es[|es| - 1]);
      SameCollectors(w, es[|es| - 1]);
      AfterTurn(AfterWake(RunsOf(st, es[..|es| - 1], i), u, w, i), w, Turn(w), i)
  }

  lemma Quotient(x: nat, p: nat, k: nat)
    requires p > 0 && k * p <= x < k * p + p
    ensures x / p == k
  {
    var q := x / p;
    assert q * p <= x < q * p + p;
    if q < k {
      MulMono(q + 1, k, p);
    } else if k < q {
      MulMono(k + 1, q, p);
    }
  }

  lemma QuotientMono(x: nat, y: nat, p: nat)
    requires p > 0 && x <= y
    ensures x / p <= y / p
  {
    if y / p < x / p {
      MulMono(y / p + 1, x / p, p);
    }
  }

  lemma CatchUpStep(next: nat, now: nat, interval: nat)
    requires interval > 0
    ensures CatchUp(next, now, interval) == if next <= now then CatchUp(next + interval, now, interval) else next
  {
  }

  // The catch-up loop lands on the first grid point after `now`.
  lemma {:induction false} CatchUpClosedForm(origin: nat, k: nat, now: nat, interval: nat)
    requires interval > 0 && origin + k * interval <= now
    ensures
      var cell := (now - origin) / interval;
      && k <= cell
      && CatchUp(origin + k * interval, now, interval) == origin + (cell + 1) * interval
    decreases now - (origin + k * interval)
  {
    hide CatchUp;
    var next := origin + k * interval;
    assert (k + 1) * interval == k * interval + interval;
    CatchUpStep(next, now, interval);
    if next + interval <= now {
      CatchUpClosedForm(origin, k + 1, now, interval);
    } else {
      Quotient(now - origin, interval, k);
      CatchUpStep(next + interval, now, interval);
    }
  }

  function Cell(t: nat, origin: nat, interval: nat): nat
    requires interval > 0 && origin <= t
  {
    (t - origin) / interval
  }

  // k: grid points used up so far
  ghost predicate OnGrid(s: Scheduled, runs: seq<Run>, origin: nat, clock: nat, k: nat) {
    && s.interval > 0 && origin <= clock
    && s.nextRun == origin + k * s.interval
    && |runs| <= k <= Cell(clock, origin, s.interval) + 1
    && (forall a :: 0 <= a < |runs| ==> origin <= runs[a].start <= clock && Cell(runs[a].start, origin, s.interval) < k)
    && (forall a, b :: 0 <= a < b < |runs| ==> Cell(runs[a].start, origin, s.interval) < Cell(runs[b].start, origin, s.interval))
  }

  ghost predicate OneAtATime(s: Scheduled, runs: seq<Run>, clock: nat) {
    && (forall a :: 0 <= a < |runs| ==> runs[a].start <= clock && (runs[a].end.Some? ==> runs[a].start <= runs[a].end.value <= clock))
    && (forall a, b :: 0 <= a < b < |runs| ==> runs[a].end.Some? && runs[a].end.value <= runs[b].start)
    && (s.active.Some? <==> runs != [] && runs[|runs| - 1].end.None?)
    && (s.active.Some? ==> s.active.value == runs[|runs| - 1].start)
  }

  ghost predicate Steady(s: Scheduled, runs: seq<Run>, origin: nat, clock: nat) {
    && OneAtATime(s, runs, clock)
    && exists k: nat :: OnGrid(s, runs, origin, clock, k)
  }

  lemma WakeFrees(u: State, e: Event, i: nat)
    requires i < |u.ss|
    ensures
      var w := Wake(u, e);
      && |w.ss| == |u.ss| && u.clock <= w.clock
      && (w.ss[i] == u.ss[i] || w.ss[i] == u.ss[i].(active := None))
  {
    hide Metrics, IndexOf;
  }

  lemma ClosedOneAtATime(s: Scheduled, runs: seq<Run>, clock: nat, at: nat)
    requires OneAtATime(s, runs, clock) && clock <= at
    ensures OneAtATime(s, runs, at)
    ensures s.active.Some? ==> OneAtATime(s.(active := None), Closed(runs, at), at)
  {
  }

  lemma WakeSteady(u: State, e: Event, i: nat, runs: seq<Run>, origin: nat)
    requires Ticking(u.ss) && i < |u.ss| && Steady(u.ss[i], runs, origin, u.clock)
    ensures
      var w := Wake(u, e);
      |w.ss| == |u.ss| && w.ss[i].interval == u.ss[i].interval && Steady(w.ss[i], AfterWake(runs, u, w, i), origin, w.clock)
  {
    hide Wake, OneAtATime;
    var w := Wake(u, e);
    WakeFrees(u, e, i);
    ClosedOneAtATime(u.ss[i], runs, u.clock, w.clock);
    var after := AfterWake(runs, u, w, i);
    var k: nat :| OnGrid(u.ss[i], runs, origin, u.clock, k);
    QuotientMono(u.clock - origin, w.clock - origin, u.ss[i].interval);
    assert |after| == |runs| && forall a :: 0 <= a < |runs| ==> after[a].start == runs[a].start;
    assert OnGrid(w.ss[i], after, origin, w.clock, k);
  }

  lemma OpenedOneAtATime(s: Scheduled, runs: seq<Run>, clock: nat, next: nat)
    requires OneAtATime(s, runs, clock) && s.active.None?
    ensures OneAtATime(s.(nextRun := next, active := Some(clock)), runs + [Run(clock, None)], clock)
  {
  }

  lemma TurnSteady(w: State, i: nat, runs: seq<Run>, origin: nat)
    requires Ticking(w.ss) && i < |w.ss| && Steady(w.ss[i], runs, origin, w.clock)
    ensures
      var t := Turn(w);
      |t.ss| == |w.ss| && t.ss[i].interval == w.ss[i].interval && Steady(t.ss[i], AfterTurn(runs, w, t, i), origin, t.clock)
  {
    hide Metrics, CatchUp, OneAtATime;
    var t := Turn(w);
    var s, after := w.ss[i], AfterTurn(runs, w, t, i);
    var k: nat :| OnGrid(s, runs, origin, w.clock, k);
    assert t.clock == w.clock;
    if !w.over && s.active.None? && s.nextRun <= w.clock {
      CatchUpClosedForm(origin, k, w.clock, s.interval);
      OpenedOneAtATime(s, runs, w.clock, t.ss[i].nextRun);
      assert after == runs + [Run(w.clock, None)];
      assert OnGrid(t.ss[i], after, origin, w.clock, Cell(w.clock, origin, s.interval) + 1);
    } else {
      assert t.ss[i] == s && after == runs;
    }
  }

  // For every collector and every run of the scheduler, which begins at
  // `start`, some time after the grid's `origin`: the next run is due at
  // origin + k * interval, no two runs start in the same grid cell or overlap,
  // and no more have started than there were grid cells since the beginning.
  lemma {:induction false} NoBursts(ss: seq<Scheduled>, start: nat, es: seq<Event>, i: nat, origin: nat)
    requires Ticking(ss) && i < |ss| && ss[i].nextRun == origin <= start && ss[i].active.None?
    ensures
      var st := Exec(Boot(ss, start), es);
      && |st.ss| == |ss| && st.ss[i].interval == ss[i].interval
      && var runs := RunsOf(Boot(ss, start), es, i);
      && Steady(st.ss[i], runs, origin, st.clock)
      && start <= st.clock
      && |runs| <= Cell(st.clock, origin, ss[i].interval) - Cell(start, origin, ss[i].interval) + 1
  {
    hide Exec, RunsOf, Steady;
    SteadyOverRuns(ss, start, es, i, origin);
    var st := Exec(Boot(ss, start), es);
    SteadyCount(st.ss[i], RunsOf(Boot(ss, start), es, i), origin, start, st.clock);
  }

  ghost predicate Since(runs: seq<Run>, start: nat) {
    forall a :: 0 <= a < |runs| ==> start <= runs[a].start
  }

  lemma {:induction false} SteadyOverRuns(ss: seq<Scheduled>, start: nat, es: seq<Event>, i: nat, origin: nat)
    requires Ticking(ss) && i < |ss| && ss[i].nextRun == origin <= start && ss[i].active.None?
    ensures
      var st := Exec(Boot(ss, start), es);
      && |st.ss| == |ss| && st.ss[i].interval == ss[i].interval
      && var runs := RunsOf(Boot(ss, start), es, i);
      && Steady(st.ss[i], runs, origin, st.clock)
      && start <= st.clock && Since(runs, start)
  {
    hide Turn, Wake, Steady, AfterTurn, AfterWake, Since;
    if es == [] {
      var b := Boot(ss, start);
      IdleIsSteady(ss[i], origin, start);
      TurnSteady(b, i, [], origin);
      TurnSince(b, i, [], start);
    } else {
      var before, e := es[..|es| - 1], es[|es| - 1];
      SteadyOverRuns(ss, start, before, i, origin);
      var u := Exec(Boot(ss, start), before);
      var runs := RunsOf(Boot(ss, start), before, i);
      WakeSteady(u, e, i, runs, origin);
      WakeSince(u, e, i, runs, start);
      WakePositive(u, e);
      TurnSteady(Wake(u, e), i, AfterWake(runs, u, Wake(u, e), i), origin);
      TurnSince(Wake(u, e), i, AfterWake(runs, u, Wake(u, e), i), start);
    }
  }

  lemma WakeSince(u: State, e: Event, i: nat, runs: seq<Run>, start: nat)
    requires Since(runs, start) && start <= u.clock && i < |u.ss| == |Wake(u, e).ss|
    ensures start <= Wake(u, e).clock && Since(AfterWake(runs, u, Wake(u, e), i), start)
  {
    hide Metrics, Freed, Collected;
  }

  lemma TurnSince(w: State, i: nat, runs: seq<Run>, start: nat)
    requires Ticking(w.ss) && i < |w.ss| == |Turn(w).ss| && start <= w.clock && (runs == [] || Since(runs, start))
    ensures start <= Turn(w).clock && Since(AfterTurn(runs, w, Turn(w), i), start)
  {
    hide Metrics, Started;
  }

  lemma IdleIsSteady(s: Scheduled, origin: nat, start: nat)
    requires s.interval > 0 && s.nextRun == origin <= start && s.active.None?
    ensures Steady(s, [], origin, start)
  {
    assert OnGrid(s, [], origin, start, 0);
  }

  // As many cells have passed as runs have started.
  lemma {:induction false} RunsClimb(runs: seq<Run>, origin: nat, interval: nat, first: nat, a: nat)
    requires interval > 0 && a < |runs| && forall b :: 0 <= b < |runs| ==> origin <= runs[b].start
    requires first <= Cell(runs[0].start, origin, interval)
    requires forall b, d :: 0 <= b < d < |runs| ==> Cell(runs[b].start, origin, interval) < Cell(runs[d].start, origin, interval)
    ensures first + a <= Cell(runs[a].start, origin, interval)
  {
    hide Cell;
    if a > 0 {
      RunsClimb(runs, origin, interval, first, a - 1);
    }
  }

  lemma SteadyCount(s: Scheduled, runs: seq<Run>, origin: nat, start: nat, clock: nat)
    requires Steady(s, runs, origin, clock) && Since(runs, start) && origin <= start <= clock
    ensures s.interval > 0 && |runs| <= Cell(clock, origin, s.interval) - Cell(start, origin, s.interval) + 1
  {
    hide OneAtATime;
    var k: nat :| OnGrid(s, runs, origin, clock, k);
    QuotientMono(start - origin, clock - origin, s.interval);
    if runs != [] {
      QuotientMono(start - origin, runs[0].start - origin, s.interval);
      RunsClimb(runs, origin, s.interval, Cell(start, origin, s.interval), |runs| - 1);
    }
  }

  /** The k-th grid point. */
  function Tick(origin: nat, k: nat, interval: nat): nat {
    origin + k * interval
  }

  ghost predicate PunctualAt(runs: seq<Run>, a: nat, start: nat, origin: nat, interval: nat)
    requires a < |runs|
  {
    if a == 0 then runs[0].start == start else
      || (exists k: nat :: runs[a].start == Tick(origin, k, interval))
      || runs[a - 1].end == Some(runs[a].start)
  }

  // The first run starts at once, every later one on a grid point or at the
  // instant the run before it, which was late, is over.
  ghost predicate Punctual(runs: seq<Run>, start: nat, origin: nat, interval: nat) {
    runs != [] && forall a :: 0 <= a < |runs| ==> PunctualAt(runs, a, start, origin, interval)
  }

  // At a wait no collector is idle past its due time.
  ghost predicate NoneOverdue(st: State) {
    !st.over ==> forall i :: 0 <= i < |st.ss| && st.ss[i].active.None? ==> st.clock < st.ss[i].nextRun
  }

  lemma TurnNoneOverdue(w: State)
    requires Ticking(w.ss)
    ensures NoneOverdue(Turn(w))
  {
    hide Metrics, CatchUp;
    if !w.over {
      var t := Turn(w);
      forall i | 0 <= i < |t.ss| && t.ss[i].active.None? ensures t.clock < t.ss[i].nextRun {
        CatchUpPasses(w.ss[i].nextRun, w.clock, w.ss[i].interval);
      }
    }
  }

  // An idle collector starts when its own timer fires.
  lemma StartMoment(u: State, e: Event, i: nat)
    requires Ticking(u.ss) && i < |u.ss| && !u.over && NoneOverdue(u) && Plausible(u, e)
    ensures
      var w := Wake(u, e);
      && |w.ss| == |u.ss| && Ticking(w.ss) && |Turn(w).ss| == |w.ss|
      && (w.ss[i].active.None? && Turn(w).ss[i].active.Some? ==>
           && Turn(w).clock == e.at == w.clock
           && (u.ss[i].active.None? ==> e.at == u.ss[i].nextRun))
  {
    hide Metrics, CatchUp;
    WakePositive(u, e);
    var w := Wake(u, e);
    assert |w.ss| == |u.ss| && w.ss[i].nextRun == u.ss[i].nextRun;
    if w.ss[i].active.None? && Turn(w).ss[i].active.Some? {
      assert w.ss[i].nextRun <= w.clock == e.at;
      if u.ss[i].active.None? {
        assert e.at <= u.ss[i].nextRun;
      }
    }
  }

  lemma NextRunIsTick(s: Scheduled, runs: seq<Run>, origin: nat, clock: nat)
    requires Steady(s, runs, origin, clock)
    ensures exists k: nat :: s.nextRun == Tick(origin, k, s.interval)
    ensures s.active.Some? ==> runs != []
  {
    var k: nat :| OnGrid(s, runs, origin, clock, k);
    assert s.nextRun == Tick(origin, k, s.interval);
  }

  lemma StepPunctual(u: State, e: Event, i: nat, runs: seq<Run>, start: nat, origin: nat)
    requires Ticking(u.ss) && i < |u.ss| && !u.over && Steady(u.ss[i], runs, origin, u.clock)
    requires NoneOverdue(u) && Plausible(u, e) && Punctual(runs, start, origin, u.ss[i].interval)
    ensures
      var w := Wake(u, e);
      |w.ss| == |u.ss| == |Turn(w).ss| && Ticking(w.ss)
      && Punctual(AfterTurn(AfterWake(runs, u, w, i), w, Turn(w), i), start, origin, u.ss[i].interval)
  {
    hide Wake, Turn, Steady, NoneOverdue, Plausible, Punctual, Tick;
    var w := Wake(u, e);
    StartMoment(u, e, i);
    var t := Turn(w);
    var mid := AfterWake(runs, u, w, i);
    NextRunIsTick(u.ss[i], runs, origin, u.clock);
    if u.ss[i].active.Some? && w.ss[i].active.None? {
      ClosingKeepsPunctual(runs, w.clock, start, origin, u.ss[i].interval);
    }
    if w.ss[i].active.None? && t.ss[i].active.Some? {
      OneMorePunctual(mid, Run(t.clock, None), start, origin, u.ss[i].interval);
    }
  }

  lemma ClosingKeepsPunctual(runs: seq<Run>, at: nat, start: nat, origin: nat, interval: nat)
    requires Punctual(runs, start, origin, interval)
    ensures Punctual(Closed(runs, at), start, origin, interval)
  {
    var mid := Closed(runs, at);
    forall a | 0 <= a < |mid| ensures PunctualAt(mid, a, start, origin, interval) {
      assert PunctualAt(runs, a, start, origin, interval) && mid[a].start == runs[a].start;
      assert a > 0 ==> mid[a - 1] == runs[a - 1];
    }
  }

  lemma OneMorePunctual(runs: seq<Run>, run: Run, start: nat, origin: nat, interval: nat)
    requires Punctual(runs, start, origin, interval)
    requires (exists k: nat :: run.start == Tick(origin, k, interval)) || runs[|runs| - 1].end == Some(run.start)
    ensures Punctual(runs + [run], start, origin, interval)
  {
    var more := runs + [run];
    forall a | 0 <= a < |more| ensures PunctualAt(more, a, start, origin, interval) {
      if a < |runs| {
        assert PunctualAt(runs, a, start, origin, interval) && more[a] == runs[a];
      }
      assert a > 0 ==> more[a - 1] == runs[a - 1];
    }
  }

  // With timers on time, runs after the first are grid-aligned; ticks missed
  // while a run was late are made up for by one run, as soon as it is over.
  lemma {:induction false} StartsOnGrid(ss: seq<Scheduled>, start: nat, es: seq<Event>, i: nat, origin: nat)
    requires Ticking(ss) && i < |ss| && ss[i].nextRun == origin <= start && ss[i].active.None?
    requires AllPlausible(Boot(ss, start), es)
    ensures
      var st := Exec(Boot(ss, start), es);
      && |st.ss| == |ss| && NoneOverdue(st)
      && Punctual(RunsOf(Boot(ss, start), es, i), start, origin, ss[i].interval)
  {
    hide Turn, Wake, Steady, AfterTurn, AfterWake, Plausible, Punctual, NoneOverdue;
    SteadyOverRuns(ss, start, es, i, origin);
    if es == [] {
      TurnNoneOverdue(Boot(ss, start));
      FirstStartPunctual(ss, start, i, origin);
    } else {
      var before, e := es[..|es| - 1], es[|es| - 1];
      var u := Exec(Boot(ss, start), before);
      StartsOnGrid(ss, start, before, i, origin);
      SteadyOverRuns(ss, start, before, i, origin);
      WakePositive(u, e);
      TurnNoneOverdue(Wake(u, e));
      if u.over {
        OverIdle(u, e, RunsOf(Boot(ss, start), before, i), i);
      } else {
        StepPunctual(u, e, i, RunsOf(Boot(ss, start), before, i), start, origin);
      }
    }
  }

  lemma OverIdle(u: State, e: Event, runs: seq<Run>, i: nat)
    requires u.over && i < |u.ss| && Ticking(u.ss)
    ensures Wake(u, e) == u && Turn(u) == u && AfterTurn(AfterWake(runs, u, u, i), u, u, i) == runs
  {
  }

  lemma FirstStartPunctual(ss: seq<Scheduled>, start: nat, i: nat, origin: nat)
    requires Ticking(ss) && i < |ss| && ss[i].nextRun == origin <= start && ss[i].active.None?
    ensures
      var b := Boot(ss, start);
      |Turn(b).ss| == |ss| && AfterTurn([], b, Turn(b), i) == [Run(start, None)]
      && Punctual(AfterTurn([], b, Turn(b), i), start, origin, ss[i].interval)
  {
    hide Metrics, CatchUp;
  }

  // ---- Every tick is served ------------------------------------------------------

  // A report ends the run of the first collector of that name, and of no other.
  lemma ReportFrees(u: State, e: Event, i: nat)
    requires i < |u.ss| && !u.over && e.wakeup.Received?
    ensures
      var w := Wake(u, e);
      && |w.ss| == |u.ss| && w.ss[i].name == u.ss[i].name
      && w.ss[i].interval == u.ss[i].interval && w.ss[i].nextRun == u.ss[i].nextRun
      && (w.ss[i].active != u.ss[i].active ==> w.ss[i].active.None? && u.ss[i].name == e.wakeup.res.name)
      && (u.ss[i].name == e.wakeup.res.name && (forall k :: 0 <= k < i ==> u.ss[k].name != u.ss[i].name) ==>
           w.ss[i].active.None?)
  {
    hide Metrics;
  }

  // While some run of the collector is in flight at `t`, or starts or ends then.
  ghost predicate Serves(runs: seq<Run>, t: nat) {
    exists a :: 0 <= a < |runs| && runs[a].start <= t && (runs[a].end.None? || t <= runs[a].end.value)
  }

  // Every grid point since the loop began found a run in flight or started one,
  // and `nextRun` is the first grid point after the latest start.
  ghost predicate AllServed(s: Scheduled, runs: seq<Run>, start: nat, origin: nat, clock: nat) {
    && (forall k: nat :: start <= Tick(origin, k, s.interval) <= clock ==> Serves(runs, Tick(origin, k, s.interval)))
    && runs != [] && runs[|runs| - 1].start < s.nextRun <= runs[|runs| - 1].start + s.interval
  }

  lemma ServesMore(runs: seq<Run>, run: Run, t: nat)
    ensures Serves(runs, t) || (run.start <= t && (run.end.None? || t <= run.end.value)) ==> Serves(runs + [run], t)
  {
    var more := runs + [run];
    if Serves(runs, t) {
      var a :| 0 <= a < |runs| && runs[a].start <= t && (runs[a].end.None? || t <= runs[a].end.value);
      assert more[a] == runs[a];
    } else {
      assert more[|runs|] == run;
    }
  }

  lemma ServesClosed(runs: seq<Run>, at: nat, t: nat)
    requires Serves(runs, t) && t <= at
    ensures Serves(Closed(runs, at), t)
  {
    var a :| 0 <= a < |runs| && runs[a].start <= t && (runs[a].end.None? || t <= runs[a].end.value);
    var mid := Closed(runs, at);
    assert mid[a].start == runs[a].start && (mid[a].end == runs[a].end || mid[a].end == Some(at));
  }

  lemma LastRunServes(s: Scheduled, runs: seq<Run>, clock: nat, t: nat)
    requires OneAtATime(s, runs, clock) && s.active.Some? && t >= clock
    ensures Serves(runs, t)
  {
    assert runs[|runs| - 1].start <= t;
  }

  // Between the latest start and the next run there is no grid point.
  lemma NoTickBetween(origin: nat, k: nat, m: nat, interval: nat, start: nat)
    requires interval > 0 && start < Tick(origin, k, interval) <= start + interval
    requires start < Tick(origin, m, interval) <= Tick(origin, k, interval)
    ensures m == k
  {
    if m < k {
      MulMono(m + 1, k, interval);
    } else if k < m {
      MulMono(k + 1, m, interval);
    }
  }

  // What a wake-up and the pass after it do to the runs of one collector.
  lemma WakeServed(u: State, e: Event, i: nat, runs: seq<Run>, start: nat, origin: nat)
    requires Ticking(u.ss) && i < |u.ss| && !u.over && NoneOverdue(u) && Plausible(u, e)
    requires Steady(u.ss[i], runs, origin, u.clock) && AllServed(u.ss[i], runs, start, origin, u.clock)
    ensures
      var w := Wake(u, e);
      && |w.ss| == |u.ss| && w.clock == e.at
      && var mid := AfterWake(runs, u, w, i);
      forall k: nat ::
        start <= Tick(origin, k, u.ss[i].interval) <= w.clock ==>
          || Serves(mid, Tick(origin, k, u.ss[i].interval))
          || (u.ss[i].active.None? && Tick(origin, k, u.ss[i].interval) == u.ss[i].nextRun == w.clock)
  {
    hide Wake, Serves, OnGrid, OneAtATime, Tick;
    var s, w := u.ss[i], Wake(u, e);
    WakeFrees(u, e, i);
    IdleUntilDue(u, e, i);
    NextRunIsTick(s, runs, origin, u.clock);
    var n: nat :| s.nextRun == Tick(origin, n, s.interval);
    var mid := AfterWake(runs, u, w, i);
    forall k: nat | start <= Tick(origin, k, s.interval) <= w.clock
      ensures Serves(mid, Tick(origin, k, s.interval)) || (s.active.None? && Tick(origin, k, s.interval) == s.nextRun == w.clock)
    {
      var t := Tick(origin, k, s.interval);
      if t <= u.clock || s.active.Some? {
        if t > u.clock {
          LastRunServes(s, runs, u.clock, t);
        }
        if mid != runs {
          ServesClosed(runs, w.clock, t);
        }
      } else {
        LastStartBefore(s, runs, u.clock);
        NoTickBetween(origin, n, k, s.interval, runs[|runs| - 1].start);
      }
    }
  }

  lemma IdleUntilDue(u: State, e: Event, i: nat)
    requires i < |u.ss| && !u.over && Plausible(u, e)
    ensures Wake(u, e).clock == e.at && (u.ss[i].active.None? ==> e.at <= u.ss[i].nextRun)
  {
    hide Metrics, IndexOf;
  }

  lemma LastStartBefore(s: Scheduled, runs: seq<Run>, clock: nat)
    requires OneAtATime(s, runs, clock) && runs != []
    ensures runs[|runs| - 1].start <= clock
  {
  }

  lemma TurnServed(w: State, i: nat, runs: seq<Run>, start: nat, origin: nat)
    requires Ticking(w.ss) && i < |w.ss| && !w.over && Steady(w.ss[i], runs, origin, w.clock)
    requires runs != [] ==> runs[|runs| - 1].start < w.ss[i].nextRun <= runs[|runs| - 1].start + w.ss[i].interval
    requires runs != [] || (w.ss[i].active.None? && w.ss[i].nextRun <= w.clock)
    requires forall k: nat ::
      start <= Tick(origin, k, w.ss[i].interval) <= w.clock ==>
        || Serves(runs, Tick(origin, k, w.ss[i].interval))
        || (w.ss[i].active.None? && w.ss[i].nextRun <= w.clock && Tick(origin, k, w.ss[i].interval) == w.clock)
    ensures
      var t := Turn(w);
      |t.ss| == |w.ss| && t.clock == w.clock && AllServed(t.ss[i], AfterTurn(runs, w, t, i), start, origin, t.clock)
  {
    hide Metrics, CatchUp, Serves, OneAtATime, Tick;
    var t := Turn(w);
    var s := w.ss[i];
    if s.active.None? && s.nextRun <= w.clock {
      CatchUpLands(s.nextRun, w.clock, s.interval);
      var run := Run(w.clock, None);
      forall k: nat | start <= Tick(origin, k, s.interval) <= w.clock
        ensures Serves(runs + [run], Tick(origin, k, s.interval))
      {
        ServesMore(runs, run, Tick(origin, k, s.interval));
      }
    }
  }

  lemma {:induction false} CatchUpLands(next: nat, now: nat, interval: nat)
    requires interval > 0 && next <= now
    ensures now < CatchUp(next, now, interval) <= now + interval
    decreases now - next
  {
    if next + interval <= now {
      CatchUpLands(next + interval, now, interval);
    }
  }

  // With timers on time, every grid point since the loop began finds a run of
  // the collector in flight, or one starts or ends then: no tick is dropped.
  lemma {:induction false} EveryTickServed(ss: seq<Scheduled>, start: nat, es: seq<Event>, i: nat, origin: nat)
    requires Ticking(ss) && i < |ss| && ss[i].nextRun == origin <= start && ss[i].active.None?
    requires AllPlausible(Boot(ss, start), es)
    ensures
      var st := Exec(Boot(ss, start), es);
      && |st.ss| == |ss| && st.ss[i].interval == ss[i].interval
      && (!st.over ==> AllServed(st.ss[i], RunsOf(Boot(ss, start), es, i), start, origin, st.clock))
  {
    hide Turn, Wake, Steady, AfterTurn, AfterWake, Plausible, AllServed, NoneOverdue;
    SteadyOverRuns(ss, start, es, i, origin);
    if es == [] {
      FirstServed(ss, start, i, origin);
    } else {
      var before, e := es[..|es| - 1], es[|es| - 1];
      var u := Exec(Boot(ss, start), before);
      SteadyOverRuns(ss, start, before, i, origin);
      var runs := RunsOf(Boot(ss, start), before, i);
      StartsOnGrid(ss, start, before, i, origin);
      EveryTickServed(ss, start, before, i, origin);
      WakePositive(u, e);
      if u.over {
        OverIdle(u, e, runs, i);
      } else {
        WakeSteady(u, e, i, runs, origin);
        StepServed(u, e, i, runs, start, origin);
      }
    }
  }

  lemma FirstServed(ss: seq<Scheduled>, start: nat, i: nat, origin: nat)
    requires Ticking(ss) && i < |ss| && ss[i].nextRun == origin <= start && ss[i].active.None?
    ensures
      var b := Boot(ss, start);
      |Turn(b).ss| == |ss| && Turn(b).clock == start && AllServed(Turn(b).ss[i], AfterTurn([], b, Turn(b), i), start, origin, start)
  {
    hide Turn, AfterTurn, AllServed, Steady;
    IdleIsSteady(ss[i], origin, start);
    TurnServed(Boot(ss, start), i, [], start, origin);
  }

  lemma StepServed(u: State, e: Event, i: nat, runs: seq<Run>, start: nat, origin: nat)
    requires Ticking(u.ss) && i < |u.ss| && !u.over && NoneOverdue(u) && Plausible(u, e)
    requires Steady(u.ss[i], runs, origin, u.clock) && AllServed(u.ss[i], runs, start, origin, u.clock)
    requires
      var w := Wake(u, e);
      Ticking(w.ss) && i < |w.ss| == |u.ss| && Steady(w.ss[i], AfterWake(runs, u, w, i), origin, w.clock)
    ensures
      var w := Wake(u, e);
      var t := Turn(w);
      && |t.ss| == |u.ss|
      && (!t.over ==> AllServed(t.ss[i], AfterTurn(AfterWake(runs, u, w, i), w, t, i), start, origin, t.clock))
  {
    hide Wake, Turn, Steady, NoneOverdue, Plausible, Tick, Serves;
    var w := Wake(u, e);
    WakeFrees(u, e, i);
    WakeServed(u, e, i, runs, start, origin);
    SameCollectors(w, e);
    if !w.over {
      var mid := AfterWake(runs, u, w, i);
      assert mid != [] && mid[|mid| - 1].start == runs[|runs| - 1].start;
      TurnServed(w, i, mid, start, origin);
    } else {
      OverIdle(w, e, runs, i);
    }
  }
}
