// src/pipeline.rs: the metric scheduler as a timed state machine.
module SchedulerSpec {
  import opened Prelude
  import opened Forwarder

  const SOFT_DEADLINE := 1_000_000_000  // nanoseconds

  // `active` is the start of the run in flight; the task hands it back.
  datatype Scheduled = Scheduled(name: Text, interval: nat, nextRun: nat, active: Option<nat>)

  datatype CollectionResult = CollectionResult(name: Text, startedAt: nat, metrics: Option<seq<Metric>>)

  datatype Finished = Finished(metrics: seq<Metric>, softDeadlineAt: nat)

  /** The catch-up loop: skip the ticks that were missed. */
  function CatchUp(next: nat, now: nat, interval: nat): nat
    requires interval > 0
    decreases if next <= now then now - next + 1 else 0
  {
    if next <= now then CatchUp(next + interval, now, interval) else next
  }

  function Started(s: Scheduled, now: nat): Scheduled
    requires s.interval > 0
  {
    if s.active.None? && s.nextRun <= now
    then s.(nextRun := CatchUp(s.nextRun, now, s.interval), active := Some(now))
    else s
  }

  predicate Ticking(ss: seq<Scheduled>) {
    forall i :: 0 <= i < |ss| ==> ss[i].interval > 0
  }

  function StartDue(ss: seq<Scheduled>, now: nat): (r: seq<Scheduled>)
    requires Ticking(ss)
    ensures |r| == |ss| && forall i :: 0 <= i < |ss| ==> r[i] == Started(ss[i], now)
  {
    seq(|ss|, i requires 0 <= i < |ss| => Started(ss[i], now))
  }

  predicate AnyActive(ss: seq<Scheduled>) {
    exists i :: 0 <= i < |ss| && ss[i].active.Some?
  }

  /** Whether a wait ending at `t` ends no later than every armed timer. */
  predicate OnTime(ss: seq<Scheduled>, finished: seq<Finished>, t: nat) {
    && (forall i :: 0 <= i < |finished| ==> t <= finished[i].softDeadlineAt)
    && (forall i :: 0 <= i < |ss| && ss[i].active.None? ==> t <= ss[i].nextRun)
  }

  predicate ReadyToEmit(ss: seq<Scheduled>, finished: seq<Finished>, now: nat) {
    finished != [] && (!AnyActive(ss) || exists i :: 0 <= i < |finished| && finished[i].softDeadlineAt <= now)
  }

  function Metrics(finished: seq<Finished>): seq<Metric> {
    if finished == [] then [] else finished[0].metrics + Metrics(finished[1..])
  }

  /** The first collector of that name, or |ss|. */
  function IndexOf(ss: seq<Scheduled>, name: Text): (i: nat)
    ensures i <= |ss| && (i < |ss| ==> ss[i].name == name)
    ensures forall k :: 0 <= k < i ==> ss[k].name != name
  {
    if ss == [] || ss[0].name == name then 0 else 1 + IndexOf(ss[1..], name)
  }

  function Freed(ss: seq<Scheduled>, name: Text): seq<Scheduled> {
    var i := IndexOf(ss, name);
    if i < |ss| then ss[i := ss[i].(active := None)] else ss
  }

  function Collected(finished: seq<Finished>, res: CollectionResult): seq<Finished> {
    if res.metrics.Some? && res.metrics.value != []
    then finished + [Finished(res.metrics.value, res.startedAt + SOFT_DEADLINE)]
    else finished
  }

  function Aborted(ss: seq<Scheduled>): (r: seq<Scheduled>)
    ensures |r| == |ss| && forall i :: 0 <= i < |ss| ==> r[i] == ss[i].(active := None)
  {
    seq(|ss|, i requires 0 <= i < |ss| => ss[i].(active := None))
  }

  // History the program does not keep: every list received, and how many of
  // them, with which metrics, each submission covered.
  datatype Receipt = Receipt(metrics: seq<Metric>, startedAt: nat, at: nat)

  datatype Emission = Emission(at: nat, upTo: nat, batch: seq<Metric>)

  datatype State = State(
    ss: seq<Scheduled>, finished: seq<Finished>, clock: nat, over: bool,
    receipts: seq<Receipt>, emissions: seq<Emission>)

  datatype Wakeup = Received(res: CollectionResult) | TimerFired | Interrupt

  datatype Event = Event(at: nat, wakeup: Wakeup)

  function Emit(st: State): State {
    if st.finished == [] then st
    else st.(finished := [], emissions := st.emissions + [Emission(st.clock, |st.receipts|, Metrics(st.finished))])
  }

  /** From the loop head to the next wait: start what is due, emit if ready. */
  function Turn(st: State): State
    requires Ticking(st.ss)
  {
    if st.over then st else
      var s := st.(ss := StartDue(st.ss, st.clock));
      var t := if ReadyToEmit(s.ss, s.finished, s.clock) then Emit(s) else s;
      t.(over := t.ss == [] && t.finished == [])
  }

  function Wake(st: State, e: Event): State {
    if st.over then st else
      var now := Max(st.clock, e.at);
      match e.wakeup
      case TimerFired => st.(clock := now)
      case Interrupt => Emit(st.(clock := now, ss := Aborted(st.ss))).(over := true)
      case Received(res) =>
        st.(clock := now, ss := Freed(st.ss, res.name), finished := Collected(st.finished, res),
            receipts := if res.metrics.Some? && res.metrics.value != []
                        then st.receipts + [Receipt(res.metrics.value, res.startedAt, now)]
                        else st.receipts)
  }

  lemma WakePositive(st: State, e: Event)
    requires Ticking(st.ss)
    ensures Ticking(Wake(st, e).ss)
  {
  }

  lemma TurnPositive(st: State)
    requires Ticking(st.ss)
    ensures Ticking(Turn(st).ss)
  {
  }

  /** The state at the wait after a run of wake-ups. */
  function Exec(st: State, es: seq<Event>): (r: State)
    requires Ticking(st.ss)
    ensures Ticking(r.ss)
  {
    TurnPositive(st);
    if es == [] then Turn(st) else
      var u := Exec(st, es[..|es| - 1]);
      WakePositive(u, es[|es| - 1]);
      TurnPositive(Wake(u, es[|es| - 1]));
      Turn(Wake(u, es[|es| - 1]))
  }

  function Boot(ss: seq<Scheduled>, now: nat): State {
    State(ss, [], now, false, [], [])
  }

  lemma MetricsSnoc(fs: seq<Finished>, f: Finished)
    ensures Metrics(fs + [f]) == Metrics(fs) + f.metrics
  {
    if fs == [] {
      assert [f][1..] == [];
    } else {
      assert (fs + [f])[1..] == fs[1..] + [f];
      MetricsSnoc(fs[1..], f);
    }
  }

  lemma {:induction false} CatchUpPasses(next: nat, now: nat, interval: nat)
    requires interval > 0
    ensures CatchUp(next, now, interval) > now && CatchUp(next, now, interval) >= next
    decreases if next <= now then now - next + 1 else 0
  {
    if next <= now {
      CatchUpPasses(next + interval, now, interval);
    }
  }

  // After an emission a second pass at the same instant finds nothing to do.
  lemma EmissionSettles(st: State)
    requires Ticking(st.ss) && !st.over
    requires ReadyToEmit(StartDue(st.ss, st.clock), st.finished, st.clock)
    ensures
      var s := Emit(st.(ss := StartDue(st.ss, st.clock)));
      Ticking(s.ss) && Turn(s) == Turn(st)
  {
    var s := Emit(st.(ss := StartDue(st.ss, st.clock)));
    forall i | 0 <= i < |st.ss| ensures Started(s.ss[i], s.clock) == s.ss[i] {
      CatchUpPasses(st.ss[i].nextRun, st.clock, st.ss[i].interval);
    }
    assert StartDue(s.ss, s.clock) == s.ss;
  }

  lemma {:induction false} OverStays(st: State, es: seq<Event>, i: nat)
    requires Ticking(st.ss) && i <= |es| && Exec(st, es[..i]).over
    ensures Exec(st, es) == Exec(st, es[..i])
  {
    if i == |es| {
      assert es[..i] == es;
    } else {
      assert es[..|es| - 1][..i] == es[..i];
      OverStays(st, es[..|es| - 1], i);
    }
  }
}
