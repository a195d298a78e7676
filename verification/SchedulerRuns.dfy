// What the metric scheduler promises over every run.
module SchedulerRuns {
  import opened Prelude
  import opened Forwarder
  import opened SchedulerSpec

  // ---- Conservation ---------------------------------------------------------

  function Sent(es: seq<Emission>): seq<Metric> {
    if es == [] then [] else Sent(es[..|es| - 1]) + es[|es| - 1].batch
  }

  function AllReceived(rs: seq<Receipt>): seq<Metric> {
    if rs == [] then [] else AllReceived(rs[..|rs| - 1]) + rs[|rs| - 1].metrics
  }

  /** How many receipts the emissions cover. */
  function Covered(es: seq<Emission>): nat {
    if es == [] then 0 else es[|es| - 1].upTo
  }

  ghost predicate Conserved(st: State) {
    && Sent(st.emissions) + Metrics(st.finished) == AllReceived(st.receipts)
    && Covered(st.emissions) <= |st.receipts|
    && |st.finished| == |st.receipts| - Covered(st.emissions)
    && (forall k :: 0 <= k < |st.finished| ==>
         var r := st.receipts[Covered(st.emissions) + k];
         st.finished[k] == Finished(r.metrics, r.startedAt + SOFT_DEADLINE))
  }

  lemma SentSnoc(es: seq<Emission>, e: Emission)
    ensures Sent(es + [e]) == Sent(es) + e.batch
  {
    assert (es + [e])[..|es|] == es;
  }

  lemma ReceivedSnoc(rs: seq<Receipt>, r: Receipt)
    ensures AllReceived(rs + [r]) == AllReceived(rs) + r.metrics
  {
    assert (rs + [r])[..|rs|] == rs;
  }

  lemma EmitConserved(st: State)
    requires Conserved(st)
    ensures Conserved(Emit(st)) && Emit(st).finished == []
  {
    hide Sent, AllReceived, Metrics;
    SentSnoc(st.emissions, Emission(st.clock, |st.receipts|, Metrics(st.finished)));
    NoneLeft();
  }

  lemma NoneLeft()
    ensures Metrics([]) == []
  {
  }

  lemma TurnConserved(st: State)
    requires Ticking(st.ss) && Conserved(st)
    ensures Conserved(Turn(st))
  {
    hide StartDue, Sent, AllReceived, Metrics;
    EmitConserved(st.(ss := StartDue(st.ss, st.clock)));
  }

  lemma WakeConserved(st: State, e: Event)
    requires Conserved(st)
    ensures Conserved(Wake(st, e))
    ensures e.wakeup.Interrupt? && !st.over ==> Wake(st, e).finished == []
  {
    hide Metrics, Sent, AllReceived, IndexOf;
    if !st.over {
      var now := Max(st.clock, e.at);
      match e.wakeup
      case TimerFired =>
      case Interrupt => EmitConserved(st.(clock := now, ss := Aborted(st.ss)));
      case Received(res) =>
        if res.metrics.Some? && res.metrics.value != [] {
          var r := Receipt(res.metrics.value, res.startedAt, now);
          MetricsSnoc(st.finished, Finished(res.metrics.value, res.startedAt + SOFT_DEADLINE));
          ReceivedSnoc(st.receipts, r);
        }
    }
  }

  // At every wait, what was submitted followed by what is still pending is
  // what was received, in arrival order; a shutdown leaves nothing pending.
  lemma {:induction false} NothingLostOrReordered(ss: seq<Scheduled>, start: nat, es: seq<Event>)
    requires Ticking(ss)
    ensures
      var st := Exec(Boot(ss, start), es);
      && Conserved(st)
      && (st.over ==> st.finished == [] && Sent(st.emissions) == AllReceived(st.receipts))
  {
    if es == [] {
      TurnConserved(Boot(ss, start));
    } else {
      var u, e := Exec(Boot(ss, start), es[..|es| - 1]), es[|es| - 1];
      NothingLostOrReordered(ss, start, es[..|es| - 1]);
      WakePositive(u, e);
      WakeConserved(u, e);
      TurnConserved(Wake(u, e));
    }
  }

  // ---- The soft deadline -------------------------------------------------------

  // The environment the original runs in: time moves forward, timers fire on
  // time, and only a run in flight reports back, once, with its start time.
  predicate Plausible(st: State, e: Event) {
    && st.clock <= e.at
    && OnTime(st.ss, st.finished, e.at)
    && (e.wakeup.Received? ==>
         var i := IndexOf(st.ss, e.wakeup.res.name);
         i < |st.ss| && st.ss[i].active == Some(e.wakeup.res.startedAt))
  }

  predicate AllPlausible(st: State, es: seq<Event>)
    requires Ticking(st.ss)
  {
    es != [] ==>
      && AllPlausible(st, es[..|es| - 1])
      && (Exec(st, es[..|es| - 1]).over || Plausible(Exec(st, es[..|es| - 1]), es[|es| - 1]))
  }

  /** The later of its receipt and one second after its start. */
  function DueBy(r: Receipt): nat {
    Max(r.at, r.startedAt + 1_000_000_000)
  }

  /** The emission that covers receipt i. */
  ghost predicate SubmittedInTime(st: State, i: nat) {
    exists k :: 0 <= k < |st.emissions| && Covered(st.emissions[..k]) <= i < st.emissions[k].upTo
      && i < |st.receipts| && st.emissions[k].at <= DueBy(st.receipts[i])
  }

  ghost predicate Prompt(st: State) {
    forall i :: 0 <= i < Covered(st.emissions) ==> SubmittedInTime(st, i)
  }

  // Nothing pending is late yet.
  ghost predicate StillInTime(st: State) {
    forall i :: Covered(st.emissions) <= i < |st.receipts| ==> st.clock <= DueBy(st.receipts[i])
  }

  // Nothing pending waits past its deadline.
  ghost predicate Armed(st: State) {
    && (forall k :: 0 <= k < |st.finished| ==> st.clock < st.finished[k].softDeadlineAt)
    && (st.finished != [] ==> AnyActive(st.ss))
  }

  lemma EmitPrompt(st: State)
    requires Conserved(st) && Prompt(st) && StillInTime(st)
    ensures Prompt(Emit(st))
  {
    var t := Emit(st);
    if st.finished != [] {
      var n := |st.emissions|;
      assert t.emissions[..n] == st.emissions;
      forall i | 0 <= i < Covered(t.emissions) ensures SubmittedInTime(t, i) {
        if i < Covered(st.emissions) {
          assert SubmittedInTime(st, i);
          var k :| 0 <= k < n && Covered(st.emissions[..k]) <= i < st.emissions[k].upTo && st.emissions[k].at <= DueBy(st.receipts[i]);
          assert t.emissions[..k] == st.emissions[..k];
          assert t.emissions[k] == st.emissions[k];
        } else {
          assert t.emissions[n].upTo == |st.receipts|;
        }
      }
    }
  }

  lemma TurnPrompt(st: State)
    requires Ticking(st.ss) && Conserved(st) && Prompt(st) && StillInTime(st) && !st.over
    ensures Prompt(Turn(st)) && Armed(Turn(st))
  {
    hide CatchUp, Sent, Metrics, AllReceived, SubmittedInTime;
    var s := st.(ss := StartDue(st.ss, st.clock));
    assert Conserved(s) && Prompt(s) && StillInTime(s) by {
      assert forall i :: SubmittedInTime(s, i) == SubmittedInTime(st, i) by { SameHistory(st, s); }
    }
    EmitPrompt(s);
    var t := if ReadyToEmit(s.ss, s.finished, s.clock) then Emit(s) else s;
    SameHistory(t, Turn(st));
  }

  lemma SameHistory(s: State, t: State)
    requires s.receipts == t.receipts && s.emissions == t.emissions
    ensures forall i :: SubmittedInTime(s, i) == SubmittedInTime(t, i)
    ensures Prompt(s) == Prompt(t)
  {
    forall i ensures SubmittedInTime(s, i) == SubmittedInTime(t, i) {
    }
  }

  lemma WakePrompt(st: State, e: Event)
    requires Conserved(st) && Prompt(st) && Armed(st) && !st.over && Plausible(st, e)
    ensures Prompt(Wake(st, e))
    ensures !e.wakeup.Interrupt? ==> StillInTime(Wake(st, e))
  {
    hide Sent, Metrics, AllReceived, IndexOf, SubmittedInTime;
    PendingInTime(st, e.at);
    match e.wakeup
    case TimerFired => SameHistory(st, Wake(st, e));
    case Interrupt =>
      var s := st.(clock := e.at, ss := Aborted(st.ss));
      SameHistory(st, s);
      EmitPrompt(s);
      SameHistory(Emit(s), Wake(st, e));
    case Received(res) => LaterReceipts(st, Wake(st, e));
  }

  lemma PendingInTime(st: State, at: nat)
    requires Conserved(st) && OnTime(st.ss, st.finished, at)
    ensures forall i :: Covered(st.emissions) <= i < |st.receipts| ==> at <= DueBy(st.receipts[i])
  {
    hide Sent, Metrics, AllReceived;
    forall i | Covered(st.emissions) <= i < |st.receipts| ensures at <= DueBy(st.receipts[i]) {
      var k := i - Covered(st.emissions);
      assert st.finished[k] == Finished(st.receipts[i].metrics, st.receipts[i].startedAt + SOFT_DEADLINE);
    }
  }

  lemma LaterReceipts(s: State, t: State)
    requires s.receipts <= t.receipts && s.emissions == t.emissions && Covered(s.emissions) <= |s.receipts| && Prompt(s)
    ensures Prompt(t)
  {
    forall i | 0 <= i < Covered(t.emissions) ensures SubmittedInTime(t, i) {
      assert SubmittedInTime(s, i);
    }
  }

  // Every list received is submitted no later than the later of its receipt
  // and one second after its collection started, even if some collector is
  // always active. At a wait, whatever is pending is not due yet and some
  // collector is active, so an armed timer or a report ends the wait.
  lemma {:induction false} SubmittedWithinSoftDeadline(ss: seq<Scheduled>, start: nat, es: seq<Event>)
    requires Ticking(ss) && AllPlausible(Boot(ss, start), es)
    ensures
      var st := Exec(Boot(ss, start), es);
      && Prompt(st) && Conserved(st)
      && (!st.over ==> Armed(st) && st.ss != [])
  {
    hide CatchUp, SubmittedInTime, Sent, Metrics, AllReceived, StartDue, Plausible;
    NothingLostOrReordered(ss, start, es);
    if es == [] {
      var b := Boot(ss, start);
      TurnPrompt(b);
    } else {
      var u, e := Exec(Boot(ss, start), es[..|es| - 1]), es[|es| - 1];
      SubmittedWithinSoftDeadline(ss, start, es[..|es| - 1]);
      NothingLostOrReordered(ss, start, es[..|es| - 1]);
      WakePositive(u, e);
      if !u.over {
        WakePrompt(u, e);
        WakeConserved(u, e);
        if !e.wakeup.Interrupt? {
          TurnPrompt(Wake(u, e));
        }
      }
    }
  }

  /** Some list in receipts[from..to] has reached its soft deadline. */
  ghost predicate SomeDue(st: State, from: nat, to: nat) {
    exists i :: from <= i < to <= |st.receipts| && st.receipts[i].startedAt + 1_000_000_000 <= st.clock
  }

  lemma TurnEmitsWhenDue(w: State)
    requires Ticking(w.ss) && Conserved(w)
    ensures
      var t := Turn(w);
      && w.emissions <= t.emissions && w.receipts == t.receipts
      && (t.emissions != w.emissions ==>
           |t.emissions| == |w.emissions| + 1
           && (!AnyActive(t.ss) || SomeDue(t, Covered(w.emissions), |t.receipts|)))
  {
    hide Sent, AllReceived, Metrics, StartDue;
    if !w.over {
      var s := w.(ss := StartDue(w.ss, w.clock));
      if ReadyToEmit(s.ss, s.finished, s.clock) && AnyActive(s.ss) {
        var i :| 0 <= i < |s.finished| && s.finished[i].softDeadlineAt <= s.clock;
        assert w.receipts[Covered(w.emissions) + i].startedAt + SOFT_DEADLINE <= w.clock;
      }
    }
  }

  // Lists wait for each other: one more wake-up makes at most one submission,
  // and only on shutdown, when no collector is active any more, or when a list
  // it covers has reached its soft deadline.
  lemma ListsJoinUntilDue(ss: seq<Scheduled>, start: nat, es: seq<Event>, e: Event)
    requires Ticking(ss)
    ensures
      var u, t := Exec(Boot(ss, start), es), Exec(Boot(ss, start), es + [e]);
      && u.emissions <= t.emissions
      && (t.emissions != u.emissions ==>
           |t.emissions| == |u.emissions| + 1
           && (t.over || !AnyActive(t.ss) || SomeDue(t, Covered(u.emissions), |t.receipts|)))
  {
    hide Sent, AllReceived, Metrics, StartDue, IndexOf;
    assert (es + [e])[..|es|] == es;
    var u := Exec(Boot(ss, start), es);
    NothingLostOrReordered(ss, start, es);
    WakePositive(u, e);
    WakeConserved(u, e);
    TurnEmitsWhenDue(Wake(u, e));
  }

  // ---- When the loop ends --------------------------------------------------------

  predicate Interrupted(es: seq<Event>) {
    exists i :: 0 <= i < |es| && es[i].wakeup.Interrupt?
  }

  lemma StepOver(u: State, e: Event)
    requires Ticking(u.ss) && (u.ss == [] ==> u.over)
    ensures
      var w := Wake(u, e);
      && |w.ss| == |u.ss| && Ticking(w.ss) && |Turn(w).ss| == |u.ss|
      && (Turn(w).over <==> u.over || e.wakeup.Interrupt?)
  {
    hide Metrics, CatchUp, IndexOf;
    WakePositive(u, e);
  }

  lemma InterruptedNext(es: seq<Event>)
    requires es != []
    ensures Interrupted(es) <==> Interrupted(es[..|es| - 1]) || es[|es| - 1].wakeup.Interrupt?
  {
    var before := es[..|es| - 1];
    if Interrupted(before) {
      var i :| 0 <= i < |before| && before[i].wakeup.Interrupt?;
      assert es[i].wakeup.Interrupt?;
    }
    if Interrupted(es) && !es[|es| - 1].wakeup.Interrupt? {
      var i :| 0 <= i < |es| && es[i].wakeup.Interrupt?;
      assert before[i].wakeup.Interrupt?;
    }
  }

  // The loop is over exactly after a shutdown, or if there is no collector.
  lemma {:induction false} OverIff(ss: seq<Scheduled>, start: nat, es: seq<Event>)
    requires Ticking(ss)
    ensures
      var st := Exec(Boot(ss, start), es);
      |st.ss| == |ss| && (st.over <==> ss == [] || Interrupted(es))
  {
    hide Turn, Wake, Interrupted;
    if es == [] {
      FirstTurnOver(ss, start);
    } else {
      OverIff(ss, start, es[..|es| - 1]);
      InterruptedNext(es);
      StepOver(Exec(Boot(ss, start), es[..|es| - 1]), es[|es| - 1]);
    }
  }

  lemma FirstTurnOver(ss: seq<Scheduled>, start: nat)
    requires Ticking(ss)
    ensures
      var t := Turn(Boot(ss, start));
      |t.ss| == |ss| && (t.over <==> ss == []) && !Interrupted([])
  {
  }
}
