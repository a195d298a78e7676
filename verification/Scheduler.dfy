// src/pipeline.rs: the scheduler loop, proved to follow its state machine.
module Scheduler {
  import opened Prelude
  import opened Forwarder
  import opened SchedulerSpec

  class Scheduler {
    var scheduleds: seq<Scheduled>
    var finished: seq<Finished>
    // what each forwarder has been handed
    var inboxes: seq<seq<seq<Metric>>>

    constructor (scheduleds: seq<Scheduled>, forwarders: nat)
      ensures this.scheduleds == scheduleds && finished == []
      ensures inboxes == seq(forwarders, _ => [])
    {
      this.scheduleds, finished := scheduleds, [];
      inboxes := seq(forwarders, _ => []);
    }

    method StartDueCollectors(now: nat)
      requires Ticking(scheduleds)
      modifies `scheduleds
      ensures scheduleds == StartDue(old(scheduleds), now)
    {
      ghost var ss := scheduleds;
      for i := 0 to |scheduleds|
        invariant |scheduleds| == |ss|
        invariant forall k :: 0 <= k < i ==> scheduleds[k] == Started(ss[k], now)
        invariant forall k :: i <= k < |ss| ==> scheduleds[k] == ss[k]
      {
        var s := scheduleds[i];
        if s.active.None? && s.nextRun <= now {
          var next := s.nextRun;
          while next <= now
            invariant CatchUp(next, now, s.interval) == CatchUp(s.nextRun, now, s.interval)
            decreases if next <= now then now - next + 1 else 0
          {
            next := next + s.interval;
          }
          scheduleds := scheduleds[i := s.(nextRun := next, active := Some(now))];
        }
      }
    }

    method HandleResult(res: CollectionResult)
      modifies `scheduleds, `finished
      ensures scheduleds == Freed(old(scheduleds), res.name)
      ensures finished == Collected(old(finished), res)
    {
      var i := 0;
      while i < |scheduleds| && scheduleds[i].name != res.name
        invariant i <= |scheduleds|
        invariant IndexOf(scheduleds, res.name) == i + IndexOf(scheduleds[i..], res.name)
      {
        i := i + 1;
      }
      if i < |scheduleds| {
        scheduleds := scheduleds[i := scheduleds[i].(active := None)];
      }
      if res.metrics.Some? && res.metrics.value != [] {
        finished := finished + [Finished(res.metrics.value, res.startedAt + SOFT_DEADLINE)];
      }
    }

    // Drain `finished` into one batch and hand a copy to every forwarder.
    method SubmitBatch()
      requires forall i :: 0 <= i < |finished| ==> finished[i].metrics != []
      modifies `finished, `inboxes
      ensures finished == [] && |inboxes| == |old(inboxes)|
      ensures old(finished) == [] ==> inboxes == old(inboxes)
      ensures old(finished) != [] ==>
        forall f :: 0 <= f < |inboxes| ==> inboxes[f] == old(inboxes[f]) + [Metrics(old(finished))]
    {
      hide Metrics;
      ghost var fs := finished;
      var batch: seq<Metric> := [];
      while finished != []
        invariant inboxes == old(inboxes)
        invariant batch + Metrics(finished) == Metrics(fs)
        invariant finished == [] || finished == fs || batch != []
        invariant forall i :: 0 <= i < |finished| ==> finished[i].metrics != []
        invariant batch == [] ==> finished == fs
        decreases |finished|
      {
        MetricsFront(finished);
        batch := batch + finished[0].metrics;
        finished := finished[1..];
      }
      NoMetrics();
      assert batch + [] == batch;
      if batch == [] {
        return;
      }
      Forward(batch);
    }

    method Forward(batch: seq<Metric>)
      modifies `inboxes
      ensures |inboxes| == |old(inboxes)|
      ensures forall f :: 0 <= f < |inboxes| ==> inboxes[f] == old(inboxes[f]) + [batch]
    {
      ghost var before := inboxes;
      for f := 0 to |inboxes|
        invariant |inboxes| == |before|
        invariant forall g :: 0 <= g < f ==> inboxes[g] == before[g] + [batch]
        invariant forall g :: f <= g < |before| ==> inboxes[g] == before[g]
      {
        inboxes := inboxes[f := inboxes[f] + [batch]];
      }
    }

    ghost predicate Mirrors(st: State, before: seq<seq<seq<Metric>>>)
      reads this
    {
      && scheduleds == st.ss && finished == st.finished
      && |inboxes| == |before|
      && forall f :: 0 <= f < |inboxes| ==> inboxes[f] == before[f] + Batches(st.emissions)
    }

    // What the select does with the branch that won.
    method Awaken(event: Event, ghost st: State, ghost before: seq<seq<seq<Metric>>>)
      requires Mirrors(st, before) && NoneEmpty(st.finished) && !st.over
      modifies this
      ensures Mirrors(Wake(st, event), before)
      ensures NoneEmpty(Wake(st, event).finished)
      ensures Wake(st, event).over <==> event.wakeup.Interrupt?
    {
      hide Metrics;
      match event.wakeup {
        case TimerFired =>
        case Received(res) => HandleResult(res);
        case Interrupt =>
          scheduleds := Aborted(scheduleds);
          if finished != [] {
            SubmitBatch();
          }
      }
    }

    // From start-up until shutdown, until there is nothing to wait for, or
    // until the script of wake-ups ends in a wait.
    method SchedulerLoop(script: seq<Event>, start: nat)
      requires Ticking(scheduleds) && finished == []
      modifies this
      ensures Mirrors(Exec(Boot(old(scheduleds), start), script), old(inboxes))
    {
      hide StartDue, Metrics, CatchUp, Exec;
      ghost var boot, before := Boot(scheduleds, start), inboxes;
      ghost var st := boot;
      var now := start;
      var i: nat := 0;
      ExecNone(boot);
      assert script[..0] == [];
      while true
        invariant i <= |script| && now == st.clock && !st.over
        invariant Ticking(st.ss) && NoneEmpty(st.finished)
        invariant Mirrors(st, before) && Turn(st) == Exec(boot, script[..i])
        decreases |script| - i, |finished|
      {
        ghost var was := st;
        StartDueCollectors(now);
        st := st.(ss := scheduleds);
        if ReadyToEmit(scheduleds, finished, now) {
          EmissionSettles(was);
          SubmitBatch();
          st := Emit(st);
          continue;
        }
        if scheduleds == [] && finished == [] {
          OverStays(boot, script, i);
          return;
        }
        assert Turn(was) == st;
        if i == |script| {
          assert script[..i] == script;
          return;
        }
        var event := script[i];
        ExecNext(boot, script, i);
        Awaken(event, st, before);
        now := Max(now, event.at);
        st := Wake(st, event);
        i := i + 1;
        if event.wakeup.Interrupt? {
          OverStays(boot, script, i);
          return;
        }
        WakePositive(Exec(boot, script[..i - 1]), event);
      }
    }
  }

  function Batches(es: seq<Emission>): (r: seq<seq<Metric>>)
    ensures |r| == |es|
  {
    seq(|es|, i requires 0 <= i < |es| => es[i].batch)
  }

  ghost predicate NoneEmpty(fs: seq<Finished>) {
    forall i :: 0 <= i < |fs| ==> fs[i].metrics != []
  }

  lemma ExecNone(st: State)
    requires Ticking(st.ss)
    ensures Exec(st, []) == Turn(st)
  {
  }

  lemma ExecNext(st: State, es: seq<Event>, i: nat)
    requires Ticking(st.ss) && i < |es|
    ensures Ticking(Wake(Exec(st, es[..i]), es[i]).ss)
    ensures Exec(st, es[..i + 1]) == Turn(Wake(Exec(st, es[..i]), es[i]))
  {
    assert es[..i + 1][..i] == es[..i];
    WakePositive(Exec(st, es[..i]), es[i]);
  }

  lemma MetricsFront(fs: seq<Finished>)
    requires fs != []
    ensures Metrics(fs) == fs[0].metrics + Metrics(fs[1..])
  {
  }

  lemma NoMetrics()
    ensures Metrics([]) == []
  {
  }
}
