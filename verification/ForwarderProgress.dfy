// The run loop does not get stuck: what is buffered reaches the wire, and
// shutdown ends it.
module ForwarderProgress {
  import opened Prelude
  import opened Backoff
  import opened Forwarder
  import opened ForwarderRuns
  import opened ForwarderResets

  // A stored permit brings the loop back to its head, whether it is parked or
  // asleep, and is used up; nothing else changes.
  lemma PermitWakes(c: Config, es: seq<Event>)
    requires Exec(c, es).pc in {Parked, Asleep} && Exec(c, es).permit
    ensures Exec(c, es + [Advance]) == Exec(c, es).(pc := Head, permit := false)
  {
    hide Exec;
    ExecNext(c, es, Advance);
  }

  // Nothing else uses a permit up.
  lemma PermitOnlyWakes(c: Config, es: seq<Event>, e: Event)
    requires Exec(c, es).permit && !(e.Advance? && Exec(c, es).pc in {Parked, Asleep})
    ensures Exec(c, es + [e]).permit
  {
    hide Exec;
    ExecNext(c, es, e);
  }

  // With data in sight the loop sleeps exactly when its latest attempt was
  // refused and the delay after that is not yet past; else it goes on to pop.
  lemma SleepsIff(c: Config, es: seq<Event>)
    requires c.initial <= c.max && Exec(c, es).pc == Check
    ensures
      var s, t := Exec(c, es), Exec(c, es + [Advance]);
      var n := |s.log|;
      if n > 0 && s.log[n - 1].outcome == Refused
         && s.clock <= s.log[n - 1].end + Delay(Streak(s.log), c.initial, c.max)
      then t.pc == Asleep else t.pc == Popping(false)
  {
    hide Exec, Delay, Spaced;
    ExecNext(c, es, Advance);
    BackoffOverRuns(c, es);
    FlushIsLast(c, es);
  }

  // An answer takes the request off the wire: its batches are delivered or back
  // in the buffer, and the loop is at its head again, or done after the flush.
  lemma AnswerEndsAttempt(c: Config, es: seq<Event>, ok: bool)
    requires Exec(c, es).pc.OnWire?
    ensures
      var s, t := Exec(c, es), Exec(c, es + [Answer(ok)]);
      && t.pc == (if s.pc.flush then Done else Head)
      && t.ledger.flight == []
      && t.ledger.delivered == s.ledger.delivered + (if ok then s.ledger.flight else [])
      && (ok ==> t.ledger.buffer == s.ledger.buffer)
      && |t.log| == |s.log| + 1 && t.log[|s.log|].carried == s.ledger.flight
      && t.log[|s.log|].outcome == (if ok then Sent else Refused)
  {
    hide Exec;
    ExecNext(c, es, Answer(ok));
    LedgerSteps(Exec(c, es).ledger, 0, c.bufferMax, c.requestMax);
  }

  // Something is left to be done for the loop.
  predicate Due(s: State) {
    s.ledger.buffer != [] || s.shut
  }

  // A request is out, or the loop has returned.
  predicate Settled(s: State) {
    s.pc.OnWire? || s.pc == Done
  }

  /**
   * What happens next if nothing new does: the loop takes its step, a caller
   * makes the notification it owes, or the backoff runs out.
   */
  function Own(s: State): Event {
    if s.pc == Parked && !s.permit then (if s.submitting > 0 then SubmitNotify else ShutdownNotify)
    else if s.pc == Asleep then (if s.clock < NotBefore(s.retry) then Tick(NotBefore(s.retry) - s.clock) else TimerFires)
    else Advance
  }

  function OwnSteps(c: Config, s: State, n: nat): seq<Event>
    decreases n
  {
    if n == 0 || Settled(s) then [] else [Own(s)] + OwnSteps(c, Step(c, s, Own(s)), n - 1)
  }

  /** A bound on the steps to go. */
  function StepsToGo(s: State): nat {
    var empty := s.ledger.buffer == [];
    match s.pc
    case Done => 0
    case OnWire(_) => 0
    case Popping(flush) => if flush || !empty then 1 else 3
    case Asleep => (if empty then 4 else 2) + (if s.clock < NotBefore(s.retry) then 1 else 0)
    case Check => if empty then 6 else 4
    case Look => 5
    case Head => if s.shut then 2 else 6
    case Parked => (if s.shut then 3 else 7) + (if s.permit then 0 else 1)
  }

  // The request is the longest front of the buffer within the limit, and at
  // least its first batch.
  ghost predicate TakesMost(l: Ledger, max: nat) {
    && l.flight != []
    && (Sum(SizesOf(l.sizes, l.flight)) <= max || |l.flight| == 1)
    && (l.buffer != [] ==> Sum(SizesOf(l.sizes, l.flight + [l.buffer[0]])) > max)
  }

  lemma PopTakesMost(l: Ledger, cap: nat, max: nat)
    requires Balanced(l, cap) && l.buffer != []
    ensures TakesMost(Pop(l, max), max)
  {
    var s := SizesOf(l.sizes, l.buffer);
    IdsBelow(l);
    forall i | 0 <= i < |s| ensures s[i] > 0 {
      assert l.buffer[i] in l.buffer;
    }
    PopTakesLongestPrefix(s, 0, max);
    var k := PopCount(s, 0, max);
    assert SizesOf(l.sizes, l.buffer[..k]) == s[..k];
    if k < |s| {
      assert l.buffer[..k] + [l.buffer[k]] == l.buffer[..k + 1];
      assert SizesOf(l.sizes, l.buffer[..k + 1]) == s[..k + 1];
    }
  }

  // One step nearer, with nothing submitted and nothing taken but a request.
  ghost predicate Nearer(c: Config, s: State, t: State) {
    && StepsToGo(t) < StepsToGo(s)
    && (Due(t) || t.pc.OnWire?)
    && t.shut == s.shut && t.ledger.sizes == s.ledger.sizes
    && t.ledger.flight + t.ledger.buffer == s.ledger.buffer
    && (t.pc.OnWire? ==> TakesMost(t.ledger, c.requestMax))
    && (s.shut ==> Outstanding(t.pc) <= Outstanding(s.pc))
  }

  lemma PopCounts(c: Config, s: State)
    requires LedgerSound(c, s) && Due(s) && s.pc.Popping? && (s.pc.flush ==> s.shut)
    ensures Nearer(c, s, Step(c, s, Own(s)))
  {
    hide Push, Pop, Delivered, Requeued, Failed, Balanced, TakesMost;
    PopTakesSome(s.ledger, c.bufferMax, c.requestMax);
    PopSplits(s.ledger, c.requestMax);
    if s.ledger.buffer != [] {
      PopTakesMost(s.ledger, c.bufferMax, c.requestMax);
    }
  }

  lemma OwnStepCounts(c: Config, s: State)
    requires LedgerSound(c, s) && NoLostWakeup(s) && FlushedOnce(s) && Due(s) && !Settled(s)
    ensures Nearer(c, s, Step(c, s, Own(s)))
  {
    hide Push, Pop, Delivered, Requeued, Answered, Balanced, TakesMost;
    if s.pc.Popping? {
      PopCounts(c, s);
    } else {
      assert s.ledger.flight + s.ledger.buffer == s.ledger.buffer;
    }
  }

  lemma PopSplits(l: Ledger, max: nat)
    ensures Pop(l, max).flight + Pop(l, max).buffer == l.buffer && Pop(l, max).sizes == l.sizes
  {
  }

  lemma DoneOnceShut(c: Config, es: seq<Event>)
    ensures Exec(c, es).pc == Done ==> Exec(c, es).shut
  {
    hide Exec;
    FlushIsLast(c, es);
  }

  lemma {:induction false} ServedWithin(c: Config, es: seq<Event>, n: nat)
    requires Due(Exec(c, es)) || Settled(Exec(c, es))
    requires StepsToGo(Exec(c, es)) <= n
    ensures
      var s := Exec(c, es);
      var t := Exec(c, es + OwnSteps(c, s, n));
      && Settled(t) && t.shut == s.shut && t.ledger.sizes == s.ledger.sizes
      && (s.shut || t.pc.OnWire?)
      && t.ledger.flight + t.ledger.buffer == s.ledger.flight + s.ledger.buffer
      && (t.pc.OnWire? && !Settled(s) ==> TakesMost(t.ledger, c.requestMax))
      && (s.shut ==> Outstanding(t.pc) <= Outstanding(s.pc))
    decreases n
  {
    hide Exec, Step, Own, Balanced, TakesMost, FlushedOnce, NoLostWakeup;
    var s := Exec(c, es);
    BufferOverRuns(c, es);
    if Settled(s) {
      assert es + OwnSteps(c, s, n) == es;
      DoneOnceShut(c, es);
    } else {
      var e := Own(s);
      WakeupsAreNotLost(c, es);
      FlushIsLast(c, es);
      OwnStepCounts(c, s);
      ExecNext(c, es, e);
      assert s.ledger.flight + s.ledger.buffer == s.ledger.buffer;
      ServedWithin(c, es + [e], n - 1);
      assert Settled(Step(c, s, e)) ==> (es + [e]) + OwnSteps(c, Step(c, s, e), n - 1) == es + [e];
      assert es + OwnSteps(c, s, n) == (es + [e]) + OwnSteps(c, Step(c, s, e), n - 1);
    }
  }

  // From every reachable state with data buffered or shutdown stored, the
  // loop's own steps, the notifications still owed and the end of the backoff
  // put a request with the longest front of the buffer that fits on the wire, or
  // end the loop. It takes at most eight of them.
  lemma DueIsServed(c: Config, es: seq<Event>)
    requires Due(Exec(c, es)) && !Settled(Exec(c, es))
    ensures
      var s := Exec(c, es);
      var t := Exec(c, es + OwnSteps(c, s, 8));
      && (t.pc.OnWire? || (s.shut && t.pc == Done))
      && t.shut == s.shut && t.ledger.sizes == s.ledger.sizes
      && t.ledger.flight + t.ledger.buffer == s.ledger.buffer
      && (t.pc.OnWire? ==> TakesMost(t.ledger, c.requestMax))
  {
    hide Exec, OwnSteps, Balanced, TakesMost;
    BufferOverRuns(c, es);
    ServedWithin(c, es, 8);
    var s := Exec(c, es);
    assert s.ledger.flight + s.ledger.buffer == s.ledger.buffer;
  }

  /** The run goes on to the next request, if there is one, and its answer. */
  function Served(c: Config, es: seq<Event>, ok: bool): seq<Event> {
    var up := es + OwnSteps(c, Exec(c, es), 8);
    if Exec(c, up).pc.OnWire? then up + [Answer(ok)] else up
  }

  lemma ServedOnceShut(c: Config, es: seq<Event>, ok: bool)
    requires Exec(c, es).shut
    ensures
      var s, t := Exec(c, es), Exec(c, Served(c, es, ok));
      && t.shut && (t.pc == Done || t.pc == Head) && (Outstanding(s.pc) == 0 ==> t.pc == Done)
  {
    hide Exec, OwnSteps;
    ServedWithin(c, es, 8);
    var up := es + OwnSteps(c, Exec(c, es), 8);
    if Exec(c, up).pc.OnWire? {
      AnswerEndsAttempt(c, up, ok);
      ExecNext(c, up, Answer(ok));
    }
  }

  // Once shutdown is stored, at most two answers end the loop, whatever they
  // are and whatever it was doing.
  lemma ShutdownReturns(c: Config, es: seq<Event>, first: bool, second: bool)
    requires Exec(c, es).shut
    ensures Exec(c, Served(c, Served(c, es, first), second)).pc == Done
  {
    hide Exec, Served;
    ServedOnceShut(c, es, first);
    ServedOnceShut(c, Served(c, es, first), second);
  }
}
