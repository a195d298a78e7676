// When the forwarder's backoff is reset without a success, and what may still be
// sent once shutdown is stored.
module ForwarderResets {
  import opened Prelude
  import opened Backoff
  import opened Forwarder
  import opened ForwarderRuns

  // The loop has seen a batch and goes on to pop without looking again.
  predicate Committed(pc: Pc) {
    pc == Check || pc == Asleep || pc == Popping(false)
  }

  // Since the loop looked, the newest submission was larger than the buffer.
  predicate Overwhelmed(c: Config, es: seq<Event>) {
    es != [] &&
      var u, e := Exec(c, es[..|es| - 1]), es[|es| - 1];
      if e.SubmitPush? && e.size > 0 then Committed(u.pc) && e.size > c.bufferMax
      else Committed(Step(c, u, e).pc) && Overwhelmed(c, es[..|es| - 1])
  }

  lemma PushEmptiesIff(l: Ledger, size: nat, cap: nat)
    ensures Push(l, size, cap).buffer == [] <==> size > cap
  {
    var grown := l.(sizes := l.sizes + [size], buffer := l.buffer + [|l.sizes|]);
    var s := SizesOf(grown.sizes, grown.buffer);
    var n := |l.buffer|;
    EvictKeepsLongestSuffix(s, cap);
    assert s[n..] == [size] && [size][1..] == [];
    assert Sum(s[n..]) == size;
    var k := EvictCount(s, cap);
    if k <= n {
      SuffixSums(s, k, n);
    }
  }

  lemma PopTakesSome(l: Ledger, cap: nat, max: nat)
    requires Balanced(l, cap)
    ensures Pop(l, max).flight == [] <==> l.buffer == []
  {
    IdsBelow(l);
    var s := SizesOf(l.sizes, l.buffer);
    if l.buffer != [] {
      forall i | 0 <= i < |s| ensures s[i] > 0 {
        assert l.buffer[i] in l.buffer;
      }
      PopTakesLongestPrefix(s, 0, max);
    }
  }

  // The buffer the loop is about to pop from is empty exactly when the newest
  // submission since it looked was larger than the cap.
  lemma {:induction false} EmptyIffOverwhelmed(c: Config, es: seq<Event>)
    ensures
      var s := Exec(c, es);
      && (Overwhelmed(c, es) ==> Committed(s.pc))
      && (Committed(s.pc) ==> (s.ledger.buffer == [] <==> Overwhelmed(c, es)))
  {
    hide Push, Pop, Delivered, Requeued, Failed;
    if es != [] {
      var before, e := es[..|es| - 1], es[|es| - 1];
      EmptyIffOverwhelmed(c, before);
      if e.SubmitPush? {
        PushEmptiesIff(Exec(c, before).ledger, e.size, c.bufferMax);
      }
    }
  }

  ghost predicate NoneEmpty(log: seq<Attempt>) {
    forall k :: 0 <= k < |log| && !log[k].flush ==> log[k].outcome != Empty
  }

  // No pop comes right after the buffer was overwhelmed.
  predicate NeverDrained(c: Config, es: seq<Event>) {
    es != [] ==>
      && NeverDrained(c, es[..|es| - 1])
      && !(es[|es| - 1].Advance? && Exec(c, es[..|es| - 1]).pc == Popping(false) && Overwhelmed(c, es[..|es| - 1]))
  }

  /** Refusals at the end of `log` since the last success. */
  function SinceSuccess(log: seq<Attempt>): nat {
    if log == [] then 0 else
      var a, before := log[|log| - 1], SinceSuccess(log[..|log| - 1]);
      if a.flush then before
      else if a.outcome == Sent then 0
      else if a.outcome == Refused then before + 1
      else before
  }

  lemma {:induction false} StreakSinceSuccess(log: seq<Attempt>)
    requires NoneEmpty(log)
    ensures Streak(log) == SinceSuccess(log)
  {
    if log != [] {
      StreakSinceSuccess(log[..|log| - 1]);
      assert log[|log| - 1].flush || log[|log| - 1].outcome != Empty;
    }
  }

  lemma StepNoneEmpty(c: Config, s: State, e: Event)
    requires LedgerSound(c, s)
    ensures NoneEmpty(Step(c, s, e).log) <==>
      NoneEmpty(s.log) && !(e.Advance? && s.pc == Popping(false) && s.ledger.buffer == [])
  {
    hide Push, Pop, Delivered, Requeued, Failed, Balanced, NoneEmpty;
    PopTakesSome(s.ledger, c.bufferMax, c.requestMax);
    var t := Step(c, s, e);
    if t.log != s.log {
      NoneEmptySnoc(s.log, t.log[|s.log|]);
    }
  }

  lemma NoneEmptySnoc(log: seq<Attempt>, a: Attempt)
    ensures NoneEmpty(log + [a]) <==> NoneEmpty(log) && (a.flush || a.outcome != Empty)
  {
    if NoneEmpty(log + [a]) {
      assert (log + [a])[|log|] == a;
      forall k | 0 <= k < |log| && !log[k].flush ensures log[k].outcome != Empty {
        assert (log + [a])[k] == log[k];
      }
    }
  }

  // An ordinary attempt finds nothing to send exactly when it pops a buffer
  // that a too large submission emptied since the loop looked.
  lemma {:induction false} EmptyPopsIff(c: Config, es: seq<Event>)
    ensures NoneEmpty(Exec(c, es).log) <==> NeverDrained(c, es)
  {
    hide Step, NoneEmpty, Overwhelmed;
    if es == [] {
      assert Exec(c, es).log == [];
      NothingEmpty();
    } else {
      var before := es[..|es| - 1];
      EmptyPopsIff(c, before);
      BufferOverRuns(c, before);
      EmptyIffOverwhelmed(c, before);
      StepNoneEmpty(c, Exec(c, before), es[|es| - 1]);
    }
  }

  lemma NothingEmpty()
    ensures NoneEmpty([])
  {
  }

  // In a run without such a pop only a success resets the backoff.
  lemma OnlySuccessResets(c: Config, es: seq<Event>)
    requires c.initial <= c.max && NeverDrained(c, es)
    ensures
      var s := Exec(c, es);
      && s.retry.streak == SinceSuccess(s.log)
      && s.retry.delay == Delay(SinceSuccess(s.log), c.initial, c.max)
  {
    hide Exec, Delay;
    EmptyPopsIff(c, es);
    BackoffOverRuns(c, es);
    StreakSinceSuccess(Exec(c, es).log);
  }

  predicate SubmissionsFit(c: Config, es: seq<Event>) {
    forall e :: e in es && e.SubmitPush? ==> e.size <= c.bufferMax
  }

  // No submission that fits the buffer makes such a pop.
  lemma {:induction false} FittingNeverDrains(c: Config, es: seq<Event>)
    requires SubmissionsFit(c, es)
    ensures !Overwhelmed(c, es) && NeverDrained(c, es)
  {
    hide Exec, Step;
    if es != [] {
      assert es[|es| - 1] in es;
      FittingNeverDrains(c, es[..|es| - 1]);
    }
  }

  // ---- What may follow once shutdown is stored -----------------------------------

  lemma ExecNext(c: Config, es: seq<Event>, e: Event)
    ensures Exec(c, es + [e]) == Step(c, Exec(c, es), e)
  {
    assert (es + [e])[..|es|] == es;
  }

  ghost predicate MayAttempt(c: Config, es: seq<Event>) {
    exists more :: Ordinary(Exec(c, es + more).log) > Ordinary(Exec(c, es).log)
  }

  lemma OneStepEarlier(c: Config, es: seq<Event>, e: Event)
    requires MayAttempt(c, es + [e]) && Exec(c, es + [e]).log == Exec(c, es).log
    ensures MayAttempt(c, es)
  {
    hide Exec, Ordinary;
    var more :| Ordinary(Exec(c, (es + [e]) + more).log) > Ordinary(Exec(c, es + [e]).log);
    assert (es + [e]) + more == es + ([e] + more);
  }

  lemma AnswerCounts(c: Config, es: seq<Event>, e: Event)
    requires Ordinary(Exec(c, es + [e]).log) > Ordinary(Exec(c, es).log)
    ensures MayAttempt(c, es)
  {
  }

  lemma FromWire(c: Config, es: seq<Event>)
    requires Exec(c, es).pc == OnWire(false)
    ensures MayAttempt(c, es)
  {
    hide Exec, Ordinary, MayAttempt;
    var s := Exec(c, es);
    ExecNext(c, es, Answer(true));
    OrdinarySnoc(s.log, Attempt(s.started, s.clock, Sent, false, s.ledger.flight));
    AnswerCounts(c, es, Answer(true));
  }

  lemma FromPopping(c: Config, es: seq<Event>)
    requires Exec(c, es).pc == Popping(false)
    ensures MayAttempt(c, es)
  {
    hide Exec, Ordinary, MayAttempt, Pop;
    var s := Exec(c, es);
    ExecNext(c, es, Advance);
    if Pop(s.ledger, c.requestMax).flight == [] {
      OrdinarySnoc(s.log, Attempt(s.clock, s.clock, Empty, false, []));
      AnswerCounts(c, es, Advance);
    } else {
      FromWire(c, es + [Advance]);
      OneStepEarlier(c, es, Advance);
    }
  }

  lemma FromAsleep(c: Config, es: seq<Event>)
    requires Exec(c, es).pc == Asleep
    ensures MayAttempt(c, es)
  {
    hide Exec, Ordinary, MayAttempt;
    var wait := Tick(NotBefore(Exec(c, es).retry));
    ExecNext(c, es, wait);
    ExecNext(c, es + [wait], TimerFires);
    FromPopping(c, es + [wait] + [TimerFires]);
    OneStepEarlier(c, es + [wait], TimerFires);
    OneStepEarlier(c, es, wait);
  }

  lemma FromCheck(c: Config, es: seq<Event>)
    requires Exec(c, es).pc == Check
    ensures MayAttempt(c, es)
  {
    hide Exec, Ordinary, MayAttempt;
    ExecNext(c, es, Advance);
    if Exec(c, es + [Advance]).pc == Asleep {
      FromAsleep(c, es + [Advance]);
    } else {
      FromPopping(c, es + [Advance]);
    }
    OneStepEarlier(c, es, Advance);
  }

  // A submission may still arrive before the loop looks.
  lemma FromLook(c: Config, es: seq<Event>)
    requires Exec(c, es).pc == Look && c.bufferMax >= 1
    ensures MayAttempt(c, es)
  {
    hide Exec, Ordinary, MayAttempt, Push;
    PushEmptiesIff(Exec(c, es).ledger, 1, c.bufferMax);
    ExecNext(c, es, SubmitPush(1));
    ExecNext(c, es + [SubmitPush(1)], Advance);
    FromCheck(c, es + [SubmitPush(1)] + [Advance]);
    OneStepEarlier(c, es + [SubmitPush(1)], Advance);
    OneStepEarlier(c, es, SubmitPush(1));
  }

  // Once shutdown is stored an ordinary attempt may still be answered exactly
  // when the loop is past its check of the flag, and not parked.
  lemma OrdinaryMayFollowIff(c: Config, es: seq<Event>)
    requires Exec(c, es).shut && c.bufferMax >= 1
    ensures MayAttempt(c, es) <==> Outstanding(Exec(c, es).pc) == 1
  {
    hide Exec, Ordinary, Step;
    if MayAttempt(c, es) {
      var more :| Ordinary(Exec(c, es + more).log) > Ordinary(Exec(c, es).log);
      ShutdownEndsSoon(c, es, more);
    } else {
      match Exec(c, es).pc
      case Look => FromLook(c, es);
      case Check => FromCheck(c, es);
      case Asleep => FromAsleep(c, es);
      case Popping(flush) => if !flush { FromPopping(c, es); }
      case OnWire(flush) => if !flush { FromWire(c, es); }
      case _ =>
    }
  }

  // ---- Two runs --------------------------------------------------------------------

  // One batch in the buffer, through a refused request and back.
  lemma OneBatch(c: Config)
    requires c.bufferMax >= 1
    ensures
      var queued := Ledger([1], [], [], [0], []);
      && Push(INITIAL.ledger, 1, c.bufferMax) == queued
      && Pop(queued, c.requestMax) == Ledger([1], [], [0], [], [])
      && Requeued(Ledger([1], [], [0], [], []), c.bufferMax) == queued
  {
    var queued := Ledger([1], [], [], [0], []);
    assert SizesOf([1], [0]) == [1] && [1][1..] == [];
    EvictCountIs([1], c.bufferMax, 0);
  }

  lemma FirstRefused(c: Config)
    requires c.bufferMax >= 1
    ensures
      Exec(c, [SubmitPush(1), Advance, Advance, Advance, Advance, Answer(false)])
        == State(Ledger([1], [], [], [0], []), Head, false, false, 1, 0, 0, 0,
                 Failed(CALM, 0, c.initial, c.max), [Attempt(0, 0, Refused, false, [0])])
  {
    hide Exec, Push, Pop, Requeued, Failed;
    OneBatch(c);
    assert Exec(c, []) == INITIAL by {
      Nothing(c);
    }
    ExecNext(c, [], SubmitPush(1));
    ExecNext(c, [] + [SubmitPush(1)], Advance);
    ExecNext(c, [] + [SubmitPush(1)] + [Advance], Advance);
    ExecNext(c, [] + [SubmitPush(1)] + [Advance] + [Advance], Advance);
    ExecNext(c, [] + [SubmitPush(1)] + [Advance] + [Advance] + [Advance], Advance);
    ExecNext(c, [] + [SubmitPush(1)] + [Advance] + [Advance] + [Advance] + [Advance], Answer(false));
    assert [SubmitPush(1), Advance, Advance, Advance, Advance, Answer(false)]
        == [] + [SubmitPush(1)] + [Advance] + [Advance] + [Advance] + [Advance] + [Answer(false)];
  }

  lemma Nothing(c: Config)
    ensures Exec(c, []) == INITIAL
  {
  }

  // A refusal, then a submission larger than the buffer while the loop sleeps:
  // the next pop finds nothing and resets the backoff, without any success.
  lemma EmptyPopResets(c: Config)
    requires c.bufferMax >= 1
    ensures
      var es := [SubmitPush(1), Advance, Advance, Advance, Advance, Answer(false)]
        + [Advance, Advance, Advance, SubmitPush(c.bufferMax + 1), Tick(c.initial), TimerFires, Advance];
      var s := Exec(c, es);
      && s.retry == CALM
      && s.log == [Attempt(0, 0, Refused, false, [0]), Attempt(c.initial, c.initial, Empty, false, [])]
      && SinceSuccess(s.log) == 1
  {
    hide Exec, Push, Failed;
    var first := [SubmitPush(1), Advance, Advance, Advance, Advance, Answer(false)];
    FirstRefused(c);
    FirstDelay(c);
    var queued := Ledger([1], [], [], [0], []);
    PushEmptiesIff(queued, c.bufferMax + 1, c.bufferMax);
    PushKeepsFlight(queued, c.bufferMax + 1, c.bufferMax);
    ExecNext(c, first, Advance);
    ExecNext(c, first + [Advance], Advance);
    ExecNext(c, first + [Advance] + [Advance], Advance);
    var asleep := first + [Advance] + [Advance] + [Advance];
    ExecNext(c, asleep, SubmitPush(c.bufferMax + 1));
    ExecNext(c, asleep + [SubmitPush(c.bufferMax + 1)], Tick(c.initial));
    ExecNext(c, asleep + [SubmitPush(c.bufferMax + 1)] + [Tick(c.initial)], TimerFires);
    ExecNext(c, asleep + [SubmitPush(c.bufferMax + 1)] + [Tick(c.initial)] + [TimerFires], Advance);
    assert first + [Advance, Advance, Advance, SubmitPush(c.bufferMax + 1), Tick(c.initial), TimerFires, Advance]
        == asleep + [SubmitPush(c.bufferMax + 1)] + [Tick(c.initial)] + [TimerFires] + [Advance];
  }

  lemma FirstDelay(c: Config)
    ensures Failed(CALM, 0, c.initial, c.max).until == Some(c.initial)
  {
  }

  // Shutdown stored right after the loop's check of it: an ordinary attempt
  // comes first, then the flush, so the bound of ShutdownEndsSoon is reached.
  lemma OrdinaryAttemptAfterShutdown(c: Config)
    requires c.bufferMax >= 1
    ensures
      var es := [SubmitPush(1), Advance];
      var more := [ShutdownStore, Advance, Advance, Advance, Answer(true), Advance, Advance];
      && Exec(c, es).log == []
      && Exec(c, es + more).pc == Done
      && Exec(c, es + more).log == [Attempt(0, 0, Sent, false, [0]), Attempt(0, 0, Empty, true, [])]
  {
    hide Exec, Push, Pop, Failed;
    OneBatch(c);
    Nothing(c);
    ExecNext(c, [], SubmitPush(1));
    ExecNext(c, [] + [SubmitPush(1)], Advance);
    var es := [] + [SubmitPush(1)] + [Advance];
    assert es == [SubmitPush(1), Advance];
    ExecNext(c, es, ShutdownStore);
    ExecNext(c, es + [ShutdownStore], Advance);
    ExecNext(c, es + [ShutdownStore] + [Advance], Advance);
    ExecNext(c, es + [ShutdownStore] + [Advance] + [Advance], Advance);
    var wire := es + [ShutdownStore] + [Advance] + [Advance] + [Advance];
    assert Exec(c, wire) == State(Ledger([1], [], [0], [], []), OnWire(false), false, true, 1, 1, 0, 0, CALM, []);
    FlushAfterAnswer(c, wire);
    assert es + [ShutdownStore, Advance, Advance, Advance, Answer(true), Advance, Advance]
        == wire + [Answer(true)] + [Advance] + [Advance];
  }

  lemma FlushAfterAnswer(c: Config, wire: seq<Event>)
    requires Exec(c, wire) == State(Ledger([1], [], [0], [], []), OnWire(false), false, true, 1, 1, 0, 0, CALM, [])
    ensures
      var s := Exec(c, wire + [Answer(true)] + [Advance] + [Advance]);
      s.pc == Done && s.log == [Attempt(0, 0, Sent, false, [0]), Attempt(0, 0, Empty, true, [])]
  {
    hide Exec, Push, Pop, Failed;
    NothingLeft(c);
    ExecNext(c, wire, Answer(true));
    assert Exec(c, wire + [Answer(true)]).pc == Head;
    ExecNext(c, wire + [Answer(true)], Advance);
    ExecNext(c, wire + [Answer(true)] + [Advance], Advance);
  }

  lemma NothingLeft(c: Config)
    ensures Delivered(Ledger([1], [], [0], [], [])) == Ledger([1], [0], [], [], [])
    ensures Pop(Ledger([1], [0], [], [], []), c.requestMax).flight == []
  {
  }
}
