// src/forwarder/otlphttp.rs with its callers: submitters, the run loop and
// shutdown interleave at every lock, await and notification.
module ForwarderRuns {
  import opened Prelude
  import opened Backoff
  import opened Forwarder

  datatype Config = Config(bufferMax: nat, requestMax: nat, initial: nat, max: nat)

  // Batches are named by the order of their submission: batch i holds
  // sizes[i] metrics.
  datatype Ledger = Ledger(sizes: seq<nat>, delivered: seq<nat>, flight: seq<nat>, buffer: seq<nat>, evicted: seq<nat>)

  function SizesOf(sizes: seq<nat>, ids: seq<nat>): (r: seq<nat>)
    ensures |r| == |ids|
    ensures forall i :: 0 <= i < |ids| && ids[i] < |sizes| ==> r[i] == sizes[ids[i]]
  {
    seq(|ids|, i requires 0 <= i < |ids| => if ids[i] < |sizes| then sizes[ids[i]] else 0)
  }

  function Overflow(l: Ledger, cap: nat): Ledger {
    var k := EvictCount(SizesOf(l.sizes, l.buffer), cap);
    l.(buffer := l.buffer[k..], evicted := l.evicted + l.buffer[..k])
  }

  function Push(l: Ledger, size: nat, cap: nat): Ledger {
    Overflow(l.(sizes := l.sizes + [size], buffer := l.buffer + [|l.sizes|]), cap)
  }

  function Pop(l: Ledger, max: nat): Ledger {
    var k := PopCount(SizesOf(l.sizes, l.buffer), 0, max);
    l.(flight := l.buffer[..k], buffer := l.buffer[k..])
  }

  function Delivered(l: Ledger): Ledger {
    l.(delivered := l.delivered + l.flight, flight := [])
  }

  function Requeued(l: Ledger, cap: nat): Ledger {
    Overflow(l.(flight := [], buffer := l.flight + l.buffer), cap)
  }

  predicate Increasing(s: seq<nat>) {
    forall i, j :: 0 <= i < j < |s| ==> s[i] < s[j]
  }

  /** Metrics of batch i and of everything submitted after it. */
  function SubmittedSince(sizes: seq<nat>, i: nat): nat {
    if i <= |sizes| then Sum(sizes[i..]) else 0
  }

  /** Every submitted batch is in exactly one place. */
  ghost predicate Partitioned(l: Ledger) {
    multiset(l.delivered) + multiset(l.flight) + multiset(l.buffer) + multiset(l.evicted) == multiset(Range(0, |l.sizes|))
  }

  ghost predicate EvictionsJustified(l: Ledger, cap: nat) {
    forall i :: i in l.evicted ==> i < |l.sizes| && SubmittedSince(l.sizes, i) > cap
  }

  ghost predicate Balanced(l: Ledger, cap: nat) {
    && Positive(l.sizes)
    && Increasing(l.delivered + l.flight + l.buffer)
    && Partitioned(l)
    && EvictionsJustified(l, cap)
    && Sum(SizesOf(l.sizes, l.buffer)) <= cap
    && Sum(SizesOf(l.sizes, l.flight)) <= cap
  }

  lemma {:induction false} LaterBatchesWeighAtMost(sizes: seq<nat>, ids: seq<nat>, a: nat)
    requires Increasing(ids) && a <= |sizes| && forall i :: i in ids ==> a <= i < |sizes|
    ensures Sum(SizesOf(sizes, ids)) <= SubmittedSince(sizes, a)
  {
    if ids != [] {
      var h := ids[0];
      assert h in ids;
      forall i | i in ids[1..] ensures h + 1 <= i < |sizes| {
        var k :| 0 <= k < |ids[1..]| && ids[1..][k] == i;
        assert ids[k + 1] == i && ids[k + 1] in ids && h < ids[k + 1];
      }
      LaterBatchesWeighAtMost(sizes, ids[1..], h + 1);
      assert SizesOf(sizes, ids)[1..] == SizesOf(sizes, ids[1..]);
      assert sizes[h..][1..] == sizes[h + 1..];
      SuffixSums(sizes, a, h);
    }
  }

  lemma IdsBelow(l: Ledger)
    requires Partitioned(l)
    ensures forall i :: i in l.delivered || i in l.flight || i in l.buffer || i in l.evicted ==> i < |l.sizes|
  {
    var all := multiset(l.delivered) + multiset(l.flight) + multiset(l.buffer) + multiset(l.evicted);
    forall i | i in l.delivered || i in l.flight || i in l.buffer || i in l.evicted ensures i < |l.sizes| {
      assert i in all;
      assert i in Range(0, |l.sizes|);
    }
  }

  lemma OverflowPartitioned(l: Ledger, cap: nat)
    requires Partitioned(l)
    ensures Partitioned(Overflow(l, cap))
  {
    var k := EvictCount(SizesOf(l.sizes, l.buffer), cap);
    assert l.buffer == l.buffer[..k] + l.buffer[k..];
  }

  // Whatever overflow drops was followed by too many metrics.
  lemma OverflowJustified(l: Ledger, cap: nat)
    requires Partitioned(l) && Increasing(l.buffer) && EvictionsJustified(l, cap)
    ensures EvictionsJustified(Overflow(l, cap), cap)
  {
    hide Sum, EvictCount, Increasing;
    var s := SizesOf(l.sizes, l.buffer);
    var k := EvictCount(s, cap);
    IdsBelow(l);
    EvictKeepsLongestSuffix(s, cap);
    forall i | i in l.buffer[..k] ensures i < |l.sizes| && SubmittedSince(l.sizes, i) > cap {
      var q :| 0 <= q < k && l.buffer[q] == i;
      EvictedWasFollowed(l.sizes, l.buffer, q);
      assert SizesOf(l.sizes, l.buffer[q..]) == s[q..];
    }
  }

  lemma OverflowBalanced(l: Ledger, cap: nat)
    requires Positive(l.sizes) && Increasing(l.delivered + l.flight + l.buffer)
    requires Partitioned(l) && EvictionsJustified(l, cap)
    requires Sum(SizesOf(l.sizes, l.flight)) <= cap
    ensures Balanced(Overflow(l, cap), cap)
  {
    hide Sum, EvictCount, Increasing, Partitioned, EvictionsJustified, Positive;
    var s := SizesOf(l.sizes, l.buffer);
    var k := EvictCount(s, cap);
    KeepIncreasing(l.delivered + l.flight, l.buffer, k);
    OverflowPartitioned(l, cap);
    OverflowJustified(l, cap);
    EvictKeepsLongestSuffix(s, cap);
    assert SizesOf(l.sizes, l.buffer[k..]) == s[k..];
  }

  lemma KeepIncreasing(a: seq<nat>, b: seq<nat>, k: nat)
    requires k <= |b| && Increasing(a + b)
    ensures Increasing(a + b[k..]) && Increasing(b)
  {
    forall i, j | 0 <= i < j < |a + b[k..]| ensures (a + b[k..])[i] < (a + b[k..])[j] {
      var i', j' := if i < |a| then i else i + k, if j < |a| then j else j + k;
      assert (a + b)[i'] < (a + b)[j'];
    }
    forall i, j | 0 <= i < j < |b| ensures b[i] < b[j] {
      assert (a + b)[|a| + i] < (a + b)[|a| + j];
    }
  }

  lemma EvictedWasFollowed(sizes: seq<nat>, ids: seq<nat>, q: nat)
    requires q < |ids| && Increasing(ids) && forall i :: i in ids ==> i < |sizes|
    ensures Sum(SizesOf(sizes, ids[q..])) <= SubmittedSince(sizes, ids[q])
  {
    var rest := ids[q..];
    forall i | i in rest ensures ids[q] <= i < |sizes| {
      var k :| 0 <= k < |rest| && rest[k] == i;
      assert ids[q + k] == i && ids[q + k] in ids;
    }
    assert ids[q] in ids;
    LaterBatchesWeighAtMost(sizes, rest, ids[q]);
  }

  lemma PushBalanced(l: Ledger, size: nat, cap: nat)
    requires Balanced(l, cap) && size > 0
    ensures Balanced(Push(l, size, cap), cap)
  {
    var n := |l.sizes|;
    var m := l.(sizes := l.sizes + [size], buffer := l.buffer + [n]);
    IdsBelow(l);
    assert Range(0, n + 1) == Range(0, n) + [n];
    AppendIncreasing(l.delivered + l.flight + l.buffer, n);
    assert m.delivered + m.flight + m.buffer == (l.delivered + l.flight + l.buffer) + [n];
    assert SizesOf(m.sizes, l.flight) == SizesOf(l.sizes, l.flight) by {
      assert forall i :: 0 <= i < |l.flight| ==> l.flight[i] in l.flight;
    }
    forall i | i in l.evicted ensures SubmittedSince(m.sizes, i) > cap {
      assert m.sizes[i..] == l.sizes[i..] + [size];
      SumConcat(l.sizes[i..], [size]);
    }
    OverflowBalanced(m, cap);
  }

  lemma AppendIncreasing(s: seq<nat>, n: nat)
    requires Increasing(s) && forall i :: i in s ==> i < n
    ensures Increasing(s + [n])
  {
    forall i, j | 0 <= i < j < |s + [n]| ensures (s + [n])[i] < (s + [n])[j] {
      assert s[i] in s;
    }
  }

  lemma PopBalanced(l: Ledger, cap: nat, max: nat)
    requires Balanced(l, cap) && l.flight == []
    ensures Balanced(Pop(l, max), cap)
  {
    var s := SizesOf(l.sizes, l.buffer);
    var k := PopCount(s, 0, max);
    assert l.buffer == l.buffer[..k] + l.buffer[k..];
    assert l.delivered + l.flight + l.buffer == l.delivered + l.buffer[..k] + l.buffer[k..];
    assert SizesOf(l.sizes, l.buffer[..k]) == s[..k] && SizesOf(l.sizes, l.buffer[k..]) == s[k..];
    SumSplit(s, k);
  }

  lemma DeliveredBalanced(l: Ledger, cap: nat)
    requires Balanced(l, cap)
    ensures Balanced(Delivered(l), cap)
  {
    assert l.delivered + l.flight + l.buffer == (l.delivered + l.flight) + [] + l.buffer;
  }

  lemma RequeuedBalanced(l: Ledger, cap: nat)
    requires Balanced(l, cap)
    ensures Balanced(Requeued(l, cap), cap)
  {
    assert l.delivered + l.flight + l.buffer == l.delivered + [] + (l.flight + l.buffer);
    OverflowBalanced(l.(flight := [], buffer := l.flight + l.buffer), cap);
  }

  // ---- The ledger follows the buffer ------------------------------------------

  ghost predicate Names(subs: seq<seq<Metric>>, l: Ledger) {
    && Sizes(subs) == l.sizes
    && forall i :: i in l.buffer || i in l.flight ==> i < |subs|
  }

  function Pick(subs: seq<seq<Metric>>, ids: seq<nat>): seq<seq<Metric>>
    requires forall i :: i in ids ==> i < |subs|
  {
    seq(|ids|, k requires 0 <= k < |ids| => assert ids[k] in ids; subs[ids[k]])
  }

  lemma PickSizes(subs: seq<seq<Metric>>, ids: seq<nat>)
    requires forall i :: i in ids ==> i < |subs|
    ensures Sizes(Pick(subs, ids)) == SizesOf(Sizes(subs), ids)
  {
    assert forall k :: 0 <= k < |ids| ==> ids[k] in ids;
  }

  lemma OverflowFollows(subs: seq<seq<Metric>>, l: Ledger, cap: nat)
    requires Names(subs, l)
    ensures Names(subs, Overflow(l, cap))
    ensures Evicted(Pick(subs, l.buffer), cap) == Pick(subs, Overflow(l, cap).buffer)
  {
    hide EvictCount, SizesOf;
    PickSizes(subs, l.buffer);
    assert forall i :: i in Overflow(l, cap).buffer ==> i in l.buffer;
  }

  // What Submit, PopForSend and Requeue do to the batches themselves is what
  // the ledger records about their names.
  lemma LedgerFollowsSubmit(subs: seq<seq<Metric>>, l: Ledger, m: seq<Metric>, cap: nat)
    requires Names(subs, l) && m != []
    ensures
      var p := Push(l, |m|, cap);
      Names(subs + [m], p) && Submitted(Pick(subs, l.buffer), m, cap) == Pick(subs + [m], p.buffer)
  {
    hide EvictCount, SizesOf, Evicted, Overflow;
    var grown := l.(sizes := l.sizes + [|m|], buffer := l.buffer + [|subs|]);
    assert Sizes(subs + [m]) == l.sizes + [|m|];
    OverflowFollows(subs + [m], grown, cap);
    assert forall k :: 0 <= k < |l.buffer| ==> l.buffer[k] in l.buffer;
    assert Pick(subs + [m], grown.buffer) == Pick(subs, l.buffer) + [m];
  }

  lemma LedgerFollowsPop(subs: seq<seq<Metric>>, l: Ledger, max: nat)
    requires Names(subs, l)
    ensures
      var p, all := Pop(l, max), Pick(subs, l.buffer);
      var k := PopCount(Sizes(all), 0, max);
      Names(subs, p) && all[..k] == Pick(subs, p.flight) && all[k..] == Pick(subs, p.buffer)
  {
    hide PopCount, SizesOf;
    PickSizes(subs, l.buffer);
    var p := Pop(l, max);
    assert forall i :: i in p.buffer || i in p.flight ==> i in l.buffer;
  }

  lemma LedgerFollowsRequeue(subs: seq<seq<Metric>>, l: Ledger, cap: nat)
    requires Names(subs, l)
    ensures
      var r := Requeued(l, cap);
      Names(subs, r) && Evicted(Pick(subs, l.flight) + Pick(subs, l.buffer), cap) == Pick(subs, r.buffer)
  {
    hide EvictCount, SizesOf, Evicted, Overflow;
    var back := l.(flight := [], buffer := l.flight + l.buffer);
    assert forall i :: i in back.buffer ==> i in l.flight || i in l.buffer;
    OverflowFollows(subs, back, cap);
    assert Pick(subs, back.buffer) == Pick(subs, l.flight) + Pick(subs, l.buffer);
  }

  // ---- The run loop and its callers -----------------------------------------

  // Where the run loop stands: at its head, about to look at the buffer,
  // parked in `notified()`, about to check the backoff, asleep in the backoff
  // select, about to pop, with a request on the wire, or returned. `flush`
  // marks the one attempt made after shutdown.
  datatype Pc = Head | Look | Parked | Check | Asleep | Popping(flush: bool) | OnWire(flush: bool) | Done

  datatype Outcome = Sent | Refused | Empty

  // `carried` names the batches of the request.
  datatype Attempt = Attempt(start: nat, end: nat, outcome: Outcome, flush: bool, carried: seq<nat>)

  // `permit` is the stored wake-up of the Notify; `submitting` and `stopping`
  // count callers between their state change and their `notify_one`.
  datatype State = State(
    ledger: Ledger, pc: Pc, permit: bool, shut: bool, submitting: nat, stopping: nat,
    clock: nat, started: nat, retry: Backoff, log: seq<Attempt>)

  datatype Event =
    | SubmitPush(size: nat) | SubmitNotify
    | ShutdownStore | ShutdownNotify
    | Tick(d: nat)
    | Advance               // the run loop takes its next step
    | TimerFires            // the backoff sleep ends
    | Answer(ok: bool)      // the request completes

  const INITIAL := State(Ledger([], [], [], [], []), Head, false, false, 0, 0, 0, 0, CALM, [])

  function Next(c: Config, s: State): State {
    match s.pc
    case Head => s.(pc := if s.shut then Popping(true) else Look)
    case Look => s.(pc := if s.ledger.buffer == [] then Parked else Check)
    case Parked => if s.permit then s.(pc := Head, permit := false) else s
    case Check => s.(pc := if s.retry.until.Some? && s.clock <= s.retry.until.value then Asleep else Popping(false))
    case Asleep => if s.permit then s.(pc := Head, permit := false) else s
    case Popping(flush) =>
      var l := Pop(s.ledger, c.requestMax);
      if l.flight == []
      then Answered(c, s.(started := s.clock), flush, Empty, [])
      else s.(ledger := l, pc := OnWire(flush), started := s.clock)
    case OnWire(_) => s
    case Done => s
  }

  function Answered(c: Config, s: State, flush: bool, o: Outcome, carried: seq<nat>): State {
    s.(pc := if flush then Done else Head,
       retry := if flush then s.retry else if o == Refused then Failed(s.retry, s.clock, c.initial, c.max) else CALM,
       log := s.log + [Attempt(s.started, s.clock, o, flush, carried)])
  }

  function Step(c: Config, s: State, e: Event): State {
    match e
    case SubmitPush(size) =>
      if size == 0 then s
      else s.(ledger := Push(s.ledger, size, c.bufferMax), submitting := s.submitting + 1)
    case SubmitNotify => if s.submitting == 0 then s else s.(submitting := s.submitting - 1, permit := true)
    case ShutdownStore => s.(shut := true, stopping := s.stopping + 1)
    case ShutdownNotify => if s.stopping == 0 then s else s.(stopping := s.stopping - 1, permit := true)
    case Tick(d) => s.(clock := s.clock + d)
    case Advance => Next(c, s)
    case TimerFires => if s.pc.Asleep? && NotBefore(s.retry) <= s.clock then s.(pc := Popping(false)) else s
    case Answer(ok) =>
      if !s.pc.OnWire? then s
      else if ok then Answered(c, s.(ledger := Delivered(s.ledger)), s.pc.flush, Sent, s.ledger.flight)
      else Answered(c, s.(ledger := Requeued(s.ledger, c.bufferMax)), s.pc.flush, Refused, s.ledger.flight)
  }

  function Exec(c: Config, es: seq<Event>): State {
    if es == [] then INITIAL else Step(c, Exec(c, es[..|es| - 1]), es[|es| - 1])
  }

  ghost predicate LedgerSound(c: Config, s: State) {
    Balanced(s.ledger, c.bufferMax) && (s.pc.OnWire? || s.ledger.flight == [])
  }

  lemma StepLedgerSound(c: Config, s: State, e: Event)
    requires LedgerSound(c, s)
    ensures LedgerSound(c, Step(c, s, e))
  {
    hide Balanced, Push, Pop, Delivered, Requeued;
    match e
    case SubmitPush(size) =>
      if size > 0 {
        PushBalanced(s.ledger, size, c.bufferMax);
        PushKeepsFlight(s.ledger, size, c.bufferMax);
      }
    case Advance =>
      if s.pc.Popping? {
        PopBalanced(s.ledger, c.bufferMax, c.requestMax);
      }
    case Answer(ok) =>
      DeliveredBalanced(s.ledger, c.bufferMax);
      RequeuedBalanced(s.ledger, c.bufferMax);
      WireClears(s.ledger, c.bufferMax);
    case _ =>
  }

  lemma PushKeepsFlight(l: Ledger, size: nat, cap: nat)
    ensures Push(l, size, cap).flight == l.flight
  {
  }

  lemma WireClears(l: Ledger, cap: nat)
    ensures Delivered(l).flight == [] && Requeued(l, cap).flight == []
  {
  }

  // Over every interleaving: delivered, in flight and buffered batches are in
  // submission order; each submitted batch is in exactly one of delivered, in
  // flight, buffered and evicted; the buffer and the request stay within the
  // cap; and a batch is evicted only if the metrics submitted from it on
  // exceed the cap.
  lemma {:induction false} BufferOverRuns(c: Config, es: seq<Event>)
    ensures LedgerSound(c, Exec(c, es))
  {
    if es == [] {
      assert Range(0, 0) == [];
    } else {
      BufferOverRuns(c, es[..|es| - 1]);
      StepLedgerSound(c, Exec(c, es[..|es| - 1]), es[|es| - 1]);
    }
  }

  lemma MemoryBound(c: Config, es: seq<Event>)
    ensures
      var l := Exec(c, es).ledger;
      Sum(SizesOf(l.sizes, l.flight)) + Sum(SizesOf(l.sizes, l.buffer)) <= 2 * c.bufferMax
  {
    hide Exec, Step;
    BufferOverRuns(c, es);
  }

  // ---- Attempts and deliveries -------------------------------------------------

  /** The batches of the successful attempts, in order. */
  function SentIn(log: seq<Attempt>): seq<nat> {
    if log == [] then [] else
      SentIn(log[..|log| - 1]) + if log[|log| - 1].outcome == Sent then log[|log| - 1].carried else []
  }

  ghost predicate SentAreDelivered(s: State) {
    && s.ledger.delivered == SentIn(s.log)
    && (forall k :: 0 <= k < |s.log| ==> (s.log[k].carried == [] <==> s.log[k].outcome == Empty))
    && (s.pc.OnWire? ==> s.ledger.flight != [])
  }

  lemma SentInNext(log: seq<Attempt>, a: Attempt)
    ensures SentIn(log + [a]) == SentIn(log) + if a.outcome == Sent then a.carried else []
  {
    assert (log + [a])[..|log|] == log;
  }

  lemma LedgerSteps(l: Ledger, size: nat, cap: nat, max: nat)
    ensures Push(l, size, cap).delivered == Pop(l, max).delivered == Requeued(l, cap).delivered == l.delivered
    ensures Push(l, size, cap).flight == l.flight && Delivered(l).delivered == l.delivered + l.flight
  {
  }

  lemma AnsweredSent(c: Config, s: State, flush: bool, o: Outcome, carried: seq<nat>)
    requires s.ledger.delivered == SentIn(s.log) + if o == Sent then carried else []
    requires forall k :: 0 <= k < |s.log| ==> (s.log[k].carried == [] <==> s.log[k].outcome == Empty)
    requires carried == [] <==> o == Empty
    ensures SentAreDelivered(Answered(c, s, flush, o, carried))
  {
    hide SentIn, Failed;
    SentInNext(s.log, Attempt(s.started, s.clock, o, flush, carried));
  }

  lemma StepSent(c: Config, s: State, e: Event)
    requires SentAreDelivered(s)
    ensures SentAreDelivered(Step(c, s, e))
  {
    hide Push, Pop, Delivered, Requeued, Answered, SentIn;
    LedgerSteps(s.ledger, if e.SubmitPush? then e.size else 0, c.bufferMax, c.requestMax);
    assert SentIn(s.log) + [] == SentIn(s.log);
    match e
    case Advance =>
      if s.pc.Popping? && Pop(s.ledger, c.requestMax).flight == [] {
        AnsweredSent(c, s.(started := s.clock), s.pc.flush, Empty, []);
      }
    case Answer(ok) =>
      if s.pc.OnWire? {
        var flight := s.ledger.flight;
        AnsweredSent(c, s.(ledger := Delivered(s.ledger)), s.pc.flush, Sent, flight);
        AnsweredSent(c, s.(ledger := Requeued(s.ledger, c.bufferMax)), s.pc.flush, Refused, flight);
      }
    case _ =>
  }

  // What was delivered is what the successful attempts carried, in order, and
  // every attempt but an empty one carried something.
  lemma {:induction false} DeliveredAreSent(c: Config, es: seq<Event>)
    ensures SentAreDelivered(Exec(c, es))
  {
    hide Step;
    if es != [] {
      DeliveredAreSent(c, es[..|es| - 1]);
      StepSent(c, Exec(c, es[..|es| - 1]), es[|es| - 1]);
    }
  }

  // ---- Wake-ups ---------------------------------------------------------------

  ghost predicate Woken(s: State) {
    s.permit || s.submitting > 0 || s.stopping > 0
  }

  ghost predicate NoLostWakeup(s: State) {
    && (s.pc == Parked && (s.shut || s.ledger.buffer != []) ==> Woken(s))
    && (s.pc == Look && s.shut ==> Woken(s))
  }

  lemma {:induction false} WakeupsAreNotLost(c: Config, es: seq<Event>)
    ensures NoLostWakeup(Exec(c, es))
  {
    hide Push, Pop, Delivered, Requeued;
    if es != [] {
      WakeupsAreNotLost(c, es[..|es| - 1]);
    }
  }

  // ---- Backoff ------------------------------------------------------------------

  /** Refusals at the end of `log` since the last reset: a success, or an empty pop. */
  function Streak(log: seq<Attempt>): nat {
    if log == [] then 0 else
      var a := log[|log| - 1];
      if a.flush then Streak(log[..|log| - 1])
      else if a.outcome == Refused then 1 + Streak(log[..|log| - 1]) else 0
  }

  ghost predicate Spaced(c: Config, log: seq<Attempt>) {
    var n := |log|;
    n >= 2 ==>
      && Spaced(c, log[..n - 1])
      && (log[n - 2].outcome == Refused && !log[n - 1].flush ==>
           log[n - 2].end + Delay(Streak(log[..n - 1]), c.initial, c.max) <= log[n - 1].start)
  }

  ghost predicate Paced(c: Config, s: State) {
    && OnSchedule(s.retry, c.initial, c.max)
    && s.retry.streak == Streak(s.log)
    && Spaced(c, s.log)
    && (s.log != [] && s.log[|s.log| - 1].outcome == Refused && s.pc != Done ==>
         s.retry.until == Some(s.log[|s.log| - 1].end + s.retry.delay))
    && (s.pc == Popping(false) ==> NotBefore(s.retry) <= s.clock)
    && (s.pc == OnWire(false) ==> NotBefore(s.retry) <= s.started)
  }

  lemma SpacedNext(c: Config, log: seq<Attempt>, a: Attempt)
    requires Spaced(c, log)
    requires log != [] && log[|log| - 1].outcome == Refused && !a.flush ==>
      log[|log| - 1].end + Delay(Streak(log), c.initial, c.max) <= a.start
    ensures Spaced(c, log + [a])
  {
    hide Streak, Delay;
    assert (log + [a])[..|log|] == log;
  }

  lemma AnsweredPaced(c: Config, s: State, flush: bool, o: Outcome, carried: seq<nat>)
    requires c.initial <= c.max && Paced(c, s) && s.pc != Done && (!flush ==> NotBefore(s.retry) <= s.started)
    ensures Paced(c, Answered(c, s, flush, o, carried))
  {
    hide Spaced, Delay, Failed;
    var a := Attempt(s.started, s.clock, o, flush, carried);
    assert (s.log + [a])[..|s.log|] == s.log;
    FailedOnSchedule(s.retry, s.clock, c.initial, c.max);
    FailedFacts(s.retry, s.clock, c.initial, c.max);
    SpacedNext(c, s.log, a);
  }

  lemma StepPaced(c: Config, s: State, e: Event)
    requires c.initial <= c.max && Paced(c, s)
    ensures Paced(c, Step(c, s, e))
  {
    hide Push, Pop, Delivered, Requeued, Spaced, Streak, Delay;
    match e
    case Advance =>
      if s.pc.Popping? && Pop(s.ledger, c.requestMax).flight == [] {
        AnsweredPaced(c, s.(started := s.clock), s.pc.flush, Empty, []);
      }
    case Answer(ok) =>
      if s.pc.OnWire? {
        if ok {
          AnsweredPaced(c, s.(ledger := Delivered(s.ledger)), s.pc.flush, Sent, s.ledger.flight);
        } else {
          AnsweredPaced(c, s.(ledger := Requeued(s.ledger, c.bufferMax)), s.pc.flush, Refused, s.ledger.flight);
        }
      }
    case _ =>
  }

  // However often submitters notify, no attempt but the shutdown flush starts
  // before the delay of the failures since the last reset is over.
  lemma {:induction false} BackoffOverRuns(c: Config, es: seq<Event>)
    requires c.initial <= c.max
    ensures Paced(c, Exec(c, es))
  {
    if es != [] {
      BackoffOverRuns(c, es[..|es| - 1]);
      StepPaced(c, Exec(c, es[..|es| - 1]), es[|es| - 1]);
    }
  }

  // ---- Shutdown -----------------------------------------------------------------

  ghost predicate FlushedOnce(s: State) {
    && (forall k :: 0 <= k < |s.log| && s.log[k].flush ==> k == |s.log| - 1 && s.pc == Done)
    && (s.pc == Done ==> s.shut && s.log != [] && s.log[|s.log| - 1].flush)
    && (s.pc == Popping(true) || s.pc == OnWire(true) ==> s.shut)
  }

  // The loop returns only after shutdown, and exactly one attempt, the last, is
  // the flush made for it.
  lemma {:induction false} FlushIsLast(c: Config, es: seq<Event>)
    ensures FlushedOnce(Exec(c, es))
  {
    hide Step, FlushedOnce;
    if es != [] {
      FlushIsLast(c, es[..|es| - 1]);
      StepFlushedOnce(c, Exec(c, es[..|es| - 1]), es[|es| - 1]);
    } else {
      assert Exec(c, []) == INITIAL;
      NothingFlushed();
    }
  }

  lemma NothingFlushed()
    ensures FlushedOnce(INITIAL)
  {
  }

  lemma AnsweredFlushedOnce(c: Config, s: State, flush: bool, o: Outcome, carried: seq<nat>)
    requires FlushedOnce(s) && s.pc != Done && (flush ==> s.shut)
    ensures FlushedOnce(Answered(c, s, flush, o, carried))
  {
    hide Failed;
  }

  lemma StepFlushedOnce(c: Config, s: State, e: Event)
    requires FlushedOnce(s)
    ensures FlushedOnce(Step(c, s, e))
  {
    hide Push, Pop, Delivered, Requeued, Answered;
    match e
    case Advance =>
      if s.pc.Popping? && Pop(s.ledger, c.requestMax).flight == [] {
        AnsweredFlushedOnce(c, s.(started := s.clock), s.pc.flush, Empty, []);
      }
    case Answer(ok) =>
      if s.pc.OnWire? {
        var flight := s.ledger.flight;
        AnsweredFlushedOnce(c, s.(ledger := Delivered(s.ledger)), s.pc.flush, Sent, flight);
        AnsweredFlushedOnce(c, s.(ledger := Requeued(s.ledger, c.bufferMax)), s.pc.flush, Refused, flight);
      }
    case _ =>
  }

  /** Ordinary attempts the loop may yet answer once shutdown is stored. */
  function Outstanding(pc: Pc): nat {
    match pc
    case Head => 0
    case Parked => 0
    case Popping(flush) => if flush then 0 else 1
    case OnWire(flush) => if flush then 0 else 1
    case Done => 0
    case _ => 1
  }

  function Ordinary(log: seq<Attempt>): nat {
    if log == [] then 0 else Ordinary(log[..|log| - 1]) + if log[|log| - 1].flush then 0 else 1
  }

  lemma OrdinarySnoc(log: seq<Attempt>, a: Attempt)
    ensures Ordinary(log + [a]) == Ordinary(log) + if a.flush then 0 else 1
  {
    assert (log + [a])[..|log|] == log;
  }

  lemma StepOnceShut(c: Config, s: State, e: Event)
    requires s.shut
    ensures
      var t := Step(c, s, e);
      && t.shut && s.log <= t.log
      && Ordinary(t.log) + Outstanding(t.pc) <= Ordinary(s.log) + Outstanding(s.pc)
  {
    hide Push, Pop, Delivered, Requeued, Failed, Ordinary;
    var t := Step(c, s, e);
    if t.log != s.log {
      OrdinarySnoc(s.log, t.log[|s.log|]);
    }
  }

  lemma {:induction false} OrdinaryCounts(log: seq<Attempt>)
    ensures Ordinary(log) <= |log|
    ensures (forall k :: 0 <= k < |log| - 1 ==> !log[k].flush) ==> |log| <= Ordinary(log) + 1
    ensures (forall k :: 0 <= k < |log| ==> !log[k].flush) ==> |log| == Ordinary(log)
  {
    if log != [] {
      OrdinaryCounts(log[..|log| - 1]);
    }
  }

  // Once shutdown is stored the loop answers at most one more ordinary
  // attempt, none if it is at its head or parked, and after it only the flush.
  lemma {:induction false} ShutdownEndsSoon(c: Config, es: seq<Event>, more: seq<Event>)
    requires Exec(c, es).shut
    ensures
      var s, t := Exec(c, es), Exec(c, es + more);
      && s.log <= t.log
      && Ordinary(t.log) <= Ordinary(s.log) + Outstanding(s.pc)
      && |t.log| <= |s.log| + Outstanding(s.pc) + 1
  {
    hide Step, Exec, Outstanding, Ordinary;
    OnceShut(c, es, more);
    FlushIsLast(c, es + more);
    OrdinaryCounts(Exec(c, es).log);
    OrdinaryCounts(Exec(c, es + more).log);
  }

  lemma {:induction false} OnceShut(c: Config, es: seq<Event>, more: seq<Event>)
    requires Exec(c, es).shut
    ensures
      var s, t := Exec(c, es), Exec(c, es + more);
      && t.shut && s.log <= t.log
      && Ordinary(t.log) + Outstanding(t.pc) <= Ordinary(s.log) + Outstanding(s.pc)
  {
    hide Step, Outstanding, Ordinary;
    if more == [] {
      assert es + more == es;
    } else {
      var n := |more| - 1;
      assert (es + more)[..|es + more| - 1] == es + more[..n];
      OnceShut(c, es, more[..n]);
      StepOnceShut(c, Exec(c, es + more[..n]), more[n]);
    }
  }

  // After the loop has returned nothing is sent any more: what the flush did
  // not take stays undelivered.
  lemma {:induction false} DoneIsFinal(c: Config, es: seq<Event>, more: seq<Event>)
    requires Exec(c, es).pc == Done
    ensures
      var s, t := Exec(c, es), Exec(c, es + more);
      && t.pc == Done && t.log == s.log
      && t.ledger.delivered == s.ledger.delivered && t.ledger.flight == s.ledger.flight == []
  {
    hide Step;
    if more == [] {
      assert es + more == es;
      BufferOverRuns(c, es);
    } else {
      var n := |more| - 1;
      assert (es + more)[..|es + more| - 1] == es + more[..n];
      DoneIsFinal(c, es, more[..n]);
      StepWhenDone(c, Exec(c, es + more[..n]), more[n]);
    }
  }

  lemma StepWhenDone(c: Config, s: State, e: Event)
    requires s.pc == Done
    ensures
      var t := Step(c, s, e);
      && t.pc == Done && t.log == s.log
      && t.ledger.delivered == s.ledger.delivered && t.ledger.flight == s.ledger.flight
  {
  }
}
