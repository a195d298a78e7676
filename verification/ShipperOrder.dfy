// Order and completeness of what the shipper resolves while it does not crash.
module ShipperOrder {
  import opened Prelude
  import opened Backoff
  import opened LogSource
  import opened Journald
  import opened ShipperSpec
  import opened ShipperRuns

  ghost predicate InOrder(w: World) {
    && (forall r :: r in w.past.log ==> r.from < r.to <= |w.src.journal|)
    && (!w.src.positioned ==>
      && w.past.log == [] && !w.past.adrift
      && (if w.src.saved.Some? then w.past.first == Some(w.past.base) && w.past.base == w.src.saved.value + 1
          else w.past.first.None?))
    && (w.src.positioned ==>
      && w.past.base <= w.src.lo
      && Resolved(w.past.log) == Range(w.past.base, w.src.lo + w.progress.sent))
  }

  lemma SendInOrder(c: Config, v: World, r: Round)
    requires Sound(c, v) && InOrder(v) && v.src.positioned && v.progress.chunk >= 1
    requires v.src.lo + v.progress.sent < v.src.hi
    ensures InOrder(Send(c, v, r))
  {
    hide Fill, Bytes, Flatten, Takes, Open, Resolved, WithinCaps, Retry;
    var at := v.src.lo + v.progress.sent;
    var n := Min(v.src.hi - at, v.progress.chunk);
    ResolvedSnoc(v.past.log, Request(at, at + n, r.verdict, v.clock, v.clock + r.took));
    assert Range(v.past.base, at) + Range(at, at + n) == Range(v.past.base, at + n);
  }

  lemma StepInOrder(c: Config, w: World, e: Event)
    requires Sound(c, w) && SplitsBounded(w) && InOrder(w) && !e.Crash?
    ensures InOrder(Step(c, w, e))
  {
    hide Fill, Bytes, Flatten, Takes, Open, Resolved, Fetch, Send, WithinCaps, SplitsBounded;
    ChunkPositive(w);
    if e.Deliver? || e.Pause? {
      FetchFacts(c, w, e.round);
      var v := Fetch(c, w, e.round);
      NothingResolved();
      assert InOrder(v);
      if e.Deliver? && v.src.lo + v.progress.sent < v.src.hi {
        SendInOrder(c, v, e.round);
      }
    }
  }

  // Without a crash the resolved entries are exactly the journal from the
  // start position through acked + `progress.sent`, in order and once each,
  // even when top-ups land between the chunks of a split batch.
  lemma {:induction false} ExactlyOnceInOrder(c: Config, j: seq<LogEntry>, saved: Option<Cursor>, es: seq<Event>)
    requires c.caps.batchSize >= 1 && (saved.Some? ==> saved.value < |j|)
    requires Crash !in es
    ensures InOrder(Exec(c, Start(j, saved), es))
  {
    hide Step, Resolved, SplitsBounded;
    NothingResolved();
    NothingTotalled(Start(j, saved));
    if es != [] {
      var before := es[..|es| - 1];
      ExactlyOnceInOrder(c, j, saved, before);
      RunSplitsBounded(c, Start(j, saved), before);
      StepInOrder(c, Exec(c, Start(j, saved), before), es[|es| - 1]);
    }
  }

  // ---- A sink that never objects to anything but size ------------------------

  /** A slice containing a refused slice is refused. */
  ghost predicate Monotone(accepts: seq<LogEntry> -> bool) {
    forall s, lo, hi :: 0 <= lo <= hi <= |s| && accepts(s) ==> accepts(s[lo..hi])
  }

  // Requests may fail for the time being, as often as they like.
  ghost predicate Obeys(accepts: seq<LogEntry> -> bool, j: seq<LogEntry>, log: seq<Request>) {
    forall r :: r in log ==>
      && r.from <= r.to <= |j|
      && (r.verdict.Transient? || r.verdict == if accepts(j[r.from..r.to]) then Ok else TooLarge)
  }

  /** The contents of the successful requests, one after the other. */
  function Shipped(j: seq<LogEntry>, log: seq<Request>): seq<LogEntry> {
    if log == [] then [] else
      var r := log[|log| - 1];
      Shipped(j, log[..|log| - 1]) + if r.verdict.Ok? && r.from <= r.to <= |j| then j[r.from..r.to] else []
  }

  /** The entries the sink accepts on their own. */
  ghost function Acceptable(accepts: seq<LogEntry> -> bool, es: seq<LogEntry>): seq<LogEntry> {
    if es == [] then [] else
      (if accepts([es[0]]) then [es[0]] else []) + Acceptable(accepts, es[1..])
  }

  lemma {:induction false} AcceptableConcat(accepts: seq<LogEntry> -> bool, a: seq<LogEntry>, b: seq<LogEntry>)
    ensures Acceptable(accepts, a + b) == Acceptable(accepts, a) + Acceptable(accepts, b)
  {
    if a == [] {
      assert a + b == b;
    } else {
      assert (a + b)[1..] == a[1..] + b;
      AcceptableConcat(accepts, a[1..], b);
      var head := if accepts([a[0]]) then [a[0]] else [];
      assert Acceptable(accepts, a + b) == head + Acceptable(accepts, a[1..] + b);
      assert Acceptable(accepts, a) == head + Acceptable(accepts, a[1..]);
    }
  }

  lemma SliceAccepted(accepts: seq<LogEntry> -> bool, es: seq<LogEntry>)
    requires Monotone(accepts) && accepts(es) && es != []
    ensures accepts([es[0]]) && accepts(es[1..])
  {
    assert es[0..1] == [es[0]] && es[1..|es|] == es[1..];
  }

  lemma {:induction false} AcceptedTogether(accepts: seq<LogEntry> -> bool, es: seq<LogEntry>)
    requires Monotone(accepts) && accepts(es)
    ensures Acceptable(accepts, es) == es
  {
    hide Monotone;
    if es != [] {
      SliceAccepted(accepts, es);
      AcceptedTogether(accepts, es[1..]);
      assert es == [es[0]] + es[1..];
    }
  }

  // The places before the last resolving request, and that request's own.
  lemma RangeEndsWith(before: seq<nat>, from: nat, to: nat, a: nat, m: nat)
    requires a <= m && from < to && before + Range(from, to) == Range(a, m)
    ensures a <= from && to == m && before == Range(a, from)
  {
    var k := |before|;
    assert |Range(a, m)| == k + (to - from);
    assert Range(a, m)[k] == (before + Range(from, to))[k] == from;
    assert before == Range(a, m)[..k];
  }

  lemma OneRequestAcceptable(accepts: seq<LogEntry> -> bool, sent: seq<LogEntry>)
    requires Monotone(accepts) && (accepts(sent) || |sent| == 1)
    ensures Acceptable(accepts, sent) == if accepts(sent) then sent else []
  {
    if accepts(sent) {
      AcceptedTogether(accepts, sent);
    } else {
      assert sent == [sent[0]];
    }
  }

  lemma {:induction false} ShippedIsAcceptable(accepts: seq<LogEntry> -> bool, j: seq<LogEntry>, log: seq<Request>, a: nat, m: nat)
    requires Monotone(accepts) && Obeys(accepts, j, log) && (forall r :: r in log ==> r.from < r.to)
    requires a <= m <= |j| && Resolved(log) == Range(a, m)
    ensures Shipped(j, log) == Acceptable(accepts, j[a..m])
  {
    hide Acceptable, Monotone;
    if log == [] {
      assert |Range(a, m)| == 0;
      NoneAcceptable(accepts);
    } else {
      var before, r := log[..|log| - 1], log[|log| - 1];
      assert r in log;
      if Resolves(r) {
        RangeEndsWith(Resolved(before), r.from, r.to, a, m);
        ShippedIsAcceptable(accepts, j, before, a, r.from);
        OneRequestAcceptable(accepts, j[r.from..r.to]);
        AcceptableConcat(accepts, j[a..r.from], j[r.from..r.to]);
        assert j[a..m] == j[a..r.from] + j[r.from..r.to];
      } else {
        ShippedIsAcceptable(accepts, j, before, a, m);
      }
    }
  }

  lemma NoneAcceptable(accepts: seq<LogEntry> -> bool)
    ensures Acceptable(accepts, []) == []
  {
  }

  // Against such a sink, splitting delivers every entry the sink would take
  // on its own, in order, and nothing else.
  lemma SplittingLosesNothing(c: Config, j: seq<LogEntry>, saved: Option<Cursor>, es: seq<Event>, accepts: seq<LogEntry> -> bool)
    requires c.caps.batchSize >= 1 && (saved.Some? ==> saved.value < |j|)
    requires Crash !in es && Monotone(accepts)
    ensures
      var w := Exec(c, Start(j, saved), es);
      Obeys(accepts, w.src.journal, w.past.log) && w.src.positioned ==>
        && w.past.base <= w.src.lo + w.progress.sent <= |w.src.journal|
        && Shipped(w.src.journal, w.past.log)
          == Acceptable(accepts, w.src.journal[w.past.base..w.src.lo + w.progress.sent])
  {
    hide Exec, Resolved, Acceptable, Shipped;
    ExactlyOnceInOrder(c, j, saved, es);
    var w := Exec(c, Start(j, saved), es);
    if Obeys(accepts, w.src.journal, w.past.log) && w.src.positioned {
      ShippedIsAcceptable(accepts, w.src.journal, w.past.log, w.past.base, w.src.lo + w.progress.sent);
    }
  }

  // ---- A crash before an ack ------------------------------------------------

  lemma FillOne(c: Caps, j: seq<LogEntry>, at: nat)
    requires c == Caps(1000, 0) && |j| == at + 1
    ensures Fill(c, j, at, at) == at + 1
  {
    hide Bytes;
    FillTakes(c, j, at, at);
    FillStops(c, j, at, at + 1);
  }

  // A process starts, and one entry is unread or on its way.
  lemma PeekOne(c: Caps, s: Src, arrivals: seq<seq<LogEntry>>)
    requires c == Caps(1000, 0) && s.Valid(c) && !s.positioned
    requires |s.journal + Flatten(arrivals)| == Position(s, true).lo + 1
    ensures
      var at := Position(s, true).lo;
      Peek(c, s, true, arrivals) == Src(s.journal + Flatten(arrivals), s.saved, true, at, at + 1, false)
  {
    hide Fill, Bytes, Open, Takes, Flatten;
    FillOne(c, s.journal + Flatten(arrivals), Position(s, true).lo);
  }

  lemma FlattenOne(e: LogEntry)
    ensures Flatten([[e]]) == [e] && Flatten<LogEntry>([]) == []
  {
    assert [[e]][1..] == [];
  }

  lemma FetchOne(c: Config, w: World, arrivals: seq<seq<LogEntry>>, v: Verdict)
    requires c.caps == Caps(1000, 0) && Sound(c, w)
    requires !w.src.positioned && w.clock == 0 && w.retry == CALM && w.progress == UNSENT
    requires |w.src.journal + Flatten(arrivals)| == Position(w.src, true).lo + 1
    ensures
      var at := Position(w.src, true).lo;
      var u := Step(c, w, Deliver(Round(true, arrivals, 0, v, 0)));
      && u.src == Src(w.src.journal + Flatten(arrivals), w.src.saved, true, at, at + 1, false)
      && u.progress == Judge(UNSENT, 1, v) && u.clock == 0
      && u.past == Noted(Began(w.past, at, w.src.saved.None?), Request(at, at + 1, v, 0, 0))
  {
    hide Peek, Judge, Noted, Began, Retry, Flatten;
    PeekOne(c.caps, w.src, arrivals);
  }

  // It crashes after the verdict on that entry.
  lemma CrashAfterOne(c: Config, w: World, arrivals: seq<seq<LogEntry>>, v: Verdict)
    requires c.caps == Caps(1000, 0) && Sound(c, w)
    requires !w.src.positioned && w.clock == 0 && w.retry == CALM && w.progress == UNSENT
    requires |w.src.journal + Flatten(arrivals)| == Position(w.src, true).lo + 1
    ensures
      var at := Position(w.src, true).lo;
      var u := Step(c, w, Deliver(Round(true, arrivals, 0, v, 0)));
      && Sound(c, u)
      && var x := Step(c, u, Crash);
      && Sound(c, x) && x.src == Src(w.src.journal + Flatten(arrivals), w.src.saved, false, 0, 0, false)
      && x.progress == UNSENT && x.retry == CALM && x.clock == 0
      && x.past.log == w.past.log + [Request(at, at + 1, v, 0, 0)]
      && (w.past.first.None? ==> x.past.first == Some(at))
  {
    hide Fill, Bytes, Flatten, Takes, Open, Fetch, Send, Position, WithinCaps;
    var e := Deliver(Round(true, arrivals, 0, v, 0));
    FetchOne(c, w, arrivals, v);
    StepSound(c, w, e);
    StepSound(c, Step(c, w, e), Crash);
  }

  // It acks that entry.
  lemma AckAfterOne(c: Config, w: World, arrivals: seq<seq<LogEntry>>)
    requires c.caps == Caps(1000, 0) && Sound(c, w)
    requires !w.src.positioned && w.clock == 0 && w.retry == CALM && w.progress == UNSENT
    requires |w.src.journal + Flatten(arrivals)| == Position(w.src, true).lo + 1
    ensures
      var at := Position(w.src, true).lo;
      var u := Step(c, w, Deliver(Round(true, arrivals, 0, Ok, 0)));
      && Sound(c, u)
      && var x := Step(c, u, Settle);
      && x.src.saved == Some(at)
      && x.past.log == w.past.log + [Request(at, at + 1, Ok, 0, 0)]
      && (w.past.first.Some? ==> x.past.first == w.past.first)
  {
    hide Fill, Bytes, Flatten, Takes, Open, Fetch, Send, Position, WithinCaps;
    FetchOne(c, w, arrivals, Ok);
    StepSound(c, w, Deliver(Round(true, arrivals, 0, Ok, 0)));
  }

  // The first process reads entry 0, fails to deliver it and crashes; the
  // second starts at the tail and acks entry 1. Entry 0 is never resolved.
  lemma CursorlessRestartSkips(c: Config, a: LogEntry, b: LogEntry)
    requires c.caps == Caps(1000, 0)
    ensures
      var es := [Deliver(Round(true, [[a]], 0, Transient, 0)), Crash, Deliver(Round(true, [[b]], 0, Ok, 0)), Settle];
      var w := Exec(c, Start([], None), es);
      w.past.first == Some(0) && w.src.saved == Some(1) && 0 !in Resolved(w.past.log)
  {
    hide Exec, Step, Resolved, Flatten, WithinCaps;
    var e1, e3 := Deliver(Round(true, [[a]], 0, Transient, 0)), Deliver(Round(true, [[b]], 0, Ok, 0));
    var w0 := Start([], None);
    StartSound(c, [], None);
    FlattenOne(a);
    FlattenOne(b);
    CrashAfterOne(c, w0, [[a]], Transient);
    var w2 := Step(c, Step(c, w0, e1), Crash);
    AckAfterOne(c, w2, [[b]]);
    RunOfFour(c, w0, e1, Crash, e3, Settle);
    assert Exec(c, w0, [e1, Crash, e3, Settle]).past.log == [Request(0, 1, Transient, 0, 0), Request(1, 2, Ok, 0, 0)];
    FailedThenSent();
  }

  // The process that had read up to entry 0 delivers entry 1 and crashes
  // before the ack; the next one delivers entry 1 again and acks it.
  lemma CrashBeforeAckRepeats(c: Config, a: LogEntry, b: LogEntry)
    requires c.caps == Caps(1000, 0)
    ensures
      var es := [Deliver(Round(true, [[b]], 0, Ok, 0)), Crash, Deliver(Round(true, [], 0, Ok, 0)), Settle];
      var w := Exec(c, Start([a], Some(0)), es);
      w.src.saved == Some(1) && Resolved(w.past.log) == [1, 1]
  {
    hide Exec, Step, Resolved, Flatten, WithinCaps;
    var e1, e3 := Deliver(Round(true, [[b]], 0, Ok, 0)), Deliver(Round(true, [], 0, Ok, 0));
    var w0 := Start([a], Some(0));
    StartSound(c, [a], Some(0));
    FlattenOne(b);
    CrashAfterOne(c, w0, [[b]], Ok);
    var w2 := Step(c, Step(c, w0, e1), Crash);
    assert w2.src.journal == [a, b];
    AckAfterOne(c, w2, []);
    RunOfFour(c, w0, e1, Crash, e3, Settle);
    assert Exec(c, w0, [e1, Crash, e3, Settle]).past.log == [Request(1, 2, Ok, 0, 0), Request(1, 2, Ok, 0, 0)];
    ResolvedTwice();
  }

  lemma FailedThenSent()
    ensures 0 !in Resolved([Request(0, 1, Transient, 0, 0), Request(1, 2, Ok, 0, 0)])
  {
    hide Resolved;
    var first, second := Request(0, 1, Transient, 0, 0), Request(1, 2, Ok, 0, 0);
    assert [first, second] == [first] + [second] && [first] == [] + [first];
    ResolvedSnoc([], first);
    ResolvedSnoc([first], second);
    NothingResolved();
  }

  lemma ResolvedTwice()
    ensures Resolved([Request(1, 2, Ok, 0, 0), Request(1, 2, Ok, 0, 0)]) == [1, 1]
  {
    hide Resolved;
    var r := Request(1, 2, Ok, 0, 0);
    assert [r, r] == [r] + [r] && [r] == [] + [r];
    ResolvedSnoc([], r);
    ResolvedSnoc([r], r);
    NothingResolved();
    assert Range(1, 2) == [1];
  }

  lemma RunOfFour(c: Config, w: World, e1: Event, e2: Event, e3: Event, e4: Event)
    requires Sound(c, w)
    ensures
      var u := Exec(c, w, [e1, e2]);
      && Sound(c, Step(c, w, e1)) && u == Step(c, Step(c, w, e1), e2)
      && Sound(c, Step(c, u, e3)) && Exec(c, w, [e1, e2, e3, e4]) == Step(c, Step(c, u, e3), e4)
  {
    hide Exec, Step;
    RunOfTwo(c, w, [], e1, e2);
    assert [] + [e1] + [e2] == [e1, e2];
    RunOfTwo(c, w, [e1, e2], e3, e4);
    assert [e1, e2] + [e3] + [e4] == [e1, e2, e3, e4];
    ExecSnoc(c, w, [], e1);
    StepSound(c, w, e1);
    StepSound(c, Exec(c, w, [e1, e2]), e3);
  }

  lemma RunOfTwo(c: Config, w: World, es: seq<Event>, e1: Event, e2: Event)
    requires Sound(c, w)
    ensures
      var u := Exec(c, w, es);
      Sound(c, Step(c, u, e1)) && Exec(c, w, es + [e1] + [e2]) == Step(c, Step(c, u, e1), e2)
  {
    hide Exec, Step;
    ExecSnoc(c, w, es, e1);
    ExecSnoc(c, w, es + [e1], e2);
    StepSound(c, Exec(c, w, es), e1);
  }
}
