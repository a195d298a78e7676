// What is delivered over every run of journal, source, shipper, sink and
// crashes, whether or not a restart finds the cursor.
module ShipperDelivery {
  import opened Prelude
  import opened LogSource
  import opened Journald
  import opened ShipperSpec
  import opened ShipperRuns

  /** The place up to which the line of reading being followed is acked. */
  function Frontier(w: World): nat {
    if w.src.positioned then w.src.lo
    else if w.src.saved.Some? && !w.past.adrift then w.src.saved.value + 1
    else w.past.base
  }

  ghost predicate Covers(log: seq<Request>, lo: nat, hi: nat) {
    forall i :: lo <= i < hi ==> i in Resolved(log)
  }

  ghost predicate WellPlaced(w: World) {
    var h := w.past;
    && (h.first.None? ==>
      !w.src.positioned && w.src.saved.None? && !h.adrift && h.log == [] && h.acked == h.wasted == 0 && h.undone == {})
    && (h.first.Some? ==>
      && h.first.value <= h.base <= Frontier(w)
      && Frontier(w) + w.progress.sent <= |w.src.journal|
      && (if h.adrift then Frontier(w) == h.base && h.first.value <= h.aside <= h.base
          else w.src.saved.Some? && Frontier(w) == w.src.saved.value + 1)
      && (h.adrift && w.src.saved.Some? ==> h.aside <= w.src.saved.value + 1 <= h.base))
  }

  // An entry was resolved before the cursor, by the current process, or by one
  // that crashed before its ack.
  ghost predicate Accounted(w: World) {
    && (forall i :: i in Resolved(w.past.log) ==>
      && w.past.first.Some? && w.past.first.value <= i < |w.src.journal|
      && ((w.src.saved.Some? && i <= w.src.saved.value) || i in w.past.undone
        || Frontier(w) <= i < Frontier(w) + w.progress.sent))
    && (forall i :: i in w.past.undone ==> i in Resolved(w.past.log))
  }

  // No entry of the line of reading is left out, nor of the line left aside.
  ghost predicate Unbroken(w: World) {
    w.past.first.Some? ==>
      && Covers(w.past.log, w.past.base, Frontier(w) + w.progress.sent)
      && (w.past.adrift && w.src.saved.Some? ==> Covers(w.past.log, w.past.aside, w.src.saved.value + 1))
  }

  /** Each crash undoes at most one batch. */
  function WasteLimit(crashes: nat, batchSize: nat): nat {
    crashes * batchSize
  }

  ghost predicate Counted(c: Config, w: World) {
    var h := w.past;
    && h.wasted <= WasteLimit(h.crashes, c.caps.batchSize)
    && |Resolved(h.log)| == h.acked + w.progress.sent + h.wasted
    && h.acked <= if h.first.Some? && w.src.saved.Some? && h.first.value <= w.src.saved.value
                  then w.src.saved.value + 1 - h.first.value else 0
  }

  ghost predicate Kept(c: Config, w: World) {
    WellPlaced(w) && Accounted(w) && Unbroken(w) && Counted(c, w)
  }

  lemma FetchKept(c: Config, w: World, r: Round)
    requires Sound(c, w) && Kept(c, w)
    ensures Kept(c, Fetch(c, w, r)) && Fetch(c, w, r).past.first.Some?
  {
    hide Fill, Bytes, Flatten, Takes, Open, Resolved, Fetch, WithinCaps, WasteLimit;
    FetchFacts(c, w, r);
    NothingResolved();
  }

  lemma SendKept(c: Config, w: World, r: Round)
    requires Sound(c, w) && Kept(c, w) && w.src.positioned && w.past.first.Some? && w.progress.chunk >= 1
    requires w.src.lo + w.progress.sent < w.src.hi
    ensures Kept(c, Send(c, w, r))
  {
    hide Fill, Bytes, Flatten, Takes, Open, Resolved, WithinCaps, WasteLimit, Retry;
    var at := w.src.lo + w.progress.sent;
    var n := Min(w.src.hi - at, w.progress.chunk);
    var req := Request(at, at + n, r.verdict, w.clock, w.clock + r.took);
    ResolvedSnoc(w.past.log, req);
  }

  lemma FinishKept(c: Config, w: World)
    requires Sound(c, w) && Kept(c, w)
    ensures Kept(c, Finish(w))
  {
    hide Fill, Bytes, Flatten, Takes, Open, Resolved, WithinCaps, WasteLimit;
  }

  lemma WasteStep(crashes: nat, batchSize: nat)
    ensures WasteLimit(crashes + 1, batchSize) == WasteLimit(crashes, batchSize) + batchSize
  {
  }

  lemma RestartKept(c: Config, w: World)
    requires Sound(c, w) && Kept(c, w)
    ensures Kept(c, Restart(w))
  {
    hide Fill, Bytes, Flatten, Takes, Open, Resolved, WasteLimit;
    assert w.progress.sent <= c.caps.batchSize;
    WasteStep(w.past.crashes, c.caps.batchSize);
  }

  lemma StepKept(c: Config, w: World, e: Event)
    requires Sound(c, w) && SplitsBounded(w) && Kept(c, w)
    ensures Kept(c, Step(c, w, e))
  {
    hide Fill, Bytes, Flatten, Takes, Open, Resolved, Fetch, Send, Finish, Restart, WithinCaps, Kept, SplitsBounded;
    ChunkPositive(w);
    match e
    case Append(es) => AppendKept(c, w, es);
    case Pause(r) => FetchKept(c, w, r);
    case Deliver(r) =>
      FetchFacts(c, w, r);
      FetchKept(c, w, r);
      var v := Fetch(c, w, r);
      if v.src.lo + v.progress.sent < v.src.hi {
        SendKept(c, v, r);
      }
    case Settle => FinishKept(c, w);
    case Crash => RestartKept(c, w);
  }

  lemma AppendKept(c: Config, w: World, es: seq<LogEntry>)
    requires Sound(c, w) && Kept(c, w)
    ensures Kept(c, w.(src := Arrive(w.src, es)))
  {
    hide Resolved, WithinCaps, WasteLimit;
  }

  lemma StartKept(c: Config, j: seq<LogEntry>, saved: Option<Cursor>)
    requires c.caps.batchSize >= 1 && (saved.Some? ==> saved.value < |j|)
    ensures Kept(c, Start(j, saved))
  {
    NothingResolved();
  }

  lemma {:induction false} RunKept(c: Config, j: seq<LogEntry>, saved: Option<Cursor>, es: seq<Event>)
    requires c.caps.batchSize >= 1 && (saved.Some? ==> saved.value < |j|)
    ensures
      var w := Exec(c, Start(j, saved), es);
      Kept(c, w) && SplitsBounded(w)
  {
    hide Step, Start, Kept, SplitsBounded;
    StartSound(c, j, saved);
    StartKept(c, j, saved);
    if es == [] {
      StartSplitsBounded(c, j, saved);
    } else {
      var before := es[..|es| - 1];
      RunKept(c, j, saved, before);
      StepKept(c, Exec(c, Start(j, saved), before), es[|es| - 1]);
      StepSplitsBounded(c, Exec(c, Start(j, saved), before), es[|es| - 1]);
    }
  }

  lemma StartSplitsBounded(c: Config, j: seq<LogEntry>, saved: Option<Cursor>)
    ensures SplitsBounded(Start(j, saved))
  {
    NothingTotalled(Start(j, saved));
  }

  lemma {:induction false} CrashesCounted(c: Config, w: World, es: seq<Event>)
    requires Sound(c, w)
    ensures Exec(c, w, es).past.crashes == w.past.crashes + multiset(es)[Crash]
  {
    hide Step, Sound;
    if es != [] {
      var before, e := es[..|es| - 1], es[|es| - 1];
      CrashesCounted(c, w, before);
      assert es == before + [e];
      StepCounts(c, Exec(c, w, before), e);
    }
  }

  lemma StepCounts(c: Config, w: World, e: Event)
    requires Sound(c, w)
    ensures Step(c, w, e).past.crashes == w.past.crashes + if e.Crash? then 1 else 0
  {
    hide Fill, Bytes, Flatten, Takes, Open, WithinCaps, Peek, Retry, Judge;
  }

  // At least once along the line of reading: nothing between its start and the
  // place resolved so far is left out. And every crash repeats at most one
  // batch.
  lemma AtLeastOnce(c: Config, j: seq<LogEntry>, saved: Option<Cursor>, es: seq<Event>)
    requires c.caps.batchSize >= 1 && (saved.Some? ==> saved.value < |j|)
    ensures
      var w := Exec(c, Start(j, saved), es);
      w.past.first.Some? ==>
        && Covers(w.past.log, w.past.base, Frontier(w) + w.progress.sent)
        && (if w.past.adrift then Frontier(w) == w.past.base
            else w.src.saved.Some? && Frontier(w) == w.src.saved.value + 1)
        && w.past.acked <= Frontier(w) - w.past.first.value
        && |Resolved(w.past.log)| <= w.past.acked + w.progress.sent + multiset(es)[Crash] * c.caps.batchSize
  {
    hide Exec, Resolved;
    RunKept(c, j, saved, es);
    CrashesCounted(c, Start(j, saved), es);
  }

  // Every process finds the cursor it looks for.
  predicate CursorsSurvive(es: seq<Event>) {
    forall e :: e in es && (e.Deliver? || e.Pause?) ==> e.round.found
  }

  ghost predicate NoCursorMissed(w: World) {
    && (w.src.saved.Some? ==> !w.past.adrift)
    && (w.past.first.Some? ==> w.past.acked == Frontier(w) - w.past.base)
  }

  lemma StepNoCursorMissed(c: Config, w: World, e: Event)
    requires Sound(c, w) && Kept(c, w) && NoCursorMissed(w) && (e.Deliver? || e.Pause? ==> e.round.found)
    ensures NoCursorMissed(Step(c, w, e))
  {
    hide Fill, Bytes, Flatten, Takes, Open, Resolved, Fetch, WithinCaps, WasteLimit, Retry, Judge;
    if e.Deliver? || e.Pause? {
      FetchFacts(c, w, e.round);
    }
  }

  // Then the entries acked are those from the latest cursorless start on.
  lemma {:induction false} AckedAreCovered(c: Config, j: seq<LogEntry>, saved: Option<Cursor>, es: seq<Event>)
    requires c.caps.batchSize >= 1 && (saved.Some? ==> saved.value < |j|)
    requires CursorsSurvive(es)
    ensures NoCursorMissed(Exec(c, Start(j, saved), es))
  {
    hide Step, Kept;
    if es != [] {
      var before := es[..|es| - 1];
      AckedAreCovered(c, j, saved, before);
      RunKept(c, j, saved, before);
      assert es[|es| - 1] in es;
      StepNoCursorMissed(c, Exec(c, Start(j, saved), before), es[|es| - 1]);
    }
  }

  // ---- Skipping -----------------------------------------------------------------

  predicate Begins(w: World, e: Event) {
    (e.Deliver? || e.Pause?) && !w.src.positioned
  }

  // A process without a cursor, or that does not find it, starts at the tail,
  // past an entry that was neither acked nor resolved before a crash.
  predicate SkipsAhead(w: World, e: Event) {
    && Begins(w, e) && (w.src.saved.None? || !e.round.found) && w.past.first.Some?
    && exists i :: Frontier(w) <= i < |w.src.journal| && i !in w.past.undone
  }

  predicate Acks(w: World, e: Event) {
    e.Settle? && w.src.lo < w.src.hi <= w.src.lo + w.progress.sent
  }

  // Some process skipped ahead, and since then no process found the cursor and
  // nothing was acked.
  predicate Astray(c: Config, w: World, es: seq<Event>)
    requires Sound(c, w)
  {
    es != [] &&
      var u, e := Exec(c, w, es[..|es| - 1]), es[|es| - 1];
      || SkipsAhead(u, e)
      || (Astray(c, w, es[..|es| - 1]) && !Acks(u, e) && !(Begins(u, e) && u.src.saved.Some? && e.round.found))
  }

  // Something was acked while astray: the cursor is past what was skipped.
  predicate Lost(c: Config, w: World, es: seq<Event>)
    requires Sound(c, w)
  {
    es != [] &&
      (|| Lost(c, w, es[..|es| - 1])
       || (Astray(c, w, es[..|es| - 1]) && Acks(Exec(c, w, es[..|es| - 1]), es[|es| - 1])))
  }

  // What the cursor stands for: the line it would be followed on.
  function Line(h: History): nat {
    if h.adrift then h.aside else h.base
  }

  ghost predicate GapBelow(w: World, hi: nat) {
    w.past.first.Some? && exists g :: w.past.first.value <= g < hi && g !in Resolved(w.past.log)
  }

  ghost predicate Tracked(w: World, astray: bool, lost: bool) {
    && (lost ==> GapBelow(w, Line(w.past)))
    && (!lost && w.past.first.Some? ==> Covers(w.past.log, w.past.first.value, Line(w.past)))
    && (astray ==> w.past.adrift && GapBelow(w, w.past.base))
    && (!lost && !astray && w.past.first.Some? ==> Covers(w.past.log, w.past.first.value, w.past.base))
  }

  lemma FetchTracked(c: Config, w: World, e: Event, astray: bool, lost: bool)
    requires Sound(c, w) && Kept(c, w) && Tracked(w, astray, lost) && (e.Deliver? || e.Pause?)
    ensures
      var back := Begins(w, e) && w.src.saved.Some? && e.round.found;
      Tracked(Fetch(c, w, e.round), SkipsAhead(w, e) || (astray && !back), lost)
  {
    hide Fill, Bytes, Flatten, Takes, Open, Resolved, Fetch, WithinCaps, Counted;
    FetchFacts(c, w, e.round);
  }

  lemma SendTracked(c: Config, v: World, r: Round, astray: bool, lost: bool)
    requires Sound(c, v) && Kept(c, v) && v.past.first.Some? && v.src.positioned && Tracked(v, astray, lost)
    requires v.src.lo + v.progress.sent < v.src.hi && v.progress.chunk >= 1
    ensures Tracked(Send(c, v, r), astray, lost)
  {
    hide Fill, Bytes, Flatten, Takes, Open, Resolved, WithinCaps, Counted, Retry, Judge;
    var at := v.src.lo + v.progress.sent;
    var n := Min(v.src.hi - at, v.progress.chunk);
    ResolvedSnoc(v.past.log, Request(at, at + n, r.verdict, v.clock, v.clock + r.took));
    GapStays(v, Send(c, v, r), v.past.base);
    GapStays(v, Send(c, v, r), Line(v.past));
  }

  lemma GapStays(v: World, u: World, hi: nat)
    requires u.past.first == v.past.first
    requires forall i :: i < hi && i !in Resolved(v.past.log) ==> i !in Resolved(u.past.log)
    ensures GapBelow(v, hi) ==> GapBelow(u, hi)
  {
    hide Resolved;
    if GapBelow(v, hi) {
      var g :| v.past.first.value <= g < hi && g !in Resolved(v.past.log);
      assert g !in Resolved(u.past.log);
    }
  }

  lemma StepTracked(c: Config, w: World, e: Event, astray: bool, lost: bool)
    requires Sound(c, w) && SplitsBounded(w) && Kept(c, w) && Tracked(w, astray, lost)
    ensures
      var back := Begins(w, e) && w.src.saved.Some? && e.round.found;
      Tracked(Step(c, w, e), SkipsAhead(w, e) || (astray && !Acks(w, e) && !back), lost || (astray && Acks(w, e)))
  {
    hide Fill, Bytes, Flatten, Takes, Open, Resolved, Fetch, Send, WithinCaps, SplitsBounded;
    ChunkPositive(w);
    if e.Deliver? || e.Pause? {
      FetchFacts(c, w, e.round);
      FetchKept(c, w, e.round);
      FetchTracked(c, w, e, astray, lost);
      var v := Fetch(c, w, e.round);
      if e.Deliver? && v.src.lo + v.progress.sent < v.src.hi {
        var back := Begins(w, e) && w.src.saved.Some? && e.round.found;
        SendTracked(c, v, e.round, SkipsAhead(w, e) || (astray && !back), lost);
      }
    }
  }

  lemma {:induction false} RunTracked(c: Config, j: seq<LogEntry>, saved: Option<Cursor>, es: seq<Event>)
    requires c.caps.batchSize >= 1 && (saved.Some? ==> saved.value < |j|)
    ensures
      var w := Start(j, saved);
      Tracked(Exec(c, w, es), Astray(c, w, es), Lost(c, w, es))
  {
    hide Step, SplitsBounded, Kept, Tracked, SkipsAhead, Acks, Begins;
    if es == [] {
      StartTracked(j, saved);
    } else {
      var before := es[..|es| - 1];
      RunTracked(c, j, saved, before);
      RunKept(c, j, saved, before);
      StepTracked(c, Exec(c, Start(j, saved), before), es[|es| - 1],
                  Astray(c, Start(j, saved), before), Lost(c, Start(j, saved), before));
    }
  }

  lemma StartTracked(j: seq<LogEntry>, saved: Option<Cursor>)
    ensures Tracked(Start(j, saved), false, false)
  {
  }

  // Every entry from the first start through the persisted cursor is resolved
  // exactly when nothing was acked by a process that had started at the tail
  // past an entry neither acked nor resolved before a crash, and through the
  // place acked so far exactly when no such process is followed either. Finding
  // the cursor again before the ack undoes the jump.
  lemma NothingSkippedIff(c: Config, j: seq<LogEntry>, saved: Option<Cursor>, es: seq<Event>)
    requires c.caps.batchSize >= 1 && (saved.Some? ==> saved.value < |j|)
    ensures
      var s := Start(j, saved);
      var w := Exec(c, s, es);
      w.past.first.Some? ==>
        && (w.src.saved.Some? ==>
             (Covers(w.past.log, w.past.first.value, w.src.saved.value + 1) <==> !Lost(c, s, es)))
        && (Covers(w.past.log, w.past.first.value, Frontier(w)) <==> !Astray(c, s, es) && !Lost(c, s, es))
  {
    hide Exec, Resolved, Astray, Lost, Counted;
    RunKept(c, j, saved, es);
    RunTracked(c, j, saved, es);
  }

  // ---- Duplicates -------------------------------------------------------------

  ghost predicate NoRepeats(s: seq<nat>) {
    forall i, k :: 0 <= i < k < |s| ==> s[i] != s[k]
  }

  // A request with an entry whose resolution a crash undid gets a verdict that
  // resolves it.
  predicate Redelivers(c: Config, w: World, e: Event)
    requires Sound(c, w)
  {
    e.Deliver? &&
      var v := Fetch(c, w, e.round);
      v.src.lo + v.progress.sent < v.src.hi &&
        var r := Send(c, v, e.round).past.log[|v.past.log|];
        Resolves(r) && exists i :: r.from <= i < r.to && i in v.past.undone
  }

  predicate DeliversOnce(c: Config, w: World, es: seq<Event>)
    requires Sound(c, w)
  {
    es != [] ==>
      && DeliversOnce(c, w, es[..|es| - 1])
      && !Redelivers(c, Exec(c, w, es[..|es| - 1]), es[|es| - 1])
  }

  lemma RangeRepeats(before: seq<nat>, from: nat, to: nat)
    requires from < to
    ensures NoRepeats(before + Range(from, to)) <==> NoRepeats(before) && forall i :: i in before ==> !(from <= i < to)
  {
    var n, all := |before|, before + Range(from, to);
    if NoRepeats(all) {
      forall i, k | 0 <= i < k < n ensures before[i] != before[k] {
        assert all[i] == before[i] && all[k] == before[k];
      }
    }
    if i :| i in before && from <= i < to {
      var a :| 0 <= a < n && before[a] == i;
      assert all[a] == i && all[n + (i - from)] == i;
    }
    if NoRepeats(before) && forall i :: i in before ==> !(from <= i < to) {
      forall i, k | 0 <= i < k < |all| ensures all[i] != all[k] {
        if i < n {
          assert before[i] in before;
        }
      }
    }
  }

  lemma SendRepeats(c: Config, v: World, r: Round)
    requires Kept(c, v) && v.src.positioned && v.past.first.Some? && v.progress.chunk >= 1
    requires v.src.lo + v.progress.sent < v.src.hi
    ensures
      var u := Send(c, v, r);
      var q := u.past.log[|v.past.log|];
      NoRepeats(Resolved(u.past.log)) <==>
        NoRepeats(Resolved(v.past.log)) && !(Resolves(q) && exists i :: q.from <= i < q.to && i in v.past.undone)
  {
    hide Resolved, Counted, Unbroken, Send, NoRepeats;
    var at := v.src.lo + v.progress.sent;
    var to := at + Min(v.src.hi - at, v.progress.chunk);
    var req := Request(at, to, r.verdict, v.clock, v.clock + r.took);
    NotedLog(c, v, r);
    ResolvedSnoc(v.past.log, req);
    if Resolves(req) {
      RangeRepeats(Resolved(v.past.log), at, to);
      assert forall i :: at <= i < to ==> (i in Resolved(v.past.log) <==> i in v.past.undone);
    } else {
      assert Resolved(v.past.log) + [] == Resolved(v.past.log);
    }
  }

  lemma StepRepeats(c: Config, w: World, e: Event)
    requires Sound(c, w) && SplitsBounded(w) && Kept(c, w)
    ensures NoRepeats(Resolved(Step(c, w, e).past.log)) <==> NoRepeats(Resolved(w.past.log)) && !Redelivers(c, w, e)
  {
    hide Resolved, Fetch, Send, WithinCaps, SplitsBounded, Kept, NoRepeats;
    ChunkPositive(w);
    if e.Deliver? || e.Pause? {
      FetchFacts(c, w, e.round);
      FetchKept(c, w, e.round);
      BeganKeepsLog(w.past, Fetch(c, w, e.round).src.lo, !(w.src.saved.Some? && e.round.found));
      var v := Fetch(c, w, e.round);
      if e.Deliver? && v.src.lo + v.progress.sent < v.src.hi {
        SendRepeats(c, v, e.round);
      }
    }
  }

  // No entry is resolved twice exactly when no request with an entry whose
  // resolution a crash undid gets a resolving verdict.
  lemma {:induction false} ExactlyOnceIff(c: Config, j: seq<LogEntry>, saved: Option<Cursor>, es: seq<Event>)
    requires c.caps.batchSize >= 1 && (saved.Some? ==> saved.value < |j|)
    ensures NoRepeats(Resolved(Exec(c, Start(j, saved), es).past.log)) <==> DeliversOnce(c, Start(j, saved), es)
  {
    hide Step, Resolved, SplitsBounded, Kept, Redelivers;
    NothingResolved();
    if es != [] {
      var before := es[..|es| - 1];
      ExactlyOnceIff(c, j, saved, before);
      RunKept(c, j, saved, before);
      StepRepeats(c, Exec(c, Start(j, saved), before), es[|es| - 1]);
    }
  }

  // A process crashes between a verdict and its ack.
  predicate Undoes(w: World, e: Event) {
    e.Crash? && w.progress.sent > 0
  }

  predicate CrashesCleanly(c: Config, w: World, es: seq<Event>)
    requires Sound(c, w)
  {
    es != [] ==>
      && CrashesCleanly(c, w, es[..|es| - 1])
      && !Undoes(Exec(c, w, es[..|es| - 1]), es[|es| - 1])
  }

  lemma StepUndoesNothing(c: Config, w: World, e: Event)
    requires Sound(c, w) && w.past.undone == {} && !Undoes(w, e)
    ensures Step(c, w, e).past.undone == {} && !Redelivers(c, w, e)
  {
    hide Fill, Bytes, Flatten, Takes, Open, WithinCaps, Peek, Retry, Judge;
    if e.Deliver? || e.Pause? {
      FetchFacts(c, w, e.round);
    }
  }

  // A run in which no process crashes between a verdict and its ack resolves
  // nothing twice.
  lemma {:induction false} CleanCrashesRepeatNothing(c: Config, j: seq<LogEntry>, saved: Option<Cursor>, es: seq<Event>)
    requires c.caps.batchSize >= 1 && (saved.Some? ==> saved.value < |j|)
    requires CrashesCleanly(c, Start(j, saved), es)
    ensures Exec(c, Start(j, saved), es).past.undone == {}
    ensures DeliversOnce(c, Start(j, saved), es) && NoRepeats(Resolved(Exec(c, Start(j, saved), es).past.log))
  {
    hide Step, Redelivers, Undoes, Resolved, NoRepeats;
    if es != [] {
      var before := es[..|es| - 1];
      CleanCrashesRepeatNothing(c, j, saved, before);
      StepUndoesNothing(c, Exec(c, Start(j, saved), before), es[|es| - 1]);
    }
    ExactlyOnceIff(c, j, saved, es);
  }
}
