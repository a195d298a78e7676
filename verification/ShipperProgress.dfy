// A batch does not stay in flight for ever unless the sink keeps failing.
module ShipperProgress {
  import opened Prelude
  import opened LogSource
  import opened ShipperSpec
  import opened ShipperRuns

  // The batch that started at `lo` is still in flight, after `requests` requests.
  ghost predicate Busy(w: World, lo: nat, requests: nat) {
    && w.src.positioned && w.src.lo == lo && w.src.lo + w.progress.sent < w.src.hi
    && |BatchLog(w)| == requests
  }

  // It is acked, and the cursor file says so.
  ghost predicate AckedPast(w: World, lo: nat) {
    w.src.positioned && w.src.lo > lo && w.src.saved == Some(w.src.lo - 1)
  }

  lemma LogPlaced(w: World)
    requires SplitsBounded(w)
    ensures w.past.since <= |w.past.log| && w.progress.chunk >= 1
  {
  }

  lemma SendIsLogged(c: Config, v: World, r: Round)
    requires v.past.since <= |v.past.log| && v.src.lo + v.progress.sent < v.src.hi
    ensures Send(c, v, r).src == v.src && |BatchLog(Send(c, v, r))| == |BatchLog(v)| + 1
  {
    hide Retry, Judge;
  }

  lemma PassMakesRequest(c: Config, w: World, r: Round, lo: nat, requests: nat)
    requires Sound(c, w) && SplitsBounded(w) && Busy(w, lo, requests)
    ensures
      var v := Finish(Step(c, w, Deliver(r)));
      AckedPast(v, lo) || Busy(v, lo, requests + 1)
  {
    hide Fetch, Send, WithinCaps, SplitsBounded;
    LogPlaced(w);
    FetchFacts(c, w, r);
    SendIsLogged(c, Fetch(c, w, r), r);
    SendSound(c, Fetch(c, w, r), r);
  }

  lemma PassKeepsAcked(c: Config, w: World, r: Round, lo: nat)
    requires Sound(c, w) && AckedPast(w, lo)
    ensures AckedPast(Finish(Step(c, w, Deliver(r))), lo)
  {
    hide Fetch, WithinCaps, Retry, Judge, Noted;
    FetchFacts(c, w, r);
    var v := Fetch(c, w, r);
    if v.src.lo + v.progress.sent < v.src.hi {
      SendSound(c, v, r);
    }
  }

  lemma {:induction false} PassesAddUp(c: Config, w: World, script: seq<Round>, requests: nat)
    requires Sound(c, w) && SplitsBounded(w) && Busy(w, w.src.lo, requests)
    ensures
      var v := Exec(c, w, Events(script));
      AckedPast(v, w.src.lo) || Busy(v, w.src.lo, requests + |script|)
  {
    hide Exec, Step, Finish, Busy, AckedPast, SplitsBounded;
    if script == [] {
      ExecSnoc(c, w, [], Settle);
    } else {
      var n := |script| - 1;
      var u := Exec(c, w, Events(script[..n]));
      PassesAddUp(c, w, script[..n], requests);
      RunSplitsBounded(c, w, Events(script[..n]));
      EventsSnoc(c, w, script, n);
      assert script[..n + 1] == script;
      if Busy(u, w.src.lo, requests + n) {
        PassMakesRequest(c, u, script[n], w.src.lo, requests + n);
      } else {
        PassKeepsAcked(c, u, script[n], w.src.lo);
      }
    }
  }

  lemma {:induction false} Log2Mono(a: nat, b: nat)
    requires 1 <= a <= b
    ensures Log2(a) <= Log2(b)
  {
    if a > 1 {
      Log2Mono(a / 2, b / 2);
    }
  }

  lemma BusyBounded(c: Config, w: World, lo: nat, requests: nat)
    requires Sound(c, w) && SplitsBounded(w) && Busy(w, lo, requests)
    ensures requests <= c.caps.batchSize + Log2(c.caps.batchSize) + Total(BatchLog(w), FailedBy)
  {
    hide Sound, SplitsBounded, Total, Log2, BatchLog;
    AtMostBatchSize(c, w);
    RequestsBounded(c, w);
    Log2Mono(w.src.hi - w.src.lo, c.caps.batchSize);
  }

  // However the sink splits, drops and rejects, and whatever is topped up: a
  // batch stays in flight for at most batch_size + floor(log2 batch_size)
  // requests besides its transient failures, and each pass makes one.
  lemma BatchIsAcked(c: Config, w: World, script: seq<Round>)
    requires Sound(c, w) && SplitsBounded(w) && Busy(w, w.src.lo, |BatchLog(w)|)
    ensures
      var v := Exec(c, w, Events(script));
      || AckedPast(v, w.src.lo)
      || |BatchLog(w)| + |script| <= c.caps.batchSize + Log2(c.caps.batchSize) + Total(BatchLog(v), FailedBy)
  {
    hide Sound, SplitsBounded, Exec, Events, Total, Log2, BatchLog, AckedPast;
    PassesAddUp(c, w, script, |BatchLog(w)|);
    var v := Exec(c, w, Events(script));
    RunSplitsBounded(c, w, Events(script));
    if Busy(v, w.src.lo, |BatchLog(w)| + |script|) {
      BusyBounded(c, v, w.src.lo, |BatchLog(w)| + |script|);
    }
  }
}
