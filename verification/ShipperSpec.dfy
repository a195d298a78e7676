// src/log/shipper.rs as a state machine over the journal, the persisted
// cursor, one shipper process at a time, and crashes.
module ShipperSpec {
  import opened Prelude
  import opened Backoff
  import opened LogSource
  import opened Journald

  datatype Verdict = Ok | TooLarge | Rejected | Transient

  datatype Config = Config(caps: Caps, initial: nat, max: nat)

  const USIZE_MAX := 0xFFFF_FFFF_FFFF_FFFF

  datatype Progress = Progress(sent: nat, chunk: nat, requests: nat, splits: nat, dropped: nat, rejected: nat)

  const UNSENT := Progress(0, USIZE_MAX, 0, 0, 0, 0)

  function Judge(p: Progress, n: nat, v: Verdict): Progress {
    var q := p.(requests := p.requests + 1);
    match v
    case Ok => q.(sent := p.sent + n)
    case TooLarge =>
      if n == 1 then q.(sent := p.sent + 1, dropped := p.dropped + 1)
      else q.(chunk := n / 2, splits := p.splits + 1)
    case Rejected => q.(sent := p.sent + n, rejected := p.rejected + n)
    case Transient => q
  }

  function Retry(c: Config, b: Backoff, v: Verdict, now: nat): Backoff {
    match v
    case Ok => CALM
    case Rejected => CALM
    case Transient => Failed(b, now, c.initial, c.max)
    case TooLarge => b
  }

  // A request carried journal[from..to], started at `start` and got its
  // verdict at `end`.
  datatype Request = Request(from: nat, to: nat, verdict: Verdict, start: nat, end: nat)

  /** Delivered, refused as invalid, or dropped alone as too large. */
  predicate Resolves(r: Request) {
    r.verdict.Ok? || r.verdict.Rejected? || (r.verdict.TooLarge? && r.to == r.from + 1)
  }

  /** The journal places resolved by the requests of `log`, in order. */
  function Resolved(log: seq<Request>): seq<nat> {
    if log == [] then [] else
      var r := log[|log| - 1];
      Resolved(log[..|log| - 1]) + if Resolves(r) && r.from <= r.to then Range(r.from, r.to) else []
  }

  // What the outside observer remembers; the program itself keeps none of it.
  //   log      every request that got a verdict, over all processes
  //   born     the length of `log` when the current process started
  //   since    the length of `log` at the latest ack or start
  //   first    where reading starts: after the cursor the run starts with, or
  //            else where the first process starts
  //   base     where the line of reading that is being followed started: there,
  //            or where the latest process that started at the tail did
  //   adrift   nothing was acked since a process started at the tail
  //   aside    the line that was left then, to be followed again if the cursor
  //            is found after all
  //   crashes  crashes so far
  //   acked    entries acked so far
  //   wasted   resolutions a crash undid
  //   undone   their places
  datatype History = History(
    log: seq<Request>, born: nat, since: nat, first: Option<nat>, base: nat, adrift: bool, aside: nat,
    crashes: nat, acked: nat, wasted: nat, undone: set<nat>)

  datatype World = World(src: Src, progress: Progress, retry: Backoff, clock: nat, past: History)

  // What the environment decides for one pass through the loop: whether a
  // saved cursor is found, what reaches the journal while the source waits,
  // the sink's verdict, and how long things take.
  datatype Round = Round(found: bool, arrivals: seq<seq<LogEntry>>, late: nat, verdict: Verdict, took: nat)

  // Append: the journal grows. Deliver: one pass through a verdict. Pause: a
  // pass interrupted before its verdict. Settle: the ack a pass ends with.
  datatype Event = Append(entries: seq<LogEntry>) | Pause(round: Round) | Deliver(round: Round) | Settle | Crash

  function Start(journal: seq<LogEntry>, saved: Option<Cursor>): World {
    var first := if saved.Some? then Some(saved.value + 1) else None;
    World(Src(journal, saved, false, 0, 0, false), UNSENT, CALM, 0,
          History([], 0, 0, first, if first.Some? then first.value else 0, false, 0, 0, 0, 0, {}))
  }

  /** A process starts reading at place `at`; `tail`: it had no cursor, or did not find it. */
  function Began(h: History, at: nat, tail: bool): History {
    if h.first.None? then h.(first := Some(at), base := at, adrift := true, aside := at)
    else if tail then h.(base := at, adrift := true, aside := if h.adrift then h.aside else h.base)
    else if h.adrift then h.(base := h.aside, adrift := false)
    else h
  }

  function Noted(h: History, r: Request): History {
    h.(log := h.log + [r])
  }

  /** Wait out the backoff and peek. */
  function Fetch(c: Config, w: World, r: Round): World
    requires w.src.Valid(c.caps)
  {
    w.(src := Peek(c.caps, w.src, r.found, r.arrivals),
       clock := Max(w.clock, NotBefore(w.retry)) + r.late,
       past := if w.src.positioned then w.past
               else Began(w.past, Position(w.src, r.found).lo, !(w.src.saved.Some? && r.found)))
  }

  /** Send one chunk of the peeked batch and take in the verdict. */
  function Send(c: Config, w: World, r: Round): World
    requires w.src.lo + w.progress.sent < w.src.hi
  {
    var at := w.src.lo + w.progress.sent;
    var n := Min(w.src.hi - at, w.progress.chunk);
    var done := w.clock + r.took;
    World(w.src, Judge(w.progress, n, r.verdict), Retry(c, w.retry, r.verdict, done), done,
          Noted(w.past, Request(at, at + n, r.verdict, w.clock, done)))
  }

  /** Ack the batch once all of it is resolved. */
  function Finish(w: World): World {
    if w.src.lo < w.src.hi <= w.src.lo + w.progress.sent
    then w.(src := Acked(w.src), progress := UNSENT,
            past := w.past.(since := |w.past.log|, adrift := false, acked := w.past.acked + (w.src.hi - w.src.lo)))
    else w
  }

  /** Only the journal and the persisted cursor survive. */
  function Restart(w: World): World {
    World(Src(w.src.journal, w.src.saved, false, 0, 0, false), UNSENT, CALM, w.clock,
          w.past.(born := |w.past.log|, since := |w.past.log|, crashes := w.past.crashes + 1,
                  wasted := w.past.wasted + w.progress.sent,
                  undone := w.past.undone + Places(w.src.lo, w.src.lo + w.progress.sent)))
  }

  function Places(lo: nat, hi: nat): (r: set<nat>)
    ensures forall i: nat :: i in r <==> lo <= i < hi
    decreases hi
  {
    if lo >= hi then {} else Places(lo, hi - 1) + {hi - 1}
  }

  function Step(c: Config, w: World, e: Event): World
    requires w.src.Valid(c.caps)
  {
    match e
    case Append(entries) => w.(src := Arrive(w.src, entries))
    case Pause(r) => Fetch(c, w, r)
    case Deliver(r) =>
      var v := Fetch(c, w, r);
      if v.src.lo + v.progress.sent < v.src.hi then Send(c, v, r) else v
    case Settle => Finish(w)
    case Crash => Restart(w)
  }

  ghost predicate Sound(c: Config, w: World) {
    && c.caps.batchSize >= 1
    && w.src.Valid(c.caps)
    && WithinCaps(c.caps, w.src.InFlight())
    && w.progress.sent <= w.src.hi - w.src.lo
    && (w.src.lo == w.src.hi ==> w.progress == UNSENT)
  }

  lemma StartSound(c: Config, j: seq<LogEntry>, saved: Option<Cursor>)
    requires c.caps.batchSize >= 1 && (saved.Some? ==> saved.value < |j|)
    ensures Sound(c, Start(j, saved))
  {
  }

  lemma AppendKeepsSource(c: Caps, s: Src, es: seq<LogEntry>)
    requires s.Valid(c)
    ensures Arrive(s, es).Valid(c) && Arrive(s, es).InFlight() == s.InFlight()
  {
  }

  lemma FetchFacts(c: Config, w: World, r: Round)
    requires Sound(c, w)
    ensures
      var v := Fetch(c, w, r);
      && Sound(c, v) && v.src.positioned && v.src.saved == w.src.saved && w.src.journal <= v.src.journal
      && v.src.lo == (if w.src.positioned then w.src.lo else Position(w.src, r.found).lo)
      && (w.src.positioned ==> w.src.hi <= v.src.hi)
      && v.progress == w.progress && v.retry == w.retry && NotBefore(v.retry) <= v.clock
      && v.past == (if w.src.positioned then w.past
                    else Began(w.past, v.src.lo, !(w.src.saved.Some? && r.found)))
  {
    hide Fill, Bytes, Flatten, Takes, Open;
    PeekHandsOutLongestRun(c.caps, w.src, r.found, r.arrivals);
  }

  lemma SendSound(c: Config, w: World, r: Round)
    requires Sound(c, w) && w.src.lo + w.progress.sent < w.src.hi
    ensures Sound(c, Send(c, w, r)) && Send(c, w, r).src == w.src
  {
    hide Fill, Bytes, Flatten, Takes, Open, WithinCaps, Retry, Noted;
  }

  lemma FinishSound(c: Config, w: World)
    requires Sound(c, w)
    ensures Sound(c, Finish(w)) && Finish(w).src.journal == w.src.journal
  {
    hide Fill, Bytes, Flatten, Takes, Open;
    EmptyWithinCaps(c.caps, w.src.journal, w.src.hi);
  }

  lemma StepSound(c: Config, w: World, e: Event)
    requires Sound(c, w)
    ensures Sound(c, Step(c, w, e))
    ensures w.src.journal <= Step(c, w, e).src.journal
  {
    hide Fill, Bytes, Flatten, Takes, Open, WithinCaps, Fetch, Send, Finish;
    match e
    case Append(es) => AppendKeepsSource(c.caps, w.src, es);
    case Pause(r) => FetchFacts(c, w, r);
    case Deliver(r) =>
      FetchFacts(c, w, r);
      var v := Fetch(c, w, r);
      if v.src.lo + v.progress.sent < v.src.hi {
        SendSound(c, v, r);
      }
    case Settle => FinishSound(c, w);
    case Crash => EmptyWithinCaps(c.caps, w.src.journal, 0);
  }

  lemma EmptyWithinCaps(c: Caps, j: seq<LogEntry>, at: nat)
    requires at <= |j|
    ensures WithinCaps(c, j[at..at])
  {
  }

  /** The state after a run of events. */
  function Exec(c: Config, w: World, es: seq<Event>): (v: World)
    requires Sound(c, w)
    ensures Sound(c, v)
  {
    if es == [] then w else
      var u := Exec(c, w, es[..|es| - 1]);
      StepSound(c, u, es[|es| - 1]);
      Step(c, u, es[|es| - 1])
  }

  lemma ExecSnoc(c: Config, w: World, es: seq<Event>, e: Event)
    requires Sound(c, w)
    ensures Exec(c, w, es + [e]) == Step(c, Exec(c, w, es), e)
    ensures Exec(c, w, []) == w
  {
    assert (es + [e])[..|es|] == es;
  }

  /** The events of a process that lives through the passes of `script`. */
  function Events(script: seq<Round>): seq<Event> {
    if script == [] then [] else
      Events(script[..|script| - 1]) + [Deliver(script[|script| - 1]), Settle]
  }

  lemma EventsSnoc(c: Config, w: World, script: seq<Round>, i: nat)
    requires Sound(c, w) && i < |script|
    ensures Exec(c, w, Events(script[..i + 1])) == Finish(Step(c, Exec(c, w, Events(script[..i])), Deliver(script[i])))
  {
    hide Exec, Step, Finish;
    var before, d := Events(script[..i]), Deliver(script[i]);
    assert script[..i + 1][..i] == script[..i];
    assert Events(script[..i + 1]) == (before + [d]) + [Settle];
    ExecSnoc(c, w, before + [d], Settle);
    ExecSnoc(c, w, before, d);
    SettleIsFinish(c, Step(c, Exec(c, w, before), d));
  }

  lemma SettleIsFinish(c: Config, w: World)
    requires w.src.Valid(c.caps)
    ensures Step(c, w, Settle) == Finish(w)
  {
  }
}
