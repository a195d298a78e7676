// src/log/shipper.rs: the driver itself, proved to follow the state machine.
module Shipper {
  import opened Prelude
  import opened Backoff
  import opened LogSource
  import opened Journald
  import opened ShipperSpec

  // The local variables of `run`.
  datatype Locals = Locals(progress: Progress, backoff: nat, backoffUntil: Option<nat>, now: nat)

  predicate Tracks(l: Locals, w: World) {
    && l.progress == w.progress && l.now == w.clock
    && l.backoff == w.retry.delay && l.backoffUntil == w.retry.until
  }

  class Shipper {
    const source: JournaldSource
    const backoffInitial: nat
    const backoffMax: nat
    ghost var world: World

    ghost function Cfg(): Config {
      Config(source.caps, backoffInitial, backoffMax)
    }

    ghost predicate Valid()
      reads this, source, source.inFlight
    {
      source.Valid() && Sound(Cfg(), world) && world.src == source.View()
    }

    // A process starts; `past` is the world its predecessors left behind.
    constructor (source: JournaldSource, initial: nat, max: nat, ghost past: World)
      requires source.Valid() && source.inFlight == null
      requires Sound(Config(source.caps, initial, max), past) && past.src == source.View()
      ensures this.source == source && backoffInitial == initial && backoffMax == max
      ensures Valid() && world == past
    {
      this.source, backoffInitial, backoffMax, world := source, initial, max, past;
    }

    method FinishBatch(batch: Batch, progress: Progress) returns (fresh_: Progress)
      requires Valid() && batch == source.inFlight
      requires world.progress == progress && |batch.entries| <= progress.sent
      modifies `world, source`cursorFile, source`lastAcked, source`inFlight
      ensures Valid() && source.inFlight == null
      ensures world == Finish(old(world)) && fresh_ == world.progress == UNSENT
      ensures world.past.log == old(world).past.log && world.retry == old(world).retry && world.clock == old(world).clock
    {
      hide Fill, Bytes, Flatten, Takes, Open;
      source.Ack(batch.endCursor);
      world := Finish(world);
      FinishSound(Cfg(), old(world));
      fresh_ := UNSENT;
    }

    // One pass through the loop. `body` is the request the sink saw, if one
    // was made: none is while the source still waits for a first entry.
    method Pass(round: Round, l: Locals) returns (l': Locals, body: Option<seq<LogEntry>>)
      requires Valid() && Tracks(l, world)
      modifies `world, source, source.inFlight
      ensures Valid() && Tracks(l', world)
      ensures source.inFlight != null && source.inFlight != old(source.inFlight) ==> fresh(source.inFlight)
      ensures world == Finish(Step(Cfg(), old(world), Deliver(round)))
      ensures old(source.records) <= source.records
      ensures body.None? ==> world.past.log == old(world).past.log
      ensures body.Some? ==>
        var n := |old(world).past.log|;
        |world.past.log| == n + 1 && world.past.log[..n] == old(world).past.log && Carried(body.value, world.past.log[n])
    {
      hide Fill, Bytes, Flatten, Takes, Open, Peek, Acked, WithinCaps, Send, Finish;
      ghost var c, w := Cfg(), world;
      StepSound(c, w, Deliver(round));
      FetchFacts(c, w, round);
      l' := l;
      if l.backoffUntil.Some? && l.now < l.backoffUntil.value {
        l' := l'.(now := l.backoffUntil.value);
      }
      l' := l'.(now := l'.now + round.late);
      var batch := source.PeekBatch(round.found, round.arrivals);
      world := Fetch(c, w, round);
      body := None;
      if batch == null {
        FinishIdle(world);
        return;
      }
      if |batch.entries| <= l'.progress.sent {
        var p := FinishBatch(batch, l'.progress);
        l' := l'.(progress := p);
        return;
      }
      var slice;
      l', slice := Ship(batch, round, l');
      body := Some(slice);
    }

    ghost predicate Carried(body: seq<LogEntry>, r: Request)
      reads source
    {
      r.from <= r.to <= |source.records| && body == source.records[r.from..r.to]
    }

    // What the verdict on a request of `n` entries does to the local variables.
    method TakeVerdict(n: nat, round: Round, l: Locals) returns (l': Locals)
      ensures l'.progress == Judge(l.progress, n, round.verdict) && l'.now == l.now + round.took
      ensures forall b: Backoff :: b.delay == l.backoff && b.until == l.backoffUntil ==>
        var r := Retry(Cfg(), b, round.verdict, l'.now);
        l'.backoff == r.delay && l'.backoffUntil == r.until
    {
      var progress, backoff, backoffUntil, now := l.progress, l.backoff, l.backoffUntil, l.now + round.took;
      progress := progress.(requests := progress.requests + 1);
      match round.verdict {
        case Ok =>
          progress := progress.(sent := progress.sent + n);
          backoff, backoffUntil := 0, None;
        case TooLarge =>
          if n == 1 {
            progress := progress.(sent := progress.sent + 1, dropped := progress.dropped + 1);
          } else {
            progress := progress.(chunk := n / 2, splits := progress.splits + 1);
          }
        case Rejected =>
          progress := progress.(sent := progress.sent + n, rejected := progress.rejected + n);
          backoff, backoffUntil := 0, None;
        case Transient =>
          backoff := if backoff == 0 then backoffInitial else Min(backoff * 2, backoffMax);
          backoffUntil := Some(now + backoff);
      }
      l' := Locals(progress, backoff, backoffUntil, now);
    }

    // Send the next chunk of the peeked batch and act on the verdict.
    method Ship(batch: Batch, round: Round, l: Locals) returns (l': Locals, slice: seq<LogEntry>)
      requires Valid() && Tracks(l, world) && batch == source.inFlight
      requires l.progress.sent < |batch.entries|
      modifies `world, source`cursorFile, source`lastAcked, source`inFlight
      ensures Valid() && Tracks(l', world)
      ensures source.inFlight == null || source.inFlight == old(source.inFlight)
      ensures world == Finish(Send(Cfg(), old(world), round))
      ensures
        var n := |old(world).past.log|;
        |world.past.log| == n + 1 && world.past.log[..n] == old(world).past.log && Carried(slice, world.past.log[n])
    {
      hide Fill, Bytes, Flatten, Takes, Open, WithinCaps, Finish;
      var total := |batch.entries|;
      var pending := batch.entries[l.progress.sent..];
      var n := Min(|pending|, l.progress.chunk);
      slice := pending[..n];
      l' := TakeVerdict(n, round, l);
      var progress := l'.progress;
      ghost var w := world;
      world := Send(Cfg(), w, round);
      assert |world.past.log| == |w.past.log| + 1 && world.past.log[..|w.past.log|] == w.past.log;
      SendSound(Cfg(), w, round);
      if progress.sent >= total {
        progress := FinishBatch(batch, progress);
        l' := l'.(progress := progress);
      } else {
        FinishIdle(world);
      }
    }

    // One process, from its start until the script of its passes ends in a
    // shutdown. `bodies` are the requests as the sink saw them.
    method Run(script: seq<Round>, now: nat) returns (bodies: seq<seq<LogEntry>>)
      requires Valid() && source.inFlight == null
      requires world.progress == UNSENT && world.retry == CALM && world.clock == now
      modifies `world, source
      ensures Valid() && world == Exec(Cfg(), old(world), Events(script))
      ensures |world.past.log| == |old(world).past.log| + |bodies|
      ensures forall k :: 0 <= k < |bodies| ==> Carried(bodies[k], world.past.log[|old(world).past.log| + k])
    {
      hide Fill, Bytes, Flatten, Takes, Open, Exec, Step, Finish;
      var l := Locals(UNSENT, 0, None, now);
      bodies := [];
      ExecNil(Cfg(), world);
      ghost var w0, n0 := world, |world.past.log|;
      for i := 0 to |script|
        invariant Valid() && Tracks(l, world) && (source.inFlight != null ==> fresh(source.inFlight))
        invariant world == Exec(Cfg(), w0, Events(script[..i]))
        invariant |world.past.log| == n0 + |bodies|
        invariant forall k :: 0 <= k < |bodies| ==> Carried(bodies[k], world.past.log[n0 + k])
      {
        ghost var w := world;
        var body;
        l, body := Pass(script[i], l);
        EventsSnoc(Cfg(), w0, script, i);
        assert forall k :: 0 <= k < |bodies| ==> world.past.log[n0 + k] == w.past.log[n0 + k] && Carried(bodies[k], world.past.log[n0 + k]);
        if body.Some? {
          bodies := bodies + [body.value];
        }
      }
      assert script[..|script|] == script;
    }
  }

  lemma FinishIdle(w: World)
    requires w.src.lo == w.src.hi || w.src.lo + w.progress.sent < w.src.hi
    ensures Finish(w) == w
  {
  }

  lemma ExecNil(c: Config, w: World)
    requires Sound(c, w)
    ensures Exec(c, w, Events([])) == w
  {
  }
}
