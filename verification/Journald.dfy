// src/log/source/journald.rs: the journal reader behind the log shipper.
module Journald {
  import opened Prelude
  import opened LogSource

  // The reader's state as a value. The in-flight batch is journal[lo..hi]; a
  // parked entry is journal[hi], already read but not yet admitted.
  datatype Src = Src(journal: seq<LogEntry>, saved: Option<Cursor>, positioned: bool, lo: nat, hi: nat, parked: bool)
  {
    ghost predicate Valid(c: Caps) {
      && lo <= hi <= |journal|
      && (saved.Some? ==> saved.value < |journal|)
      && (parked ==> hi < |journal|)
      && (parked && lo < hi ==> Open(c, InFlight()) && !Takes(c, InFlight(), journal[hi]))
      && (!positioned ==> lo == hi == 0 && !parked)
    }

    function InFlight(): seq<LogEntry>
      requires lo <= hi <= |journal|
    {
      journal[lo..hi]
    }
  }

  function Arrive(s: Src, es: seq<LogEntry>): Src {
    s.(journal := s.journal + es)
  }

  /** `found`: the saved cursor's entry is still in the journal. */
  function Position(s: Src, found: bool): Src {
    var start := if s.saved.Some? && found then s.saved.value + 1 else |s.journal|;
    s.(positioned := true, lo := start, hi := start, parked := false)
  }

  function Drain(c: Caps, s: Src): Src
    requires s.lo <= s.hi <= |s.journal|
  {
    var end := Fill(c, s.journal, s.lo, s.hi);
    s.(hi := end, parked := end < |s.journal| && Open(c, s.journal[s.lo..end]))
  }

  /** One `peek_batch` during which the groups `arrivals` reach the journal. */
  function Peek(c: Caps, s: Src, found: bool, arrivals: seq<seq<LogEntry>>): Src
    requires s.lo <= s.hi <= |s.journal| && (s.saved.Some? ==> s.saved.value < |s.journal|)
  {
    Drain(c, Arrive(if s.positioned then s else Position(s, found), Flatten(arrivals)))
  }

  function Acked(s: Src): Src
    requires s.lo < s.hi
  {
    s.(saved := Some(s.hi - 1), lo := s.hi)
  }

  // Every batch handed out is the longest run of unacked entries within the
  // caps, so it is non-empty as soon as one entry is available, and it starts
  // with the parked entry when there is one.
  lemma PeekHandsOutLongestRun(c: Caps, s: Src, found: bool, arrivals: seq<seq<LogEntry>>)
    requires c.batchSize >= 1 && s.Valid(c) && WithinCaps(c, s.InFlight())
    ensures
      var t := Peek(c, s, found, arrivals);
      && t.Valid(c) && WithinCaps(c, t.InFlight())
      && (forall k :: t.lo <= k <= |t.journal| && WithinCaps(c, t.journal[t.lo..k]) ==> k <= t.hi)
      && (t.lo == t.hi <==> t.lo == |t.journal|)
      && (s.parked && s.lo < s.hi ==> t.hi == s.hi && t.parked)
      && (s.parked && s.lo == s.hi ==> t.InFlight() != [] && t.InFlight()[0] == s.journal[s.hi])
  {
    hide Fill, Bytes, Flatten, Takes, Open;
    var s1 := Arrive(if s.positioned then s else Position(s, found), Flatten(arrivals));
    assert s1.InFlight() == if s.positioned then s.InFlight() else [];
    FillIsLongest(c, s1.journal, s1.lo, s1.hi);
    FillStops(c, s1.journal, s1.lo, s1.hi);
    if s1.lo == s1.hi {
      FreshFillProgress(c, s1.journal, s1.lo);
    }
  }

  // Assembling a batch over several peeks equals assembling it in one.
  lemma PeekForgetsHistory(c: Caps, s: Src, f: bool, first: seq<seq<LogEntry>>, later: seq<seq<LogEntry>>)
    requires s.positioned && s.lo <= s.hi <= |s.journal| && (s.saved.Some? ==> s.saved.value < |s.journal|)
    ensures Peek(c, Peek(c, s, f, first), f, later) == Peek(c, s, f, first + later)
  {
    var a, b := Flatten(first), Flatten(later);
    FlattenConcat(first, later);
    assert (s.journal + a) + b == s.journal + (a + b);
    TopUpForgetsHistory(c, s.journal + a, b, s.lo, s.hi);
  }

  // What arrives does not reach a batch that is full.
  lemma ClosedStays(c: Caps, j: seq<LogEntry>, more: seq<LogEntry>, lo: nat, hi: nat)
    requires lo <= hi <= |j| && !Open(c, j[lo..hi])
    ensures (j + more)[lo..hi] == j[lo..hi] && Fill(c, j + more, lo, hi) == hi
  {
    hide Fill, Bytes, Open, Takes;
    assert (j + more)[lo..hi] == j[lo..hi];
    ClosedTakesNothing(c, j[lo..hi]);
    FillStops(c, j + more, lo, hi);
  }

  class JournaldSource {
    var records: seq<LogEntry>  // the journal, to which the system appends
    var pos: nat                // how many of them have been read
    var cursorFile: Option<Cursor>
    var lastAcked: Option<Cursor>
    var inFlight: Batch?
    var positioned: bool
    const caps: Caps
    var pending: Option<(LogEntry, Cursor)>

    ghost predicate Ready()
      reads this
    {
      && caps.batchSize >= 1
      && pos <= |records|
      && (pending.Some? ==> pos >= 1 && pending.value == (records[pos - 1], pos - 1))
      && (cursorFile.Some? ==> cursorFile.value < |records|)
      && lastAcked == cursorFile
      && (!positioned ==> pos == 0 && pending.None?)
    }

    // Where the entries read so far stop, the parked one not counted.
    ghost function End(): nat
      reads this
      requires Ready()
    {
      if pending.Some? then pos - 1 else pos
    }

    // The batch holds the entries read since place `lo`, in journal order.
    ghost predicate Carries(b: Batch, lo: nat)
      reads this, b
      requires Ready()
    {
      && b.Valid()
      && lo <= End()
      && b.entries == records[lo..End()]
      && (lo < End() ==> b.endCursor == Some(End() - 1))
    }

    ghost function Start(): nat
      reads this, inFlight
      requires Ready()
    {
      var count := if inFlight == null then 0 else |inFlight.entries|;
      if count <= End() then End() - count else 0
    }

    ghost predicate Valid()
      reads this, inFlight
    {
      && Ready()
      && (inFlight != null ==>
        && positioned
        && inFlight.entries != []
        && Carries(inFlight, Start())
        && (pending.Some? ==> Open(caps, inFlight.entries)))
    }

    ghost function View(): Src
      reads this, inFlight
      requires Ready()
    {
      Src(records, cursorFile, positioned, Start(), End(), pending.Some?)
    }

    constructor (journal: seq<LogEntry>, cursorFile: Option<Cursor>, caps: Caps)
      requires caps.batchSize >= 1
      requires cursorFile.Some? ==> cursorFile.value < |journal|
      ensures Valid() && this.caps == caps && inFlight == null
      ensures View() == Src(journal, cursorFile, false, 0, 0, false)
    {
      records, pos, pending := journal, 0, None;
      this.cursorFile, lastAcked := cursorFile, cursorFile;
      inFlight, positioned := null, false;
      this.caps := caps;
    }

    method PositionToStart(found: bool)
      requires Valid() && !positioned
      modifies `pos, `positioned
      ensures Valid() && View() == Position(old(View()), found)
    {
      if lastAcked.Some? {
        if found {
          pos := lastAcked.value + 1;
        } else {
          pos := |records|;
        }
      } else {
        pos := |records|;
      }
      positioned := true;
    }

    // The parked entry if there is one, otherwise the next journal entry.
    method NextEntry() returns (r: Option<(LogEntry, Cursor)>)
      requires Ready() && positioned
      modifies `pos, `pending
      ensures Ready() && pending.None?
      ensures old(End()) == |records| ==> r.None? && End() == |records|
      ensures old(End()) < |records| ==> r == Some((records[old(End())], old(End()))) && End() == old(End()) + 1
    {
      if pending.Some? {
        r := pending;
        pending := None;
      } else if pos < |records| {
        r := Some((records[pos], pos));
        pos := pos + 1;
      } else {
        r := None;
      }
    }

    function BatchHasRoom(b: Batch): (room: bool)
      reads b
      requires b.Valid()
      ensures room <==> Open(caps, b.entries)
    {
      HasRoom(caps, |b.entries|, b.approxBytes)
    }

    // Whether `entry` must wait for the next batch.
    function Overflows(b: Batch, entry: LogEntry): (over: bool)
      reads b
      requires b.Valid()
      ensures Open(caps, b.entries) ==> (over <==> !Takes(caps, b.entries, entry))
    {
      caps.maxBytes != 0 && b.entries != [] && b.approxBytes + entry.ApproxSize() > caps.maxBytes
    }

    // One round of filling: admit the next entry, park it, or find none.
    method AdmitNext(b: Batch, ghost lo: nat) returns (more: bool)
      requires Ready() && positioned && Carries(b, lo) && Open(caps, b.entries)
      modifies `pos, `pending, b
      ensures Ready() && Carries(b, lo)
      ensures more ==>
        && pending.None? && End() == old(End()) + 1
        && Fill(caps, records, lo, End()) == Fill(caps, records, lo, old(End()))
      ensures !more ==>
        && b.entries == old(b.entries) && End() == old(End()) == Fill(caps, records, lo, End())
        && (pending.Some? <==> End() < |records|)
    {
      hide Fill, Bytes, Open, Takes, Overflows;
      ghost var hi := End();
      var next := NextEntry();
      if next.None? {
        FillStops(caps, records, lo, hi);
        return false;
      }
      var (entry, cursor) := next.value;
      if Overflows(b, entry) {
        FillStops(caps, records, lo, hi);
        pending := Some((entry, cursor));
        return false;
      }
      FillTakes(caps, records, lo, hi);
      b.Push(entry, cursor);
      return true;
    }

    method DrainAvailable(b: Batch, ghost lo: nat)
      requires Ready() && positioned && Carries(b, lo)
      requires pending.Some? ==> Open(caps, b.entries)
      modifies `pos, `pending, b
      ensures Ready() && Carries(b, lo)
      ensures End() == Fill(caps, records, lo, old(End()))
      ensures pending.Some? <==> End() < |records| && Open(caps, b.entries)
      ensures pending.Some? <==>
        && End() < |records| && |b.entries| < caps.batchSize
        && (caps.maxBytes == 0 || b.approxBytes < caps.maxBytes)
    {
      hide Fill, Bytes, Open, Takes, BatchHasRoom, Overflows;
      while BatchHasRoom(b)
        invariant Ready() && Carries(b, lo)
        invariant pending.Some? ==> Open(caps, b.entries)
        invariant Fill(caps, records, lo, End()) == Fill(caps, records, lo, old(End()))
        decreases |records| - End()
      {
        var more := AdmitNext(b, lo);
        if !more {
          break;
        }
      }
      ClosedTakesNothing(caps, b.entries);
      FillStops(caps, records, lo, End());
      OpenMeans(b);
    }

    lemma OpenMeans(b: Batch)
      requires b.Valid()
      ensures Open(caps, b.entries) <==>
        |b.entries| < caps.batchSize && (caps.maxBytes == 0 || b.approxBytes < caps.maxBytes)
    {
    }

    // The journal signalled: `arrived` is now readable.
    method WaitForJournalEvent(arrived: seq<LogEntry>)
      requires Ready()
      modifies `records
      ensures Ready() && records == old(records) + arrived
    {
      records := records + arrived;
    }

    // The state of a batch under construction, started at place `lo` when the
    // journal was `j`, after `arrived` reached the journal.
    ghost predicate Building(b: Batch, lo: nat, j: seq<LogEntry>, arrived: seq<LogEntry>)
      reads this, b
      requires Ready()
    {
      && positioned
      && b.Valid()
      && Carries(b, lo)
      && records == j + arrived
      && End() == Fill(caps, records, lo, lo)
      && (pending.Some? <==> End() < |records| && Open(caps, b.entries))
    }

    // One wake-up of a batch under construction: new entries, then a drain.
    method Absorb(b: Batch, arrival: seq<LogEntry>, ghost lo: nat, ghost j: seq<LogEntry>, ghost before: seq<LogEntry>)
      requires Ready() && Building(b, lo, j, before)
      modifies `records, `pos, `pending, b
      ensures Ready() && Building(b, lo, j, before + arrival)
    {
      hide Fill, Bytes;
      TopUpForgetsHistory(caps, records, arrival, lo, lo);
      assert (j + before) + arrival == j + (before + arrival);
      WaitForJournalEvent(arrival);
      DrainAvailable(b, lo);
    }

    // A full batch leaves later arrivals in the journal.
    method Leave(b: Batch, arrival: seq<LogEntry>, ghost lo: nat, ghost j: seq<LogEntry>, ghost before: seq<LogEntry>)
      requires Ready() && Building(b, lo, j, before) && !Open(caps, b.entries)
      modifies `records
      ensures Ready() && Building(b, lo, j, before + arrival)
    {
      hide Fill, Bytes, Open, Takes;
      TopUpForgetsHistory(caps, records, arrival, lo, lo);
      assert (j + before) + arrival == j + (before + arrival);
      ClosedStays(caps, records, arrival, lo, End());
      WaitForJournalEvent(arrival);
    }

    // Immediate catch-up with what is already past the read position.
    method CatchUp() returns (b: Batch)
      requires Ready() && positioned
      modifies `pos, `pending
      ensures Ready() && fresh(b) && Building(b, old(End()), old(records), [])
    {
      hide Fill, Bytes;
      b := new Batch();
      EmptyIsOpen(caps);
      DrainAvailable(b, End());
    }

    // Returns an empty batch if nothing became readable during all the
    // wake-ups listed in `arrivals`; the original waits on.
    method BuildBatch(found: bool, arrivals: seq<seq<LogEntry>>) returns (b: Batch)
      requires Valid() && inFlight == null
      modifies `records, `pos, `pending, `positioned
      ensures Ready() && fresh(b)
      ensures Building(b, if old(positioned) then old(End()) else Position(old(View()), found).lo, old(records), Flatten(arrivals))
    {
      hide Fill, Bytes, Flatten, Open, Takes, BatchHasRoom, Overflows;
      if !positioned {
        PositionToStart(found);
      }
      ghost var lo, j := End(), records;
      b := CatchUp();
      var i := 0;
      assert Flatten(arrivals[..0]) == [] by { FlattenEmpty<LogEntry>(); }
      while b.entries == [] && i < |arrivals|
        invariant i <= |arrivals| && Ready() && Building(b, lo, j, Flatten(arrivals[..i]))
      {
        FlattenPrefix(arrivals, i);
        Absorb(b, arrivals[i], lo, j, Flatten(arrivals[..i]));
        i := i + 1;
      }
      while BatchHasRoom(b) && i < |arrivals|
        invariant i <= |arrivals| && Ready() && Building(b, lo, j, Flatten(arrivals[..i]))
      {
        FlattenPrefix(arrivals, i);
        Absorb(b, arrivals[i], lo, j, Flatten(arrivals[..i]));
        i := i + 1;
      }
      if i < |arrivals| {
        assert arrivals == arrivals[..i] + arrivals[i..];
        FlattenConcat(arrivals[..i], arrivals[i..]);
        Leave(b, Flatten(arrivals[i..]), lo, j, Flatten(arrivals[..i]));
      } else {
        assert arrivals[..i] == arrivals;
      }
    }

    // The retry path: append what accumulated to the in-flight batch.
    method TopUp(arrived: seq<LogEntry>)
      requires Valid() && inFlight != null
      modifies `records, `pos, `pending, inFlight
      ensures Valid() && Start() == old(Start()) && records == old(records) + arrived
      ensures End() == Fill(caps, records, Start(), old(End()))
      ensures pending.Some? <==> End() < |records| && Open(caps, records[Start()..End()])
    {
      hide Fill, Bytes, Open, Takes, BatchHasRoom, Overflows;
      ghost var lo := Start();
      WaitForJournalEvent(arrived);
      assert inFlight.entries == records[lo..End()];
      DrainAvailable(inFlight, lo);
      assert |inFlight.entries| == End() - lo;
    }

    // Null while the source is still waiting for a first entry.
    method PeekBatch(found: bool, arrivals: seq<seq<LogEntry>>) returns (b: Batch?)
      requires Valid()
      modifies `records, `pos, `pending, `positioned, `inFlight, inFlight
      ensures Valid() && View() == Peek(caps, old(View()), found, arrivals)
      ensures b == inFlight
      ensures inFlight != null && inFlight != old(inFlight) ==> fresh(inFlight)
    {
      hide Fill, Bytes, Flatten, Open, Takes, BatchHasRoom, Overflows;
      if inFlight != null {
        TopUp(Flatten(arrivals));
      } else {
        var batch := BuildBatch(found, arrivals);
        if batch.entries != [] {
          inFlight := batch;
          assert |inFlight.entries| == End() - Start();
        }
      }
      return inFlight;
    }

    method PersistCursor(cursor: Option<Cursor>)
      modifies `cursorFile
      ensures cursorFile == cursor
    {
      cursorFile := cursor;
    }

    method Ack(cursor: Option<Cursor>)
      requires Valid() && (cursor.Some? ==> cursor.value < |records|)
      modifies `cursorFile, `lastAcked, `inFlight
      ensures Valid() && inFlight == null
      ensures cursorFile == lastAcked == cursor
      ensures old(inFlight) != null && cursor == old(inFlight.endCursor) ==> View() == Acked(old(View()))
    {
      PersistCursor(cursor);
      lastAcked := cursor;
      inFlight := null;
    }
  }

  // Acked or skipped, in flight, parked, unread: the four parts always make
  // up the journal, each entry in exactly one of them.
  lemma SourcePartitionsJournal(s: JournaldSource)
    requires s.Valid()
    ensures
      var flying := if s.inFlight == null then [] else s.inFlight.entries;
      var parked := if s.pending.Some? then [s.pending.value.0] else [];
      s.records == s.records[..s.Start()] + flying + parked + s.records[s.pos..]
  {
    var j, lo, hi, pos := s.records, s.Start(), s.End(), s.pos;
    assert j[..lo] + j[lo..hi] == j[..hi];
    assert j[..hi] + j[hi..pos] == j[..pos];
    assert j == j[..pos] + j[pos..];
    if s.pending.Some? {
      assert j[hi..pos] == [s.pending.value.0];
    }
  }
}
