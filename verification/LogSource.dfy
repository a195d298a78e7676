// src/log/source.rs, and the batch-filling policy of src/log/source/journald.rs.
module LogSource {
  import opened Prelude

  // An ordered string map, listed in key order.
  type Labels = seq<(Text, Text)>

  const FIELD_OVERHEAD := 4
  const ENTRY_OVERHEAD := 16

  function FieldBytes(m: Labels): nat {
    if m == [] then 0 else |m[0].0| + |m[0].1| + FIELD_OVERHEAD + FieldBytes(m[1..])
  }

  // `timestamp` counts nanoseconds from the Unix epoch
  datatype LogEntry = LogEntry(timestamp: int, message: Text, labels: Labels, metadata: Labels) {
    function ApproxSize(): nat {
      ENTRY_OVERHEAD + |message| + FieldBytes(labels) + FieldBytes(metadata)
    }
  }

  lemma FieldBytesMore(m: Labels, p: (Text, Text))
    ensures FieldBytes(m + [p]) == FieldBytes(m) + |p.0| + |p.1| + 4
  {
    if m == [] {
      assert [p][1..] == [];
    } else {
      assert (m + [p])[1..] == m[1..] + [p];
      FieldBytesMore(m[1..], p);
    }
  }

  // An empty entry counts 16 bytes, each byte of the message one more, and each
  // label or metadata field its two lengths plus 4.
  lemma ApproxSizeAddsUp(e: LogEntry, text: Text, p: (Text, Text))
    ensures LogEntry(e.timestamp, "", [], []).ApproxSize() == 16
    ensures e.(message := e.message + text).ApproxSize() == e.ApproxSize() + |text|
    ensures e.(labels := e.labels + [p]).ApproxSize() == e.ApproxSize() + |p.0| + |p.1| + 4
    ensures e.(metadata := e.metadata + [p]).ApproxSize() == e.ApproxSize() + |p.0| + |p.1| + 4
  {
    FieldBytesMore(e.labels, p);
    FieldBytesMore(e.metadata, p);
  }

  function Bytes(entries: seq<LogEntry>): nat {
    if entries == [] then 0 else Bytes(entries[..|entries| - 1]) + entries[|entries| - 1].ApproxSize()
  }

  // The cursor of an entry is its place in the journal.
  type Cursor = nat

  class Batch {
    var entries: seq<LogEntry>
    var endCursor: Option<Cursor>  // None is the empty string of a fresh batch
    var approxBytes: nat

    ghost predicate Valid()
      reads this
    {
      && approxBytes == Bytes(entries)
      && (entries == [] <==> endCursor.None?)
    }

    constructor ()
      ensures Valid() && entries == []
    {
      entries, endCursor, approxBytes := [], None, 0;
    }

    method Push(entry: LogEntry, cursor: Cursor)
      requires Valid()
      modifies this
      ensures Valid()
      ensures entries == old(entries) + [entry] && endCursor == Some(cursor)
    {
      approxBytes := approxBytes + entry.ApproxSize();
      entries := entries + [entry];
      endCursor := Some(cursor);
      assert entries[..|entries| - 1] == old(entries);
    }
  }

  // maxBytes == 0 disables the byte cap
  datatype Caps = Caps(batchSize: nat, maxBytes: nat)

  predicate HasRoom(c: Caps, count: nat, bytes: nat) {
    count < c.batchSize && (c.maxBytes == 0 || bytes < c.maxBytes)
  }

  /** Whether an entry of `size` bytes is admitted rather than parked. */
  predicate Admits(c: Caps, count: nat, bytes: nat, size: nat) {
    c.maxBytes == 0 || count == 0 || bytes + size <= c.maxBytes
  }

  predicate Open(c: Caps, batch: seq<LogEntry>) {
    HasRoom(c, |batch|, Bytes(batch))
  }

  predicate Takes(c: Caps, batch: seq<LogEntry>, e: LogEntry) {
    Open(c, batch) && Admits(c, |batch|, Bytes(batch), e.ApproxSize())
  }

  /** Where filling the batch j[lo..hi] from the journal `j` stops. */
  function Fill(c: Caps, j: seq<LogEntry>, lo: nat, hi: nat): (end: nat)
    requires lo <= hi <= |j|
    ensures hi <= end <= |j|
    ensures end < |j| ==> !Takes(c, j[lo..end], j[end])
    decreases |j| - hi
  {
    if hi < |j| && Takes(c, j[lo..hi], j[hi]) then Fill(c, j, lo, hi + 1) else hi
  }

  lemma FillTakes(c: Caps, j: seq<LogEntry>, lo: nat, hi: nat)
    requires lo <= hi < |j| && Takes(c, j[lo..hi], j[hi])
    ensures Fill(c, j, lo, hi) == Fill(c, j, lo, hi + 1)
    ensures j[lo..hi] + [j[hi]] == j[lo..hi + 1]
  {
  }

  lemma FillStops(c: Caps, j: seq<LogEntry>, lo: nat, hi: nat)
    requires lo <= hi <= |j|
    ensures hi == |j| || !Takes(c, j[lo..hi], j[hi]) <==> Fill(c, j, lo, hi) == hi
  {
  }

  lemma ClosedTakesNothing(c: Caps, batch: seq<LogEntry>)
    ensures !Open(c, batch) ==> forall e :: !Takes(c, batch, e)
  {
  }

  lemma EmptyIsOpen(c: Caps)
    ensures Open(c, []) <==> c.batchSize >= 1
  {
  }

  /** What every batch handed out must satisfy, however it was assembled. */
  predicate WithinCaps(c: Caps, batch: seq<LogEntry>) {
    && |batch| <= c.batchSize
    && (c.maxBytes == 0 || |batch| <= 1 || Bytes(batch) <= c.maxBytes)
  }

  lemma {:induction false} BytesGrow(j: seq<LogEntry>, lo: nat, hi: nat, k: nat)
    requires lo <= hi <= k <= |j|
    ensures Bytes(j[lo..hi]) <= Bytes(j[lo..k])
    ensures hi < k ==> Bytes(j[lo..hi]) + j[hi].ApproxSize() <= Bytes(j[lo..k])
    decreases k
  {
    if hi < k {
      assert j[lo..k][..k - lo - 1] == j[lo..k - 1];
      BytesGrow(j, lo, hi, k - 1);
    }
  }

  lemma TakingKeepsCaps(c: Caps, j: seq<LogEntry>, lo: nat, hi: nat)
    requires lo <= hi < |j| && Takes(c, j[lo..hi], j[hi])
    ensures WithinCaps(c, j[lo..hi + 1])
  {
    assert j[lo..hi + 1][..hi - lo] == j[lo..hi];
  }

  lemma StoppingMeansFull(c: Caps, j: seq<LogEntry>, lo: nat, hi: nat, k: nat)
    requires lo <= hi < k <= |j| && !Takes(c, j[lo..hi], j[hi])
    ensures !WithinCaps(c, j[lo..k])
  {
    BytesGrow(j, lo, hi, k);
  }

  // Filling an admissible batch gives the longest admissible one.
  lemma {:induction false} FillIsLongest(c: Caps, j: seq<LogEntry>, lo: nat, hi: nat)
    requires lo <= hi <= |j| && WithinCaps(c, j[lo..hi])
    ensures WithinCaps(c, j[lo..Fill(c, j, lo, hi)])
    ensures forall k :: lo <= k <= |j| && WithinCaps(c, j[lo..k]) ==> k <= Fill(c, j, lo, hi)
    decreases |j| - hi
  {
    hide Takes, WithinCaps;
    if hi < |j| && Takes(c, j[lo..hi], j[hi]) {
      TakingKeepsCaps(c, j, lo, hi);
      FillIsLongest(c, j, lo, hi + 1);
    } else {
      forall k | hi < k <= |j| ensures !WithinCaps(c, j[lo..k]) {
        StoppingMeansFull(c, j, lo, hi, k);
      }
    }
  }

  // Topping up a batch after the journal grew gives the batch that one fill of
  // the grown journal would have given.
  lemma {:induction false} TopUpForgetsHistory(c: Caps, j: seq<LogEntry>, more: seq<LogEntry>, lo: nat, hi: nat)
    requires lo <= hi <= |j|
    ensures Fill(c, j + more, lo, Fill(c, j, lo, hi)) == Fill(c, j + more, lo, hi)
    decreases |j| - hi
  {
    hide Takes;
    if Fill(c, j, lo, hi) > hi {
      assert (j + more)[lo..hi] == j[lo..hi];
      TopUpForgetsHistory(c, j, more, lo, hi + 1);
    }
  }

  // A non-empty fresh batch exists exactly when there is an entry to read and
  // the entry cap is not zero; with `batch-size = 0` the source waits forever.
  lemma FreshFillProgress(c: Caps, j: seq<LogEntry>, lo: nat)
    requires lo <= |j|
    ensures Fill(c, j, lo, lo) > lo <==> lo < |j| && c.batchSize >= 1
  {
    assert j[lo..lo] == [];
  }
}
