// src/log/sink/loki.rs: one request body, grouped into streams.
module LokiBody {
  import opened Prelude
  import opened Grouping
  import opened LogSource
  import opened LabelString

  datatype EntryAdapter = EntryAdapter(seconds: nat, nanos: nat, line: Text, structuredMetadata: Labels)

  datatype Stream = Stream(labels: Text, entries: seq<EntryAdapter>)

  function Adapt(e: LogEntry): EntryAdapter {
    var t := if e.timestamp < 0 then 0 else e.timestamp;
    EntryAdapter(t / 1_000_000_000, t % 1_000_000_000, e.message, e.metadata)
  }

  function Labelled(entries: seq<LogEntry>): (r: seq<(Labels, EntryAdapter)>)
    ensures |r| == |entries| && forall i :: 0 <= i < |entries| ==> r[i] == (entries[i].labels, Adapt(entries[i]))
  {
    seq(|entries|, i requires 0 <= i < |entries| => (entries[i].labels, Adapt(entries[i])))
  }

  /** The entries by label set, in order. */
  function ByLabels(entries: seq<LogEntry>): (r: seq<(Labels, LogEntry)>)
    ensures |r| == |entries| && forall i :: 0 <= i < |entries| ==> r[i] == (entries[i].labels, entries[i])
  {
    seq(|entries|, i requires 0 <= i < |entries| => (entries[i].labels, entries[i]))
  }

  // The timestamp in seconds and nanoseconds, the epoch standing for anything
  // before it; the message as the line; the metadata as it is.
  predicate Represents(a: EntryAdapter, e: LogEntry) {
    && a.nanos < 1_000_000_000
    && a.seconds * 1_000_000_000 + a.nanos == (if e.timestamp < 0 then 0 else e.timestamp)
    && a.line == e.message
    && a.structuredMetadata == e.metadata
  }

  ghost predicate RepresentAll(adapted: seq<EntryAdapter>, es: seq<LogEntry>) {
    |adapted| == |es| && forall k :: 0 <= k < |es| ==> Represents(adapted[k], es[k])
  }

  lemma {:induction false} ItemsRepresent(entries: seq<LogEntry>, k: Labels)
    ensures RepresentAll(ItemsOf(Labelled(entries), k), ItemsOf(ByLabels(entries), k))
  {
    if entries != [] {
      var n := |entries| - 1;
      assert Labelled(entries)[..n] == Labelled(entries[..n]) && ByLabels(entries)[..n] == ByLabels(entries[..n]);
      ItemsRepresent(entries[..n], k);
      Adapted(entries[n]);
    }
  }

  lemma Adapted(e: LogEntry)
    ensures Represents(Adapt(e), e)
  {
  }

  // `keys` names the label set behind each stream.
  method BuildStreams(entries: seq<LogEntry>) returns (streams: seq<Stream>, keys: seq<Labels>)
    ensures |streams| == |keys|
    ensures forall i, j :: 0 <= i < j < |keys| ==> LabelsLess(keys[i], keys[j])
    ensures forall i :: 0 <= i < |keys| ==>
      && streams[i].labels == "{" + Pairs(keys[i]) + "}"
      && streams[i].entries != [] && RepresentAll(streams[i].entries, ItemsOf(ByLabels(entries), keys[i]))
    ensures forall k :: k in keys <==> exists e :: e in entries && e.labels == k
    ensures forall i, j :: 0 <= i < j < |keys| && NamesOk(keys[i]) && NamesOk(keys[j]) ==>
      streams[i].labels != streams[j].labels
  {
    hide GroupBy, Upsert, Lex, ItemsOf, Pairs, Adapt, RepresentAll;
    var byStream: seq<Group<Labels, EntryAdapter>> := [];
    NoGroups<Labels, EntryAdapter>(LabelsLess);
    for i := 0 to |entries|
      invariant byStream == GroupBy(LabelsLess, Labelled(entries[..i]))
    {
      byStream := Upsert(LabelsLess, byStream, entries[i].labels, Adapt(entries[i]));
      GroupByNext(LabelsLess, Labelled(entries[..i]), Labelled(entries[..i + 1]));
    }
    assert entries[..|entries|] == entries;
    KeyOrders();
    GroupingIsExact(LabelsLess, Labelled(entries));
    streams, keys := [], [];
    for i := 0 to |byStream|
      invariant |streams| == |keys| == i
      invariant forall k :: 0 <= k < i ==>
        keys[k] == byStream[k].key && streams[k] == Stream("{" + Pairs(keys[k]) + "}", byStream[k].items)
    {
      var labels := FormatLabelString(byStream[i].key);
      streams, keys := streams + [Stream(labels, byStream[i].items)], keys + [byStream[i].key];
    }
    StreamsStayApart(keys);
    forall i | 0 <= i < |keys| ensures RepresentAll(streams[i].entries, ItemsOf(ByLabels(entries), keys[i])) {
      ItemsRepresent(entries, keys[i]);
    }
    forall k | k in keys ensures exists e :: e in entries && e.labels == k {
      LabelsOfSome(entries, k);
    }
    forall e | e in entries ensures e.labels in keys {
      var p :| 0 <= p < |entries| && entries[p] == e;
      assert Labelled(entries)[p] in Labelled(entries);
      var i :| 0 <= i < |byStream| && byStream[i].key == e.labels;
      assert keys[i] == e.labels;
    }
  }

  lemma {:induction false} LabelsOfSome(entries: seq<LogEntry>, k: Labels)
    requires ItemsOf(Labelled(entries), k) != []
    ensures exists e :: e in entries && e.labels == k
  {
    var n := |entries| - 1;
    assert Labelled(entries)[..n] == Labelled(entries[..n]);
    if entries[n].labels != k {
      LabelsOfSome(entries[..n], k);
      var e :| e in entries[..n] && e.labels == k;
      assert e in entries;
    }
  }

  // Streams of different label sets get different label strings.
  lemma StreamsStayApart(keys: seq<Labels>)
    requires forall i, j :: 0 <= i < j < |keys| ==> LabelsLess(keys[i], keys[j])
    ensures forall i, j :: 0 <= i < j < |keys| && NamesOk(keys[i]) && NamesOk(keys[j]) ==>
      "{" + Pairs(keys[i]) + "}" != "{" + Pairs(keys[j]) + "}"
  {
    hide Pairs, Lex, NamesOk;
    KeyOrders();
    forall i, j | 0 <= i < j < |keys| && NamesOk(keys[i]) && NamesOk(keys[j])
      ensures "{" + Pairs(keys[i]) + "}" != "{" + Pairs(keys[j]) + "}"
    {
      assert LabelsLess(keys[i], keys[j]);
      if "{" + Pairs(keys[i]) + "}" == "{" + Pairs(keys[j]) + "}" {
        LabelStringInjective(keys[i], keys[j]);
      }
    }
  }
}
