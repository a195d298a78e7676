// src/forwarder/otlphttp.rs: one batch as an OTLP request.
module OtlpRequest {
  import opened Prelude
  import opened Grouping
  import opened Forwarder

  datatype DataPoint = DataPoint(attributes: seq<(Text, Text)>, timeUnixNano: nat, value: nat)

  // Sums are always cumulative and monotonic.
  datatype Data = GaugeData(points: seq<DataPoint>) | SumData(points: seq<DataPoint>)

  datatype OtlpMetric = OtlpMetric(name: Text, data: Data)

  function Nanos(t: int): nat {
    if t < 0 then 0 else t % 0x1_0000_0000_0000_0000
  }

  function Point(m: Metric): DataPoint {
    DataPoint(m.labels, Nanos(m.timestamp), m.value)
  }

  function Points(ms: seq<Metric>): (r: seq<DataPoint>)
    ensures |r| == |ms| && forall i :: 0 <= i < |ms| ==> r[i] == Point(ms[i])
  {
    seq(|ms|, i requires 0 <= i < |ms| => Point(ms[i]))
  }

  function Named(slice: seq<Metric>): (r: seq<(Text, Metric)>)
    ensures |r| == |slice| && forall i :: 0 <= i < |slice| ==> r[i] == (slice[i].name, slice[i])
  {
    seq(|slice|, i requires 0 <= i < |slice| => (slice[i].name, slice[i]))
  }

  function Export(g: Group<Text, Metric>): OtlpMetric
    requires g.items != []
  {
    OtlpMetric(g.key, if g.items[0].kind.Gauge? then GaugeData(Points(g.items)) else SumData(Points(g.items)))
  }

  // The labels as attributes, the value as it is, and the timestamp in
  // nanoseconds: the epoch stands for anything before it, and the original's
  // 64 bits wrap around.
  predicate Represents(p: DataPoint, m: Metric) {
    && p.attributes == m.labels && p.value == m.value
    && p.timeUnixNano < 0x1_0000_0000_0000_0000
    && (m.timestamp < 0 ==> p.timeUnixNano == 0)
    && (0 <= m.timestamp < 0x1_0000_0000_0000_0000 ==> p.timeUnixNano == m.timestamp)
    && (m.timestamp >= 0 ==> (m.timestamp - p.timeUnixNano) % 0x1_0000_0000_0000_0000 == 0)
  }

  ghost predicate RepresentAll(ps: seq<DataPoint>, ms: seq<Metric>) {
    |ps| == |ms| && forall k :: 0 <= k < |ms| ==> Represents(ps[k], ms[k])
  }

  lemma PointRepresents(m: Metric)
    ensures Represents(Point(m), m)
  {
    if m.timestamp >= 0 {
      var q, r := m.timestamp / 0x1_0000_0000_0000_0000, m.timestamp % 0x1_0000_0000_0000_0000;
      assert m.timestamp - r == q * 0x1_0000_0000_0000_0000;
    }
  }

  lemma PointsRepresent(ms: seq<Metric>)
    ensures RepresentAll(Points(ms), ms)
  {
    hide Point;
    forall k | 0 <= k < |ms| ensures Represents(Points(ms)[k], ms[k]) {
      PointRepresents(ms[k]);
    }
  }

  /** Every metric of that name has the exported kind. */
  predicate KindKept(slice: seq<Metric>, o: OtlpMetric) {
    forall m :: m in slice && m.name == o.name ==> (m.kind.Gauge? <==> o.data.GaugeData?)
  }

  predicate OneKind(slice: seq<Metric>, name: Text) {
    forall a, b :: a in slice && b in slice && a.name == name && b.name == name ==> a.kind == b.kind
  }

  method BuildSliceRequest(slice: seq<Metric>) returns (out: seq<OtlpMetric>)
    ensures forall i, j :: 0 <= i < j < |out| ==> TextLess(out[i].name, out[j].name)
    ensures forall i :: 0 <= i < |out| ==>
      var ms := ItemsOf(Named(slice), out[i].name);
      && ms != [] && RepresentAll(out[i].data.points, ms)
      && (out[i].data.GaugeData? <==> ms[0].kind.Gauge?)
    ensures forall m :: m in slice ==> exists i :: 0 <= i < |out| && out[i].name == m.name
    ensures forall i :: 0 <= i < |out| ==> (KindKept(slice, out[i]) <==> OneKind(slice, out[i].name))
  {
    hide GroupBy, Upsert, Lex, ItemsOf, RepresentAll, Points, KindKept, OneKind, Export;
    var byName: seq<Group<Text, Metric>> := [];
    NoGroups<Text, Metric>(TextLess);
    for i := 0 to |slice|
      invariant byName == GroupBy(TextLess, Named(slice[..i]))
    {
      byName := Upsert(TextLess, byName, slice[i].name, slice[i]);
      GroupByNext(TextLess, Named(slice[..i]), Named(slice[..i + 1]));
    }
    assert slice[..|slice|] == slice;
    KeyOrders();
    GroupingIsExact(TextLess, Named(slice));
    forall i | 0 <= i < |byName| ensures Exports(slice, Export(byName[i]), byName[i].key) {
      ExportsGroup(slice, byName[i]);
    }
    out := [];
    for i := 0 to |byName|
      invariant |out| == i
      invariant forall k :: 0 <= k < i ==> out[k] == Export(byName[k])
    {
      out := out + [Export(byName[i])];
    }
    forall m | m in slice ensures exists i :: 0 <= i < |out| && out[i].name == m.name {
      var p :| 0 <= p < |slice| && slice[p] == m;
      assert Named(slice)[p] in Named(slice);
      var i :| 0 <= i < |byName| && byName[i].key == m.name;
      assert out[i].name == m.name;
    }
  }

  // All that the request is to say of one name.
  ghost predicate Exports(slice: seq<Metric>, o: OtlpMetric, name: Text) {
    var ms := ItemsOf(Named(slice), name);
    && o.name == name && ms != [] && RepresentAll(o.data.points, ms)
    && (o.data.GaugeData? <==> ms[0].kind.Gauge?)
    && (KindKept(slice, o) <==> OneKind(slice, name))
  }

  lemma ExportsGroup(slice: seq<Metric>, g: Group<Text, Metric>)
    requires g.items == ItemsOf(Named(slice), g.key) != []
    ensures Exports(slice, Export(g), g.key)
  {
    hide KindKept, OneKind, ItemsOf;
    PointsRepresent(g.items);
    KindKeptIffUniform(slice, g);
  }

  lemma {:induction false} ItemsAreNamed(slice: seq<Metric>, name: Text)
    ensures forall m :: m in ItemsOf(Named(slice), name) <==> m in slice && m.name == name
  {
    if slice != [] {
      var n := |slice| - 1;
      assert Named(slice)[..n] == Named(slice[..n]);
      ItemsAreNamed(slice[..n], name);
      assert slice == slice[..n] + [slice[n]];
    }
  }

  // The first metric of a name decides the kind that is exported for all of
  // them, so they keep theirs exactly when the name has one kind per batch.
  lemma KindKeptIffUniform(slice: seq<Metric>, g: Group<Text, Metric>)
    requires g.items == ItemsOf(Named(slice), g.key) != []
    ensures KindKept(slice, Export(g)) <==> OneKind(slice, g.key)
  {
    ItemsAreNamed(slice, g.key);
    var first := g.items[0];
    assert first in g.items;
    if OneKind(slice, g.key) {
      forall m | m in slice && m.name == g.key ensures m.kind == first.kind {
      }
    }
  }
}
