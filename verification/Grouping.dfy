// Ordered-map grouping, as both exporters do it: one group per key, groups in
// key order, each group's items in arrival order.
module Grouping {
  import opened Prelude

  ghost predicate StrictOrder<T(!new)>(lt: (T, T) -> bool) {
    && (forall a :: !lt(a, a))
    && (forall a, b, c :: lt(a, b) && lt(b, c) ==> lt(a, c))
    && (forall a, b :: a == b || lt(a, b) || lt(b, a))
  }

  datatype Group<K, V> = Group(key: K, items: seq<V>)

  /** Append `v` to the group of `k`, making it where the order puts it. */
  function Upsert<K(==), V>(lt: (K, K) -> bool, gs: seq<Group<K, V>>, k: K, v: V): seq<Group<K, V>> {
    if gs == [] || (gs[0].key != k && lt(k, gs[0].key)) then [Group(k, [v])] + gs
    else if gs[0].key == k then [Group(k, gs[0].items + [v])] + gs[1..]
    else [gs[0]] + Upsert(lt, gs[1..], k, v)
  }

  function GroupBy<K(==), V>(lt: (K, K) -> bool, kvs: seq<(K, V)>): seq<Group<K, V>> {
    if kvs == [] then [] else
      var last := kvs[|kvs| - 1];
      Upsert(lt, GroupBy(lt, kvs[..|kvs| - 1]), last.0, last.1)
  }

  lemma {:induction false} GroupByNext<K, V>(lt: (K, K) -> bool, kvs: seq<(K, V)>, more: seq<(K, V)>)
    requires more != [] && more[..|more| - 1] == kvs
    ensures GroupBy(lt, more) == Upsert(lt, GroupBy(lt, kvs), more[|kvs|].0, more[|kvs|].1)
  {
    hide Upsert;
  }

  lemma NoGroups<K, V>(lt: (K, K) -> bool)
    ensures GroupBy<K, V>(lt, []) == []
  {
  }

  /** The items of key `k`, in order. */
  function ItemsOf<K(==), V>(kvs: seq<(K, V)>, k: K): seq<V> {
    if kvs == [] then [] else
      var last := kvs[|kvs| - 1];
      ItemsOf(kvs[..|kvs| - 1], k) + if last.0 == k then [last.1] else []
  }

  ghost predicate Ascending<K, V>(lt: (K, K) -> bool, gs: seq<Group<K, V>>) {
    forall i, j :: 0 <= i < j < |gs| ==> lt(gs[i].key, gs[j].key)
  }

  /** The group of `k`, or no items. */
  function Lookup<K(==), V>(gs: seq<Group<K, V>>, k: K): seq<V> {
    if gs == [] then [] else if gs[0].key == k then gs[0].items else Lookup(gs[1..], k)
  }

  lemma {:induction false} UpsertKeys<K, V>(lt: (K, K) -> bool, gs: seq<Group<K, V>>, k: K, v: V)
    ensures forall g :: g in Upsert(lt, gs, k, v) ==> g.key == k || exists h :: h in gs && h.key == g.key
    ensures (forall g :: g in gs ==> g.items != []) ==> forall g :: g in Upsert(lt, gs, k, v) ==> g.items != []
  {
    if gs != [] && !(gs[0].key != k && lt(k, gs[0].key)) && gs[0].key != k {
      UpsertKeys(lt, gs[1..], k, v);
    }
  }

  lemma {:induction false} UpsertAscends<K(!new), V>(lt: (K, K) -> bool, gs: seq<Group<K, V>>, k: K, v: V)
    requires StrictOrder(lt) && Ascending(lt, gs)
    ensures Ascending(lt, Upsert(lt, gs, k, v))
  {
    if gs != [] && !(gs[0].key != k && lt(k, gs[0].key)) && gs[0].key != k {
      UpsertAscends(lt, gs[1..], k, v);
      UpsertKeys(lt, gs[1..], k, v);
      var r := Upsert(lt, gs[1..], k, v);
      forall j | 0 <= j < |r| ensures lt(gs[0].key, r[j].key) {
        assert r[j] in r;
      }
    }
  }

  lemma {:induction false} UpsertLooksUp<K(!new), V>(lt: (K, K) -> bool, gs: seq<Group<K, V>>, k: K, v: V, q: K)
    requires StrictOrder(lt) && Ascending(lt, gs)
    ensures Lookup(Upsert(lt, gs, k, v), q) == Lookup(gs, q) + (if q == k then [v] else [])
  {
    if gs == [] || (gs[0].key != k && lt(k, gs[0].key)) {
      assert ([Group(k, [v])] + gs)[1..] == gs;
      if q == k {
        LookupMissing(lt, gs, k);
      }
    } else if gs[0].key != k {
      UpsertLooksUp(lt, gs[1..], k, v, q);
      assert ([gs[0]] + Upsert(lt, gs[1..], k, v))[1..] == Upsert(lt, gs[1..], k, v);
    }
  }

  lemma {:induction false} LookupMissing<K(!new), V>(lt: (K, K) -> bool, gs: seq<Group<K, V>>, k: K)
    requires StrictOrder(lt) && Ascending(lt, gs) && (gs != [] ==> lt(k, gs[0].key))
    ensures Lookup(gs, k) == []
  {
    if |gs| > 1 {
      assert lt(gs[0].key, gs[1].key);
      LookupMissing(lt, gs[1..], k);
    }
  }

  lemma {:induction false} LookupPresent<K(!new), V>(lt: (K, K) -> bool, gs: seq<Group<K, V>>, i: nat)
    requires StrictOrder(lt) && Ascending(lt, gs) && i < |gs|
    ensures Lookup(gs, gs[i].key) == gs[i].items
  {
    if i > 0 {
      assert lt(gs[0].key, gs[i].key);
      LookupPresent(lt, gs[1..], i - 1);
    }
  }

  lemma {:induction false} GroupByLooksUp<K(!new), V>(lt: (K, K) -> bool, kvs: seq<(K, V)>, q: K)
    requires StrictOrder(lt)
    ensures
      var gs := GroupBy(lt, kvs);
      && Ascending(lt, gs)
      && Lookup(gs, q) == ItemsOf(kvs, q)
      && forall g :: g in gs ==> g.items != []
  {
    if kvs != [] {
      GroupByLooksUp(lt, kvs[..|kvs| - 1], q);
      var last := kvs[|kvs| - 1];
      var before := GroupBy(lt, kvs[..|kvs| - 1]);
      UpsertAscends(lt, before, last.0, last.1);
      UpsertKeys(lt, before, last.0, last.1);
      UpsertLooksUp(lt, before, last.0, last.1, q);
    }
  }

  // Keys strictly increase, so they are distinct; each group is exactly the
  // input filtered by its key, in order; and every key of the input has one.
  lemma GroupingIsExact<K(!new), V>(lt: (K, K) -> bool, kvs: seq<(K, V)>)
    requires StrictOrder(lt)
    ensures
      var gs := GroupBy(lt, kvs);
      && Ascending(lt, gs)
      && (forall i :: 0 <= i < |gs| ==> gs[i].items == ItemsOf(kvs, gs[i].key) && gs[i].items != [])
      && (forall k :: k in kvs ==> exists i :: 0 <= i < |gs| && gs[i].key == k.0)
  {
    var gs := GroupBy(lt, kvs);
    if kvs != [] {
      GroupByLooksUp(lt, kvs, kvs[0].0);
    }
    forall i | 0 <= i < |gs| ensures gs[i].items == ItemsOf(kvs, gs[i].key) && gs[i].items != [] {
      GroupByLooksUp(lt, kvs, gs[i].key);
      LookupPresent(lt, gs, i);
    }
    forall k | k in kvs ensures exists i :: 0 <= i < |gs| && gs[i].key == k.0 {
      GroupByLooksUp(lt, kvs, k.0);
      ItemsPresent(kvs, k);
      LookupNonEmpty(gs, k.0);
    }
  }

  lemma {:induction false} ItemsPresent<K, V>(kvs: seq<(K, V)>, k: (K, V))
    requires k in kvs
    ensures ItemsOf(kvs, k.0) != []
  {
    if kvs[|kvs| - 1] != k {
      assert k in kvs[..|kvs| - 1];
      ItemsPresent(kvs[..|kvs| - 1], k);
    }
  }

  lemma {:induction false} LookupNonEmpty<K, V>(gs: seq<Group<K, V>>, k: K)
    requires Lookup(gs, k) != []
    ensures exists i :: 0 <= i < |gs| && gs[i].key == k
  {
    if gs[0].key != k {
      LookupNonEmpty(gs[1..], k);
      var i :| 0 <= i < |gs[1..]| && gs[1..][i].key == k;
      assert gs[i + 1].key == k;
    }
  }

  // ---- The orders of the keys -------------------------------------------------

  /** Lexicographic order. */
  predicate Lex<T(==)>(lt: (T, T) -> bool, a: seq<T>, b: seq<T>) {
    b != [] && (a == [] || lt(a[0], b[0]) || (a[0] == b[0] && Lex(lt, a[1..], b[1..])))
  }

  lemma {:induction false} LexIrreflexive<T(!new)>(lt: (T, T) -> bool, a: seq<T>)
    requires StrictOrder(lt)
    ensures !Lex(lt, a, a)
  {
    if a != [] {
      LexIrreflexive(lt, a[1..]);
    }
  }

  lemma {:induction false} LexTransitive<T(!new)>(lt: (T, T) -> bool, a: seq<T>, b: seq<T>, c: seq<T>)
    requires StrictOrder(lt) && Lex(lt, a, b) && Lex(lt, b, c)
    ensures Lex(lt, a, c)
  {
    if a != [] && a[0] == b[0] == c[0] {
      LexIrreflexive(lt, a);
      LexTransitive(lt, a[1..], b[1..], c[1..]);
    }
  }

  lemma {:induction false} LexTotal<T(!new)>(lt: (T, T) -> bool, a: seq<T>, b: seq<T>)
    requires StrictOrder(lt)
    ensures a == b || Lex(lt, a, b) || Lex(lt, b, a)
  {
    if a != [] && b != [] && a[0] == b[0] {
      LexTotal(lt, a[1..], b[1..]);
      assert a == [a[0]] + a[1..] && b == [b[0]] + b[1..];
    }
  }

  lemma LexIsStrictOrder<T(!new)>(lt: (T, T) -> bool)
    requires StrictOrder(lt)
    ensures StrictOrder((a, b) => Lex(lt, a, b))
  {
    forall a, b, c ensures !Lex(lt, a, a) && (Lex(lt, a, b) && Lex(lt, b, c) ==> Lex(lt, a, c)) {
      LexIrreflexive(lt, a);
      if Lex(lt, a, b) && Lex(lt, b, c) {
        LexTransitive(lt, a, b, c);
      }
    }
    forall a, b ensures a == b || Lex(lt, a, b) || Lex(lt, b, a) {
      LexTotal(lt, a, b);
    }
  }

  predicate TextLess(a: Text, b: Text) {
    Lex((x: char, y: char) => x < y, a, b)
  }

  predicate PairLess(a: (Text, Text), b: (Text, Text)) {
    TextLess(a.0, b.0) || (a.0 == b.0 && TextLess(a.1, b.1))
  }

  predicate LabelsLess(a: seq<(Text, Text)>, b: seq<(Text, Text)>) {
    Lex(PairLess, a, b)
  }

  lemma KeyOrders()
    ensures StrictOrder(TextLess) && StrictOrder(PairLess) && StrictOrder(LabelsLess)
  {
    TextOrder();
    PairOrder();
    LexIsStrictOrder(PairLess);
    var f := (a, b) => Lex(PairLess, a, b);
    forall a, b ensures f(a, b) == LabelsLess(a, b) {
    }
  }

  lemma TextOrder()
    ensures StrictOrder(TextLess)
  {
    var lt := (x: char, y: char) => x < y;
    LexIsStrictOrder(lt);
    var f := (a, b) => Lex(lt, a, b);
    forall a, b ensures f(a, b) == TextLess(a, b) {
    }
  }

  lemma PairOrder()
    ensures StrictOrder(PairLess)
  {
    TextOrder();
  }
}
