// The durable fact log the host commits through: put stages a pair, the barrier
// makes everything staged stored, a read never answers a staged pair, and a stop
// keeps, for each key on its own, the stored value or any value staged since.
module FactLog {
  import opened Core

  /** stored  the pairs a completed barrier covers
      view    stored beside the pairs staged after it
      staged  every value staged under a key since that barrier */
  datatype Log<K(==), V(==)> = Log(stored: map<K, V>, view: map<K, V>, staged: map<K, set<V>>)

  function StagedOf<K(==), V(==)>(l: Log<K, V>, k: K): set<V> {
    if k in l.staged then l.staged[k] else {}
  }

  /** What a stop at this moment may leave under a key. */
  predicate MayStand<K(==), V(==)>(l: Log<K, V>, k: K, r: Option<V>) {
    r == Lookup(l.stored, k) || (r.Some? && r.value in StagedOf(l, k))
  }

  predicate WellFormed<K(==), V(==)>(l: Log<K, V>) {
    && (forall k :: k in l.view ==>
        if k in l.staged then l.view[k] in l.staged[k] else k in l.stored && l.view[k] == l.stored[k])
    && (forall k :: k in l.stored ==> k in l.view)
    && (forall k :: k in l.staged ==> k in l.view)
  }

  /** m is one of the states a stop may leave. */
  predicate Survives<K(==), V(==)>(l: Log<K, V>, m: map<K, V>) {
    && (forall k :: k in l.stored ==> k in m)
    && (forall k :: k in m ==> MayStand(l, k, Some(m[k])))
  }

  function Empty<K(==), V(==)>(): Log<K, V> { Log(map[], map[], map[]) }

  function Stage<K(==), V(==)>(l: Log<K, V>, k: K, v: V): Log<K, V> {
    l.(view := l.view[k := v], staged := l.staged[k := StagedOf(l, k) + {v}])
  }

  function Barrier<K(==), V(==)>(l: Log<K, V>): Log<K, V> { Log(l.view, l.view, map[]) }

  function Rested<K(==), V(==)>(m: map<K, V>): Log<K, V> { Log(m, m, map[]) }

  /** Whatever may stand in t could stand in s, and no stored key left. */
  ghost predicate Fewer<K(!new), V(!new)>(s: Log<K, V>, t: Log<K, V>) {
    && (forall k, r :: MayStand(t, k, r) ==> MayStand(s, k, r))
    && (forall k :: k in s.stored ==> k in t.stored)
  }

  /** As Fewer, beside one value that may stand under k now. */
  ghost predicate FewerBut<K(!new), V(!new)>(s: Log<K, V>, t: Log<K, V>, k: K, v: V) {
    && (forall j, r :: MayStand(t, j, r) ==> MayStand(s, j, r) || (j == k && r == Some(v)))
    && (forall j :: j in s.stored ==> j in t.stored)
  }

  lemma StageStep<K(!new), V(!new)>(l: Log<K, V>, k: K, v: V)
    requires WellFormed(l)
    ensures WellFormed(Stage(l, k, v)) && FewerBut(l, Stage(l, k, v), k, v)
  {
  }

  lemma BarrierStep<K(!new), V(!new)>(l: Log<K, V>)
    requires WellFormed(l)
    ensures WellFormed(Barrier(l)) && Fewer(l, Barrier(l))
  {
    forall k, r | MayStand(Barrier(l), k, r) ensures MayStand(l, k, r) {
      if k in l.view {
        assert MayStand(l, k, Some(l.view[k]));
      }
    }
  }

  /** A stop, or a barrier that landed only in part, brings nothing new back. */
  lemma SurvivorStep<K(!new), V(!new)>(l: Log<K, V>, m: map<K, V>)
    requires WellFormed(l) && Survives(l, m)
    ensures WellFormed(Rested(m)) && Fewer(l, Rested(m))
    ensures WellFormed(l.(stored := m)) && Fewer(l, l.(stored := m))
  {
    var t := l.(stored := m);
    forall k, r | MayStand(Rested(m), k, r) || MayStand(t, k, r) ensures MayStand(l, k, r) {
      if r.None? {
        assert k !in m;
      } else if k in m && r.value == m[k] {
        assert MayStand(l, k, Some(m[k]));
      }
    }
    forall k | k in m ensures k in l.view {
      assert MayStand(l, k, Some(m[k]));
    }
    forall k | k in t.view && k !in t.staged ensures k in m && m[k] == t.view[k] {
      assert MayStand(l, k, Some(m[k]));
    }
  }

  lemma ViewSurvives<K(!new), V(!new)>(l: Log<K, V>)
    requires WellFormed(l)
    ensures Survives(l, l.view)
  {
  }

  /** A put that staged nothing, and one a stop followed. */
  lemma PutLeaves<K(!new), V(!new)>(l: Log<K, V>, k: K, v: V)
    requires WellFormed(l)
    ensures FewerBut(l, l, k, v)
    ensures WellFormed(Stage(l, k, v)) && FewerBut(l, Stage(l, k, v), k, v)
    ensures forall t :: Fewer(Stage(l, k, v), t) ==> FewerBut(l, t, k, v)
  {
    StageStep(l, k, v);
    forall t | Fewer(Stage(l, k, v), t) ensures FewerBut(l, t, k, v) {
      forall j, r | MayStand(t, j, r) ensures MayStand(l, j, r) || (j == k && r == Some(v)) {
        assert MayStand(Stage(l, k, v), j, r);
      }
    }
  }
}
