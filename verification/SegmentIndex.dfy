// The segment index of the storage tier: every committed record under its identity,
// at the position it was filed, and the order the index reads its records back in.
module SegmentIndex {
  import opened Core
  import opened EventBody
  import opened Sorting

  const FORMAT := "text/plain"
  const RETENTION := "keep"

  /** One committed record: the body beside the position the segment index filed it at. */
  datatype Stored = Stored(body: Body, partition: int, window: int, slot: nat)

  function BodyOf(e: Event): Body
    requires e.key != ""
  {
    BodyFromEvent(e, FORMAT, RETENTION).value
  }

  function Slot(landed: map<int, nat>, p: int): nat { if p in landed then landed[p] else 0 }

  ghost predicate Fills(segments: map<string, Stored>, p: int, n: nat) {
    exists k :: k in segments && segments[k].partition == p && segments[k].slot == n
  }

  /** The slots of every partition are unique and contiguous from one. */
  ghost predicate SlotsSound(segments: map<string, Stored>, landed: map<int, nat>) {
    && (forall k :: k in segments ==> 1 <= segments[k].slot <= Slot(landed, segments[k].partition))
    && (forall j, k :: j in segments && k in segments && j != k && segments[j].partition == segments[k].partition ==>
        segments[j].slot != segments[k].slot)
    && (forall p, n :: 1 <= n <= Slot(landed, p) ==> Fills(segments, p, n))
  }

  lemma SlotBounds(segments: map<string, Stored>, landed: map<int, nat>)
    requires SlotsSound(segments, landed)
    ensures forall k :: k in segments ==> 1 <= segments[k].slot <= Slot(landed, segments[k].partition)
  {
  }

  lemma SlotsSame(segments: map<string, Stored>, a: map<int, nat>, b: map<int, nat>)
    requires SlotsSound(segments, a) && forall p :: Slot(a, p) == Slot(b, p)
    ensures SlotsSound(segments, b)
  {
  }

  /** A position per partition that no record passes and that some record stands at, is the
      last slot of that partition. */
  lemma LastSlots(segments: map<string, Stored>, landed: map<int, nat>, read: map<int, nat>)
    requires SlotsSound(segments, landed) && forall p :: Slot(read, p) <= Slot(landed, p)
    requires forall k :: k in segments ==> segments[k].slot <= Slot(read, segments[k].partition)
    ensures forall p :: Slot(read, p) == Slot(landed, p)
  {
    forall p ensures Slot(read, p) == Slot(landed, p) {
      if Slot(landed, p) > 0 {
        assert Fills(segments, p, Slot(landed, p));
      }
    }
  }

  /** The next slot of a partition keeps every partition unique and contiguous. */
  lemma SlotTaken(segments: map<string, Stored>, landed: map<int, nat>, key: string, rec: Stored)
    requires SlotsSound(segments, landed) && key !in segments && rec.slot == Slot(landed, rec.partition) + 1
    ensures SlotsSound(segments[key := rec], landed[rec.partition := rec.slot])
  {
    var s, l := segments[key := rec], landed[rec.partition := rec.slot];
    forall p, n | 1 <= n <= Slot(l, p) ensures Fills(s, p, n) {
      if p == rec.partition && n == rec.slot {
        assert s[key].partition == p && s[key].slot == n;
      } else {
        assert Fills(segments, p, n);
        var k :| k in segments && segments[k].partition == p && segments[k].slot == n;
        assert k in s && s[k] == segments[k];
      }
    }
  }

  function PartitionOf(segments: map<string, Stored>, k: string): int { if k in segments then segments[k].partition else 0 }
  function WindowOf(segments: map<string, Stored>, k: string): int { if k in segments then segments[k].window else 0 }
  function SlotOf(segments: map<string, Stored>, k: string): int { if k in segments then segments[k].slot else 0 }

  /** The index order: partition, then window, then slot, then identity. */
  predicate FiledBefore(segments: map<string, Stored>, j: string, k: string) {
    if PartitionOf(segments, j) != PartitionOf(segments, k) then PartitionOf(segments, j) < PartitionOf(segments, k)
    else if WindowOf(segments, j) != WindowOf(segments, k) then WindowOf(segments, j) < WindowOf(segments, k)
    else if SlotOf(segments, j) != SlotOf(segments, k) then SlotOf(segments, j) < SlotOf(segments, k)
    else StringLess(j, k)
  }

  function IndexOrder(segments: map<string, Stored>): (string, string) -> bool {
    (j: string, k: string) => FiledBefore(segments, j, k)
  }

  lemma IndexOrderTotal(segments: map<string, Stored>)
    ensures TotalOrder(IndexOrder(segments))
  {
    StringOrder();
    var less := IndexOrder(segments);
    forall a, b ensures !less(a, a) && (a != b ==> less(a, b) || less(b, a)) {
      assert !StringLess(a, a) && (a != b ==> StringLess(a, b) || StringLess(b, a));
    }
    forall a, b, c | less(a, b) && less(b, c) ensures less(a, c) {
      assert StringLess(a, b) && StringLess(b, c) ==> StringLess(a, c);
    }
  }

  /** Events: every published record once, in index order. */
  function EventKeys(segments: map<string, Stored>): (keys: seq<string>)
    ensures forall k :: k in keys <==> k in segments
    ensures SortedBy(keys, IndexOrder(segments))
  {
    IndexOrderTotal(segments);
    Sorted(segments.Keys, IndexOrder(segments))
  }

  lemma EventKeysDistinct(segments: map<string, Stored>)
    ensures Distinct(EventKeys(segments))
  {
    IndexOrderTotal(segments);
    var keys := EventKeys(segments);
    forall i, j | 0 <= i < j < |keys| ensures keys[i] != keys[j] {
      assert IndexOrder(segments)(keys[i], keys[j]);
    }
  }

  function Reloaded(segments: map<string, Stored>, keys: seq<string>): (l: seq<Event>)
    requires forall k :: k in keys ==> k in segments
    ensures |l| == |keys| && forall i :: 0 <= i < |keys| ==> l[i] == EventOf(segments[keys[i]].body)
  {
    seq(|keys|, i requires 0 <= i < |keys| => EventOf(segments[keys[i]].body))
  }

  lemma ReloadedAppend(segments: map<string, Stored>, keys: seq<string>, k: string)
    requires (forall j :: j in keys ==> j in segments) && k in segments
    ensures forall j :: j in keys + [k] ==> j in segments
    ensures Reloaded(segments, keys + [k]) == Reloaded(segments, keys) + [EventOf(segments[k].body)]
  {
  }
}
