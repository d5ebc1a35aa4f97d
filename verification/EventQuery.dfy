// The declarative event query: a filtered set of records, in one total order, cut
// into pages, and the two tables that answer it.
module EventQuery {
  import opened Core
  import opened Sorting
  import EventBody

  datatype Record = Record(key: string, partition: int, kind: EventBody.Kind, summary: string, content: string, timestamp: int, window: int)

  datatype Reference = Reference(key: string, partition: int, kind: EventBody.Kind, summary: string, timestamp: int)

  datatype Options = Options(
    partition: int, partitions: seq<int>, kinds: seq<EventBody.Kind>,
    startTime: int, endTime: int, limit: int, offset: int, orderBy: string, keyword: string)

  datatype Answer = Page(refs: seq<Reference>) | UnknownOrder | NegativePaging

  const ASC := "asc"
  const DESC := "desc"

  function ReferenceOf(r: Record): Reference { Reference(r.key, r.partition, r.kind, r.summary, r.timestamp) }

  function LowerChar(c: char): char { if 'A' <= c <= 'Z' then c - 'A' + 'a' else c }

  function Lower(s: string): (r: string)
    ensures |r| == |s|
  {
    seq(|s|, i requires 0 <= i < |s| => LowerChar(s[i]))
  }

  predicate Contains(s: string, part: string) {
    exists i :: 0 <= i <= |s| && part <= s[i..]
  }

  predicate KeywordMatches(keyword: string, r: Record) {
    Contains(Lower(r.summary), keyword) || Contains(Lower(r.content), keyword)
  }

  /** resolvePartitions: the named set, or the one partition; nothing named scans nothing. */
  method ResolvePartitions(o: Options) returns (partitions: seq<int>)
    ensures forall p :: p in partitions <==> InScope(o, p)
    ensures Distinct(partitions)
  {
    partitions := [];
    if |o.partitions| > 0 {
      for i := 0 to |o.partitions|
        invariant forall p :: p in partitions <==> p in o.partitions[..i]
        invariant Distinct(partitions)
      {
        assert o.partitions[..i + 1] == o.partitions[..i] + [o.partitions[i]];
        if o.partitions[i] !in partitions {
          partitions := partitions + [o.partitions[i]];
        }
      }
      assert o.partitions[..|o.partitions|] == o.partitions;
      return;
    }
    if o.partition != 0 { partitions := [o.partition]; }
  }

  predicate InScope(o: Options, p: int) {
    if o.partitions != [] then p in o.partitions else o.partition != 0 && p == o.partition
  }

  /** The record takes part in the answer. */
  predicate Admits(o: Options, r: Record) {
    && InScope(o, r.partition)
    && (o.startTime > 0 ==> r.timestamp >= o.startTime)
    && (o.endTime > 0 ==> r.timestamp <= o.endTime)
    && (o.kinds != [] ==> r.kind in o.kinds)
    && (o.keyword != "" ==> KeywordMatches(Lower(o.keyword), r))
  }

  function Matching(byKey: map<string, Record>, o: Options): set<string> {
    set k | k in byKey && Admits(o, byKey[k])
  }

  function TimeOf(byKey: map<string, Record>, k: string): int { if k in byKey then byKey[k].timestamp else 0 }

  /** The tie-breaker contract: events of one millisecond are ordered by their key. */
  predicate Earlier(byKey: map<string, Record>, j: string, k: string) {
    if TimeOf(byKey, j) != TimeOf(byKey, k) then TimeOf(byKey, j) < TimeOf(byKey, k) else StringLess(j, k)
  }

  function Direction(byKey: map<string, Record>, descending: bool): (string, string) -> bool {
    (j: string, k: string) => if descending then Earlier(byKey, k, j) else Earlier(byKey, j, k)
  }

  lemma DirectionTotal(byKey: map<string, Record>, descending: bool)
    ensures TotalOrder(Direction(byKey, descending))
  {
    StringOrder();
    var less := Direction(byKey, descending);
    forall a, b ensures !less(a, a) && (a != b ==> less(a, b) || less(b, a)) {
      assert !StringLess(a, a) && (a != b ==> StringLess(a, b) || StringLess(b, a));
    }
    forall a, b, c | less(a, b) && less(b, c) ensures less(a, c) {
      assert StringLess(a, b) && StringLess(b, c) ==> StringLess(a, c);
      assert StringLess(c, b) && StringLess(b, a) ==> StringLess(c, a);
    }
  }

  /** The whole answer before it is cut: the matching keys in their order. */
  function Ordered(byKey: map<string, Record>, o: Options): (keys: seq<string>)
    ensures forall k :: k in keys <==> k in Matching(byKey, o)
  {
    DirectionTotal(byKey, o.orderBy == DESC);
    Sorted(Matching(byKey, o), Direction(byKey, o.orderBy == DESC))
  }

  function References(byKey: map<string, Record>, keys: seq<string>): (refs: seq<Reference>)
    requires forall k :: k in keys ==> k in byKey
    ensures |refs| == |keys| && forall i :: 0 <= i < |keys| ==> refs[i] == ReferenceOf(byKey[keys[i]])
  {
    seq(|keys|, i requires 0 <= i < |keys| => ReferenceOf(byKey[keys[i]]))
  }

  /** The page of a sequence: what stands from the offset on, up to the limit. */
  function Cut<T>(all: seq<T>, offset: nat, limit: nat): seq<T> {
    var from := if offset < |all| then offset else |all|;
    var to := if limit > 0 && limit < |all| - from then from + limit else |all|;
    all[from..to]
  }

  function Query(byKey: map<string, Record>, o: Options): Answer {
    if o.orderBy != "" && o.orderBy != ASC && o.orderBy != DESC then UnknownOrder
    else if o.offset < 0 || o.limit < 0 then NegativePaging
    else Page(Cut(References(byKey, Ordered(byKey, o)), o.offset, o.limit))
  }

  // --- what a page holds, by the fields of its references ---

  /** Every record is stored under its own key. */
  ghost predicate Keyed(byKey: map<string, Record>) {
    forall k :: k in byKey ==> byKey[k].key == k
  }

  /** Earlier times first, and one time by the key; no reference stands twice. */
  ghost predicate ByTimeThenKey(refs: seq<Reference>) {
    forall i, j :: 0 <= i < j < |refs| ==>
      || refs[i].timestamp < refs[j].timestamp
      || (refs[i].timestamp == refs[j].timestamp && StringLess(refs[i].key, refs[j].key))
  }

  /** The part stands somewhere in the text, upper and lower case alike. */
  ghost predicate Spells(text: string, part: string) {
    exists i :: 0 <= i <= |text| - |part| && SpelledAt(text, part, i)
  }

  ghost predicate SpelledAt(text: string, part: string, i: nat)
    requires i <= |text| - |part|
  {
    forall j :: 0 <= j < |part| ==> LowerChar(text[i + j]) == LowerChar(part[j])
  }

  /** The record lies in the partitions, the times, the kinds and the keyword a query asks
      for; a part left empty asks for nothing, but no partition at all scans none. */
  ghost predicate Asked(o: Options, r: Record) {
    && (r.partition in o.partitions || (o.partitions == [] && o.partition != 0 && r.partition == o.partition))
    && (o.startTime <= 0 || o.startTime <= r.timestamp)
    && (o.endTime <= 0 || r.timestamp <= o.endTime)
    && (o.kinds == [] || r.kind in o.kinds)
    && (o.keyword == "" || Spells(r.summary, o.keyword) || Spells(r.content, o.keyword))
  }

  /** The references are those of exactly the records asked for, field by field. */
  ghost predicate HoldsAsked(byKey: map<string, Record>, o: Options, refs: seq<Reference>) {
    && (forall k :: k in byKey && Asked(o, byKey[k]) ==>
        Reference(byKey[k].key, byKey[k].partition, byKey[k].kind, byKey[k].summary, byKey[k].timestamp) in refs)
    && (forall f :: f in refs ==> exists k :: (
          && k in byKey && Asked(o, byKey[k])
          && f == Reference(byKey[k].key, byKey[k].partition, byKey[k].kind, byKey[k].summary, byKey[k].timestamp)))
  }

  lemma QueryOrdered(byKey: map<string, Record>, o: Options)
    requires Keyed(byKey)
    ensures Query(byKey, o).Page? && o.orderBy != DESC ==> ByTimeThenKey(Query(byKey, o).refs)
    ensures Query(byKey, o).Page? && o.orderBy == DESC ==> ByTimeThenKey(Reverse(Query(byKey, o).refs))
  {
    hide Ordered, Cut, References, ByTimeThenKey, Reverse, SortedBy, Direction;
    if Query(byKey, o).Page? {
      OrderedSorted(byKey, o, o.orderBy == DESC);
      CutOrdered(byKey, Ordered(byKey, o), o.orderBy == DESC, o.offset, o.limit);
    }
  }

  /** The order of the keys is the order of the fields of their references. */
  lemma CutOrdered(byKey: map<string, Record>, keys: seq<string>, descending: bool, offset: nat, limit: nat)
    requires Keyed(byKey) && (forall k :: k in keys ==> k in byKey) && SortedBy(keys, Direction(byKey, descending))
    ensures var refs := Cut(References(byKey, keys), offset, limit);
            ByTimeThenKey(if descending then Reverse(refs) else refs)
  {
    hide StringLess, Reverse;
    var all := References(byKey, keys);
    var refs := Cut(all, offset, limit);
    var from := if offset < |all| then offset else |all|;
    forall i | 0 <= i < |all| ensures all[i].key == keys[i] && all[i].timestamp == TimeOf(byKey, keys[i]) {
      assert keys[i] in keys;
    }
    forall i, j | 0 <= i < j < |refs|
      ensures Earlier(byKey, if descending then refs[j].key else refs[i].key, if descending then refs[i].key else refs[j].key)
      ensures refs[i].timestamp == TimeOf(byKey, refs[i].key) && refs[j].timestamp == TimeOf(byKey, refs[j].key)
    {
      assert refs[i] == all[from + i] && refs[j] == all[from + j];
      assert Direction(byKey, descending)(keys[from + i], keys[from + j]);
    }
  }

  lemma QueryHolds(byKey: map<string, Record>, o: Options)
    ensures Query(byKey, o).Page? && o.offset == 0 && o.limit == 0 ==> HoldsAsked(byKey, o, Query(byKey, o).refs)
  {
    hide Ordered, Admits, Asked, HoldsAsked, References;
    if Query(byKey, o).Page? && o.offset == 0 && o.limit == 0 {
      forall k | k in byKey ensures Admits(o, byKey[k]) <==> Asked(o, byKey[k]) { AdmitsAsked(o, byKey[k]); }
      ReferencesHold(byKey, o, Ordered(byKey, o));
      assert Cut(References(byKey, Ordered(byKey, o)), 0, 0) == References(byKey, Ordered(byKey, o));
    }
  }

  lemma ReferencesHold(byKey: map<string, Record>, o: Options, keys: seq<string>)
    requires forall k :: k in keys <==> k in byKey && Asked(o, byKey[k])
    ensures HoldsAsked(byKey, o, References(byKey, keys))
  {
    hide Asked;
    var refs := References(byKey, keys);
    forall k | k in byKey && Asked(o, byKey[k]) ensures ReferenceOf(byKey[k]) in refs {
      var i :| 0 <= i < |keys| && keys[i] == k;
      assert refs[i] == ReferenceOf(byKey[k]);
    }
    forall f | f in refs ensures exists k :: k in byKey && Asked(o, byKey[k]) && f == ReferenceOf(byKey[k]) {
      var i :| 0 <= i < |refs| && refs[i] == f;
      assert keys[i] in keys;
    }
  }

  lemma AdmitsAsked(o: Options, r: Record)
    ensures Admits(o, r) <==> Asked(o, r)
  {
    ContainsSpells(r.summary, o.keyword);
    ContainsSpells(r.content, o.keyword);
    hide Contains, Spells;
  }

  lemma ContainsSpells(text: string, part: string)
    ensures Contains(Lower(text), Lower(part)) <==> Spells(text, part)
  {
    hide LowerChar;
    var t, p := Lower(text), Lower(part);
    if Contains(t, p) {
      var i :| 0 <= i <= |t| && p <= t[i..];
      forall j | 0 <= j < |part| ensures LowerChar(text[i + j]) == LowerChar(part[j]) {
        assert p[j] == t[i..][j];
      }
      assert SpelledAt(text, part, i);
    }
    if Spells(text, part) {
      var i :| 0 <= i <= |text| - |part| && SpelledAt(text, part, i);
      forall j | 0 <= j < |p| ensures p[j] == t[i..][j] {
        assert LowerChar(text[i + j]) == LowerChar(part[j]);
      }
      assert p <= t[i..];
    }
  }

  /** queryEventRecords: filter, then order, then page. */
  method QueryEventRecords(byKey: map<string, Record>, o: Options) returns (a: Answer)
    ensures a == Query(byKey, o)
    ensures a.UnknownOrder? <==> o.orderBy !in {"", "asc", "desc"}
    ensures a.NegativePaging? <==> o.orderBy in {"", "asc", "desc"} && (o.offset < 0 || o.limit < 0)
    ensures a.Page? && Keyed(byKey) && o.orderBy != "desc" ==> ByTimeThenKey(a.refs)
    ensures a.Page? && Keyed(byKey) && o.orderBy == "desc" ==> ByTimeThenKey(Reverse(a.refs))
    ensures a.Page? && o.offset == 0 && o.limit == 0 ==> HoldsAsked(byKey, o, a.refs)
  {
    if Keyed(byKey) { QueryOrdered(byKey, o); }
    QueryHolds(byKey, o);
    if o.orderBy != "" && o.orderBy != ASC && o.orderBy != DESC { return UnknownOrder; }
    if o.offset < 0 || o.limit < 0 { return NegativePaging; }
    var matched := MatchingKeys(byKey, o);
    DirectionTotal(byKey, o.orderBy == DESC);
    hide *;
    var all := References(byKey, Sorted(matched, Direction(byKey, o.orderBy == DESC)));
    var refs := all;
    CutSteps(all, o.offset, o.limit);
    if o.offset > 0 {
      if o.offset >= |refs| { return Page([]); }
      refs := refs[o.offset..];
    }
    if o.limit > 0 && o.limit < |refs| { refs := refs[..o.limit]; }
    a := Page(refs);
  }

  lemma CutSteps<T>(all: seq<T>, offset: nat, limit: nat)
    ensures offset > 0 && offset >= |all| ==> Cut(all, offset, limit) == []
    ensures var rest := if offset < |all| then all[offset..] else if offset == 0 then all else [];
            offset < |all| || offset == 0 ==> Cut(all, offset, limit) == if limit > 0 && limit < |rest| then rest[..limit] else rest
  {
  }

  /** The filter over every record the table holds. */
  method MatchingKeys(byKey: map<string, Record>, o: Options) returns (matched: set<string>)
    ensures matched == Matching(byKey, o)
  {
    var partitions := ResolvePartitions(o);
    var keyword := Lower(o.keyword);
    matched := {};
    var todo := byKey.Keys;
    while todo != {}
      invariant todo <= byKey.Keys && matched == set k | k in byKey.Keys - todo && Admits(o, byKey[k])
    {
      var k :| k in todo;
      todo := todo - {k};
      var r := byKey[k];
      if r.partition !in partitions { continue; }
      if o.startTime > 0 && r.timestamp < o.startTime { continue; }
      if o.endTime > 0 && r.timestamp > o.endTime { continue; }
      if |o.kinds| > 0 && r.kind !in o.kinds { continue; }
      if keyword != "" && !KeywordMatches(keyword, r) { continue; }
      matched := matched + {k};
    }
  }

  // --- what an answer is ---

  /** The descending answer is exactly the ascending one read backwards. */
  lemma DescendingReverses(byKey: map<string, Record>, o: Options)
    requires o.orderBy == "" || o.orderBy == ASC
    ensures References(byKey, Ordered(byKey, o.(orderBy := DESC))) == Reverse(References(byKey, Ordered(byKey, o)))
  {
    assert o.orderBy != DESC;
    hide *;
    var down := o.(orderBy := DESC);
    OrderedSorted(byKey, o, false);
    OrderedSorted(byKey, down, true);
    DirectionTotal(byKey, true);
    Opposite(byKey);
    SameMatching(byKey, o);
    ReverseSorted(Ordered(byKey, o), Ordered(byKey, down), Direction(byKey, false), Direction(byKey, true));
    ReverseReferences(byKey, Ordered(byKey, o));
  }

  lemma OrderedSorted(byKey: map<string, Record>, o: Options, descending: bool)
    requires descending == (o.orderBy == DESC)
    ensures SortedBy(Ordered(byKey, o), Direction(byKey, descending))
    ensures forall k :: k in Ordered(byKey, o) ==> k in byKey
  {
    DirectionTotal(byKey, descending);
  }

  lemma Opposite(byKey: map<string, Record>)
    ensures forall a, b :: Direction(byKey, true)(a, b) == Direction(byKey, false)(b, a)
  {
    hide StringLess;
  }

  lemma SameMatching(byKey: map<string, Record>, o: Options)
    ensures forall k :: k in Ordered(byKey, o) <==> k in Ordered(byKey, o.(orderBy := DESC))
  {
    hide Ordered;
    assert Matching(byKey, o) == Matching(byKey, o.(orderBy := DESC));
  }

  lemma ReverseReferences(byKey: map<string, Record>, keys: seq<string>)
    requires forall k :: k in keys ==> k in byKey
    ensures forall k :: k in Reverse(keys) ==> k in byKey
    ensures References(byKey, Reverse(keys)) == Reverse(References(byKey, keys))
  {
    hide Reverse;
    var back := Reverse(keys);
    forall k | k in back ensures k in byKey {
      var i :| 0 <= i < |back| && back[i] == k;
      assert keys[|keys| - 1 - i] in keys;
    }
  }

  /** The pages of one size, one after the other. */
  function Pages<T>(all: seq<T>, size: nat, n: nat): seq<T> {
    if n == 0 then [] else Pages(all, size, n - 1) + Cut(all, (n - 1) * size, size)
  }

  /** Enough pages of one size concatenate to the unpaged answer, nothing twice and nothing
      left out. */
  lemma {:induction false} PagesConcatenate<T>(all: seq<T>, size: nat, n: nat)
    requires size > 0
    ensures Pages(all, size, n) == all[..if n * size < |all| then n * size else |all|]
  {
    if n > 0 {
      PagesConcatenate(all, size, n - 1);
      assert n * size == (n - 1) * size + size;
      var from := if (n - 1) * size < |all| then (n - 1) * size else |all|;
      var to := if n * size < |all| then n * size else |all|;
      assert Cut(all, (n - 1) * size, size) == all[from..to];
      assert all[..from] + all[from..to] == all[..to];
    } else {
      assert all[..0] == [];
    }
  }

  lemma QueryPages(byKey: map<string, Record>, o: Options, size: nat, i: nat)
    requires o.orderBy == "" || o.orderBy == ASC || o.orderBy == DESC
    requires o.offset == 0 && o.limit == 0 && size > 0
    ensures Query(byKey, o) == Page(References(byKey, Ordered(byKey, o)))
    ensures Query(byKey, o.(offset := PageStart(i, size), limit := size)) == Page(Cut(Query(byKey, o).refs, PageStart(i, size), size))
  {
    hide PageStart, Sorted, Direction, KeywordMatches;
    assert Matching(byKey, o) == Matching(byKey, o.(offset := PageStart(i, size), limit := size));
  }

  /** Where the i-th page of one size starts. */
  function PageStart(i: nat, size: nat): nat { i * size }

  // --- the tables ---

  /** Store: a repeat keeps the record of the higher window. */
  function StoreOne(byKey: map<string, Record>, r: Record): map<string, Record> {
    if r.key == "" || (r.key in byKey && byKey[r.key].window >= r.window) then byKey else byKey[r.key := r]
  }

  function StoreAll(byKey: map<string, Record>, rs: seq<Record>): map<string, Record> {
    if rs == [] then byKey else StoreOne(StoreAll(byKey, rs[..|rs| - 1]), rs[|rs| - 1])
  }

  /** One key at one window carries one record. */
  ghost predicate Consistent(rs: seq<Record>) {
    forall a, b :: a in rs && b in rs && a.key == b.key && a.window == b.window ==> a == b
  }

  /** The stored record of a key is the one of its highest window. */
  lemma {:induction false} HighestWindow(rs: seq<Record>, k: string)
    ensures k in StoreAll(map[], rs) <==> k != "" && exists r :: r in rs && r.key == k
    ensures k in StoreAll(map[], rs) ==>
              && StoreAll(map[], rs)[k] in rs && StoreAll(map[], rs)[k].key == k
              && forall r :: r in rs && r.key == k ==> r.window <= StoreAll(map[], rs)[k].window
  {
    if rs != [] {
      var init, last := rs[..|rs| - 1], rs[|rs| - 1];
      HighestWindow(init, k);
      assert forall r :: r in rs <==> r in init || r == last;
    }
  }

  /** Whatever the arrival order, and however often a record arrives, the table is the same. */
  lemma StoreOrderIrrelevant(a: seq<Record>, b: seq<Record>)
    requires Consistent(a) && forall r :: r in a <==> r in b
    ensures StoreAll(map[], a) == StoreAll(map[], b)
  {
    forall k ensures Lookup(StoreAll(map[], a), k) == Lookup(StoreAll(map[], b), k) {
      HighestWindow(a, k);
      HighestWindow(b, k);
    }
    var x, y := StoreAll(map[], a), StoreAll(map[], b);
    assert forall k :: k in x <==> Lookup(x, k).Some?;
    assert forall k :: k in y <==> Lookup(y, k).Some?;
  }

  /** One committed event as the store publishes it; the body is what its bytes decode to. */
  datatype Published = Published(key: string, partition: int, window: int, body: Option<EventBody.Body>)

  const SUMMARY := "event_summary"

  function RecordOf(b: EventBody.Body, partition: int, window: int): Record {
    Record(b.key, partition, b.kind, if SUMMARY in b.meta then b.meta[SUMMARY] else "", b.message.content, b.timestamp, window)
  }

  predicate Lands(p: Published) { p.body.Some? && p.body.value.key == p.key && p.key != "" }

  class MemoryEventQuery {
    var byKey: map<string, Record>

    constructor ()
      ensures Keyed(byKey) && byKey == map[]
    {
      byKey := map[];
    }

    method Store(r: Record) returns (ok: bool)
      requires Keyed(byKey)
      modifies this
      ensures Keyed(byKey)
      ensures ok <==> r.key != ""
      ensures byKey == StoreOne(old(byKey), r)
    {
      if r.key == "" { return false; }
      ok := true;
      if r.key in byKey && byKey[r.key].window >= r.window { return; }
      byKey := byKey[r.key := r];
    }

    method QueryEvents(o: Options) returns (a: Answer)
      requires Keyed(byKey)
      ensures a == Query(byKey, o)
      ensures a.Page? ==> ByTimeThenKey(if o.orderBy == "desc" then Reverse(a.refs) else a.refs)
      ensures a.Page? && o.offset == 0 && o.limit == 0 ==> HoldsAsked(byKey, o, a.refs)
    {
      a := QueryEventRecords(byKey, o);
    }
  }

  class StoreQuerySource {
    /** the record a query reads, beside the format and retention the original is recalled under */
    var entries: map<string, (Record, (string, string))>

    ghost predicate Valid()
      reads this
    {
      forall k :: k in entries ==> entries[k].0.key == k && k != ""
    }

    function Records(): map<string, Record>
      reads this
    {
      map k | k in entries :: entries[k].0
    }

    constructor ()
      ensures Valid() && Records() == map[]
    {
      entries := map[];
    }

    /** LandEvent: bytes that do not decode, or whose key disagrees with the stored one, are
        refused and land nothing. */
    method LandEvent(p: Published) returns (ok: bool)
      requires Valid()
      modifies this
      ensures Valid() && (ok <==> Lands(p))
      ensures Records() == if Lands(p) then StoreOne(old(Records()), RecordOf(p.body.value, p.partition, p.window)) else old(Records())
    {
      if p.body.None? || p.body.value.key == "" || p.body.value.key != p.key { return false; }
      ok := true;
      if p.key in entries && entries[p.key].0.window >= p.window { return; }
      entries := entries[p.key := (RecordOf(p.body.value, p.partition, p.window), (p.body.value.format, p.body.value.retention))];
    }

    /** ObserveStore: every published event is landed, up to the first that is refused. */
    method ObserveStore(events: seq<Published>) returns (ok: bool)
      requires Valid()
      modifies this
      ensures Valid() && (ok <==> forall p :: p in events ==> Lands(p))
      ensures Records() == StoreAll(old(Records()), RecordsOf(events[..LandingCount(events)]))
    {
      for i := 0 to |events|
        invariant Valid() && forall j :: 0 <= j < i ==> Lands(events[j])
        invariant Records() == StoreAll(old(Records()), RecordsOf(events[..i]))
      {
        ok := LandEvent(events[i]);
        if !ok {
          assert events[i] in events;
          LandingUpTo(events, i);
          return;
        }
        var done := RecordsOf(events[..i + 1]);
        assert done[..i] == RecordsOf(events[..i]);
      }
      assert events[..|events|] == events;
      LandingUpTo(events, |events|);
      ok := true;
    }

    method QueryEvents(o: Options) returns (a: Answer)
      requires Valid()
      ensures a == Query(Records(), o)
      ensures a.Page? ==> ByTimeThenKey(if o.orderBy == "desc" then Reverse(a.refs) else a.refs)
      ensures a.Page? && o.offset == 0 && o.limit == 0 ==> HoldsAsked(Records(), o, a.refs)
    {
      a := QueryEventRecords(Records(), o);
    }
  }

  /** How many events land before the first that is refused. */
  function LandingCount(events: seq<Published>): (n: nat)
    ensures n <= |events| && (forall i :: 0 <= i < n ==> Lands(events[i])) && (n < |events| ==> !Lands(events[n]))
  {
    if events == [] || !Lands(events[0]) then 0 else 1 + LandingCount(events[1..])
  }

  lemma LandingUpTo(events: seq<Published>, n: nat)
    requires n <= |events| && (forall i :: 0 <= i < n ==> Lands(events[i])) && (n < |events| ==> !Lands(events[n]))
    ensures LandingCount(events) == n
  {
  }

  /** The records of published events that all decode. */
  function RecordsOf(events: seq<Published>): (rs: seq<Record>)
    ensures |rs| == |events|
  {
    seq(|events|, i requires 0 <= i < |events| =>
      if events[i].body.Some? then RecordOf(events[i].body.value, events[i].partition, events[i].window)
      else Record("", 0, EventBody.Feedback, "", "", 0, 0))
  }

  /** Both sources answer alike: a table that landed the published events, in whatever order
      and however often, answers every query as one the records were stored into directly. */
  lemma SourcesAgree(events: seq<Published>, rs: seq<Record>, o: Options)
    requires Consistent(RecordsOf(events)) && forall r :: r in rs <==> r in RecordsOf(events)
    ensures Query(StoreAll(map[], RecordsOf(events)), o) == Query(StoreAll(map[], rs), o)
  {
    StoreOrderIrrelevant(RecordsOf(events), rs);
  }

  /** Observing a store again over unchanged state moves nothing. */
  lemma ObserveTwice(rs: seq<Record>)
    requires Consistent(rs)
    ensures StoreAll(map[], rs + rs) == StoreAll(map[], rs)
  {
    StoreOrderIrrelevant(rs, rs + rs);
  }
}
