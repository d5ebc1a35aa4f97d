// The mapped sequence of one session chain beside the boundary of its ended
// material: an output closes the segment before it, an input opens the next
// range, and everything behind an open range's first input is carried by the
// range itself. The notice cursor reads the sequence from that boundary.
module MappedSequence {
  import opened Core
  import opened EventBody

  datatype Entry = Entry(key: string, kind: Kind, content: string)

  /** endedAt names an entry by its identity; the empty identity names none. */
  datatype Replay = Replay(entries: seq<Entry>, endedAt: string, rangeOpen: bool)

  const DELEGATED_PART := "delegated_part"
  const TRIGGER_SOURCE := "trigger_source"

  function Meta(e: Event, name: string): string { if name in e.meta then e.meta[name] else "" }

  /** admitsRange: a ready input that is no part of a delegated batch, or the notice an
      unattended turn commits at its head. */
  predicate AdmitsRange(e: Event) {
    if e.kind.ExternalInput? then Meta(e, DELEGATED_PART) != "instruction" && Meta(e, DELEGATED_PART) != "material"
    else e.kind.Feedback? && Meta(e, TRIGGER_SOURCE) == "task"
  }

  function MappedContent(m: Message): string {
    if m.content != "" then m.content
    else if m.calls != [] then CallNames(m.calls)
    else if m.toolName != "" then "[tool " + m.toolName + " returned no text]"
    else ""
  }

  function CallNames(calls: seq<ToolCall>): (r: string)
    ensures calls != [] ==> r != ""
  {
    if calls == [] then ""
    else if |calls| == 1 then "[call " + calls[0].name + "]"
    else CallNames(calls[..|calls| - 1]) + " [call " + calls[|calls| - 1].name + "]"
  }

  /** mappedEntryOf: a fact without model text, and a configuration change, map onto none. */
  function MappedEntry(e: Event): Option<Entry> {
    if e.kind.ConfigChange? || MappedContent(e.message) == "" then None
    else Some(Entry(e.key, e.kind, MappedContent(e.message)))
  }

  /** What a fact maps onto: one entry under its identity and kind wherever its message carries
      a text, a call or a tool name, the text as it stands, and beside no text every call by
      its name, so that no call the model issued is lost. */
  lemma MappedWhen(e: Event)
    ensures MappedEntry(e).Some? <==>
              !e.kind.ConfigChange? && (e.message.content != "" || e.message.calls != [] || e.message.toolName != "")
    ensures MappedEntry(e).Some? ==> MappedEntry(e).value.key == e.key && MappedEntry(e).value.kind == e.kind
    ensures MappedEntry(e).Some? && e.message.content != "" ==> MappedEntry(e).value.content == e.message.content
    ensures MappedEntry(e).Some? && e.message.content == "" ==>
              forall i :: 0 <= i < |e.message.calls| ==> Names(MappedEntry(e).value.content, e.message.calls[i].name)
  {
    if MappedEntry(e).Some? && e.message.content == "" {
      forall i | 0 <= i < |e.message.calls| ensures Names(CallNames(e.message.calls), e.message.calls[i].name) {
        CallNamed(e.message.calls, i);
      }
    }
  }

  /** The text names a call. */
  ghost predicate Names(text: string, name: string) {
    exists before, behind :: text == before + "[call " + name + "]" + behind
  }

  lemma NamesIn(before: string, name: string, behind: string)
    ensures Names(before + "[call " + name + "]" + behind, name)
  {
  }

  lemma NamesOn(text: string, name: string, more: string)
    requires Names(text, name)
    ensures Names(text + more, name)
  {
    var before, behind :| text == before + "[call " + name + "]" + behind;
    assert text + more == before + "[call " + name + "]" + (behind + more);
  }

  lemma {:induction false} CallNamed(calls: seq<ToolCall>, i: nat)
    requires i < |calls|
    ensures Names(CallNames(calls), calls[i].name)
  {
    hide Names;
    var name := calls[i].name;
    if i == |calls| - 1 {
      var before := if |calls| == 1 then "" else CallNames(calls[..i]) + " ";
      NamesIn(before, name, "");
      assert CallNames(calls) == before + "[call " + name + "]" + "";
    } else {
      var init, last := calls[..|calls| - 1], " [call " + calls[|calls| - 1].name + "]";
      CallNamed(init, i);
      NamesOn(CallNames(init), name, last);
      assert CallNames(calls) == CallNames(init) + last;
    }
  }

  predicate Holds(entries: seq<Entry>, key: string) { exists n :: n in entries && n.key == key }

  /** Append: a keyed entry already present is appended once. */
  function Append(entries: seq<Entry>, n: Entry): seq<Entry> {
    if n.key != "" && Holds(entries, n.key) then entries else entries + [n]
  }

  /** recordMapped over the registration of the chain. */
  function Record(r: Replay, e: Event): Replay {
    var n := MappedEntry(e);
    if n.None? then r
    else
      var closed := if e.kind.AgentOutput? then r.(endedAt := e.key, rangeOpen := false) else r;
      var moved := if AdmitsRange(e) && !closed.rangeOpen then closed.(endedAt := e.key, rangeOpen := true) else closed;
      moved.(entries := Append(r.entries, n.value))
  }

  function PositionOf(entries: seq<Entry>, key: string): (at: nat)
    ensures at <= |entries| && (at < |entries| ==> entries[at].key == key)
    ensures forall i :: 0 <= i < at ==> entries[i].key != key
  {
    if entries == [] then 0
    else if entries[0].key == key then 0
    else 1 + PositionOf(entries[1..], key)
  }

  /** endedPrefix as a position. */
  function EndedPrefix(r: Replay): (p: nat)
    ensures p <= |r.entries|
  {
    if r.endedAt == "" then |r.entries|
    else
      var at := PositionOf(r.entries, r.endedAt);
      if at < |r.entries| && r.entries[at].kind.AgentOutput? then at + 1 else at
  }

  /** endedPrefix reads the entries from the front. */
  method ReadEndedPrefix(r: Replay) returns (p: nat)
    ensures p == EndedPrefix(r)
  {
    if r.endedAt == "" { return |r.entries|; }
    for i := 0 to |r.entries|
      invariant forall j :: 0 <= j < i ==> r.entries[j].key != r.endedAt
    {
      if r.entries[i].key == r.endedAt {
        FirstAt(r.entries, i, r.endedAt);
        return if r.entries[i].kind.AgentOutput? then i + 1 else i;
      }
    }
    p := |r.entries|;
  }

  lemma FirstAt(entries: seq<Entry>, at: nat, key: string)
    requires at < |entries| && entries[at].key == key && forall j :: 0 <= j < at ==> entries[j].key != key
    ensures PositionOf(entries, key) == at
  {
  }

  // --- a run of commits over one registration ---

  ghost predicate FreshKeys(base: seq<Entry>, c: seq<Event>) {
    && (forall i, j :: 0 <= i < j < |base| ==> base[i].key != base[j].key)
    && (forall i :: 0 <= i < |base| ==> base[i].key != "")
    && (forall i :: 0 <= i < |c| ==> c[i].key != "" && MappedEntry(c[i]).Some? && !Holds(base, c[i].key))
    && (forall i, j :: 0 <= i < j < |c| ==> c[i].key != c[j].key)
  }

  /** The registration after the commits of c; base is what a restart restored. */
  function After(base: seq<Entry>, c: seq<Event>): Replay {
    if c == [] then Replay(base, "", false) else Record(After(base, c[..|c| - 1]), c[|c| - 1])
  }

  function LastClosed(c: seq<Event>): (at: int)
    ensures -1 <= at < |c| && (at >= 0 ==> c[at].kind.AgentOutput?)
    ensures forall i :: at < i < |c| ==> !c[i].kind.AgentOutput?
  {
    if c == [] then -1 else if c[|c| - 1].kind.AgentOutput? then |c| - 1 else LastClosed(c[..|c| - 1])
  }

  /** The first input behind the last output that opens a range, or |c|. */
  ghost predicate OpensAt(c: seq<Event>, r: nat) {
    && LastClosed(c) < r <= |c|
    && (forall i :: LastClosed(c) < i < r ==> !AdmitsRange(c[i]))
    && (r < |c| ==> AdmitsRange(c[r]))
  }

  ghost function Opening(c: seq<Event>): (r: nat)
    ensures OpensAt(c, r)
  {
    FirstAdmitting(c, LastClosed(c) + 1)
  }

  ghost function FirstAdmitting(c: seq<Event>, from: nat): (r: nat)
    requires from <= |c|
    ensures from <= r <= |c| && (r < |c| ==> AdmitsRange(c[r]))
    ensures forall i :: from <= i < r ==> !AdmitsRange(c[i])
    decreases |c| - from
  {
    if from == |c| || AdmitsRange(c[from]) then from else FirstAdmitting(c, from + 1)
  }

  /** Where the boundary stands, read off the commits alone: on the first input behind the
      last output that opens a range, else behind that output, else at the end. */
  ghost function Boundary(base: nat, c: seq<Event>): nat {
    if Opening(c) < |c| then base + Opening(c)
    else if LastClosed(c) >= 0 then base + LastClosed(c) + 1
    else base + |c|
  }

  ghost predicate Charted(base: seq<Entry>, c: seq<Event>) {
    var r := After(base, c);
    && |r.entries| == |base| + |c|
    && r.entries[..|base|] == base
    && (forall i :: 0 <= i < |c| ==> MappedEntry(c[i]) == Some(r.entries[|base| + i]))
    && (r.rangeOpen <==> Opening(c) < |c|)
    && r.endedAt == (if Opening(c) < |c| then c[Opening(c)].key else if LastClosed(c) >= 0 then c[LastClosed(c)].key else "")
  }

  lemma FreshPrefix(base: seq<Entry>, c: seq<Event>)
    requires FreshKeys(base, c) && c != []
    ensures FreshKeys(base, c[..|c| - 1])
  {
    var init := c[..|c| - 1];
    forall i | 0 <= i < |init| ensures init[i].key != "" && MappedEntry(init[i]).Some? && !Holds(base, init[i].key) {
      assert init[i] == c[i];
    }
  }

  lemma OpeningOf(c: seq<Event>, r: nat)
    requires OpensAt(c, r)
    ensures Opening(c) == r
  {
    var o := Opening(c);
    if o < r {
      assert false;
    } else if r < o {
      assert false;
    }
  }

  lemma {:induction false} ChartedAfter(base: seq<Entry>, c: seq<Event>)
    requires FreshKeys(base, c)
    ensures Charted(base, c)
  {
    if c == [] {
      OpeningOf(c, 0);
    } else {
      var init, e := c[..|c| - 1], c[|c| - 1];
      FreshPrefix(base, c);
      ChartedAfter(base, init);
      NewKey(base, init, e.key);
      OpeningStep(c);
      ChartStep(base, c);
    }
  }

  lemma NewKey(base: seq<Entry>, c: seq<Event>, key: string)
    requires Charted(base, c) && !Holds(base, key) && forall i :: 0 <= i < |c| ==> c[i].key != key
    ensures !Holds(After(base, c).entries, key)
  {
    hide MappedContent, Opening, LastClosed;
    var r := After(base, c);
    forall n | n in r.entries ensures n.key != key {
      var i :| 0 <= i < |r.entries| && r.entries[i] == n;
      if i < |base| {
        assert r.entries[..|base|][i] == n && n in base;
      } else {
        assert MappedEntry(c[i - |base|]) == Some(r.entries[|base| + (i - |base|)]);
      }
    }
  }

  lemma ChartStep(base: seq<Entry>, c: seq<Event>)
    requires c != [] && FreshKeys(base, c) && Charted(base, c[..|c| - 1])
    requires !Holds(After(base, c[..|c| - 1]).entries, c[|c| - 1].key)
    requires var init, e := c[..|c| - 1], c[|c| - 1];
             && LastClosed(c) == (if e.kind.AgentOutput? then |c| - 1 else LastClosed(init))
             && Opening(c) == (if e.kind.AgentOutput? then |c|
                               else if Opening(init) < |init| then Opening(init)
                               else if AdmitsRange(e) then |c| - 1 else |c|)
    ensures Charted(base, c)
  {
    hide MappedEntry, LastClosed, Opening, Holds;
    var init, e := c[..|c| - 1], c[|c| - 1];
    var r, t := After(base, init), After(base, c);
    assert MappedEntry(e).Some? && e.key != "";
    KeyOfMapped(e);
    assert t.entries == r.entries + [MappedEntry(e).value];
    assert t.entries[..|base|] == base;
    forall i | 0 <= i < |c| ensures MappedEntry(c[i]) == Some(t.entries[|base| + i]) {
      if i < |init| { assert MappedEntry(init[i]) == Some(r.entries[|base| + i]); }
    }
  }

  lemma KeyOfMapped(e: Event)
    ensures MappedEntry(e).Some? ==> MappedEntry(e).value.key == e.key && MappedEntry(e).value.kind == e.kind
    ensures e.kind.AgentOutput? ==> !AdmitsRange(e)
  {
  }

  lemma OpeningStep(c: seq<Event>)
    requires c != []
    ensures var init, e := c[..|c| - 1], c[|c| - 1];
            && LastClosed(c) == (if e.kind.AgentOutput? then |c| - 1 else LastClosed(init))
            && Opening(c) == (if e.kind.AgentOutput? then |c|
                              else if Opening(init) < |init| then Opening(init)
                              else if AdmitsRange(e) then |c| - 1 else |c|)
  {
    var init, e := c[..|c| - 1], c[|c| - 1];
    assert forall i :: 0 <= i < |init| ==> init[i] == c[i];
    if e.kind.AgentOutput? {
      OpeningOf(c, |c|);
    } else if Opening(init) < |init| {
      OpeningOf(c, Opening(init));
    } else if AdmitsRange(e) {
      OpeningOf(c, |c| - 1);
    } else {
      OpeningOf(c, |c|);
    }
  }

  /** The boundary the registration resolves is the one the commits name. */
  lemma BoundaryResolved(base: seq<Entry>, c: seq<Event>)
    requires FreshKeys(base, c)
    ensures EndedPrefix(After(base, c)) == Boundary(|base|, c)
    ensures After(base, c).rangeOpen <==> Opening(c) < |c|
  {
    ChartedAfter(base, c);
    var r := After(base, c);
    var at := if Opening(c) < |c| then Opening(c) else LastClosed(c);
    if at >= 0 {
      BoundaryAt(base, c, r, at);
    }
  }

  lemma BoundaryAt(base: seq<Entry>, c: seq<Event>, r: Replay, at: nat)
    requires FreshKeys(base, c) && at < |c| && r.endedAt == c[at].key
    requires |r.entries| == |base| + |c| && r.entries[..|base|] == base
    requires forall i :: 0 <= i < |c| ==> MappedEntry(c[i]) == Some(r.entries[|base| + i])
    ensures EndedPrefix(r) == |base| + at + if c[at].kind.AgentOutput? then 1 else 0
  {
    hide MappedContent;
    forall j | 0 <= j < |base| + at ensures r.entries[j].key != r.endedAt {
      if j < |base| {
        assert r.entries[..|base|][j] == base[j] && base[j] in base;
      } else {
        assert MappedEntry(c[j - |base|]) == Some(r.entries[|base| + (j - |base|)]);
      }
    }
    assert MappedEntry(c[at]) == Some(r.entries[|base| + at]);
    FirstAt(r.entries, |base| + at, r.endedAt);
  }

  /** The ended prefix never moves backwards, an output lies inside it from the step it
      lands, and input beside an open range never moves it. */
  lemma BoundaryAdvances(base: seq<Entry>, c: seq<Event>)
    requires FreshKeys(base, c) && c != []
    ensures var before, now := After(base, c[..|c| - 1]), After(base, c);
            && EndedPrefix(before) <= EndedPrefix(now)
            && (c[|c| - 1].kind.AgentOutput? ==> EndedPrefix(now) == |now.entries|)
            && (before.rangeOpen && !c[|c| - 1].kind.AgentOutput? ==> EndedPrefix(now) == EndedPrefix(before) && now.rangeOpen)
  {
    FreshPrefix(base, c);
    BoundaryResolved(base, c);
    BoundaryResolved(base, c[..|c| - 1]);
    ChartedAfter(base, c);
    OpeningStep(c);
  }

  lemma {:induction false} PrefixMonotone(base: seq<Entry>, c: seq<Event>, n: nat)
    requires FreshKeys(base, c) && n <= |c|
    ensures EndedPrefix(After(base, c[..n])) <= EndedPrefix(After(base, c))
  {
    if n == |c| {
      assert c[..n] == c;
    } else {
      var init := c[..|c| - 1];
      FreshPrefix(base, c);
      assert init[..n] == c[..n];
      PrefixMonotone(base, init, n);
      BoundaryAdvances(base, c);
    }
  }

  /** Every output ever committed is ended material, and while a range is open nothing from
      its first input on is. */
  lemma EndedMaterial(base: seq<Entry>, c: seq<Event>, i: nat)
    requires FreshKeys(base, c) && i < |c|
    ensures c[i].kind.AgentOutput? ==> |base| + i < EndedPrefix(After(base, c))
    ensures After(base, c).rangeOpen && Opening(c) <= i ==> EndedPrefix(After(base, c)) <= |base| + i
  {
    BoundaryResolved(base, c);
  }

  /** A fact committed again after the window cut it keeps its old entry, and the boundary
      goes back exactly when the fact moves the boundary at all, as an output or as an input
      that opens a range beside none, and its old entry resolves before where it stands. */
  lemma RecommitMovesBack(r: Replay, e: Event)
    requires e.key != "" && MappedEntry(e).Some? && Holds(r.entries, e.key)
    ensures Record(r, e).entries == r.entries
    ensures EndedPrefix(Record(r, e)) < EndedPrefix(r) <==>
              (e.kind.AgentOutput? || (AdmitsRange(e) && !r.rangeOpen)) && OldPlace(r.entries, e.key) < EndedPrefix(r)
  {
    KeyOfMapped(e);
  }

  /** Where a boundary that names an entry of the sequence resolves. */
  function OldPlace(entries: seq<Entry>, key: string): nat {
    var at := PositionOf(entries, key);
    if at < |entries| && entries[at].kind.AgentOutput? then at + 1 else at
  }

  // --- the notice cursor ---

  datatype Notice = Notice(key: string, text: string)

  predicate IsNotice(n: Entry, prefix: string) { n.kind.Feedback? && prefix <= n.key }

  /** Where a read starts: a cursor outside what stands behind the boundary re-anchors. */
  function ReadStart(r: Replay, cursor: int): (from: nat)
    ensures from <= |r.entries|
  {
    if cursor < EndedPrefix(r) || cursor > |r.entries| then EndedPrefix(r) else cursor
  }

  function NoticesBetween(entries: seq<Entry>, from: nat, to: nat, prefix: string): seq<Notice>
    requires from <= to <= |entries|
  {
    if from == to then []
    else NoticesBetween(entries, from, to - 1, prefix) +
         if IsNotice(entries[to - 1], prefix) then [Notice(entries[to - 1].key, entries[to - 1].content)] else []
  }

  method NoticesFrom(r: Replay, prefix: string, cursor: int) returns (views: seq<Notice>, next: nat)
    ensures next == |r.entries|
    ensures views == NoticesBetween(r.entries, ReadStart(r, cursor), |r.entries|, prefix)
  {
    var boundary := ReadEndedPrefix(r);
    var at := cursor;
    if at < boundary || at > |r.entries| { at := boundary; }
    views := [];
    ghost var from := at;
    while at < |r.entries|
      invariant from <= at <= |r.entries|
      invariant views == NoticesBetween(r.entries, from, at, prefix)
    {
      var entry := r.entries[at];
      if entry.kind.Feedback? && prefix <= entry.key {
        views := views + [Notice(entry.key, entry.content)];
      }
      at := at + 1;
    }
    next := |r.entries|;
  }

  /** What one call of NoticesFrom answers is what one read of a reader reports: the same
      notices, at the same positions, in the same order, and the same next cursor. */
  lemma ReadIsStep(s: Reader, prefix: string, views: seq<Notice>, next: nat)
    requires next == |s.chain.entries|
    requires views == NoticesBetween(s.chain.entries, ReadStart(s.chain, s.cursor), |s.chain.entries|, prefix)
    ensures var t := Step(s, Read, prefix);
            && t.cursor == next && t.chain == s.chain && |t.reported| == |s.reported| + |views| && t.reported[..|s.reported|] == s.reported
            && forall i :: 0 <= i < |views| ==>
                 var p := t.reported[|s.reported| + i];
                 p < |s.chain.entries| && views[i] == Notice(s.chain.entries[p].key, s.chain.entries[p].content)
  {
    ViewsAt(s.chain.entries, ReadStart(s.chain, s.cursor), |s.chain.entries|, prefix);
  }

  lemma {:induction false} ViewsAt(entries: seq<Entry>, from: nat, to: nat, prefix: string)
    requires from <= to <= |entries|
    ensures var views, ps := NoticesBetween(entries, from, to, prefix), NoticePositions(entries, from, to, prefix);
            |views| == |ps| && forall i :: 0 <= i < |views| ==>
              ps[i] < |entries| && views[i] == Notice(entries[ps[i]].key, entries[ps[i]].content)
  {
    if from < to { ViewsAt(entries, from, to - 1, prefix); }
  }

  datatype Op = Commit(e: Event) | Read

  /** One reader of the chain: the positions it reported, in order, and the positions its
      reads passed over because the boundary had moved beyond them. */
  datatype Reader = Reader(chain: Replay, cursor: nat, reported: seq<nat>, passed: set<nat>)

  function NoticePositions(entries: seq<Entry>, from: nat, to: nat, prefix: string): (ps: seq<nat>)
    requires from <= to <= |entries|
    ensures forall p :: p in ps <==> from <= p < to && IsNotice(entries[p], prefix)
    ensures forall i, j :: 0 <= i < j < |ps| ==> ps[i] < ps[j]
  {
    if from == to then []
    else
      var init := NoticePositions(entries, from, to - 1, prefix);
      assert forall i :: 0 <= i < |init| ==> init[i] in init;
      init + if IsNotice(entries[to - 1], prefix) then [to - 1] else []
  }

  function Between(lo: nat, hi: nat): (ps: set<nat>)
    ensures forall p :: p in ps <==> lo <= p < hi
  {
    if lo >= hi then {} else Between(lo, hi - 1) + {hi - 1}
  }

  function Step(s: Reader, op: Op, prefix: string): Reader {
    match op
    case Commit(e) => s.(chain := Record(s.chain, e))
    case Read =>
      var from := ReadStart(s.chain, s.cursor);
      Reader(s.chain, |s.chain.entries|,
             s.reported + NoticePositions(s.chain.entries, from, |s.chain.entries|, prefix),
             s.passed + Between(s.cursor, from))
  }

  function Run(s: Reader, ops: seq<Op>, prefix: string): Reader {
    if ops == [] then s else Step(Run(s, ops[..|ops| - 1], prefix), ops[|ops| - 1], prefix)
  }

  /** A reader that starts at the boundary. */
  function Opened(r: Replay): Reader { Reader(r, EndedPrefix(r), [], Between(0, EndedPrefix(r))) }

  function CommitsOf(ops: seq<Op>): seq<Event> {
    if ops == [] then []
    else CommitsOf(ops[..|ops| - 1]) + match ops[|ops| - 1] { case Commit(e) => [e] case Read => [] }
  }

  /** What a reader has done with the positions below its cursor. */
  ghost predicate Accounted(s: Reader, prefix: string) {
    && s.cursor <= |s.chain.entries|
    && (forall p :: p in s.reported ==> p < s.cursor && IsNotice(s.chain.entries[p], prefix))
    && (forall i, j :: 0 <= i < j < |s.reported| ==> s.reported[i] < s.reported[j])
    && (forall p :: p in s.passed ==> p < s.cursor && p < EndedPrefix(s.chain) && p !in s.reported)
    && (forall p :: 0 <= p < s.cursor && IsNotice(s.chain.entries[p], prefix) ==> p in s.reported || p in s.passed)
  }

  lemma FreshShorter(base: seq<Entry>, a: seq<Event>, b: seq<Event>)
    requires FreshKeys(base, a + b)
    ensures FreshKeys(base, a)
  {
    forall i | 0 <= i < |a| ensures a[i].key != "" && MappedEntry(a[i]).Some? && !Holds(base, a[i].key) {
      assert (a + b)[i] == a[i];
    }
    forall i, j | 0 <= i < j < |a| ensures a[i].key != a[j].key {
      assert (a + b)[i] == a[i] && (a + b)[j] == a[j];
    }
  }

  /** The notice cursor: however commits and reads interleave, every notice below the
      cursor was reported exactly once, or lay inside the ended prefix when it was passed
      over, and none is reported twice. */
  lemma {:induction false} NoticesReportedOnce(base: seq<Entry>, ops: seq<Op>, prefix: string)
    requires FreshKeys(base, CommitsOf(ops))
    ensures Run(Opened(Replay(base, "", false)), ops, prefix).chain == After(base, CommitsOf(ops))
    ensures Accounted(Run(Opened(Replay(base, "", false)), ops, prefix), prefix)
  {
    var s0 := Opened(Replay(base, "", false));
    if ops != [] {
      var init, op := ops[..|ops| - 1], ops[|ops| - 1];
      var c := CommitsOf(init);
      assert CommitsOf(ops) == c + (if op.Commit? then [op.e] else []);
      FreshShorter(base, c, if op.Commit? then [op.e] else []);
      NoticesReportedOnce(base, init, prefix);
      if op.Commit? {
        var all := CommitsOf(ops);
        assert all[..|all| - 1] == c;
        BoundaryAdvances(base, all);
        EntriesKept(base, c, op.e);
        AccountedCommit(Run(s0, init, prefix), After(base, all), prefix);
      } else {
        assert c + [] == c;
        AccountedRead(Run(s0, init, prefix), prefix);
      }
    }
  }

  lemma AccountedCommit(s: Reader, t: Replay, prefix: string)
    requires Accounted(s, prefix) && EndedPrefix(s.chain) <= EndedPrefix(t)
    requires |s.chain.entries| <= |t.entries| && forall p :: 0 <= p < |s.chain.entries| ==> t.entries[p] == s.chain.entries[p]
    ensures Accounted(s.(chain := t), prefix)
  {
    hide EndedPrefix;
  }

  lemma AccountedRead(s: Reader, prefix: string)
    requires Accounted(s, prefix)
    ensures Accounted(Step(s, Read, prefix), prefix)
  {
    hide IsNotice;
    var t := Step(s, Read, prefix);
    var from := ReadStart(s.chain, s.cursor);
    assert s.cursor <= from && (from == s.cursor || from == EndedPrefix(s.chain));
    var more := NoticePositions(s.chain.entries, from, |s.chain.entries|, prefix);
    assert forall i :: 0 <= i < |more| ==> more[i] in more;
    assert forall i :: 0 <= i < |s.reported| ==> s.reported[i] in s.reported;
  }

  lemma EntriesKept(base: seq<Entry>, c: seq<Event>, e: Event)
    requires FreshKeys(base, c + [e])
    ensures var r, t := After(base, c), After(base, c + [e]);
            |r.entries| <= |t.entries| && forall p :: 0 <= p < |r.entries| ==> t.entries[p] == r.entries[p]
  {
    assert (c + [e])[..|c|] == c;
  }
}
