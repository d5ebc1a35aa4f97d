// The close of a run as the report it answers: the state it ended in, what it could
// not settle, and the fold of the host's reading into the run's own.
module CloseReport {
  import opened Core
  import opened Sorting

  datatype Outcome = Quiesced | Cut | Broken

  /** One piece of unsettled work. */
  datatype Item = Item(address: Address, task: string, factKey: string, reason: string)

  datatype Status = Accepted | Running | AwaitingApproval | OtherStatus(word: string)

  datatype Work = Work(task: string, address: Address, status: Status)

  /** One reading of the rest criterion. */
  datatype Read = Read(work: seq<Work>, notices: seq<Item>, inputs: seq<Item>, unjudged: string)

  predicate Resting(r: Read) { r.unjudged == "" && r.work == [] && r.notices == [] && r.inputs == [] }

  datatype Report = Report(outcome: Outcome, drained: bool, unsettled: seq<Item>, failed: seq<string>)

  // --- the union of the items ---

  const NUL := '\0'

  /** The identity an item is merged under, as the code spells it: the fact key of an item is
      no part of it. */
  function Spelled(i: Item): string {
    i.address.agent + [NUL] + i.address.session + [NUL] + i.task + [NUL] + i.reason
  }

  /** What that spelling names. */
  function Identity(i: Item): (Address, string, string) { (i.address, i.task, i.reason) }

  /** No part that is spelled before another carries the separator. */
  predicate NulFree(i: Item) { NUL !in i.address.agent && NUL !in i.address.session && NUL !in i.task }

  function FirstSpelled(s: string): string {
    if s == "" || s[0] == NUL then "" else [s[0]] + FirstSpelled(s[1..])
  }

  lemma {:induction false} FirstSpelledOf(a: string, x: string)
    requires NUL !in a
    ensures FirstSpelled(a + [NUL] + x) == a
  {
    if a != "" {
      FirstSpelledOf(a[1..], x);
      assert (a + [NUL] + x)[1..] == a[1..] + [NUL] + x;
    }
  }

  lemma FirstPart(a: string, x: string, b: string, y: string)
    requires NUL !in a && NUL !in b && a + [NUL] + x == b + [NUL] + y
    ensures a == b && x == y
  {
    FirstSpelledOf(a, x);
    FirstSpelledOf(b, y);
    assert x == (a + [NUL] + x)[|a| + 1..] && y == (b + [NUL] + y)[|b| + 1..];
  }

  /** Over NUL-free items the spelling names the identity and nothing else. */
  lemma SpellingNames(i: Item, j: Item)
    requires NulFree(i) && NulFree(j)
    ensures Spelled(i) == Spelled(j) <==> Identity(i) == Identity(j)
  {
    if Spelled(i) == Spelled(j) {
      var p, q := i.task + [NUL] + i.reason, j.task + [NUL] + j.reason;
      var x, y := i.address.session + [NUL] + p, j.address.session + [NUL] + q;
      assert Spelled(i) == i.address.agent + [NUL] + x && Spelled(j) == j.address.agent + [NUL] + y;
      FirstPart(i.address.agent, x, j.address.agent, y);
      FirstPart(i.address.session, p, j.address.session, q);
      FirstPart(i.task, i.reason, j.task, j.reason);
    }
  }

  /** With the separator inside an identity, two different pieces of work are one. */
  lemma SpellingCollides()
    ensures exists i, j :: Identity(i) != Identity(j) && Spelled(i) == Spelled(j)
  {
    var i := Item(Address("a", "b\0c"), "", "", "r");
    var j := Item(Address("a\0b", "c"), "", "", "r");
    assert Spelled(i) == "a\0b\0c\0\0r" && Spelled(j) == "a\0b\0c\0\0r";
    assert Identity(i) != Identity(j);
  }

  predicate Before(i: Item, j: Item) {
    if i.address.agent != j.address.agent then StringLess(i.address.agent, j.address.agent)
    else if i.address.session != j.address.session then StringLess(i.address.session, j.address.session)
    else if i.task != j.task then StringLess(i.task, j.task)
    else if i.factKey != j.factKey then StringLess(i.factKey, j.factKey)
    else StringLess(i.reason, j.reason)
  }

  function ReportOrder(): (Item, Item) -> bool { (i: Item, j: Item) => Before(i, j) }

  lemma ReportOrderTotal()
    ensures TotalOrder(ReportOrder())
  {
    StringOrder();
    var less := ReportOrder();
    forall a, b ensures !less(a, a) && (a != b ==> less(a, b) || less(b, a)) {
      OrderOf(StringLess, a.address.agent, b.address.agent, a.address.agent);
      OrderOf(StringLess, a.address.session, b.address.session, a.address.session);
      OrderOf(StringLess, a.task, b.task, a.task);
      OrderOf(StringLess, a.factKey, b.factKey, a.factKey);
      OrderOf(StringLess, a.reason, b.reason, a.reason);
    }
    forall a, b, c | less(a, b) && less(b, c) ensures less(a, c) {
      BeforeTransitive(a, b, c);
    }
  }

  lemma BeforeTransitive(a: Item, b: Item, c: Item)
    requires TotalOrder(StringLess) && Before(a, b) && Before(b, c)
    ensures Before(a, c)
  {
    hide TotalOrder, StringLess;
    OrderOf(StringLess, a.address.agent, b.address.agent, c.address.agent);
    OrderOf(StringLess, a.address.session, b.address.session, c.address.session);
    OrderOf(StringLess, a.task, b.task, c.task);
    OrderOf(StringLess, a.factKey, b.factKey, c.factKey);
    OrderOf(StringLess, a.reason, b.reason, c.reason);
    Irreflexive(a.address.agent, b.address.agent);
    Irreflexive(a.address.session, b.address.session);
    Irreflexive(a.task, b.task);
    Irreflexive(a.factKey, b.factKey);
  }

  lemma Irreflexive(a: string, b: string)
    ensures !(StringLess(a, b) && StringLess(b, a))
  {
    StringLessTotal(a, b);
  }

  function Concat(sets: seq<seq<Item>>): seq<Item> {
    if sets == [] then [] else Concat(sets[..|sets| - 1]) + sets[|sets| - 1]
  }

  /** The items no earlier item is spelled like. */
  function FirstOfEach(items: seq<Item>): seq<Item> {
    if items == [] then []
    else
      var init, last := items[..|items| - 1], items[|items| - 1];
      FirstOfEach(init) + if exists i :: i in init && Spelled(i) == Spelled(last) then [] else [last]
  }

  function Merged(sets: seq<seq<Item>>): seq<Item> {
    ReportOrderTotal();
    Sorted((set i | i in FirstOfEach(Concat(sets))), ReportOrder())
  }

  ghost predicate Spells(items: seq<Item>, k: string) { exists i :: i in items && Spelled(i) == k }

  lemma {:induction false} FirstsKept(items: seq<Item>)
    ensures forall i :: i in FirstOfEach(items) ==> i in items
    ensures forall k :: Spells(FirstOfEach(items), k) <==> Spells(items, k)
    ensures forall i, j :: i in FirstOfEach(items) && j in FirstOfEach(items) && Spelled(i) == Spelled(j) ==> i == j
  {
    hide Spelled;
    if items != [] {
      var init, last := items[..|items| - 1], items[|items| - 1];
      FirstsKept(init);
      SpellsNext(init, last);
      SpellsNext(FirstOfEach(init), last);
      assert items == init + [last];
      assert Spells(init, Spelled(last)) <==> exists i :: i in init && Spelled(i) == Spelled(last);
      forall i | i in FirstOfEach(init) && Spelled(i) == Spelled(last) ensures Spells(init, Spelled(last)) {
        assert Spells(FirstOfEach(init), Spelled(last));
      }
    }
  }

  lemma SpellsNext(items: seq<Item>, last: Item)
    ensures forall k :: Spells(items + [last], k) <==> Spells(items, k) || k == Spelled(last)
  {
    hide Spelled;
    forall k ensures Spells(items + [last], k) <==> Spells(items, k) || k == Spelled(last) {
      if Spells(items, k) {
        var i :| i in items && Spelled(i) == k;
        assert i in items + [last];
      }
      if k == Spelled(last) { assert last in items + [last]; }
    }
  }

  /** mergeUnsettled: every piece of work once, in the order of the report. */
  method MergeUnsettled(sets: seq<seq<Item>>) returns (merged: seq<Item>)
    ensures merged == Merged(sets)
  {
    var kept: seq<Item> := [];
    var seen: set<string> := {};
    for n := 0 to |sets|
      invariant kept == FirstOfEach(Concat(sets[..n]))
      invariant forall k :: k in seen <==> Spells(Concat(sets[..n]), k)
    {
      assert sets[..n + 1] == sets[..n] + [sets[n]];
      ConcatNext(sets[..n], sets[n]);
      kept, seen := KeepFirsts(Concat(sets[..n]), sets[n], kept, seen);
    }
    assert sets[..|sets|] == sets;
    ReportOrderTotal();
    merged := Sorted((set i | i in kept), ReportOrder());
  }

  /** One set of items behind the ones already kept. */
  method KeepFirsts(ghost done: seq<Item>, items: seq<Item>, had: seq<Item>, known: set<string>) returns (kept: seq<Item>, seen: set<string>)
    requires had == FirstOfEach(done) && forall k :: k in known <==> Spells(done, k)
    ensures kept == FirstOfEach(done + items) && forall k :: k in seen <==> Spells(done + items, k)
  {
    hide Spelled, Spells, FirstOfEach;
    kept, seen := had, known;
    assert done + items[..0] == done;
    for m := 0 to |items|
      invariant kept == FirstOfEach(done + items[..m])
      invariant forall k :: k in seen <==> Spells(done + items[..m], k)
    {
      var entry := items[m];
      KeepNext(done + items[..m], entry, kept, seen);
      assert done + items[..m + 1] == (done + items[..m]) + [entry];
      if Spelled(entry) in seen { continue; }
      seen := seen + {Spelled(entry)};
      kept := kept + [entry];
    }
    assert items[..|items|] == items;
  }

  lemma KeepNext(sofar: seq<Item>, entry: Item, kept: seq<Item>, seen: set<string>)
    requires kept == FirstOfEach(sofar) && forall k :: k in seen <==> Spells(sofar, k)
    ensures FirstOfEach(sofar + [entry]) == if Spelled(entry) in seen then kept else kept + [entry]
    ensures forall k :: k in seen + {Spelled(entry)} <==> Spells(sofar + [entry], k)
  {
    FirstNext(sofar, entry);
    SpellsNext(sofar, entry);
    hide Spelled, Spells, FirstOfEach;
  }

  lemma FirstNext(items: seq<Item>, last: Item)
    ensures FirstOfEach(items + [last]) == FirstOfEach(items) + if Spells(items, Spelled(last)) then [] else [last]
  {
    hide Spelled;
    assert (items + [last])[..|items|] == items;
  }

  /** The union names exactly the work its arguments name, each piece once, in order. */
  lemma MergedUnion(sets: seq<seq<Item>>)
    ensures forall k :: Spells(Merged(sets), k) <==> Spells(Concat(sets), k)
    ensures forall i, j :: 0 <= i < j < |Merged(sets)| ==> Spelled(Merged(sets)[i]) != Spelled(Merged(sets)[j])
    ensures SortedBy(Merged(sets), ReportOrder())
    ensures forall i :: i in Merged(sets) ==> i in Concat(sets)
  {
    ReportOrderTotal();
    var all, m := Concat(sets), Merged(sets);
    FirstsKept(all);
    hide FirstOfEach, Spelled, Sorted;
    forall k ensures Spells(m, k) <==> Spells(all, k) {
      if Spells(all, k) {
        assert Spells(FirstOfEach(all), k);
        var j :| j in FirstOfEach(all) && Spelled(j) == k;
        assert j in m;
      }
    }
    forall i, j | 0 <= i < j < |m| ensures Spelled(m[i]) != Spelled(m[j]) {
      assert m[i] in m && m[j] in m && ReportOrder()(m[i], m[j]);
    }
  }

  /** The work a union names does not depend on the order of its arguments. */
  lemma MergedEitherWay(a: seq<Item>, b: seq<Item>)
    ensures forall k :: Spells(Merged([a, b]), k) <==> Spells(Merged([b, a]), k)
  {
    MergedUnion([a, b]);
    MergedUnion([b, a]);
    assert [a, b][..1] == [a] && [a][..0] == [] && [b, a][..1] == [b] && [b][..0] == [];
    hide Merged, Spelled;
    assert forall i :: i in Concat([a, b]) <==> i in Concat([b, a]);
    forall k ensures Spells(Concat([a, b]), k) <==> Spells(Concat([b, a]), k) {}
  }

  /** A report merged again is the report. */
  lemma MergedAgain(sets: seq<seq<Item>>)
    ensures Merged([Merged(sets)]) == Merged(sets)
  {
    hide *;
    MergedUnion(sets);
    MergedReport(Merged(sets));
  }

  lemma MergedReport(m: seq<Item>)
    requires SortedBy(m, ReportOrder()) && forall i, j :: 0 <= i < j < |m| ==> Spelled(m[i]) != Spelled(m[j])
    ensures Merged([m]) == m
  {
    AllFirst(m);
    ReportOrderTotal();
    assert [m][..0] == [] && Concat([m]) == m;
    hide Spelled, FirstOfEach;
    SortedUnique(Merged([m]), m, ReportOrder());
  }

  lemma {:induction false} AllFirst(items: seq<Item>)
    requires forall i, j :: 0 <= i < j < |items| ==> Spelled(items[i]) != Spelled(items[j])
    ensures FirstOfEach(items) == items
  {
    hide Spelled;
    if items != [] {
      var init, last := items[..|items| - 1], items[|items| - 1];
      AllFirst(init);
      forall i | i in init ensures Spelled(i) != Spelled(last) {
        var j :| 0 <= j < |init| && init[j] == i;
        assert items[j] == i;
      }
    }
  }

  // --- the close of a run ---

  function CloseOutcome(r: Read, drained: bool): Outcome {
    if r.unjudged != "" then Broken else if Resting(r) && drained then Quiesced else Cut
  }

  function WorkItem(w: Work): Item {
    Item(w.address, w.task, "", "the task stands at " + match w.status { case Accepted => "accepted" case Running => "running" case AwaitingApproval => "awaiting-approval" case OtherStatus(word) => word })
  }

  function Unjudged(r: Read): seq<Item> {
    if r.unjudged == "" then [] else [Item(Address("", ""), "", "", r.unjudged)]
  }

  function ItemsOf(r: Read): seq<Item> {
    Unjudged(r) + seq(|r.work|, i requires 0 <= i < |r.work| => WorkItem(r.work[i])) + r.notices + r.inputs
  }

  const NOT_STOPPED := "this writer has not confirmed its stop"
  const NOT_LANDED := "the delegation ledger has not landed this terminal"
  const APPROVAL_CUT := "the approval this task waited on cannot be rejoined by a restart, so the close cancelled it"

  function WriterItems(writers: seq<string>): seq<Item> {
    seq(|writers|, i requires 0 <= i < |writers| => Item(Address("", ""), "", "", NOT_STOPPED + ": " + writers[i]))
  }

  function LandingItems(landing: bool): seq<Item> {
    if landing then [Item(Address("", ""), "", "", NOT_LANDED)] else []
  }

  /** The close cancels this piece of work: a wait no hold of this process carries, whose
      cancel the task account takes. */
  predicate IsCut(w: Work, held: set<string>, cancels: set<string>) {
    w.status.AwaitingApproval? && w.task !in held && w.task in cancels
  }

  /** cutApprovalWaits: of a run it could judge, the close cancels exactly those waits; a
      refused cancel leaves its wait standing. */
  method CutApprovalWaits(r: Read, held: set<string>, cancels: set<string>) returns (cut: seq<Item>)
    ensures r.unjudged != "" ==> cut == []
    ensures r.unjudged == "" ==> forall c :: c in cut <==>
              exists w :: w in r.work && IsCut(w, held, cancels) && c == Item(w.address, w.task, "", APPROVAL_CUT)
  {
    cut := [];
    if r.unjudged != "" { return; }
    for i := 0 to |r.work|
      invariant forall c :: c in cut <==>
                  exists w :: w in r.work[..i] && IsCut(w, held, cancels) && c == Item(w.address, w.task, "", APPROVAL_CUT)
    {
      var w := r.work[i];
      assert r.work[..i + 1] == r.work[..i] + [w];
      if !w.status.AwaitingApproval? || w.task in held { continue; }
      // the cancel was refused
      if w.task !in cancels { continue; }
      cut := cut + [Item(w.address, w.task, "", APPROVAL_CUT)];
    }
    assert r.work[..|r.work|] == r.work;
  }

  /** Close behind the quiesce: the waits it cuts, a second reading where it cut any, and the
      report of what then stands. A stopped barrier names no writer. */
  method Close(first: Read, second: Read, held: set<string>, cancels: set<string>, writers: seq<string>, landing: bool, failed: seq<string>)
    returns (report: Report, ghost cut: seq<Item>, ghost read: Read)
    ensures read == if cut == [] then first else second
    ensures cut != [] <==> first.unjudged == "" && exists w :: w in first.work && IsCut(w, held, cancels)
    ensures report.drained <==> cut == [] && Resting(read) && writers == [] && !landing
    ensures report.outcome.Quiesced? <==> report.drained
    ensures report.failed == failed
    ensures report.outcome.Broken? <==> read.unjudged != ""
    ensures report.outcome.Quiesced? ==> report.unsettled == []
    ensures !report.outcome.Quiesced? ==> report.unsettled != []
    ensures forall k :: Spells(report.unsettled, k) <==>
              Spells(cut, k) || Spells(ItemsOf(read), k) || Spells(WriterItems(writers), k) || Spells(LandingItems(landing), k)
  {
    var waits := CutApprovalWaits(first, held, cancels);
    CutSome(first, held, cancels, waits);
    var r := if |waits| > 0 then second else first;
    var drained := |waits| == 0 && Resting(r) && |writers| == 0 && !landing;
    cut, read := waits, r;
    var sets := [waits, ItemsOf(r), WriterItems(writers), LandingItems(landing)];
    var unsettled := MergeUnsettled(sets);
    MergedUnion(sets);
    ConcatFour(waits, ItemsOf(r), WriterItems(writers), LandingItems(landing));
    NothingOpen(waits, r, writers, landing, unsettled);
    report := Report(CloseOutcome(r, drained), drained, unsettled, failed);
  }

  lemma CutSome(r: Read, held: set<string>, cancels: set<string>, cut: seq<Item>)
    requires r.unjudged != "" ==> cut == []
    requires r.unjudged == "" ==> forall c :: c in cut <==>
               exists w :: w in r.work && IsCut(w, held, cancels) && c == Item(w.address, w.task, "", APPROVAL_CUT)
    ensures cut != [] <==> r.unjudged == "" && exists w :: w in r.work && IsCut(w, held, cancels)
  {
    if cut != [] {
      assert cut[0] in cut;
    }
    if r.unjudged == "" && exists w :: w in r.work && IsCut(w, held, cancels) {
      var w :| w in r.work && IsCut(w, held, cancels);
      assert Item(w.address, w.task, "", APPROVAL_CUT) in cut;
    }
  }

  lemma ConcatNext(sets: seq<seq<Item>>, s: seq<Item>)
    ensures Concat(sets + [s]) == Concat(sets) + s
  {
    assert (sets + [s])[..|sets|] == sets;
  }

  lemma ConcatFour(a: seq<Item>, b: seq<Item>, c: seq<Item>, d: seq<Item>)
    ensures Concat([a, b, c, d]) == a + b + c + d
    ensures forall k :: Spells(Concat([a, b, c, d]), k) <==> Spells(a, k) || Spells(b, k) || Spells(c, k) || Spells(d, k)
  {
    ConcatNext([], a);
    ConcatNext([a], b);
    ConcatNext([a, b], c);
    ConcatNext([a, b, c], d);
    assert [] + [a] == [a] && [a] + [b] == [a, b] && [a, b] + [c] == [a, b, c] && [a, b, c] + [d] == [a, b, c, d];
    SpellsBoth(a, b);
    SpellsBoth(a + b, c);
    SpellsBoth(a + b + c, d);
  }

  lemma SpellsBoth(a: seq<Item>, b: seq<Item>)
    ensures forall k :: Spells(a + b, k) <==> Spells(a, k) || Spells(b, k)
  {
    hide Spelled;
    forall k ensures Spells(a + b, k) <==> Spells(a, k) || Spells(b, k) {}
  }

  lemma NothingOpen(cut: seq<Item>, r: Read, writers: seq<string>, landing: bool, unsettled: seq<Item>)
    requires forall k :: Spells(unsettled, k) <==> Spells(cut, k) || Spells(ItemsOf(r), k) || Spells(WriterItems(writers), k) || Spells(LandingItems(landing), k)
    ensures unsettled == [] <==> cut == [] && Resting(r) && writers == [] && !landing
  {
    hide Spelled;
    EmptySpells(unsettled);
    EmptySpells(cut);
    EmptySpells(ItemsOf(r));
    EmptySpells(WriterItems(writers));
    EmptySpells(LandingItems(landing));
  }

  lemma EmptySpells(items: seq<Item>)
    ensures items == [] <==> forall k :: !Spells(items, k)
  {
    if items != [] {
      assert items[0] in items;
      assert Spells(items, Spelled(items[0]));
    }
  }

  // --- the fold of two reports ---

  function Rank(o: Outcome): nat { match o case Quiesced => 0 case Cut => 1 case Broken => 2 }

  function UnionFailed(first: seq<string>, second: seq<string>): seq<string> {
    if second == [] then first else FirstNames(first + second)
  }

  function FirstNames(names: seq<string>): (r: seq<string>)
    ensures forall x :: x in r <==> x in names && x != ""
    ensures Distinct(r)
  {
    if names == [] then []
    else
      var init, last := FirstNames(names[..|names| - 1]), names[|names| - 1];
      init + if last == "" || last in names[..|names| - 1] then [] else [last]
  }

  /** mergeFailedAnswers. */
  method MergeFailedAnswers(first: seq<string>, second: seq<string>) returns (merged: seq<string>)
    ensures merged == UnionFailed(first, second)
  {
    if |second| == 0 { return first; }
    var all := first + second;
    merged := [];
    for i := 0 to |all|
      invariant merged == FirstNames(all[..i])
    {
      assert all[..i + 1][..i] == all[..i];
      if all[i] == "" || all[i] in merged { continue; }
      merged := merged + [all[i]];
    }
    assert all[..|all|] == all;
  }

  /** setCloseReport: the worse state, both drained, the union of what stands open. */
  method FoldReports(quiesced: Report, run: Report) returns (merged: Report)
    ensures merged == Folded(quiesced, run)
  {
    merged := quiesced;
    if Rank(run.outcome) > Rank(merged.outcome) { merged := merged.(outcome := run.outcome); }
    merged := merged.(drained := merged.drained && run.drained);
    var unsettled := MergeUnsettled([merged.unsettled, run.unsettled]);
    var failed := MergeFailedAnswers(merged.failed, run.failed);
    merged := merged.(unsettled := unsettled, failed := failed);
  }

  function Folded(a: Report, b: Report): Report {
    Report(if Rank(b.outcome) > Rank(a.outcome) then b.outcome else a.outcome,
           a.drained && b.drained, Merged([a.unsettled, b.unsettled]), UnionFailed(a.failed, b.failed))
  }

  /** The fold is never better than either report, hides no open work and no failed answer of
      either, and reads the same whichever report is folded into which. */
  lemma FoldedWorse(a: Report, b: Report)
    ensures var m := Folded(a, b);
            && Rank(m.outcome) == (if Rank(a.outcome) > Rank(b.outcome) then Rank(a.outcome) else Rank(b.outcome))
            && (m.outcome.Quiesced? <==> a.outcome.Quiesced? && b.outcome.Quiesced?)
            && (m.drained <==> a.drained && b.drained)
            && m.outcome == Folded(b, a).outcome
            && (forall k :: Spells(m.unsettled, k) <==> Spells(a.unsettled, k) || Spells(b.unsettled, k))
            && (forall k :: Spells(m.unsettled, k) <==> Spells(Folded(b, a).unsettled, k))
            && (forall x :: x in a.failed && x != "" ==> x in m.failed)
            && (forall x :: x in b.failed && x != "" ==> x in m.failed)
  {
    MergedUnion([a.unsettled, b.unsettled]);
    MergedEitherWay(a.unsettled, b.unsettled);
    ConcatNext([], a.unsettled);
    ConcatNext([a.unsettled], b.unsettled);
    assert [] + [a.unsettled] == [a.unsettled] && [a.unsettled] + [b.unsettled] == [a.unsettled, b.unsettled];
    assert Concat([a.unsettled, b.unsettled]) == a.unsettled + b.unsettled;
    hide Spelled, Merged;
    SpellsBoth(a.unsettled, b.unsettled);
  }
}
