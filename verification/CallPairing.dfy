// The call pairing of a projected segment: every projected entry becomes one message,
// and a tool message that answers a call is given the assistant message that issued it
// where no earlier message carries that call.
module CallPairing {
  import opened Core
  import opened EventBody

  datatype Role = Assistant | Tool | OtherRole(name: string)

  datatype Entry = Entry(key: string, role: Role, content: string)

  /** calls  the calls an assistant message issues
      toolId the identity a tool message answers under */
  datatype Wire = Wire(role: Role, content: string, calls: seq<ToolCall>, toolId: string, toolName: string)

  /** One message of the segment, and whether the restore minted it. */
  datatype Slot = Slot(message: Wire, minted: bool)

  datatype Identity = Identity(id: string, name: string)

  /** The facts a run still holds, the order they committed in, those its tier holds, and the
      calls every message of the captured requests issued. */
  datatype Facts = Facts(live: map<string, Event>, order: seq<string>, stored: map<string, Event>, captured: seq<seq<ToolCall>>)

  const TASK_SETTLED := OtherKind("task_settled")
  const META_TASK_ID := "task_id"

  /** A fact the window cut still reads back from the tier. */
  function FactOf(f: Facts, key: string): Option<Event> {
    if key in f.live then Some(f.live[key]) else Lookup(f.stored, key)
  }

  function TaskOf(e: Event): string {
    if e.task != "" then e.task else if META_TASK_ID in e.meta then e.meta[META_TASK_ID] else ""
  }

  /** The fact is a tool result of the task. */
  predicate Answers(f: Facts, key: string, task: string) {
    key in f.live && f.live[key].kind.ActionCommand? && f.live[key].task == task && f.live[key].message.toolId != ""
  }

  /** The first live result of the task in commit order, or |order|. */
  function FirstAnswer(f: Facts, task: string, from: nat): (i: nat)
    requires from <= |f.order|
    ensures from <= i <= |f.order| && (i < |f.order| ==> Answers(f, f.order[i], task))
    ensures forall j :: from <= j < i ==> !Answers(f, f.order[j], task)
    decreases |f.order| - from
  {
    if from == |f.order| || Answers(f, f.order[from], task) then from else FirstAnswer(f, task, from + 1)
  }

  /** The identity a tool entry answers under: its fact's own, or for a settled delivery that
      of the first live result of its task; a fact that states none answers none. */
  function IdentityOf(f: Facts, fact: Option<Event>): Identity {
    if fact.None? then Identity("", "")
    else if fact.value.message.toolId != "" then Identity(fact.value.message.toolId, fact.value.message.toolName)
    else if fact.value.kind != TASK_SETTLED || TaskOf(fact.value) == "" then Identity("", "")
    else
      var i := FirstAnswer(f, TaskOf(fact.value), 0);
      if i == |f.order| then Identity("", "") else Identity(f.live[f.order[i]].message.toolId, f.live[f.order[i]].message.toolName)
  }

  /** The identity of a settled delivery: that of the earliest live tool result of its task
      that states one, and none where the task is unnamed or no live result states one. */
  ghost predicate SettledIdentity(f: Facts, task: string, r: Identity) {
    && (r.id == "" ==> r.name == "")
    && (r.id == "" && task != "" ==> forall i :: 0 <= i < |f.order| ==> !ResultOf(f, f.order[i], task))
    && (r.id != "" ==> task != "" && exists i :: (
          && 0 <= i < |f.order| && ResultOf(f, f.order[i], task)
          && (forall j :: 0 <= j < i ==> !ResultOf(f, f.order[j], task))
          && f.live[f.order[i]].message.toolId == r.id && f.live[f.order[i]].message.toolName == r.name))
  }

  /** A live fact that is a tool command of the task and answers a call. */
  ghost predicate ResultOf(f: Facts, key: string, task: string) {
    && key in f.live && f.live[key].kind.ActionCommand?
    && f.live[key].task == task && f.live[key].message.toolId != ""
  }

  /** callIdentityOf. */
  method CallIdentityOf(f: Facts, fact: Option<Event>) returns (r: Identity)
    ensures r == IdentityOf(f, fact)
    ensures fact.None? ==> r == Identity("", "")
    ensures fact.Some? && fact.value.message.toolId != "" ==>
              r.id == fact.value.message.toolId && r.name == fact.value.message.toolName
    ensures fact.Some? && fact.value.message.toolId == "" && fact.value.kind != OtherKind("task_settled") ==> r == Identity("", "")
    ensures fact.Some? && fact.value.message.toolId == "" && fact.value.kind == OtherKind("task_settled") ==>
              SettledIdentity(f, if fact.value.task != "" then fact.value.task
                                 else if "task_id" in fact.value.meta then fact.value.meta["task_id"] else "", r)
  {
    r := Identity("", "");
    if fact.None? { return; }
    var e := fact.value;
    if e.message.toolId != "" { return Identity(e.message.toolId, e.message.toolName); }
    if e.kind != TASK_SETTLED { return; }
    var task := TaskOf(e);
    if task == "" { return; }
    for i := 0 to |f.order|
      invariant forall j :: 0 <= j < i ==> !Answers(f, f.order[j], task)
    {
      if Answers(f, f.order[i], task) {
        return Identity(f.live[f.order[i]].message.toolId, f.live[f.order[i]].message.toolName);
      }
    }
  }

  // --- the arguments of a call ---

  /** The capture issued the call with arguments. */
  predicate Carries(c: ToolCall, id: string) { c.id == id && c.arguments != "" }

  /** The first call of a message that carries arguments for the identity, or |calls|. */
  function FirstCarrying(calls: seq<ToolCall>, id: string): (i: nat)
    ensures i <= |calls| && (i < |calls| ==> Carries(calls[i], id))
    ensures forall j :: 0 <= j < i ==> !Carries(calls[j], id)
  {
    if calls == [] || Carries(calls[0], id) then 0 else 1 + FirstCarrying(calls[1..], id)
  }

  /** The arguments the earliest captured message issued the call with; the empty object
      where none did. */
  function ArgumentsOf(captured: seq<seq<ToolCall>>, id: string): (r: string)
    ensures (forall calls, c :: calls in captured && c in calls ==> !Carries(c, id)) ==> r == "{}"
    ensures (exists calls, c :: calls in captured && c in calls && Carries(c, id)) ==>
              exists calls, c :: calls in captured && c in calls && Carries(c, id) && c.arguments == r
  {
    if captured == [] then "{}"
    else
      var i := FirstCarrying(captured[0], id);
      if i < |captured[0]| then
        assert captured[0] in captured && captured[0][i] in captured[0];
        captured[0][i].arguments
      else ArgumentsOf(captured[1..], id)
  }

  /** callArgumentsOf. */
  method CallArgumentsOf(captured: seq<seq<ToolCall>>, id: string) returns (r: string)
    ensures r == ArgumentsOf(captured, id)
  {
    for n := 0 to |captured|
      invariant ArgumentsOf(captured, id) == ArgumentsOf(captured[n..], id)
    {
      for i := 0 to |captured[n]|
        invariant forall j :: 0 <= j < i ==> !Carries(captured[n][j], id)
      {
        if Carries(captured[n][i], id) {
          FirstIs(captured[n], id, i);
          return captured[n][i].arguments;
        }
      }
      FirstIs(captured[n], id, |captured[n]|);
      assert captured[n..][1..] == captured[n + 1..];
    }
    r := "{}";
  }

  lemma FirstIs(calls: seq<ToolCall>, id: string, i: nat)
    requires i <= |calls| && (i < |calls| ==> Carries(calls[i], id)) && forall j :: 0 <= j < i ==> !Carries(calls[j], id)
    ensures FirstCarrying(calls, id) == i
  {
  }

  // --- the pairing ---

  predicate HasCall(calls: seq<ToolCall>, id: string) { exists c :: c in calls && c.id == id }

  predicate Issues(s: Slot, id: string) { s.message.role.Assistant? && HasCall(s.message.calls, id) }

  /** Some message before position n issues the call. */
  ghost predicate IssuedBefore(out: seq<Slot>, n: nat, id: string) {
    exists i :: 0 <= i < n && i < |out| && Issues(out[i], id)
  }

  /** The pairing of a segment: an answered call was issued before its answer, and a message
      is minted only for a call no earlier message issues, right before the answer to it, with
      the tool name of that answer and the arguments the capture holds. */
  ghost predicate Paired(f: Facts, out: seq<Slot>) {
    && (forall n :: 0 <= n < |out| && out[n].message.role.Tool? && out[n].message.toolId != "" ==>
        IssuedBefore(out, n, out[n].message.toolId))
    && (forall n :: 0 <= n < |out| && out[n].minted ==>
        && out[n].message.role.Assistant? && n + 1 < |out| && !out[n + 1].minted && out[n + 1].message.role.Tool?
        && !IssuedBefore(out, n, out[n + 1].message.toolId)
        && out[n].message == Issue(f, out[n + 1].message))
  }

  /** The message that issues the call a tool message answers. */
  function Issue(f: Facts, answer: Wire): Wire {
    Wire(Assistant, "", [ToolCall(answer.toolId, answer.toolName, ArgumentsOf(f.captured, answer.toolId))], "", "")
  }

  /** The messages that stand for entries. */
  function Projected(out: seq<Slot>): seq<Wire> {
    if out == [] then []
    else Projected(out[..|out| - 1]) + if out[|out| - 1].minted then [] else [out[|out| - 1].message]
  }

  /** The message an entry stands for: an assistant entry carries the calls of its fact, a
      tool entry the identity it answers under. */
  function WireOf(f: Facts, entry: Entry): Wire {
    var fact := FactOf(f, entry.key);
    var id := if entry.role.Tool? then IdentityOf(f, fact) else Identity("", "");
    Wire(entry.role, entry.content, if entry.role.Assistant? then CallsOf(fact) else [], id.id, if id.id == "" then "" else id.name)
  }

  ghost predicate OnePerEntry(f: Facts, out: seq<Slot>, entries: seq<Entry>) {
    && |Projected(out)| == |entries|
    && (forall i :: 0 <= i < |entries| ==> Projected(out)[i] == WireOf(f, entries[i]))
  }

  lemma IssuedAppend(out: seq<Slot>, more: seq<Slot>, n: nat, id: string)
    requires n <= |out|
    ensures IssuedBefore(out + more, n, id) <==> IssuedBefore(out, n, id)
  {
    forall i | 0 <= i < n ensures (out + more)[i] == out[i] {}
    if IssuedBefore(out, n, id) {
      var i :| 0 <= i < n && i < |out| && Issues(out[i], id);
      assert Issues((out + more)[i], id);
    }
  }

  lemma {:induction false} ProjectedAppend(out: seq<Slot>, s: Slot)
    ensures Projected(out + [s]) == Projected(out) + if s.minted then [] else [s.message]
  {
    assert (out + [s])[..|out|] == out;
  }

  /** What one restored entry adds: its own message, and before it the issue it lacks. */
  ghost predicate Restored(f: Facts, out: seq<Slot>, entry: Entry, next: seq<Slot>) {
    var message := WireOf(f, entry);
    var issue := Slot(Issue(f, message), true);
    next == if message.toolId != "" && !IssuedBefore(out, |out|, message.toolId) then out + [issue] + [Slot(message, false)]
            else out + [Slot(message, false)]
  }

  lemma RestoredPairs(f: Facts, out: seq<Slot>, entry: Entry, next: seq<Slot>)
    requires Paired(f, out) && Restored(f, out, entry, next)
    ensures Paired(f, next)
  {
    hide IdentityOf, CallsOf, FactOf, ArgumentsOf;
    var id := WireOf(f, entry).toolId;
    var more := next[|out|..];
    assert next == out + more;
    forall n | 0 <= n < |next| && next[n].message.role.Tool? && next[n].message.toolId != ""
      ensures IssuedBefore(next, n, next[n].message.toolId)
    {
      if n < |out| {
        IssuedAppend(out, more, n, out[n].message.toolId);
      } else if |more| == 2 {
        assert Issue(f, WireOf(f, entry)).calls[0] in next[|out|].message.calls;
        assert Issues(next[|out|], id);
      } else {
        IssuedAppend(out, more, |out|, id);
      }
    }
    forall n | 0 <= n < |next| && next[n].minted
      ensures next[n].message.role.Assistant? && n + 1 < |next| && !next[n + 1].minted && next[n + 1].message.role.Tool?
      ensures !IssuedBefore(next, n, next[n + 1].message.toolId) && next[n].message == Issue(f, next[n + 1].message)
    {
      if n < |out| {
        IssuedAppend(out, more, n, out[n + 1].message.toolId);
      } else {
        IssuedAppend(out, more, |out|, id);
      }
    }
  }

  lemma RestoredProjects(f: Facts, out: seq<Slot>, entries: seq<Entry>, entry: Entry, next: seq<Slot>)
    requires OnePerEntry(f, out, entries) && Restored(f, out, entry, next)
    ensures OnePerEntry(f, next, entries + [entry])
  {
    hide WireOf;
    hide ArgumentsOf;
    var issue := Slot(Issue(f, WireOf(f, entry)), true);
    ProjectedAppend(out, issue);
    ProjectedAppend(out, next[|next| - 1]);
    ProjectedAppend(out + [issue], next[|next| - 1]);
  }

  /** The calls a fact committed. */
  function CallsOf(e: Option<Event>): seq<ToolCall> { if e.None? then [] else e.value.message.calls }

  /** Exactly the calls some message of the segment issues are marked. */
  ghost predicate Marks(paired: set<string>, out: seq<Slot>) {
    forall k :: k in paired <==> IssuedBefore(out, |out|, k)
  }

  /** restoreCallPairing over one entry. paired holds the calls some message already issues. */
  method RestoreCallPairing(f: Facts, out: seq<Slot>, entry: Entry, paired: set<string>) returns (next: seq<Slot>, marked: set<string>)
    requires Marks(paired, out)
    ensures Restored(f, out, entry, next) && Marks(marked, next)
  {
    var fact := FactOf(f, entry.key);
    var message := Wire(entry.role, entry.content, [], "", "");
    marked := paired;
    var identity := Identity("", "");
    next := out;
    match entry.role {
      case Assistant =>
        message := message.(calls := CallsOf(fact));
        marked := marked + set c | c in CallsOf(fact) :: c.id;
      case Tool =>
        identity := CallIdentityOf(f, fact);
        if identity.id != "" {
          message := message.(toolId := identity.id, toolName := identity.name);
          if identity.id !in paired {
            marked := marked + {identity.id};
            var arguments := CallArgumentsOf(f.captured, identity.id);
            var issue := Slot(Wire(Assistant, "", [ToolCall(identity.id, identity.name, arguments)], "", ""), true);
            IssuedNext(out, issue);
            OneCall(identity.id, identity.name, arguments);
            next := out + [issue];
          }
        }
      case OtherRole(_) =>
    }
    ghost var before := next;
    assert forall k :: k in marked <==> IssuedBefore(before, |before|, k) || Issues(Slot(message, false), k);
    IssuedNext(before, Slot(message, false));
    next := next + [Slot(message, false)];
    assert |next| == |before| + 1;
  }

  lemma OneCall(id: string, name: string, arguments: string)
    ensures forall k :: HasCall([ToolCall(id, name, arguments)], k) <==> k == id
  {
    assert ToolCall(id, name, arguments) in [ToolCall(id, name, arguments)];
  }

  lemma IssuedNext(out: seq<Slot>, s: Slot)
    ensures forall k :: IssuedBefore(out + [s], |out| + 1, k) <==> IssuedBefore(out, |out|, k) || Issues(s, k)
  {
    forall k ensures IssuedBefore(out + [s], |out| + 1, k) <==> IssuedBefore(out, |out|, k) || Issues(s, k) {
      IssuedAppend(out, [s], |out|, k);
      if IssuedBefore(out + [s], |out| + 1, k) && !Issues(s, k) {
        var i :| 0 <= i < |out| + 1 && i < |out + [s]| && Issues((out + [s])[i], k);
        assert i < |out| && Issues(out[i], k);
      }
      if IssuedBefore(out, |out|, k) {
        var i :| 0 <= i < |out| && i < |out| && Issues(out[i], k);
        assert Issues((out + [s])[i], k);
      }
      if Issues(s, k) { assert (out + [s])[|out|] == s; }
    }
  }

  /** projectedSegment: for every projection and every state of the facts the segment is
      paired, and without what was minted it is one message for each entry, in order. */
  method ProjectedSegment(f: Facts, entries: seq<Entry>) returns (out: seq<Slot>)
    ensures Paired(f, out) && OnePerEntry(f, out, entries)
  {
    hide *;
    out := [];
    var paired: set<string> := {};
    NothingProjected(f);
    for i := 0 to |entries|
      invariant Paired(f, out) && OnePerEntry(f, out, entries[..i])
      invariant Marks(paired, out)
    {
      ghost var so := out;
      out, paired := RestoreCallPairing(f, out, entries[i], paired);
      RestoredPairs(f, so, entries[i], out);
      RestoredProjects(f, so, entries[..i], entries[i], out);
      assert entries[..i + 1] == entries[..i] + [entries[i]];
    }
    assert entries[..|entries|] == entries;
  }

  lemma NothingProjected(f: Facts)
    ensures Paired(f, []) && OnePerEntry(f, [], []) && Marks({}, [])
  {
  }
}
