/**
 How the ACP client reports tool calls. A call that starts with its input is reported at once; one
 that does not is remembered, its arguments are collected from later updates, and it is reported
 just before its result. Calls interleave freely; each is told apart by its id.
 */
module AcpTools {
  import opened Collections
  import opened Wrappers

  /** A JSON object as its text; None is a missing one. */
  type Object = Option<string>

  /** The name lookup by title and kind, and the parsing of collected arguments. */
  datatype Rules = Rules(nameOf: (string, string) -> string, parse: string -> Object)

  datatype Notice =
    | Start(id: string, name: string, title: string, kind: string, rawInput: Object, input: Object, parameters: Object, text: string)
    | Update(id: string, status: string, name: string, title: string, kind: string, rawInput: Object, input: Object, parameters: Object,
             rawOutput: string, output: string, text: string)

  datatype Chunk = ToolUse(id: string, name: string, input: Object) | ToolResult(id: string, output: string)

  datatype Pending = Pending(toolName: string, input: Object, argsText: string, emitted: bool)

  type Tools = map<string, Pending>

  function FirstOf(a: Object, b: Object, c: Object): Object {
    if a.Some? then a else if b.Some? then b else c
  }

  function FirstText(a: string, b: string, c: string): string {
    if a != "" then a else if b != "" then b else c
  }

  predicate Ends(n: Notice) {
    n.Update? && (n.status == "completed" || n.status == "failed")
  }

  function NameOf(rules: Rules, n: Notice): string
    requires n.Start?
  {
    if rules.nameOf(n.title, n.kind) == "" then n.name else rules.nameOf(n.title, n.kind)
  }

  function OnStart(rules: Rules, tools: Tools, n: Notice): (Tools, seq<Chunk>)
    requires n.Start?
  {
    var input := FirstOf(n.rawInput, n.input, n.parameters);
    if input.Some? then (tools[n.id := Pending(NameOf(rules, n), input, "", true)], [ToolUse(n.id, NameOf(rules, n), input)])
    else (tools[n.id := Pending(NameOf(rules, n), None, n.text, false)], [])
  }

  /** The use a call that ends is still to be reported with: none if it was reported when it started. */
  function Deferred(rules: Rules, pending: Option<Pending>, id: string, title: string, kind: string, rawInput: Object): seq<Chunk> {
    match pending
    case None => [ToolUse(id, rules.nameOf(title, kind), rawInput)]
    case Some(p) =>
      if p.emitted then [] else [ToolUse(id, p.toolName, if p.input.Some? then p.input else rules.parse(p.argsText))]
  }

  function Lookup(tools: Tools, id: string): Option<Pending> {
    if id in tools then Some(tools[id]) else None
  }

  function OnUpdate(rules: Rules, tools: Tools, n: Notice): (Tools, seq<Chunk>)
    requires n.Update?
  {
    if !Ends(n) then
      (if n.id in tools && !tools[n.id].emitted && n.text != "" then tools[n.id := tools[n.id].(argsText := n.text)] else tools, [])
    else
      (tools - {n.id},
       Deferred(rules, Lookup(tools, n.id), n.id, if n.title == "" then n.name else n.title, n.kind,
                FirstOf(n.rawInput, n.input, n.parameters))
       + [ToolResult(n.id, FirstText(n.rawOutput, n.output, n.text))])
  }

  function Handle(rules: Rules, tools: Tools, n: Notice): (Tools, seq<Chunk>) {
    if n.Start? then OnStart(rules, tools, n) else OnUpdate(rules, tools, n)
  }

  class AcpClient {
    const rules: Rules
    var pendingTools: map<string, Pending>
    var emitted: seq<Chunk>  // what the chunk callback received

    constructor (rules: Rules)
      ensures this.rules == rules && pendingTools == map[] && emitted == []
    {
      this.rules, pendingTools, emitted := rules, map[], [];
    }

    method HandleToolCallStart(n: Notice)
      requires n.Start?
      modifies this`pendingTools, this`emitted
      ensures pendingTools == OnStart(rules, old(pendingTools), n).0
      ensures emitted == old(emitted) + OnStart(rules, old(pendingTools), n).1
      ensures var input := if n.rawInput.Some? then n.rawInput else if n.input.Some? then n.input else n.parameters;
              var name := if rules.nameOf(n.title, n.kind) != "" then rules.nameOf(n.title, n.kind) else n.name;
              && pendingTools == old(pendingTools)[n.id := Pending(name, input, if input.Some? then "" else n.text, input.Some?)]
              && emitted == old(emitted) + if input.Some? then [ToolUse(n.id, name, input)] else []
    {
      var toolName := rules.nameOf(n.title, n.kind);
      if toolName == "" {
        toolName := n.name;
      }
      var rawInput := n.rawInput;
      if rawInput.None? {
        rawInput := n.input;
      }
      if rawInput.None? {
        rawInput := n.parameters;
      }
      if rawInput.Some? {
        pendingTools := pendingTools[n.id := Pending(toolName, rawInput, "", true)];
        emitted := emitted + [ToolUse(n.id, toolName, rawInput)];
        return;
      }
      pendingTools := pendingTools[n.id := Pending(toolName, None, n.text, false)];
    }

    method EmitDeferredToolUse(pending: Option<Pending>, id: string, title: string, kind: string, rawInput: Object)
      modifies this`emitted
      ensures emitted == old(emitted) + Deferred(rules, pending, id, title, kind, rawInput)
      ensures pending.None? ==> emitted == old(emitted) + [ToolUse(id, rules.nameOf(title, kind), rawInput)]
      ensures pending.Some? && pending.value.emitted ==> emitted == old(emitted)
      ensures pending.Some? && !pending.value.emitted ==>
                emitted == old(emitted) + [ToolUse(id, pending.value.toolName, if pending.value.input.Some? then pending.value.input
                                                                               else rules.parse(pending.value.argsText))]
    {
      if pending.Some? && pending.value.emitted {
        return;
      }
      var toolName, input;
      if pending.Some? && pending.value.input.Some? {
        toolName, input := pending.value.toolName, pending.value.input;
      } else if pending.Some? {
        toolName, input := pending.value.toolName, rules.parse(pending.value.argsText);
      } else {
        toolName, input := rules.nameOf(title, kind), rawInput;
      }
      emitted := emitted + [ToolUse(id, toolName, input)];
    }

    method HandleToolCallUpdate(n: Notice)
      requires n.Update?
      modifies this`pendingTools, this`emitted
      ensures pendingTools == OnUpdate(rules, old(pendingTools), n).0
      ensures emitted == old(emitted) + OnUpdate(rules, old(pendingTools), n).1
      ensures n.status != "completed" && n.status != "failed" ==>
                && emitted == old(emitted)
                && pendingTools == if n.id in old(pendingTools) && !old(pendingTools)[n.id].emitted && n.text != "" then
                                     old(pendingTools)[n.id := old(pendingTools)[n.id].(argsText := n.text)]
                                   else old(pendingTools)
      ensures n.status == "completed" || n.status == "failed" ==>
                && pendingTools == old(pendingTools) - {n.id} && emitted != []
                && emitted[|emitted| - 1] == ToolResult(n.id, if n.rawOutput != "" then n.rawOutput else if n.output != "" then n.output else n.text)
                && |emitted| - |old(emitted)| == (if n.id in old(pendingTools) && old(pendingTools)[n.id].emitted then 1 else 2)
                && (n.id !in old(pendingTools) ==>
                      emitted[|emitted| - 2] == ToolUse(n.id, rules.nameOf(if n.title != "" then n.title else n.name, n.kind),
                                                        if n.rawInput.Some? then n.rawInput else if n.input.Some? then n.input else n.parameters))
    {
      var title := if n.title == "" then n.name else n.title;
      if n.status != "completed" && n.status != "failed" {
        if n.id in pendingTools && !pendingTools[n.id].emitted {
          if n.text != "" {
            pendingTools := pendingTools[n.id := pendingTools[n.id].(argsText := n.text)];
          }
        }
        return;
      }
      var pending := Lookup(pendingTools, n.id);
      pendingTools := pendingTools - {n.id};
      EmitDeferredToolUse(pending, n.id, title, n.kind, FirstOf(n.rawInput, n.input, n.parameters));
      var output := n.rawOutput;
      if output == "" {
        output := n.output;
      }
      if output == "" {
        output := n.text;
      }
      emitted := emitted + [ToolResult(n.id, output)];
    }
  }

  // ---- Runs ----

  function Run(rules: Rules, tools: Tools, notices: seq<Notice>): seq<Chunk>
    decreases |notices|
  {
    if notices == [] then []
    else Handle(rules, tools, notices[0]).1 + Run(rules, Handle(rules, tools, notices[0]).0, notices[1..])
  }

  function ToolsAfter(rules: Rules, tools: Tools, notices: seq<Notice>): Tools
    decreases |notices|
  {
    if notices == [] then tools else ToolsAfter(rules, Handle(rules, tools, notices[0]).0, notices[1..])
  }

  function NoticesOf(notices: seq<Notice>, id: string): seq<Notice> {
    if notices == [] then [] else (if notices[0].id == id then [notices[0]] else []) + NoticesOf(notices[1..], id)
  }

  function ChunksOf(chunks: seq<Chunk>, id: string): seq<Chunk> {
    if chunks == [] then [] else (if chunks[0].id == id then [chunks[0]] else []) + ChunksOf(chunks[1..], id)
  }

  lemma {:induction false} ChunksSplit(a: seq<Chunk>, b: seq<Chunk>, id: string)
    ensures ChunksOf(a + b, id) == ChunksOf(a, id) + ChunksOf(b, id)
  {
    if a == [] {
      assert a + b == b;
    } else {
      assert (a + b)[0] == a[0] && (a + b)[1..] == a[1..] + b;
      ChunksSplit(a[1..], b, id);
      Reassociate(if a[0].id == id then [a[0]] else [], ChunksOf(a[1..], id), ChunksOf(b, id));
    }
  }

  /** A notification speaks of its own call alone. */
  lemma HandleIsLocal(rules: Rules, tools: Tools, n: Notice, id: string)
    ensures ChunksOf(Handle(rules, tools, n).1, id) == if n.id == id then Handle(rules, tools, n).1 else []
  {
    ChunksOfOne(Handle(rules, tools, n).1, n.id, id);
  }

  predicate SameEntry(tools: Tools, other: Tools, id: string) {
    (id in tools <==> id in other) && (id in tools ==> tools[id] == other[id])
  }

  lemma OtherEntriesStay(rules: Rules, tools: Tools, n: Notice, id: string)
    requires n.id != id
    ensures SameEntry(Handle(rules, tools, n).0, tools, id)
  {
  }

  lemma {:induction false} ChunksOfOne(chunks: seq<Chunk>, own: string, id: string)
    requires forall c <- chunks :: c.id == own
    ensures ChunksOf(chunks, id) == if own == id then chunks else []
  {
    if chunks != [] {
      ChunksOfOne(chunks[1..], own, id);
      assert chunks == [chunks[0]] + chunks[1..];
    }
  }

  /** What another map with the same entry for the id does with its notification. */
  lemma SameEntryHandled(rules: Rules, tools: Tools, other: Tools, n: Notice)
    requires SameEntry(tools, other, n.id)
    ensures Handle(rules, tools, n).1 == Handle(rules, other, n).1
    ensures SameEntry(Handle(rules, tools, n).0, Handle(rules, other, n).0, n.id)
  {
  }

  /** Calls do not influence each other: the chunks of an id, and what is kept of it, are those of its own notifications. */
  lemma {:induction false} CallsAreIndependent(rules: Rules, tools: Tools, other: Tools, notices: seq<Notice>, id: string)
    requires SameEntry(tools, other, id)
    ensures ChunksOf(Run(rules, tools, notices), id) == Run(rules, other, NoticesOf(notices, id))
    ensures SameEntry(ToolsAfter(rules, tools, notices), ToolsAfter(rules, other, NoticesOf(notices, id)), id)
    decreases |notices|
  {
    if notices != [] {
      var n, rest := notices[0], notices[1..];
      var first, after := Handle(rules, tools, n).1, Handle(rules, tools, n).0;
      HandleIsLocal(rules, tools, n, id);
      ChunksSplit(first, Run(rules, after, rest), id);
      if n.id == id {
        SameEntryHandled(rules, tools, other, n);
        CallsAreIndependent(rules, after, Handle(rules, other, n).0, rest, id);
        assert NoticesOf(notices, id)[1..] == NoticesOf(rest, id);
      } else {
        OtherEntriesStay(rules, tools, n, id);
        CallsAreIndependent(rules, after, other, rest, id);
        assert NoticesOf(notices, id) == NoticesOf(rest, id);
        assert [] + ChunksOf(Run(rules, after, rest), id) == ChunksOf(Run(rules, after, rest), id);
      }
    }
  }

  // ---- One call ----

  /** The last text that the start or an update brought. */
  function LastText(start: Notice, updates: seq<Notice>): string
    requires start.Start? && forall u <- updates :: u.Update?
  {
    if updates == [] then start.text
    else
      var last := updates[|updates| - 1];
      assert last in updates;
      if last.text != "" then last.text else LastText(start, updates[..|updates| - 1])
  }

  /** The input a call is reported with: its own, or the last collected text, never the final update's. */
  function InputOf(rules: Rules, start: Notice, updates: seq<Notice>): Object
    requires start.Start? && forall u <- updates :: u.Update?
  {
    var own := FirstOf(start.rawInput, start.input, start.parameters);
    if own.Some? then own else rules.parse(LastText(start, updates))
  }

  lemma {:induction false} RunSplits(rules: Rules, tools: Tools, a: seq<Notice>, b: seq<Notice>) returns (after: Tools)
    ensures Run(rules, tools, a + b) == Run(rules, tools, a) + Run(rules, after, b)
    ensures after == ToolsAfter(rules, tools, a)
    decreases |a|
  {
    if a == [] {
      assert a + b == b;
      after := tools;
    } else {
      assert (a + b)[0] == a[0] && (a + b)[1..] == a[1..] + b;
      var next := Handle(rules, tools, a[0]);
      after := RunSplits(rules, next.0, a[1..], b);
      Reassociate(next.1, Run(rules, next.0, a[1..]), Run(rules, after, b));
    }
  }

  predicate Collects(updates: seq<Notice>, id: string) {
    forall u <- updates :: u.Update? && u.status != "completed" && u.status != "failed" && u.id == id
  }

  lemma {:induction false} UpdatesCollect(rules: Rules, tools: Tools, start: Notice, updates: seq<Notice>)
    requires start.Start? && start.id in tools && Collects(updates, start.id)
    requires tools[start.id].argsText == start.text || tools[start.id].emitted
    ensures Run(rules, tools, updates) == []
    ensures var after := ToolsAfter(rules, tools, updates);
            start.id in after
            && after[start.id] == if tools[start.id].emitted then tools[start.id] else tools[start.id].(argsText := LastText(start, updates))
    decreases |updates|
  {
    if updates != [] {
      var n := |updates| - 1;
      var front, last := updates[..n], updates[n];
      assert last in updates && updates == front + [last];
      UpdatesCollect(rules, tools, start, front);
      var middle := RunSplits(rules, tools, front, [last]);
      AfterSplits(rules, tools, front, [last]);
      assert [last][1..] == [];
      assert ToolsAfter(rules, Handle(rules, middle, last).0, []) == Handle(rules, middle, last).0;
    }
  }

  lemma {:induction false} AfterSplits(rules: Rules, tools: Tools, a: seq<Notice>, b: seq<Notice>)
    ensures ToolsAfter(rules, tools, a + b) == ToolsAfter(rules, ToolsAfter(rules, tools, a), b)
    decreases |a|
  {
    if a == [] {
      assert a + b == b;
    } else {
      assert (a + b)[1..] == a[1..] + b;
      AfterSplits(rules, Handle(rules, tools, a[0]).0, a[1..], b);
    }
  }

  /**
   However calls interleave, one that starts, is updated and ends is reported as one use and one result,
   in this order; the use has the call's own input or the last text collected for it. Afterwards
   nothing is kept of the call.
   */
  lemma CallIsReportedOnce(rules: Rules, tools: Tools, notices: seq<Notice>, start: Notice, updates: seq<Notice>, end: Notice)
    requires start.Start? && Collects(updates, start.id) && end.Update? && end.id == start.id
    requires end.status == "completed" || end.status == "failed"
    requires NoticesOf(notices, start.id) == [start] + updates + [end]
    ensures ChunksOf(Run(rules, tools, notices), start.id) ==
            [ToolUse(start.id, if rules.nameOf(start.title, start.kind) != "" then rules.nameOf(start.title, start.kind) else start.name,
                     if start.rawInput.Some? then start.rawInput else if start.input.Some? then start.input
                     else if start.parameters.Some? then start.parameters else rules.parse(LastText(start, updates))),
             ToolResult(start.id, if end.rawOutput != "" then end.rawOutput else if end.output != "" then end.output else end.text)]
    ensures start.id !in ToolsAfter(rules, tools, notices)
  {
    CallsAreIndependent(rules, tools, tools, notices, start.id);
    var begun := OnStart(rules, tools, start);
    assert ([start] + updates + [end])[0] == start && ([start] + updates + [end])[1..] == updates + [end];
    CollectedAndEnded(rules, begun.0, start, updates, end);
    var after := ToolsAfter(rules, begun.0, updates);
    assert ToolsAfter(rules, tools, [start] + updates + [end]) == OnUpdate(rules, after, end).0;
    assert begun.1 + OnUpdate(rules, after, end).1 ==
           [ToolUse(start.id, NameOf(rules, start), InputOf(rules, start, updates)),
            ToolResult(start.id, FirstText(end.rawOutput, end.output, end.text))];
  }

  /** The rest of a call: its updates say nothing, and its end comes with what they collected. */
  lemma CollectedAndEnded(rules: Rules, tools: Tools, start: Notice, updates: seq<Notice>, end: Notice)
    requires start.Start? && start.id in tools && Collects(updates, start.id) && Ends(end) && end.id == start.id
    requires tools[start.id].argsText == start.text || tools[start.id].emitted
    ensures var after := ToolsAfter(rules, tools, updates);
            && Run(rules, tools, updates + [end]) == OnUpdate(rules, after, end).1
            && ToolsAfter(rules, tools, updates + [end]) == OnUpdate(rules, after, end).0
            && start.id in after
            && after[start.id] == if tools[start.id].emitted then tools[start.id] else tools[start.id].(argsText := LastText(start, updates))
  {
    UpdatesCollect(rules, tools, start, updates);
    var after := RunSplits(rules, tools, updates, [end]);
    assert [end][1..] == [] && Run(rules, Handle(rules, after, end).0, []) == [];
    assert Run(rules, after, [end]) == Handle(rules, after, end).1;
    AfterSplits(rules, tools, updates, [end]);
    assert ToolsAfter(rules, after, [end]) == ToolsAfter(rules, Handle(rules, after, end).0, []);
  }

  // ---- Uses and results ----

  function Uses(chunks: seq<Chunk>, id: string): nat {
    if chunks == [] then 0 else (if chunks[0].ToolUse? && chunks[0].id == id then 1 else 0) + Uses(chunks[1..], id)
  }

  function Results(chunks: seq<Chunk>, id: string): nat {
    if chunks == [] then 0 else (if chunks[0].ToolResult? && chunks[0].id == id then 1 else 0) + Results(chunks[1..], id)
  }

  /** An id whose use was reported and whose result is still to come. */
  function Ahead(tools: Tools, id: string): nat {
    if id in tools && tools[id].emitted then 1 else 0
  }

  lemma {:induction false} CountsSplit(a: seq<Chunk>, b: seq<Chunk>, id: string)
    ensures Uses(a + b, id) == Uses(a, id) + Uses(b, id) && Results(a + b, id) == Results(a, id) + Results(b, id)
  {
    if a == [] {
      assert a + b == b;
    } else {
      assert (a + b)[1..] == a[1..] + b;
      CountsSplit(a[1..], b, id);
    }
  }

  lemma HandleCounts(rules: Rules, tools: Tools, n: Notice, id: string, k: nat)
    requires k <= |Handle(rules, tools, n).1|
    ensures var chunks, after := Handle(rules, tools, n).1, Handle(rules, tools, n).0;
            && Results(chunks[..k], id) <= Uses(chunks[..k], id) + Ahead(tools, id)
            && Results(chunks, id) + Ahead(after, id) <= Uses(chunks, id) + Ahead(tools, id)
  {
    var chunks := Handle(rules, tools, n).1;
    if |chunks| > 0 {
      CountsOfFew(chunks, id);
      assert k == |chunks| ==> chunks[..k] == chunks;
    }
  }

  lemma CountsOfFew(chunks: seq<Chunk>, id: string)
    requires 1 <= |chunks| <= 2
    ensures Uses(chunks[..1], id) == (if chunks[0].ToolUse? && chunks[0].id == id then 1 else 0)
    ensures Results(chunks[..1], id) == (if chunks[0].ToolResult? && chunks[0].id == id then 1 else 0)
    ensures var last := chunks[|chunks| - 1];
            && (|chunks| == 1 ==> chunks == chunks[..1])
            && (|chunks| == 2 ==>
                  && Uses(chunks, id) == Uses(chunks[..1], id) + (if last.ToolUse? && last.id == id then 1 else 0)
                  && Results(chunks, id) == Results(chunks[..1], id) + (if last.ToolResult? && last.id == id then 1 else 0))
  {
    assert chunks[..1] == [chunks[0]] && chunks[..1][1..] == [];
    if |chunks| == 2 {
      assert chunks[1..] == [chunks[1]] && chunks[1..][1..] == [];
    }
  }

  /** At every moment each result of a call had its use before it, whatever the agent sends. */
  lemma {:induction false} ResultsHaveUses(rules: Rules, tools: Tools, notices: seq<Notice>, id: string, k: nat)
    requires k <= |Run(rules, tools, notices)|
    ensures Results(Run(rules, tools, notices)[..k], id) <= Uses(Run(rules, tools, notices)[..k], id) + Ahead(tools, id)
    decreases |notices|
  {
    if notices != [] {
      var chunks, after := Handle(rules, tools, notices[0]).1, Handle(rules, tools, notices[0]).0;
      var rest := Run(rules, after, notices[1..]);
      var all := Run(rules, tools, notices);
      if k <= |chunks| {
        HandleCounts(rules, tools, notices[0], id, k);
        assert all[..k] == chunks[..k];
      } else {
        HandleCounts(rules, tools, notices[0], id, 0);
        ResultsHaveUses(rules, after, notices[1..], id, k - |chunks|);
        assert all[..k] == chunks + rest[..k - |chunks|];
        CountsSplit(chunks, rest[..k - |chunks|], id);
      }
    }
  }
}
