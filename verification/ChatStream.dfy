/** Rebuilding an OpenAI chat message from its streamed chunks. */
module ChatStream {
  import opened Common

  datatype Index = Index(num: int)

  datatype ToolDelta = ToolDelta(index: Index, id: string, name: string, args: string)

  /** A chunk's first choice; `Ignored` is a payload without one or not JSON. */
  datatype Chunk = Ignored | Delta(role: string, content: string, toolCalls: seq<ToolDelta>)

  datatype Tool = Tool(id: string, name: string, args: string)

  datatype State = State(role: string, text: string, tools: map<Index, Tool>)

  datatype Message = Message(role: string, content: Option<string>, tools: seq<Tool>)

  const NEW_TOOL: Tool := Tool("", "", "")
  const EMPTY: State := State("", "", map[])

  function Merge(t: Tool, d: ToolDelta): Tool {
    Tool(if d.id != "" then d.id else t.id, if d.name != "" then d.name else t.name, t.args + d.args)
  }

  function StepTool(tools: map<Index, Tool>, d: ToolDelta): map<Index, Tool> {
    tools[d.index := Merge(if d.index in tools then tools[d.index] else NEW_TOOL, d)]
  }

  function StepTools(tools: map<Index, Tool>, ds: seq<ToolDelta>): map<Index, Tool> {
    if ds == [] then tools else StepTool(StepTools(tools, ds[..|ds| - 1]), ds[|ds| - 1])
  }

  function Step(s: State, c: Chunk): State {
    match c
    case Ignored => s
    case Delta(role, content, ds) =>
      State(if role != "" then role else s.role, s.text + content, StepTools(s.tools, ds))
  }

  function Fold(chunks: seq<Chunk>): State {
    if chunks == [] then EMPTY else Step(Fold(chunks[..|chunks| - 1]), chunks[|chunks| - 1])
  }

  // ----- the tool calls in ascending index order -----

  function ByNumber(): Index -> SortKey { (i: Index) => (i.num, 0) }

  lemma LeastIsUnique(s: set<Index>, i: Index, j: Index)
    requires IsLeast(s, ByNumber(), i) && IsLeast(s, ByNumber(), j)
    ensures i == j
  {
    assert Upto(ByNumber()(i), ByNumber()(j)) && Upto(ByNumber()(j), ByNumber()(i));
    assert i == Index(i.num) && j == Index(j.num);
  }

  ghost function Ascending(s: set<Index>): seq<Index>
    decreases |s|
  {
    if s == {} then []
    else
      LeastExists(s, ByNumber());
      var i :| IsLeast(s, ByNumber(), i);
      [i] + Ascending(s - {i})
  }

  lemma {:induction false} AscendingIsSorted(s: set<Index>)
    ensures forall i, j | 0 <= i < j < |Ascending(s)| :: Ascending(s)[i].num < Ascending(s)[j].num
    ensures forall i :: i in s <==> i in Ascending(s)
    decreases |s|
  {
    if s != {} {
      var first := Ascending(s)[0];
      var rest := s - {first};
      assert IsLeast(s, ByNumber(), first);
      AscendingIsSorted(rest);
      assert Ascending(s) == [first] + Ascending(rest);
      forall j | 0 < j < |Ascending(s)| ensures first.num < Ascending(s)[j].num {
        assert Ascending(s)[j] in Ascending(rest);
        assert Ascending(s)[j] in rest;
        assert Upto(ByNumber()(first), ByNumber()(Ascending(s)[j]));
        assert first == Index(first.num) && Ascending(s)[j] == Index(Ascending(s)[j].num);
      }
    }
  }

  ghost function ToolList(tools: map<Index, Tool>): seq<Tool> {
    AscendingIsSorted(tools.Keys);
    seq(|Ascending(tools.Keys)|, k requires 0 <= k < |Ascending(tools.Keys)| =>
      (assert Ascending(tools.Keys)[k] in Ascending(tools.Keys); tools[Ascending(tools.Keys)[k]]))
  }

  ghost function Build(s: State): Option<Message> {
    if s.text == "" && s.tools == map[] then None
    else
      Some(Message(if s.role == "" then "assistant" else s.role,
                   if s.text == "" then None else Some(s.text), ToolList(s.tools)))
  }

  // ----- the accumulator -----

  class ChatAccumulator {
    var role: string
    var text: string
    var tools: map<Index, Tool>

    constructor ()
      ensures Contents() == EMPTY
    {
      role, text, tools := "", "", map[];
    }

    ghost function Contents(): State
      reads this
    {
      State(role, text, tools)
    }

    method AddToolDelta(d: ToolDelta)
      modifies this`tools
      ensures tools == StepTool(old(tools), d)
    {
      var t := if d.index in tools then tools[d.index] else NEW_TOOL;
      if d.id != "" {
        t := t.(id := d.id);
      }
      if d.name != "" {
        t := t.(name := d.name);
      }
      tools := tools[d.index := t.(args := t.args + d.args)];
    }

    method AddChunk(c: Chunk)
      modifies this
      ensures Contents() == Step(old(Contents()), c)
    {
      if c.Ignored? {
        return;
      }
      if c.role != "" {
        role := c.role;
      }
      text := text + c.content;
      var i := 0;
      while i < |c.toolCalls|
        invariant 0 <= i <= |c.toolCalls|
        invariant tools == StepTools(old(tools), c.toolCalls[..i])
        invariant role == (if c.role != "" then c.role else old(role)) && text == old(text) + c.content
      {
        StepToolsSnoc(old(tools), c.toolCalls, i);
        AddToolDelta(c.toolCalls[i]);
        i := i + 1;
      }
      assert c.toolCalls[..i] == c.toolCalls;
    }

    method BuildMessage() returns (m: Option<Message>)
      ensures m == Build(Contents())
    {
      if text == "" && tools == map[] {
        return None;
      }
      var idxs := SortedIndices(tools.Keys);
      AscendingIsSorted(tools.Keys);
      var calls := [];
      var k := 0;
      while k < |idxs|
        invariant 0 <= k <= |idxs| && |calls| == k
        invariant forall j | 0 <= j < k :: idxs[j] in tools && calls[j] == tools[idxs[j]]
      {
        assert idxs[k] in idxs;
        calls := calls + [tools[idxs[k]]];
        k := k + 1;
      }
      assert calls == ToolList(tools);
      m := Some(Message(if role == "" then "assistant" else role, if text == "" then None else Some(text), calls));
    }
  }

  lemma StepToolsSnoc(tools: map<Index, Tool>, ds: seq<ToolDelta>, i: nat)
    requires i < |ds|
    ensures StepTools(tools, ds[..i + 1]) == StepTool(StepTools(tools, ds[..i]), ds[i])
  {
    assert ds[..i + 1][..i] == ds[..i];
  }

  method SortedIndices(s: set<Index>) returns (idxs: seq<Index>)
    ensures idxs == Ascending(s)
  {
    idxs := [];
    var left := s;
    while left != {}
      invariant left <= s
      invariant idxs + Ascending(left) == Ascending(s)
      decreases |left|
    {
      var i := FindLeast(left, ByNumber());
      LeastIsUnique(left, i, Ascending(left)[0]);
      idxs := idxs + [i];
      left := left - {i};
    }
    assert Ascending({}) == [];
  }

  // ----- what the fold computes -----

  function RoleOf(chunks: seq<Chunk>): string {
    if chunks == [] then ""
    else
      var last := chunks[|chunks| - 1];
      if last.Delta? && last.role != "" then last.role else RoleOf(chunks[..|chunks| - 1])
  }

  function TextOf(chunks: seq<Chunk>): string {
    if chunks == [] then ""
    else
      var last := chunks[|chunks| - 1];
      TextOf(chunks[..|chunks| - 1]) + (if last.Delta? then last.content else "")
  }

  /** The deltas of one tool call, in order of arrival. */
  function ForTool(ds: seq<ToolDelta>, i: Index): seq<ToolDelta> {
    if ds == [] then []
    else ForTool(ds[..|ds| - 1], i) + (if ds[|ds| - 1].index == i then [ds[|ds| - 1]] else [])
  }

  function ToolDeltas(chunks: seq<Chunk>): seq<ToolDelta> {
    if chunks == [] then []
    else
      var last := chunks[|chunks| - 1];
      ToolDeltas(chunks[..|chunks| - 1]) + (if last.Delta? then last.toolCalls else [])
  }

  function ToolOf(ds: seq<ToolDelta>): Tool {
    if ds == [] then NEW_TOOL else Merge(ToolOf(ds[..|ds| - 1]), ds[|ds| - 1])
  }

  function ToolDeltasOf(chunks: seq<Chunk>, i: Index): seq<ToolDelta> { ForTool(ToolDeltas(chunks), i) }

  lemma {:induction false} StepToolsAppends(a: seq<ToolDelta>, b: seq<ToolDelta>)
    ensures StepTools(map[], a + b) == StepTools(StepTools(map[], a), b)
    decreases |b|
  {
    if b == [] {
      assert a + b == a;
    } else {
      StepToolsAppends(a, b[..|b| - 1]);
      assert (a + b)[..|a + b| - 1] == a + b[..|b| - 1];
    }
  }

  lemma {:induction false} FoldTools(chunks: seq<Chunk>)
    ensures Fold(chunks).tools == StepTools(map[], ToolDeltas(chunks))
    decreases |chunks|
  {
    if chunks != [] {
      FoldTools(chunks[..|chunks| - 1]);
      if chunks[|chunks| - 1].Delta? {
        StepToolsAppends(ToolDeltas(chunks[..|chunks| - 1]), chunks[|chunks| - 1].toolCalls);
      } else {
        assert ToolDeltas(chunks) == ToolDeltas(chunks[..|chunks| - 1]);
      }
    }
  }

  lemma {:induction false} ToolsByIndex(ds: seq<ToolDelta>, i: Index)
    ensures i in StepTools(map[], ds) <==> ForTool(ds, i) != []
    ensures i in StepTools(map[], ds) ==> StepTools(map[], ds)[i] == ToolOf(ForTool(ds, i))
    decreases |ds|
  {
    if ds != [] {
      var init, last := ds[..|ds| - 1], ds[|ds| - 1];
      ToolsByIndex(init, i);
      if last.index == i {
        assert (ForTool(init, i) + [last])[..|ForTool(init, i)|] == ForTool(init, i);
      } else {
        assert ForTool(ds, i) == ForTool(init, i);
      }
    }
  }

  /** Each tool call is built from its own deltas alone. */
  lemma ToolFromItsDeltas(chunks: seq<Chunk>, i: Index)
    ensures i in Fold(chunks).tools <==> ToolDeltasOf(chunks, i) != []
    ensures i in Fold(chunks).tools ==> Fold(chunks).tools[i] == ToolOf(ToolDeltasOf(chunks, i))
  {
    FoldTools(chunks);
    ToolsByIndex(ToolDeltas(chunks), i);
  }

  lemma {:induction false} FoldText(chunks: seq<Chunk>)
    ensures Fold(chunks).role == RoleOf(chunks) && Fold(chunks).text == TextOf(chunks)
    decreases |chunks|
  {
    if chunks != [] {
      FoldText(chunks[..|chunks| - 1]);
    }
  }

  /**
   * Chunks may be cut and interleaved in any way: as long as the text, the last role and
   * each tool call's own deltas come out the same, so does the message.
   */
  lemma InterleavingsAgree(a: seq<Chunk>, b: seq<Chunk>)
    requires RoleOf(a) == RoleOf(b) && TextOf(a) == TextOf(b)
    requires forall i :: ToolDeltasOf(a, i) == ToolDeltasOf(b, i)
    ensures Fold(a) == Fold(b) && Build(Fold(a)) == Build(Fold(b))
  {
    FoldText(a);
    FoldText(b);
    forall i
      ensures i in Fold(a).tools <==> i in Fold(b).tools
      ensures i in Fold(a).tools ==> Fold(a).tools[i] == Fold(b).tools[i]
    {
      assert ToolDeltasOf(a, i) == ToolDeltasOf(b, i);
      ToolFromItsDeltas(a, i);
      ToolFromItsDeltas(b, i);
    }
    assert Fold(a).tools == Fold(b).tools;
  }

  // ----- any chunking of a message -----

  function ArgsOf(ds: seq<ToolDelta>): string {
    if ds == [] then "" else ArgsOf(ds[..|ds| - 1]) + ds[|ds| - 1].args
  }

  /** The last id that came, if any did. */
  function LastId(ds: seq<ToolDelta>): string {
    if ds == [] then ""
    else if ds[|ds| - 1].id != "" then ds[|ds| - 1].id else LastId(ds[..|ds| - 1])
  }

  function LastName(ds: seq<ToolDelta>): string {
    if ds == [] then ""
    else if ds[|ds| - 1].name != "" then ds[|ds| - 1].name else LastName(ds[..|ds| - 1])
  }

  /** One tool call's deltas: its id and name, each the last that came, and its arguments in pieces. */
  predicate StreamsTool(ds: seq<ToolDelta>, t: Tool) {
    ds != [] && t.id == LastId(ds) && t.name == LastName(ds) && t.args == ArgsOf(ds)
  }

  ghost predicate Streams(chunks: seq<Chunk>, role: string, text: string, tools: map<Index, Tool>) {
    && TextOf(chunks) == text
    && role == (if RoleOf(chunks) == "" then "assistant" else RoleOf(chunks))
    && (forall i ::
          var ds := ToolDeltasOf(chunks, i); if i in tools then StreamsTool(ds, tools[i]) else ds == [])
  }

  lemma {:induction false} ToolRebuilt(ds: seq<ToolDelta>)
    ensures ToolOf(ds) == Tool(LastId(ds), LastName(ds), ArgsOf(ds))
    decreases |ds|
  {
    if ds != [] {
      ToolRebuilt(ds[..|ds| - 1]);
    }
  }

  /** However a message is cut into chunks, the accumulator gives it back, its tool calls in index order. */
  lemma ChunkingRoundTrips(chunks: seq<Chunk>, role: string, text: string, tools: map<Index, Tool>)
    requires Streams(chunks, role, text, tools)
    ensures Build(Fold(chunks)) ==
            (if text == "" && tools == map[] then None
             else Some(Message(role, if text == "" then None else Some(text), ToolList(tools))))
  {
    FoldText(chunks);
    forall i
      ensures i in Fold(chunks).tools <==> i in tools
      ensures i in tools ==> Fold(chunks).tools[i] == tools[i]
    {
      ToolFromItsDeltas(chunks, i);
      ToolRebuilt(ToolDeltasOf(chunks, i));
    }
    assert Fold(chunks).tools == tools;
  }
}
