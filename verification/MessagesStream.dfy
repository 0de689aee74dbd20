/** Rebuilding an Anthropic message from its streamed content-block frames. */
module MessagesStream {
  import opened Common

  datatype Index = Index(num: int)

  datatype Content = Content(kind: string, text: string, id: string, name: string)
  datatype Delta = TextDelta(text: string) | InputDelta(json: string) | OtherDelta

  /** `Other` is any other event type, or a payload that is not JSON. */
  datatype Frame = Start(index: Index, content: Option<Content>) | Change(index: Index, delta: Option<Delta>) | Other

  datatype Block = Block(kind: string, text: string, input: string, id: string, name: string)

  datatype State = State(order: seq<Index>, blocks: map<Index, Block>)

  datatype Rendered = TextBlock(text: string) | ToolBlock(id: string, name: string, input: string)

  const EMPTY: State := State([], map[])

  function Opened(c: Content): Block {
    Block(c.kind, if c.kind == "text" then c.text else "", "",
          if c.kind == "tool_use" then c.id else "", if c.kind == "tool_use" then c.name else "")
  }

  function Changed(b: Block, d: Delta): Block {
    match d
    case TextDelta(t) => b.(text := b.text + t)
    case InputDelta(j) => b.(input := b.input + j)
    case OtherDelta => b
  }

  predicate Starts(f: Frame) { f.Start? && f.content.Some? }
  predicate Changes(f: Frame) { f.Change? && f.delta.Some? }

  /** A second start for an index replaces its block and keeps its place. */
  function Step(s: State, f: Frame): State {
    if Starts(f) then
      State(if f.index in s.blocks then s.order else s.order + [f.index], s.blocks[f.index := Opened(f.content.value)])
    else if Changes(f) && f.index in s.blocks then
      s.(blocks := s.blocks[f.index := Changed(s.blocks[f.index], f.delta.value)])
    else s
  }

  function Steps(s: State, fs: seq<Frame>): State {
    if fs == [] then s else Step(Steps(s, fs[..|fs| - 1]), fs[|fs| - 1])
  }

  function Fold(fs: seq<Frame>): State { Steps(EMPTY, fs) }

  /** `valid` decides whether a string is JSON. */
  function RenderInput(input: string, valid: string -> bool): string {
    if input != "" && valid(input) then input else "{}"
  }

  function Render(b: Block, valid: string -> bool): seq<Rendered> {
    if b.kind == "text" then [TextBlock(b.text)]
    else if b.kind == "tool_use" then [ToolBlock(b.id, b.name, RenderInput(b.input, valid))]
    else []
  }

  function RenderAll(order: seq<Index>, blocks: map<Index, Block>, valid: string -> bool): seq<Rendered> {
    if order == [] then []
    else
      var last := order[|order| - 1];
      RenderAll(order[..|order| - 1], blocks, valid) + (if last in blocks then Render(blocks[last], valid) else [])
  }

  function Build(s: State, valid: string -> bool): Option<seq<Rendered>> {
    var out := RenderAll(s.order, s.blocks, valid);
    if out == [] then None else Some(out)
  }

  // ----- the accumulator -----

  class MessagesAccumulator {
    var order: seq<Index>
    var blocks: map<Index, Block>

    constructor ()
      ensures Contents() == EMPTY
    {
      order, blocks := [], map[];
    }

    ghost function Contents(): State
      reads this
    {
      State(order, blocks)
    }

    method AddFrame(f: Frame)
      modifies this
      ensures Contents() == Step(old(Contents()), f)
    {
      match f
      case Start(i, content) =>
        if content.None? {
          return;
        }
        var c := content.value;
        var b := Block(c.kind, "", "", "", "");
        if c.kind == "text" {
          b := b.(text := b.text + c.text);
        } else if c.kind == "tool_use" {
          b := b.(id := c.id, name := c.name);
        }
        if i !in blocks {
          order := order + [i];
        }
        blocks := blocks[i := b];
        assert b == Opened(c);
      case Change(i, delta) =>
        if i !in blocks || delta.None? {
          return;
        }
        var b := blocks[i];
        match delta.value {
          case TextDelta(t) => b := b.(text := b.text + t);
          case InputDelta(j) => b := b.(input := b.input + j);
          case OtherDelta =>
        }
        blocks := blocks[i := b];
      case Other =>
    }

    method BuildMessage(valid: string -> bool) returns (m: Option<seq<Rendered>>)
      ensures m == Build(Contents(), valid)
    {
      if blocks == map[] {
        NothingStarted(order, blocks, valid);
        return None;
      }
      var out := [];
      var k := 0;
      while k < |order|
        invariant 0 <= k <= |order|
        invariant out == RenderAll(order[..k], blocks, valid)
      {
        assert order[..k + 1][..k] == order[..k];
        if order[k] in blocks {
          var b := blocks[order[k]];
          if b.kind == "text" {
            out := out + [TextBlock(b.text)];
          } else if b.kind == "tool_use" {
            var input := "{}";
            if b.input != "" && valid(b.input) {
              input := b.input;
            }
            out := out + [ToolBlock(b.id, b.name, input)];
          }
        }
        k := k + 1;
      }
      assert order[..k] == order;
      m := if out == [] then None else Some(out);
    }
  }

  lemma {:induction false} NothingStarted(order: seq<Index>, blocks: map<Index, Block>, valid: string -> bool)
    requires blocks == map[]
    ensures RenderAll(order, blocks, valid) == []
    decreases |order|
  {
    if order != [] {
      NothingStarted(order[..|order| - 1], blocks, valid);
    }
  }

  // ----- what the fold depends on -----

  /** The indices in the order their blocks first started. */
  function StartOrder(fs: seq<Frame>): seq<Index> {
    if fs == [] then []
    else
      var before, last := StartOrder(fs[..|fs| - 1]), fs[|fs| - 1];
      if Starts(last) && last.index !in before then before + [last.index] else before
  }

  /** One block's own frames, in order of arrival. */
  function ForBlock(fs: seq<Frame>, i: Index): seq<Frame> {
    if fs == [] then []
    else
      var last := fs[|fs| - 1];
      ForBlock(fs[..|fs| - 1], i) + (if (Starts(last) || Changes(last)) && last.index == i then [last] else [])
  }

  /** A block from its own frames: the latest start, and the deltas after it. */
  function BlockOf(fs: seq<Frame>): Option<Block> {
    if fs == [] then None
    else
      var before, last := BlockOf(fs[..|fs| - 1]), fs[|fs| - 1];
      if Starts(last) then Some(Opened(last.content.value))
      else if Changes(last) && before.Some? then Some(Changed(before.value, last.delta.value))
      else before
  }

  function Lookup(blocks: map<Index, Block>, i: Index): Option<Block> { if i in blocks then Some(blocks[i]) else None }

  lemma {:induction false} BlockFromItsFrames(fs: seq<Frame>, i: Index)
    ensures Lookup(Fold(fs).blocks, i) == BlockOf(ForBlock(fs, i))
    decreases |fs|
  {
    if fs != [] {
      var init, last := fs[..|fs| - 1], fs[|fs| - 1];
      BlockFromItsFrames(init, i);
      if (Starts(last) || Changes(last)) && last.index == i {
        assert (ForBlock(init, i) + [last])[..|ForBlock(init, i)|] == ForBlock(init, i);
      } else {
        assert ForBlock(fs, i) == ForBlock(init, i);
      }
    }
  }

  /** Blocks appear in the order they first started, each once. */
  lemma {:induction false} OrderIsStartOrder(fs: seq<Frame>)
    ensures Fold(fs).order == StartOrder(fs)
    ensures forall i :: i in Fold(fs).blocks <==> i in StartOrder(fs)
    ensures forall j, k | 0 <= j < k < |StartOrder(fs)| :: StartOrder(fs)[j] != StartOrder(fs)[k]
    decreases |fs|
  {
    if fs != [] {
      OrderIsStartOrder(fs[..|fs| - 1]);
    }
  }

  /** The message depends only on the order in which blocks start and on each block's own frames. */
  lemma InterleavingsAgree(a: seq<Frame>, b: seq<Frame>, valid: string -> bool)
    requires StartOrder(a) == StartOrder(b)
    requires forall i :: ForBlock(a, i) == ForBlock(b, i)
    ensures Build(Fold(a), valid) == Build(Fold(b), valid)
  {
    OrderIsStartOrder(a);
    OrderIsStartOrder(b);
    forall i
      ensures i in Fold(a).blocks <==> i in Fold(b).blocks
      ensures i in Fold(a).blocks ==> Fold(a).blocks[i] == Fold(b).blocks[i]
    {
      assert ForBlock(a, i) == ForBlock(b, i);
      BlockFromItsFrames(a, i);
      BlockFromItsFrames(b, i);
      assert Lookup(Fold(a).blocks, i) == Lookup(Fold(b).blocks, i);
    }
    assert Fold(a).blocks == Fold(b).blocks;
  }

  // ----- any cutting of the blocks into frames -----

  function TextIn(fs: seq<Frame>): string {
    if fs == [] then ""
    else
      var last := fs[|fs| - 1];
      TextIn(fs[..|fs| - 1])
      + (if Starts(last) && last.content.value.kind == "text" then last.content.value.text
         else if Changes(last) && last.delta.value.TextDelta? then last.delta.value.text else "")
  }

  function InputIn(fs: seq<Frame>): string {
    if fs == [] then ""
    else
      var last := fs[|fs| - 1];
      InputIn(fs[..|fs| - 1]) + (if Changes(last) && last.delta.value.InputDelta? then last.delta.value.json else "")
  }

  /**
   * A block's frames: one start carrying its kind, id and name, then its text or input in
   * pieces.  Input that is empty or no JSON shows as an empty object; a block of any
   * other kind does not show.
   */
  predicate StreamsBlock(fs: seq<Frame>, r: Option<Rendered>, valid: string -> bool) {
    && fs != [] && Starts(fs[0]) && (forall k | 0 < k < |fs| :: Changes(fs[k]))
    && var c := fs[0].content.value;
       match r
       case Some(TextBlock(t)) => c.kind == "text" && TextIn(fs) == t
       case Some(ToolBlock(id, name, input)) =>
         && c.kind == "tool_use" && c.id == id && c.name == name
         && (if InputIn(fs) == "" || !valid(InputIn(fs)) then input == "{}" else input == InputIn(fs))
       case None => c.kind != "text" && c.kind != "tool_use"
  }

  /** The blocks that show, in order. */
  function Showing(blocks: seq<Option<Rendered>>): seq<Rendered> {
    if blocks == [] then []
    else
      var last := blocks[|blocks| - 1];
      Showing(blocks[..|blocks| - 1]) + (if last.Some? then [last.value] else [])
  }

  lemma {:induction false} BlockRebuilt(fs: seq<Frame>)
    requires fs != [] && Starts(fs[0]) && forall k | 0 < k < |fs| :: Changes(fs[k])
    ensures BlockOf(fs).Some?
    ensures var b := BlockOf(fs).value; var c := fs[0].content.value;
            && b.kind == c.kind && b.id == Opened(c).id && b.name == Opened(c).name
            && b.text == TextIn(fs) && b.input == InputIn(fs)
    decreases |fs|
  {
    if |fs| == 1 {
      assert TextIn(fs[..0]) == "" && InputIn(fs[..0]) == "" && BlockOf(fs[..0]) == None;
    } else {
      BlockRebuilt(fs[..|fs| - 1]);
      assert Changes(fs[|fs| - 1]);
    }
  }

  ghost predicate Streams(fs: seq<Frame>, order: seq<Index>, blocks: seq<Option<Rendered>>, valid: string -> bool) {
    && |order| == |blocks| && StartOrder(fs) == order
    && forall k | 0 <= k < |order| :: StreamsBlock(ForBlock(fs, order[k]), blocks[k], valid)
  }

  lemma RenderedBack(fs: seq<Frame>, order: seq<Index>, blocks: seq<Option<Rendered>>, valid: string -> bool, k: nat)
    requires Streams(fs, order, blocks, valid) && k < |order|
    ensures order[k] in Fold(fs).blocks && Render(Fold(fs).blocks[order[k]], valid) == Showing([blocks[k]])
  {
    var own := ForBlock(fs, order[k]);
    assert StreamsBlock(own, blocks[k], valid);
    BlockFromItsFrames(fs, order[k]);
    BlockRebuilt(own);
    assert Showing([blocks[k]][..0]) == [];
  }

  lemma {:induction false} RenderInOrder(
    order: seq<Index>, found: map<Index, Block>, valid: string -> bool, blocks: seq<Option<Rendered>>)
    requires |order| == |blocks|
    requires forall k | 0 <= k < |order| ::
               order[k] in found && Render(found[order[k]], valid) == Showing([blocks[k]])
    ensures RenderAll(order, found, valid) == Showing(blocks)
    decreases |order|
  {
    if order != [] {
      var n := |order| - 1;
      RenderInOrder(order[..n], found, valid, blocks[..n]);
      assert Showing([blocks[n]][..0]) == [];
      assert Render(found[order[n]], valid) == Showing([blocks[n]]);
    }
  }

  /**
   * However the blocks of a message are cut and interleaved, those that show come back in
   * the order they started.
   */
  lemma ChunkingRoundTrips(fs: seq<Frame>, order: seq<Index>, blocks: seq<Option<Rendered>>, valid: string -> bool)
    requires Streams(fs, order, blocks, valid)
    ensures Build(Fold(fs), valid) == if Showing(blocks) == [] then None else Some(Showing(blocks))
  {
    OrderIsStartOrder(fs);
    forall k | 0 <= k < |order|
      ensures order[k] in Fold(fs).blocks && Render(Fold(fs).blocks[order[k]], valid) == Showing([blocks[k]])
    {
      RenderedBack(fs, order, blocks, valid, k);
    }
    RenderInOrder(order, Fold(fs).blocks, valid, blocks);
  }
}
