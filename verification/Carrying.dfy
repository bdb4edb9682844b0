/** Nothing a history says is lost or changed in translation, nor anything a reply says on its way in. */
module Carrying {
  import opened History
  import opened Translation

  function Gather<A, B>(xs: seq<A>, f: A -> seq<B>): seq<B> {
    if xs == [] then [] else Gather(xs[..|xs| - 1], f) + f(xs[|xs| - 1])
  }

  lemma GatherPush<A, B>(xs: seq<A>, x: A, f: A -> seq<B>)
    ensures Gather(xs + [x], f) == Gather(xs, f) + f(x)
  {
    assert (xs + [x])[..|xs|] == xs;
  }

  lemma GatherOne<A, B>(x: A, f: A -> seq<B>)
    ensures Gather([x], f) == f(x)
  {
    GatherPush([], x, f);
    assert [] + [x] == [x];
  }

  lemma {:induction false} GatherConcat<A, B>(xs: seq<A>, ys: seq<A>, f: A -> seq<B>)
    ensures Gather(xs + ys, f) == Gather(xs, f) + Gather(ys, f)
  {
    if ys == [] {
      assert xs + ys == xs;
    } else {
      var front, y := ys[..|ys| - 1], ys[|ys| - 1];
      assert xs + ys == (xs + front) + [y];
      GatherConcat(xs, front, f);
      GatherPush(xs + front, y, f);
    }
  }

  // ── what each side says ────────────────────────────────────────────

  /** A block, and who it is from. */
  datatype From = From(role: Role, block: Block)

  /** What an input item stands for in a history. */
  function Back(x: Item): seq<From> {
    match x
    case Says(role, text) => [From(role, Text(text))]
    case UserTexts(texts) => seq(|texts|, i requires 0 <= i < |texts| => From(User, Text(texts[i])))
    case AssistantText(text) => [From(Assistant, Text(text))]
    case FunctionCall(id, name, input) => [From(Assistant, ToolUse(id, name, input))]
    case FunctionCallOutput(id, output) => [From(User, ToolResult(id, output))]
    case ReasoningItem(id, summary, encrypted) => [From(Assistant, Reasoning(id, summary, encrypted))]
  }

  function ResultIn(b: Block): seq<From> { if b.ToolResult? then [From(User, b)] else [] }

  function TextIn(b: Block): seq<From> {
    match b
    case Text(text) => [From(User, Text(text))]
    case NoticeText(_, text) => [From(User, Text(text))]
    case _ => []
  }

  /** A reply's block, as text if it is text; an empty text is nothing. */
  function SaidIn(b: Block): seq<From> {
    match b
    case Text(text) => if text == "" then [] else [From(Assistant, b)]
    case NoticeText(_, text) => if text == "" then [] else [From(Assistant, Text(text))]
    case _ => [From(Assistant, b)]
  }

  /** All a message says: a reply's blocks in order; the results of a user's message in order, and then its texts. */
  function SaidBy(m: Message): seq<From> {
    match m.content
    case Plain(text) => [From(m.role, Text(text))]
    case Blocks(bs) => if m.role.User? then Gather(bs, ResultIn) + Gather(bs, TextIn) else Gather(bs, SaidIn)
  }

  // ── out ────────────────────────────────────────────────────────────

  lemma {:induction false} OutputsBack(bs: seq<Block>)
    ensures Gather(OutputsOf(bs), Back) == Gather(bs, ResultIn)
  {
    if bs != [] {
      var front, b := bs[..|bs| - 1], bs[|bs| - 1];
      OutputsBack(front);
      if b.ToolResult? { GatherPush(OutputsOf(front), FunctionCallOutput(b.id, b.output), Back); }
      else { assert OutputsOf(bs) == OutputsOf(front); }
    }
  }

  lemma {:induction false} TextsBack(bs: seq<Block>)
    ensures Back(UserTexts(TextsOf(bs))) == Gather(bs, TextIn)
  {
    if bs != [] {
      var front, b := bs[..|bs| - 1], bs[|bs| - 1];
      TextsBack(front);
      var texts := TextsOf(front);
      if IsText(b) {
        assert TextsOf(bs) == texts + [b.text];
        assert Back(UserTexts(texts + [b.text])) == Back(UserTexts(texts)) + [From(User, Text(b.text))];
      } else {
        assert TextsOf(bs) == texts;
      }
    }
  }

  lemma UserBack(bs: seq<Block>)
    ensures Gather(UserItems(bs), Back) == Gather(bs, ResultIn) + Gather(bs, TextIn)
  {
    OutputsBack(bs);
    TextsBack(bs);
    var texts := UserTexts(TextsOf(bs));
    if TextsOf(bs) == [] {
      assert Back(texts) == [] && OutputsOf(bs) + [] == OutputsOf(bs);
    } else {
      GatherPush(OutputsOf(bs), texts, Back);
    }
  }

  lemma {:induction false} AssistantBack(bs: seq<Block>)
    requires forall b | b in bs :: AssistantBlock(b)
    ensures Gather(AssistantItems(bs), Back) == Gather(bs, SaidIn)
  {
    if bs != [] {
      var front, b := bs[..|bs| - 1], bs[|bs| - 1];
      assert b in bs && forall x | x in front :: x in bs;
      AssistantBack(front);
      BlockBack(b);
      GatherConcat(AssistantItems(front), AssistantItem(b), Back);
    }
  }

  lemma BlockBack(b: Block)
    requires AssistantBlock(b)
    ensures Gather(AssistantItem(b), Back) == SaidIn(b)
  {
    if AssistantItem(b) != [] {
      GatherOne(AssistantItem(b)[0], Back);
      assert AssistantItem(b) == [AssistantItem(b)[0]];
    }
  }

  lemma MessageBack(m: Message)
    requires Sendable(m)
    ensures Gather(ItemsOf(m), Back) == SaidBy(m)
  {
    match m.content
    case Plain(text) => GatherOne(Says(m.role, text), Back);
    case Blocks(bs) => if m.role.User? { UserBack(bs); } else { AssistantBack(bs); }
  }

  /**
   * The input items say what the history says, message by message: every result under its call with its own text,
   * then the user's texts, and every text, call and reasoning of a reply, in order and word for word.
   */
  lemma {:induction false} HistoryCarried(ms: seq<Message>)
    requires AllSendable(ms)
    ensures Gather(Items(ms), Back) == Gather(ms, SaidBy)
  {
    if ms != [] {
      var front, m := ms[..|ms| - 1], ms[|ms| - 1];
      assert m in ms && forall x | x in front :: x in ms;
      HistoryCarried(front);
      MessageBack(m);
      GatherConcat(Items(front), ItemsOf(m), Back);
    }
  }

  // ── in ─────────────────────────────────────────────────────────────

  function PartText(p: Part): seq<string> {
    match p
    case OutputText(text) => [text]
    case Refusal(refusal) => [refusal]
    case OtherPart => []
  }

  /** What an output item says to the user. */
  function TextsIn(x: OutputItem): seq<string> { if x.MessageItem? then Gather(x.parts, PartText) else [] }

  function BlockText(b: Block): seq<string> { if IsText(b) then [b.text] else [] }

  lemma {:induction false} PartsCarried(ps: seq<Part>)
    ensures Gather(PartBlocks(ps), BlockText) == Gather(ps, PartText)
  {
    if ps != [] {
      var front, p := ps[..|ps| - 1], ps[|ps| - 1];
      PartsCarried(front);
      GatherConcat(PartBlocks(front), PartBlock(p), BlockText);
      if PartBlock(p) != [] {
        GatherOne(PartBlock(p)[0], BlockText);
        assert PartBlock(p) == [PartBlock(p)[0]];
      }
    }
  }

  lemma ItemCarried(x: OutputItem, isObject: string -> bool)
    ensures Gather(ContentOf(x, isObject), BlockText) == TextsIn(x)
  {
    if x.MessageItem? { PartsCarried(x.parts); }
    else if ContentOf(x, isObject) != [] {
      var b := ContentOf(x, isObject)[0];
      GatherOne(b, BlockText);
      assert ContentOf(x, isObject) == [b];
    }
  }

  /** The texts of a reply's content are those of its messages, refusals with them, in order. */
  lemma {:induction false} ReplyCarried(xs: seq<OutputItem>, isObject: string -> bool)
    ensures Gather(Contents(xs, isObject), BlockText) == Gather(xs, TextsIn)
  {
    if xs != [] {
      var front, x := xs[..|xs| - 1], xs[|xs| - 1];
      ReplyCarried(front, isObject);
      ItemCarried(x, isObject);
      GatherConcat(Contents(front, isObject), ContentOf(x, isObject), BlockText);
    }
  }
}
