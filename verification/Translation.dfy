/** The history as another API's input items, and that API's output as content. */
module Translation {
  import opened History

  datatype Item =
    | Says(role: Role, text: string)
    | UserTexts(texts: seq<string>)
    | AssistantText(text: string)
    | FunctionCall(callId: string, name: string, arguments: string)
    | FunctionCallOutput(callId: string, output: string)
    | ReasoningItem(id: string, summary: string, encrypted: string)

  // ── the history, on the way out ────────────────────────────────────

  predicate IsText(b: Block) { b.Text? || b.NoticeText? }

  predicate UserBlock(b: Block) { IsText(b) || b.ToolResult? }

  predicate AssistantBlock(b: Block) { IsText(b) || b.ToolUse? || b.Reasoning? }

  /** Every block is of a kind its message may hold. */
  predicate Sendable(m: Message) {
    m.content.Blocks? ==> forall b | b in m.content.blocks :: if m.role.User? then UserBlock(b) else AssistantBlock(b)
  }

  predicate AllSendable(ms: seq<Message>) { forall m | m in ms :: Sendable(m) }

  function OutputsOf(bs: seq<Block>): seq<Item> {
    if bs == [] then []
    else
      var b := bs[|bs| - 1];
      OutputsOf(bs[..|bs| - 1]) + if b.ToolResult? then [FunctionCallOutput(b.id, b.output)] else []
  }

  function TextsOf(bs: seq<Block>): seq<string> {
    if bs == [] then [] else TextsOf(bs[..|bs| - 1]) + if IsText(bs[|bs| - 1]) then [bs[|bs| - 1].text] else []
  }

  function AssistantItem(b: Block): seq<Item> {
    match b
    case Text(text) => if text == "" then [] else [AssistantText(text)]
    case NoticeText(_, text) => if text == "" then [] else [AssistantText(text)]
    case ToolUse(id, name, input) => [FunctionCall(id, name, input)]
    case Reasoning(id, summary, encrypted) => [ReasoningItem(id, summary, encrypted)]
    case _ => []
  }

  function AssistantItems(bs: seq<Block>): seq<Item> {
    if bs == [] then [] else AssistantItems(bs[..|bs| - 1]) + AssistantItem(bs[|bs| - 1])
  }

  function UserItems(bs: seq<Block>): seq<Item> {
    OutputsOf(bs) + if TextsOf(bs) == [] then [] else [UserTexts(TextsOf(bs))]
  }

  function ItemsOf(m: Message): seq<Item> {
    match m.content
    case Plain(text) => [Says(m.role, text)]
    case Blocks(bs) => if m.role.User? then UserItems(bs) else AssistantItems(bs)
  }

  function Items(ms: seq<Message>): seq<Item> { if ms == [] then [] else Items(ms[..|ms| - 1]) + ItemsOf(ms[|ms| - 1]) }

  /** The history as input items, in loops; None for one with a block that cannot be sent. */
  method ToInput(messages: seq<Message>) returns (input: Option<seq<Item>>)
    ensures input.Some? <==> AllSendable(messages)
    ensures input.Some? ==> input.value == Items(messages)
  {
    var items: seq<Item> := [];
    var i := 0;
    while i < |messages|
      invariant i <= |messages| && AllSendable(messages[..i]) && items == Items(messages[..i])
      decreases |messages| - i
    {
      assert messages[..i + 1][..i] == messages[..i];
      assert messages[i] in messages;
      var sent := PushMessage(items, messages[i]);
      if sent.None? { return None; }
      items := sent.value;
      i := i + 1;
    }
    assert messages[..|messages|] == messages;
    input := Some(items);
  }

  method PushMessage(input: seq<Item>, m: Message) returns (r: Option<seq<Item>>)
    ensures r.Some? <==> Sendable(m)
    ensures r.Some? ==> r.value == input + ItemsOf(m)
  {
    if m.content.Plain? { r := Some(input + [Says(m.role, m.content.text)]); }
    else if m.role.User? { r := PushUser(input, m.content.blocks); }
    else { r := PushAssistant(input, m.content.blocks); }
  }

  /** A call's output must follow the call, so the results go first, and the texts together after them. */
  method PushUser(input: seq<Item>, bs: seq<Block>) returns (r: Option<seq<Item>>)
    ensures r.Some? <==> forall b | b in bs :: UserBlock(b)
    ensures r.Some? ==> r.value == input + UserItems(bs)
  {
    var items, texts: seq<string> := input, [];
    var i := 0;
    while i < |bs|
      invariant i <= |bs| && (forall b | b in bs[..i] :: UserBlock(b))
      invariant items == input + OutputsOf(bs[..i]) && texts == TextsOf(bs[..i])
    {
      assert bs[..i + 1][..i] == bs[..i];
      var b := bs[i];
      if b.ToolResult? { items := items + [FunctionCallOutput(b.id, b.output)]; }
      else if IsText(b) { texts := texts + [b.text]; }
      else { assert b in bs; return None; }
      i := i + 1;
    }
    assert bs[..|bs|] == bs;
    if texts != [] { items := items + [UserTexts(texts)]; }
    r := Some(items);
  }

  method PushAssistant(input: seq<Item>, bs: seq<Block>) returns (r: Option<seq<Item>>)
    ensures r.Some? <==> forall b | b in bs :: AssistantBlock(b)
    ensures r.Some? ==> r.value == input + AssistantItems(bs)
  {
    var items := input;
    var i := 0;
    while i < |bs|
      invariant i <= |bs| && (forall b | b in bs[..i] :: AssistantBlock(b)) && items == input + AssistantItems(bs[..i])
    {
      assert bs[..i + 1][..i] == bs[..i];
      var b := bs[i];
      assert b in bs;
      if !AssistantBlock(b) { return None; }
      if IsText(b) { if b.text != "" { items := items + [AssistantText(b.text)]; } }
      else if b.ToolUse? { items := items + [FunctionCall(b.id, b.name, b.input)]; }
      else { items := items + [ReasoningItem(b.id, b.summary, b.encrypted)]; }
      i := i + 1;
    }
    assert bs[..|bs|] == bs;
    r := Some(items);
  }

  // ── pairing ────────────────────────────────────────────────────────

  /** How far a list of items has got: the calls still without an output, and whether some have had theirs. */
  datatype Progress = Progress(open: multiset<string>, answering: bool)

  /** An output answers an open call; nothing else comes until all are answered, and no user text while any is open. */
  function Take(p: Progress, x: Item): Option<Progress> {
    match x
    case FunctionCall(id, _, _) => if p.answering then None else Some(Progress(p.open + multiset{id}, false))
    case FunctionCallOutput(id, _) =>
      if id !in p.open then None else var rest := p.open - multiset{id}; Some(Progress(rest, rest != multiset{}))
    case UserTexts(_) => if p.open != multiset{} then None else Some(p)
    case Says(role, _) => if p.answering || (role.User? && p.open != multiset{}) then None else Some(p)
    case _ => if p.answering then None else Some(p)
  }

  function TakeAll(p: Progress, xs: seq<Item>): Option<Progress> {
    if xs == [] then Some(p)
    else match TakeAll(p, xs[..|xs| - 1])
      case Some(q) => Take(q, xs[|xs| - 1])
      case None => None
  }

  lemma {:induction false} TakeConcat(p: Progress, xs: seq<Item>, ys: seq<Item>)
    ensures TakeAll(p, xs + ys) == match TakeAll(p, xs) case Some(q) => TakeAll(q, ys) case None => None
  {
    if ys == [] {
      assert xs + ys == xs;
    } else {
      assert (xs + ys)[..|xs + ys| - 1] == xs + ys[..|ys| - 1];
      TakeConcat(p, xs, ys[..|ys| - 1]);
    }
  }

  lemma TakePush(p: Progress, xs: seq<Item>, x: Item)
    ensures TakeAll(p, xs + [x]) == match TakeAll(p, xs) case Some(q) => Take(q, x) case None => None
  {
    assert (xs + [x])[..|xs|] == xs;
  }

  lemma {:induction false} CallIdsPush(bs: seq<Block>, b: Block)
    ensures CallIds(bs + [b]) == CallIds(bs) + if b.ToolUse? then [b.id] else []
  {
    var last := if b.ToolUse? then [b.id] else [];
    if bs == [] {
      assert [b][1..] == [];
      assert bs + [b] == [b];
    } else {
      assert (bs + [b])[1..] == bs[1..] + [b];
      CallIdsPush(bs[1..], b);
      var head := if bs[0].ToolUse? then [bs[0].id] else [];
      assert head + (CallIds(bs[1..]) + last) == head + CallIds(bs[1..]) + last;
    }
  }

  /** The items open exactly these calls, and answer none yet. */
  predicate Opens(xs: seq<Item>, calls: multiset<string>) {
    TakeAll(Progress(multiset{}, false), xs) == Some(Progress(calls, false))
  }

  lemma OpensPush(xs: seq<Item>, calls: multiset<string>, x: Item, more: multiset<string>)
    requires Opens(xs, calls) && Take(Progress(calls, false), x) == Some(Progress(more, false))
    ensures Opens(xs + [x], more)
  {
    TakePush(Progress(multiset{}, false), xs, x);
  }

  /** One block of a reply opens its call, if it makes one. */
  lemma BlockOpens(xs: seq<Item>, calls: multiset<string>, b: Block)
    requires Opens(xs, calls)
    ensures Opens(xs + AssistantItem(b), if b.ToolUse? then calls + multiset{b.id} else calls)
  {
    if AssistantItem(b) == [] {
      assert xs + [] == xs;
    } else {
      assert AssistantItem(b) == [AssistantItem(b)[0]];
      OpensPush(xs, calls, AssistantItem(b)[0], if b.ToolUse? then calls + multiset{b.id} else calls);
    }
  }

  predicate OpensItsCalls(bs: seq<Block>) { Opens(AssistantItems(bs), multiset(CallIds(bs))) }

  /** A reply leaves its calls open. */
  lemma {:induction false} ReplyOpens(bs: seq<Block>, k: nat)
    requires k <= |bs| && OpensItsCalls(bs[..k])
    ensures OpensItsCalls(bs)
    decreases |bs| - k
  {
    if k == |bs| {
      assert bs[..k] == bs;
    } else {
      assert bs[..k + 1] == bs[..k] + [bs[k]];
      ReplyOpensNext(bs[..k], bs[k]);
      ReplyOpens(bs, k + 1);
    }
  }

  lemma ReplyOpensNext(front: seq<Block>, b: Block)
    requires OpensItsCalls(front)
    ensures OpensItsCalls(front + [b])
  {
    AssistantPush(front, b);
    CallsAdd(front, b);
    BlockOpens(AssistantItems(front), multiset(CallIds(front)), b);
  }

  lemma AssistantPush(front: seq<Block>, b: Block)
    ensures AssistantItems(front + [b]) == AssistantItems(front) + AssistantItem(b)
  {
    assert (front + [b])[..|front|] == front;
  }

  lemma CallsAdd(front: seq<Block>, b: Block)
    ensures multiset(CallIds(front + [b])) == if b.ToolUse? then multiset(CallIds(front)) + multiset{b.id}
            else multiset(CallIds(front))
  {
    CallIdsPush(front, b);
    if !b.ToolUse? { assert CallIds(front) + [] == CallIds(front); }
  }

  lemma {:induction false} ResultIdsPush(bs: seq<Block>, b: Block)
    ensures ResultIds(bs + [b]) == ResultIds(bs) + if b.ToolResult? then [b.id] else []
  {
    ResultIdsConcat(bs, [b]);
    assert [b][1..] == [];
  }

  /** One more result answers one more call. */
  lemma ResultAnswers(open: multiset<string>, done: multiset<string>, any: bool, xs: seq<Item>, id: string,
    output: string)
    requires TakeAll(Progress(open, false), xs) == Some(Progress(open - done, any)) && done + multiset{id} <= open
    ensures TakeAll(Progress(open, false), xs + [FunctionCallOutput(id, output)]) ==
            Some(Progress(open - (done + multiset{id}), open != done + multiset{id}))
  {
    TakePush(Progress(open, false), xs, FunctionCallOutput(id, output));
    OneMore(open, done, id);
  }

  /** The results of a message that answers the open calls answer all of them. */
  lemma {:induction false} OutputsAnswer(bs: seq<Block>, open: multiset<string>)
    requires multiset(ResultIds(bs)) <= open
    ensures TakeAll(Progress(open, false), OutputsOf(bs)) ==
            Some(Progress(open - multiset(ResultIds(bs)), ResultIds(bs) != [] && open != multiset(ResultIds(bs))))
  {
    if bs == [] {
      assert open - multiset(ResultIds(bs)) == open;
    } else {
      var front, b := bs[..|bs| - 1], bs[|bs| - 1];
      assert bs == front + [b];
      ResultsAdd(front, b);
      OutputsAnswer(front, open);
      if b.ToolResult? {
        var any := ResultIds(front) != [] && open != multiset(ResultIds(front));
        ResultAnswers(open, multiset(ResultIds(front)), any, OutputsOf(front), b.id, b.output);
      } else {
        assert OutputsOf(bs) == OutputsOf(front);
      }
    }
  }

  lemma ResultsAdd(front: seq<Block>, b: Block)
    ensures b.ToolResult? ==>
            multiset(ResultIds(front + [b])) == multiset(ResultIds(front)) + multiset{b.id}
            && ResultIds(front + [b]) != []
    ensures !b.ToolResult? ==> ResultIds(front + [b]) == ResultIds(front)
  {
    ResultIdsPush(front, b);
  }

  lemma OneMore(open: multiset<string>, done: multiset<string>, id: string)
    requires done + multiset{id} <= open
    ensures id in open - done && (open - done) - multiset{id} == open - (done + multiset{id})
    ensures open - (done + multiset{id}) == multiset{} <==> open == done + multiset{id}
  {
    assert open[id] >= done[id] + 1;
    if open - (done + multiset{id}) == multiset{} {
      forall x ensures open[x] == (done + multiset{id})[x] { assert (open - (done + multiset{id}))[x] == 0; }
    }
  }

  lemma PlainHasNone(text: string)
    ensures CallIds([Text(text)]) == [] && ResultIds([Text(text)]) == []
  {
    assert [Text(text)][1..] == [];
  }

  lemma PlainTakes(ms: seq<Message>, m: Message)
    requires Fits(ms, m) && m.content.Plain? && (m.role.Assistant? ==> Unanswered(ms) == multiset{})
    ensures TakeAll(Progress(Unanswered(ms), false), ItemsOf(m)) == Some(Progress(multiset(Calls(m)), false))
  {
    PlainHasNone(m.content.text);
    assert ItemsOf(m)[..0] == [];
  }

  lemma UserTakes(ms: seq<Message>, bs: seq<Block>)
    requires multiset(ResultIds(bs)) == Unanswered(ms)
    ensures TakeAll(Progress(Unanswered(ms), false), UserItems(bs)) == Some(Progress(multiset{}, false))
  {
    OutputsAnswer(bs, Unanswered(ms));
    if TextsOf(bs) != [] { TakePush(Progress(Unanswered(ms), false), OutputsOf(bs), UserTexts(TextsOf(bs))); }
    else { assert UserItems(bs) == OutputsOf(bs); }
  }

  /** One message takes the calls left open to the calls it leaves. */
  lemma MessageTakes(ms: seq<Message>, m: Message)
    requires Fits(ms, m) && Sendable(m) && (m.role.Assistant? ==> Unanswered(ms) == multiset{})
    ensures TakeAll(Progress(Unanswered(ms), false), ItemsOf(m)) == Some(Progress(multiset(Calls(m)), false))
  {
    if m.content.Plain? { PlainTakes(ms, m); }
    else if m.role.User? { UserTakes(ms, m.content.blocks); }
    else {
      assert m.content.blocks[..0] == [];
      ReplyOpens(m.content.blocks, 0);
    }
  }

  /** A reply only follows a user message, which leaves nothing open. */
  lemma NothingOpen(ms: seq<Message>, m: Message)
    requires Fits(ms, m) && m.role.Assistant?
    ensures Unanswered(ms) == multiset{}
  {}

  /**
   * Translation keeps pairing: in the items of any paired history that can be sent, each call has exactly one
   * output after it, all of a reply's before anything else and before any text of the message that answers it;
   * and what is left open is what the history leaves unanswered.
   */
  lemma {:induction false} TranslationPairs(ms: seq<Message>)
    requires Paired(ms) && AllSendable(ms)
    ensures TakeAll(Progress(multiset{}, false), Items(ms)) == Some(Progress(Unanswered(ms), false))
  {
    if ms != [] {
      var front, m := ms[..|ms| - 1], ms[|ms| - 1];
      assert ms == front + [m] && m in ms;
      TranslationPairs(front);
      if m.role.Assistant? { NothingOpen(front, m); }
      MessageTakes(front, m);
      TakeConcat(Progress(multiset{}, false), Items(front), ItemsOf(m));
    }
  }

  /** So a history the runtime calls the model with has every call answered. */
  lemma {:induction false} AllAnswered(ms: seq<Message>)
    requires WellFormed(ms) && AllSendable(ms)
    ensures TakeAll(Progress(multiset{}, false), Items(ms)) == Some(Progress(multiset{}, false))
  {
    TranslationPairs(ms);
  }

  // ── the reply, on the way in ───────────────────────────────────────

  datatype Part = OutputText(text: string) | Refusal(refusal: string) | OtherPart

  datatype OutputItem =
    | MessageItem(parts: seq<Part>)
    | CallItem(callId: string, name: string, arguments: string)
    | ReasoningOutput(id: string, summary: string, encrypted: Option<string>)
    | OtherItem

  datatype ReplyStatus = Completed | Incomplete(reason: Option<string>) | Failed | Cancelled

  datatype Reply = Reply(status: ReplyStatus, output: seq<OutputItem>)

  datatype Response = Response(content: seq<Block>, stopReason: string)

  function PartBlock(p: Part): seq<Block> {
    match p
    case OutputText(text) => [Text(text)]
    case Refusal(refusal) => [Text(refusal)]
    case OtherPart => []
  }

  function PartBlocks(ps: seq<Part>): seq<Block> {
    if ps == [] then [] else PartBlocks(ps[..|ps| - 1]) + PartBlock(ps[|ps| - 1])
  }

  /** Arguments that are not a JSON object stand only in a reply that was cut short, as an empty one. */
  predicate Readable(x: OutputItem, incomplete: bool, isObject: string -> bool) {
    x.CallItem? && !incomplete ==> isObject(x.arguments)
  }

  function ContentOf(x: OutputItem, isObject: string -> bool): seq<Block> {
    match x
    case MessageItem(parts) => PartBlocks(parts)
    case CallItem(id, name, arguments) => [ToolUse(id, name, if isObject(arguments) then arguments else "{}")]
    case ReasoningOutput(id, summary, Some(encrypted)) => if encrypted == "" then []
      else [Reasoning(id, summary, encrypted)]
    case _ => []
  }

  function Contents(xs: seq<OutputItem>, isObject: string -> bool): seq<Block> {
    if xs == [] then [] else Contents(xs[..|xs| - 1], isObject) + ContentOf(xs[|xs| - 1], isObject)
  }

  function StopReason(r: Reply, content: seq<Block>): string {
    match r.status
    case Incomplete(reason) =>
      if reason == Some("max_output_tokens") then "max_tokens"
      else if reason == Some("content_filter") then "refusal"
      else if reason.Some? then reason.value else "incomplete"
    case _ => if CallIds(content) != [] then "tool_use" else "end_turn"
  }

  /**
   * The reply's content and why it stopped, in loops; None for one that failed, or that calls with unreadable
   * arguments.
   */
  method FromOutput(r: Reply, isObject: string -> bool) returns (response: Option<Response>)
    ensures response.Some? <==>
            !r.status.Failed? && !r.status.Cancelled? && forall x | x in r.output ::
            Readable(x, r.status.Incomplete?, isObject)
    ensures response.Some? ==>
            response.value.content == Contents(r.output, isObject) && response.value.stopReason ==
            StopReason(r, response.value.content)
  {
    if r.status.Failed? || r.status.Cancelled? { return None; }
    var content: seq<Block> := [];
    var i := 0;
    while i < |r.output|
      invariant i <= |r.output| && content == Contents(r.output[..i], isObject)
      invariant forall x | x in r.output[..i] :: Readable(x, r.status.Incomplete?, isObject)
      decreases |r.output| - i
    {
      assert r.output[..i + 1][..i] == r.output[..i] && r.output[i] in r.output;
      var blocks := FromItem(r.output[i], r.status.Incomplete?, isObject);
      if blocks.None? { return None; }
      content := content + blocks.value;
      i := i + 1;
    }
    assert r.output[..|r.output|] == r.output;
    response := Some(Response(content, StopReason(r, content)));
  }

  method FromItem(x: OutputItem, incomplete: bool, isObject: string -> bool) returns (blocks: Option<seq<Block>>)
    ensures blocks.Some? <==> Readable(x, incomplete, isObject)
    ensures blocks.Some? ==> blocks.value == ContentOf(x, isObject)
  {
    if x.MessageItem? {
      var texts := FromParts(x.parts);
      return Some(texts);
    }
    if x.CallItem? {
      if !isObject(x.arguments) && !incomplete { return None; }
      return Some([ToolUse(x.callId, x.name, if isObject(x.arguments) then x.arguments else "{}")]);
    }
    if x.ReasoningOutput? && x.encrypted.Some? && x.encrypted.value != "" {
      return Some([Reasoning(x.id, x.summary, x.encrypted.value)]);
    }
    blocks := Some([]);
  }

  method FromParts(parts: seq<Part>) returns (blocks: seq<Block>)
    ensures blocks == PartBlocks(parts)
  {
    blocks := [];
    var i := 0;
    while i < |parts|
      invariant i <= |parts| && blocks == PartBlocks(parts[..i])
    {
      assert parts[..i + 1][..i] == parts[..i];
      if parts[i].OutputText? { blocks := blocks + [Text(parts[i].text)]; }
      else if parts[i].Refusal? { blocks := blocks + [Text(parts[i].refusal)]; }
      i := i + 1;
    }
    assert parts[..|parts|] == parts;
  }

  // ── there and back ─────────────────────────────────────────────────

  /** The calls and reasoning of a reply, as they are to be sent back. */
  function SentBack(xs: seq<OutputItem>, isObject: string -> bool): seq<Item> {
    if xs == [] then []
    else
      SentBack(xs[..|xs| - 1], isObject) +
      match xs[|xs| - 1]
      case CallItem(id, name, arguments) => [FunctionCall(id, name, if isObject(arguments) then arguments else "{}")]
      case ReasoningOutput(id, summary, Some(encrypted)) => if encrypted == "" then []
        else [ReasoningItem(id, summary, encrypted)]
      case _ => []
  }

  function NoTexts(items: seq<Item>): seq<Item> {
    if items == [] then [] else NoTexts(items[..|items| - 1]) + if items[|items| - 1].AssistantText? then []
      else [items[|items| - 1]]
  }

  lemma {:induction false} NoTextsConcat(a: seq<Item>, b: seq<Item>)
    ensures NoTexts(a + b) == NoTexts(a) + NoTexts(b)
  {
    if b == [] {
      assert a + b == a;
    } else {
      assert (a + b)[..|a + b| - 1] == a + b[..|b| - 1];
      NoTextsConcat(a, b[..|b| - 1]);
    }
  }

  lemma {:induction false} AssistantConcat(a: seq<Block>, b: seq<Block>)
    ensures AssistantItems(a + b) == AssistantItems(a) + AssistantItems(b)
  {
    if b == [] {
      assert a + b == a;
    } else {
      var front, x := b[..|b| - 1], b[|b| - 1];
      assert a + b == (a + front) + [x] && b == front + [x];
      AssistantConcat(a, front);
      AssistantMore(a, front, x);
    }
  }

  lemma AssistantMore(a: seq<Block>, front: seq<Block>, x: Block)
    requires AssistantItems(a + front) == AssistantItems(a) + AssistantItems(front)
    ensures AssistantItems((a + front) + [x]) == AssistantItems(a) + AssistantItems(front + [x])
  {
    AssistantPush(a + front, x);
    AssistantPush(front, x);
  }

  lemma {:induction false} PartsAreText(ps: seq<Part>)
    ensures NoTexts(AssistantItems(PartBlocks(ps))) == [] && forall b | b in PartBlocks(ps) :: b.Text?
  {
    if ps != [] {
      PartsAreText(ps[..|ps| - 1]);
      AssistantConcat(PartBlocks(ps[..|ps| - 1]), PartBlock(ps[|ps| - 1]));
      OneText(PartBlock(ps[|ps| - 1]));
      NoTextsConcat(AssistantItems(PartBlocks(ps[..|ps| - 1])), AssistantItems(PartBlock(ps[|ps| - 1])));
    }
  }

  lemma OneText(bs: seq<Block>)
    requires |bs| <= 1 && forall b | b in bs :: b.Text?
    ensures NoTexts(AssistantItems(bs)) == []
  {
    if bs != [] {
      assert bs[..0] == [] && bs[0].Text?;
      assert AssistantItems(bs) == AssistantItem(bs[0]);
    }
  }

  lemma OneBlock(b: Block)
    requires b.ToolUse? || b.Reasoning?
    ensures AssistantItems([b]) == AssistantItem(b) == NoTexts(AssistantItems([b]))
  {
    assert [b][..0] == [];
    assert AssistantItem(b)[..0] == [];
  }

  /**
   * A reply's calls, ids and encrypted reasoning come back, in order, when its content is sent in the history; and
   * everything in it can be sent.
   */
  lemma {:induction false} ReplyComesBack(xs: seq<OutputItem>, isObject: string -> bool)
    ensures NoTexts(AssistantItems(Contents(xs, isObject))) == SentBack(xs, isObject)
    ensures Sendable(Message(Assistant, Blocks(Contents(xs, isObject))))
  {
    if xs != [] {
      var front, x := xs[..|xs| - 1], xs[|xs| - 1];
      var more := ContentOf(x, isObject);
      ReplyComesBack(front, isObject);
      AssistantConcat(Contents(front, isObject), more);
      NoTextsConcat(AssistantItems(Contents(front, isObject)), AssistantItems(more));
      ItemComesBack(x, isObject);
    }
  }

  lemma ItemComesBack(x: OutputItem, isObject: string -> bool)
    ensures NoTexts(AssistantItems(ContentOf(x, isObject))) ==
            match x
            case CallItem(id, name, arguments) => [FunctionCall(id, name, if isObject(arguments) then arguments
              else "{}")]
            case ReasoningOutput(id, summary, Some(encrypted)) => if encrypted == "" then []
              else [ReasoningItem(id, summary, encrypted)]
            case _ => []
    ensures forall b | b in ContentOf(x, isObject) :: AssistantBlock(b)
  {
    match x
    case MessageItem(parts) => PartsAreText(parts);
    case CallItem(id, name, arguments) => OneBlock(ToolUse(id, name, if isObject(arguments) then arguments else "{}"));
    case ReasoningOutput(id, summary, Some(encrypted)) => if encrypted != "" {
      OneBlock(Reasoning(id, summary, encrypted));
    }
    case _ =>
  }

  /**
   * The runtime runs a reply's calls exactly when it stopped for them: a complete reply that makes any, or, should
   * the API ever give that very reason, one cut short.
   */
  lemma StopsForCalls(r: Reply, content: seq<Block>)
    ensures StopReason(r, content) == "tool_use" <==>
            if r.status.Incomplete? then r.status.reason == Some("tool_use") else CallIds(content) != []
  {}
}
