/** The message history of a conversation, and what makes it one a model API accepts. */
module History {
  datatype Option<+T> = None | Some(value: T)

  datatype Role = User | Assistant

  datatype Block =
    | Text(text: string)
    /** A text block made from a notice; `number` is the notice's seq, kept so a block can be traced to it. */
    | NoticeText(number: nat, text: string)
    | ToolUse(id: string, name: string, input: string)
    | ToolResult(id: string, output: string)
    /** A reasoning item kept so the next call can send it back. */
    | Reasoning(id: string, summary: string, encrypted: string)
    /** A block of a kind the runtime passes through and no adapter here knows. */
    | Foreign(kind: string)

  /** A message's content: a plain string, or blocks. */
  datatype Content = Plain(text: string) | Blocks(blocks: seq<Block>)

  datatype Message = Message(role: Role, content: Content)

  function BlocksOf(c: Content): seq<Block> {
    match c
    case Plain(t) => [Text(t)]
    case Blocks(bs) => bs
  }

  function CallIds(bs: seq<Block>): seq<string> {
    if bs == [] then [] else (if bs[0].ToolUse? then [bs[0].id] else []) + CallIds(bs[1..])
  }

  function ResultIds(bs: seq<Block>): seq<string> {
    if bs == [] then [] else (if bs[0].ToolResult? then [bs[0].id] else []) + ResultIds(bs[1..])
  }

  /** The calls a message makes: an assistant's tool_use blocks. */
  function Calls(m: Message): seq<string> {
    if m.role.Assistant? then CallIds(BlocksOf(m.content)) else []
  }

  /** The calls a message answers: a user's tool_result blocks. */
  function Results(m: Message): seq<string> {
    if m.role.User? then ResultIds(BlocksOf(m.content)) else []
  }

  /** The calls no message has answered yet: the last message's, if it makes any. */
  function Unanswered(ms: seq<Message>): multiset<string> {
    if ms == [] then multiset{} else multiset(Calls(ms[|ms| - 1]))
  }

  /** `m` may follow `ms`: a user message answers exactly what is unanswered, and a reply follows a user message. */
  predicate Fits(ms: seq<Message>, m: Message) {
    match m.role
    case User => multiset(Results(m)) == Unanswered(ms)
    case Assistant => ms != [] && ms[|ms| - 1].role.User?
  }

  /** Every call is answered by exactly one result, in the very next message, and no result answers anything else. */
  predicate Paired(ms: seq<Message>) {
    ms == [] || (Paired(ms[..|ms| - 1]) && Fits(ms[..|ms| - 1], ms[|ms| - 1]))
  }

  /** A history a model can be called with. */
  predicate WellFormed(ms: seq<Message>) {
    Paired(ms) && ms != [] && ms[|ms| - 1].role.User?
  }

  lemma PairedPush(ms: seq<Message>, m: Message)
    ensures Paired(ms + [m]) <==> Paired(ms) && Fits(ms, m)
  {
    assert (ms + [m])[..|ms|] == ms;
  }

  lemma {:induction false} ResultIdsConcat(a: seq<Block>, b: seq<Block>)
    ensures ResultIds(a + b) == ResultIds(a) + ResultIds(b)
  {
    if a == [] {
      assert a + b == b;
    } else {
      assert (a + b)[1..] == a[1..] + b;
      ResultIdsConcat(a[1..], b);
    }
  }

  lemma {:induction false} NoResults(bs: seq<Block>)
    requires forall b | b in bs :: !b.ToolResult?
    ensures ResultIds(bs) == []
  {
    if bs != [] { NoResults(bs[1..]); }
  }
}
