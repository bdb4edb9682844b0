/** What the model adapter's replies put in the history, it can always send back. */
module Sending {
  import opened History
  import opened Conversations
  import opened Requests
  import opened Worlds
  import opened Turns
  import opened Fencing
  import opened Pairing
  import opened Translation

  predicate Answers(bs: seq<Block>) { forall b | b in bs :: b.ToolResult? }

  predicate Texts(bs: seq<Block>) { forall b | b in bs :: IsText(b) }

  /** Everything in the history can be sent, and so can what a question holds. */
  predicate Sends(c: Conversation) { AllSendable(c.messages) && (c.pending.Some? ==> Answers(c.pending.value.results)) }

  predicate SendsPc(pc: Pc) {
    match pc
    case Init(content, _, t) => Texts(content) && Answers(t.results)
    case Tools(_, t) => Answers(t.results)
    case _ => true
  }

  predicate SendsInv(h: Holder) { Sends(h.copy) && Sends(h.base) && Sends(h.prior) && SendsPc(h.pc) }

  /** A reply is what the adapter made of the model's output. */
  ghost predicate Adapted(a: Action) {
    a.Reply? ==> exists r: Translation.Reply, isObject: string -> bool :: Adapts(a, r, isObject)
  }

  ghost predicate Adapts(a: Action, r: Translation.Reply, isObject: string -> bool)
    requires a.Reply?
  {
    && !r.status.Failed? && !r.status.Cancelled?
    && (forall x | x in r.output :: Readable(x, r.status.Incomplete?, isObject))
    && a.content == Contents(r.output, isObject)
    && (a.toolUse <==> StopReason(r, a.content) == "tool_use")
  }

  /**
   * The runtime runs a reply's calls exactly when it makes any and is complete, or was cut short for the very reason
   * that stands for them; otherwise no call runs, and each it makes is answered so.
   */
  lemma {:induction false} RunsItsCalls(cfg: Config, h: Holder, a: Action, r: Translation.Reply,
    isObject: string -> bool)
    requires h.pc.Model? && a.Reply? && Adapts(a, r, isObject)
    ensures var calls, next := CallIds(a.content), StepModel(cfg, h, a).holder.value;
            && (next.pc.Tools? <==> calls != [] && (r.status.Incomplete? ==> r.status.reason == Some("tool_use")))
            && (next.pc.Tools? ==> next.pc.turn == NewTurn(calls))
            && (calls != [] && !next.pc.Tools? ==>
                  next.copy.messages ==
                    h.copy.messages + [Message(Assistant, Blocks(a.content)), Message(User, Blocks(NotRun(calls)))])
  {
    StopsForCalls(r, a.content);
    var calls := CallIds(a.content);
    var said := h.copy.messages + [Message(Assistant, Blocks(a.content))];
    assert said + [Message(User, Blocks(NotRun(calls)))] ==
           h.copy.messages + [Message(Assistant, Blocks(a.content)), Message(User, Blocks(NotRun(calls)))];
  }

  lemma AdaptedSends(a: Action)
    requires a.Reply? && Adapted(a)
    ensures Sendable(Message(Assistant, Blocks(a.content)))
  {
    var r: Translation.Reply, isObject: string -> bool :| Adapts(a, r, isObject);
    ReplyComesBack(r.output, isObject);
  }

  lemma PushSends(ms: seq<Message>, m: Message)
    requires AllSendable(ms) && Sendable(m)
    ensures AllSendable(ms + [m])
  {}

  lemma PrefixSends(ms: seq<Message>, n: nat)
    requires AllSendable(ms)
    ensures AllSendable(Truncate(ms, n))
  {}

  lemma SaySends(c: Conversation, bs: seq<Block>)
    requires Sends(c) && forall b | b in bs :: UserBlock(b)
    ensures Sends(Say(c, bs))
  {
    PushSends(c.messages, Message(User, Blocks(bs)));
  }

  lemma UnreadTexts(cfg: Config, c: Conversation, log: seq<Notice>)
    ensures Texts(UnreadNotices(cfg, c, log).blocks)
  {
    UnreadAreText(cfg, c, log);
  }

  lemma TakeSends(c: Conversation, u: Unread, text: string)
    requires Sends(c) && Texts(u.blocks)
    ensures Sends(Conversations.Take(c, u, text))
  {
    SaySends(c, u.blocks + [Text(text)]);
  }

  lemma CloseOutSends(c: Conversation, text: string)
    requires Sends(c)
    ensures Sends(CloseOut(c, text))
  {
    if c.status.Awaiting? && c.pending.Some? {
      SaySends(Freeze(c, c.pending.value.handle), c.pending.value.results
        + [ToolResult(c.pending.value.toolUseId, NotSelected(text))]);
    }
  }

  lemma RecordClickSends(c: Conversation, h: Handle, said: string, u: Unread)
    requires Sends(c) && Texts(u.blocks)
    ensures Sends(RecordClick(c, h, said, u))
  {
    match c.pending
    case Some(p) => SaySends(Freeze(c, h), p.results + [ToolResult(p.toolUseId, said)] + u.blocks);
    case None => TakeSends(c, u, said);
  }

  // ── steps ──────────────────────────────────────────────────────────

  lemma AtHopSends(cfg: Config, h: Holder, c: Conversation, hop: nat)
    requires Sends(c) && Sends(h.base) && Sends(h.prior)
    ensures SendsInv(AtHop(cfg, h, c, hop))
  {}

  lemma FailsSends(h: Holder)
    requires Sends(h.copy) && Sends(h.base) && Sends(h.prior)
    ensures SendsInv(TurnFails(h))
  {
    PrefixSends(h.copy.messages, h.before.messages);
  }

  lemma ReadSends(cfg: Config, env: Env, h: Holder, a: Action)
    requires SendsInv(h) && h.pc.Read?
    ensures SendsInv(StepRead(cfg, env, h, a).holder.value)
  {
    var c, u := h.copy, UnreadNotices(cfg, h.copy, env.log);
    UnreadTexts(cfg, c, env.log);
    match h.kind
    case Chat(text) =>
      CloseOutSends(c, text);
      TakeSends(CloseOut(c, text), u, text);
      var taken := Conversations.Take(CloseOut(c, text), u, text);
      AtHopSends(cfg, h.(copy := taken), taken.(status := Streaming), 0);
    case Interact(handle, said) => RecordClickSends(c, handle, said, u);
    case Wake => TakeSends(c, u, WOKEN);
    case _ =>
  }

  lemma OpeningSends(cfg: Config, env: Env, h: Holder, a: Action)
    requires SendsInv(h) && Opening(h.pc)
    ensures var o := StepOpening(cfg, env, h, a).holder; o.Some? ==> SendsInv(o.value)
  {
    if h.pc.Read? { ReadSends(cfg, env, h, a); }
  }

  lemma ToolAnswers(cfg: Config, env: Env, token: Token, c: Conversation, t: Turn, ev: ToolEvent)
    requires Answers(t.results)
    ensures Answers(ToolStep(cfg, env, token, c, t, ev).turn.results)
  {}

  lemma ToolsSends(cfg: Config, env: Env, h: Holder, a: Action)
    requires SendsInv(h) && h.pc.Tools?
    ensures var o := StepTools(cfg, env, h, a).holder; o.Some? ==> SendsInv(o.value)
  {
    if a.Tool? {
      var o := ToolStep(cfg, env, h.token, h.copy, h.pc.turn, a.ev);
      ToolAnswers(cfg, env, h.token, h.copy, h.pc.turn, a.ev);
      ToolStepTouches(cfg, env, h.token, h.copy, h.pc.turn, a.ev);
      ToolsAfterSends(cfg, h, o);
    }
  }

  lemma ToolsAfterSends(cfg: Config, h: Holder, o: TurnOut)
    requires SendsInv(h) && h.pc.Tools? && Answers(o.turn.results) && o.conv.messages == h.copy.messages
             && o.conv.pending == h.copy.pending
    ensures var r := ToolsAfter(cfg, h, h.pc.hop, o).holder; r.Some? ==> SendsInv(r.value)
  {
    SaySends(o.conv, o.turn.results);
    AtHopSends(cfg, h.(copy := o.conv, toolsRan := h.toolsRan || o.turn.running), Say(o.conv, o.turn.results),
      h.pc.hop + 1);
  }

  lemma InitSends(cfg: Config, env: Env, h: Holder, a: Action)
    requires SendsInv(h) && h.pc.Init?
    ensures var o := StepInit(cfg, env, h, a).holder; o.Some? ==> SendsInv(o.value)
  {
    if a.Tool? {
      var o := ToolStep(cfg, env, h.token, h.copy, h.pc.turn, a.ev);
      ToolAnswers(cfg, env, h.token, h.copy, h.pc.turn, a.ev);
      ToolStepTouches(cfg, env, h.token, h.copy, h.pc.turn, a.ev);
      InitAfterSends(h, o);
    }
  }

  lemma InitAfterSends(h: Holder, o: TurnOut)
    requires SendsInv(h) && h.pc.Init? && Answers(o.turn.results) && o.conv.messages == h.copy.messages
             && o.conv.pending == h.copy.pending
    ensures var r := InitAfter(h, h.pc.content, h.pc.through, o).holder; r.Some? ==> SendsInv(r.value)
  {
    var asked := Say(o.conv, h.pc.content).(noticedThrough := h.pc.through);
    SaySends(o.conv, h.pc.content);
    var call := Message(Assistant, Blocks([ToolUse("init", "init", "{}")]));
    PushSends(asked.messages, call);
    SaySends(asked.(messages := asked.messages + [call]), o.turn.results);
  }

  lemma {:induction false} NotRunSends(calls: seq<string>)
    ensures Answers(NotRun(calls))
  {
    if calls != [] { NotRunSends(calls[1..]); }
  }

  lemma ModelSends(cfg: Config, h: Holder, a: Action)
    requires SendsInv(h) && h.pc.Model? && Adapted(a)
    ensures SendsInv(StepModel(cfg, h, a).holder.value)
  {
    if a.Reply? {
      AdaptedSends(a);
      PushSends(h.copy.messages, Message(Assistant, Blocks(a.content)));
      NotRunSends(CallIds(a.content));
      SaySends(Replied(h.copy, a.content), NotRun(CallIds(a.content)));
      AtHopSends(cfg, h, Say(Replied(h.copy, a.content), NotRun(CallIds(a.content))), h.pc.hop + 1);
    } else {
      FailsSends(h);
    }
  }

  lemma TurningSends(cfg: Config, env: Env, h: Holder, a: Action)
    requires SendsInv(h) && Turning(h.pc) && Adapted(a)
    ensures var o := StepTurning(cfg, env, h, a).holder; o.Some? ==> SendsInv(o.value)
  {
    match h.pc
    case Init(_, _, _) => InitSends(cfg, env, h, a);
    case Model(_) => ModelSends(cfg, h, a);
    case Tools(_, _) => ToolsSends(cfg, env, h, a);
    case Context => FailsSends(h);
  }

  lemma SavingSends(cfg: Config, env: Env, h: Holder, a: Action)
    requires SendsInv(h) && Course(h) && !Opening(h.pc) && !Turning(h.pc)
    ensures var o := StepSaving(cfg, env, h, a).holder; o.Some? ==> SendsInv(o.value)
  {
    if h.pc.SaveClick? || h.pc.SaveWake? || h.pc.SaveInit? { SavesSends(cfg, env, h, a); }
    else { RevisingSends(cfg, env, h, a); }
  }

  lemma RevisingSends(cfg: Config, env: Env, h: Holder, a: Action)
    requires SendsInv(h)
             && (h.pc.PutRevision? || h.pc.Revised? || h.pc.SaveRevision? || h.pc.AppendRevision? || h.pc.Release?)
    ensures var o := StepSaving(cfg, env, h, a).holder; o.Some? ==> SendsInv(o.value)
  {}

  lemma SavesSends(cfg: Config, env: Env, h: Holder, a: Action)
    requires SendsInv(h) && (h.pc.SaveClick? || h.pc.SaveWake? || h.pc.SaveInit?)
    requires h.pc.SaveClick? ==> UndoClick(h.copy, h.before) == h.prior
    ensures var o := StepSaving(cfg, env, h, a).holder; o.Some? ==> SendsInv(o.value)
  {
    AtHopSends(cfg, h, h.copy.(status := Streaming), 0);
    if h.pc.SaveWake? { FailsSends(h); }
  }

  lemma StepSends(cfg: Config, env: Env, h: Holder, a: Action)
    requires SendsInv(h) && Course(h) && Adapted(a)
    ensures var o := Step(cfg, env, h, a).holder; o.Some? ==> SendsInv(o.value)
  {
    if Opening(h.pc) { OpeningSends(cfg, env, h, a); }
    else if Turning(h.pc) { TurningSends(cfg, env, h, a); }
    else { SavingSends(cfg, env, h, a); }
  }

  // ── over whole runs ────────────────────────────────────────────────

  ghost predicate SendsWorld(w: World) { Sends(w.row) && Everyone(w, SendsInv) }

  lemma RowSends(cfg: Config, w: World, t: Token, a: Action)
    requires Sends(w.row) && t in w.holders && Sends(w.holders[t].copy)
    ensures Sends(Acted(cfg, w, t, a).row)
  {
    StepFenced(cfg, EnvOf(w, t), w.holders[t], a);
  }

  lemma NextSends(cfg: Config, w: World, e: Event)
    requires SendsWorld(w) && CourseWorld(w) && (e.Act? ==> Adapted(e.action))
    ensures SendsWorld(Next(cfg, w, e))
  {
    if e.Act? && e.token in w.holders {
      assert Course(w.holders[e.token]) && SendsInv(w.holders[e.token]);
      StepSends(cfg, EnvOf(w, e.token), w.holders[e.token], e.action);
      RowSends(cfg, w, e.token, e.action);
    }
    NextEveryone(cfg, w, e, SendsInv);
  }

  lemma {:induction false} RunSends(cfg: Config, es: seq<Event>)
    requires KeepsQuestions(cfg, es) && forall e | e in es && e.Act? :: Adapted(e.action)
    ensures SendsWorld(Run(cfg, es))
  {
    if es != [] {
      RunSends(cfg, es[..|es| - 1]);
      RunCourse(cfg, es[..|es| - 1]);
      NextSends(cfg, Run(cfg, es[..|es| - 1]), es[|es| - 1]);
    }
  }

  /**
   * At every model call of every run whose replies the adapter made, the history can be translated, and in the items
   * it becomes each call has its one output, in its place.
   */
  lemma {:induction false} ModelCallsTranslate(cfg: Config, es: seq<Event>, t: Token)
    requires KeepsQuestions(cfg, es) && forall e | e in es && e.Act? :: Adapted(e.action)
    requires t in Run(cfg, es).holders && Run(cfg, es).holders[t].pc.Model?
    ensures var ms := Run(cfg, es).holders[t].copy.messages;
            AllSendable(ms) && TakeAll(Progress(multiset{}, false), Items(ms)) == Some(Progress(multiset{}, false))
  {
    RunSends(cfg, es);
    ModelCallsAreWellFormed(cfg, es, t);
    assert SendsInv(Run(cfg, es).holders[t]);
    AllAnswered(Run(cfg, es).holders[t].copy.messages);
  }
}
