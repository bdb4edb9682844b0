/** Every call of the model sees a well-formed history, whatever failed before it. */
module Pairing {
  import opened History
  import opened Conversations
  import opened Requests
  import opened Worlds
  import opened Turns
  import opened Fencing

  /** Between turns: every call is answered, but for those of the turn that is parked, which it holds exactly. */
  predicate Rested(c: Conversation) {
    && Paired(c.messages)
    && Unanswered(c.messages) ==
       match c.pending case None => multiset{} case Some(p) => multiset(ResultIds(p.results)) + multiset{p.toolUseId}
  }

  predicate Settled(c: Conversation) { Rested(c) && (c.status.Awaiting? <==> c.pending.Some?) }

  /** The model may be called. */
  predicate Ready(c: Conversation) { WellFormed(c.messages) && c.pending.None? && !c.status.Awaiting? }

  // ── what each change to a conversation does to its history ──────────

  lemma ReadySettled(c: Conversation)
    requires Ready(c)
    ensures Settled(c)
  {}

  lemma LogBlocksAreText(log: seq<Notice>, after: nat, through: nat)
    requires through <= |log|
    ensures forall b | b in LogBlocks(log, after, through) :: b.NoticeText?
  {}

  lemma UnreadAreText(cfg: Config, c: Conversation, log: seq<Notice>)
    ensures forall b | b in UnreadNotices(cfg, c, log).blocks :: b.NoticeText?
  {
    if |log| > c.noticedThrough { LogBlocksAreText(log, c.noticedThrough, |log|); }
  }

  lemma SayAnswers(c: Conversation, bs: seq<Block>)
    requires Paired(c.messages) && multiset(ResultIds(bs)) == Unanswered(c.messages)
    ensures WellFormed(Say(c, bs).messages) && Unanswered(Say(c, bs).messages) == multiset{}
  {
    PairedPush(c.messages, Message(User, Blocks(bs)));
  }

  lemma TakeReady(c: Conversation, u: Unread, text: string)
    requires Paired(c.messages) && Unanswered(c.messages) == multiset{}
    requires forall b | b in u.blocks :: b.NoticeText?
    ensures WellFormed(Take(c, u, text).messages)
  {
    NoResults(u.blocks + [Text(text)]);
    SayAnswers(c, u.blocks + [Text(text)]);
  }

  lemma AnswersParked(c: Conversation, said: string, rest: seq<Block>)
    requires Rested(c) && c.pending.Some? && forall b | b in rest :: b.NoticeText?
    ensures var p := c.pending.value;
            multiset(ResultIds(p.results + [ToolResult(p.toolUseId, said)] + rest)) == Unanswered(c.messages)
  {
    var p := c.pending.value;
    ResultIdsConcat(p.results, [ToolResult(p.toolUseId, said)]);
    ResultIdsConcat(p.results + [ToolResult(p.toolUseId, said)], rest);
    NoResults(rest);
  }

  lemma CloseOutAnswers(c: Conversation, text: string)
    requires Settled(c)
    ensures var d := CloseOut(c, text); d.pending.None? && Paired(d.messages) && Unanswered(d.messages) == multiset{}
  {
    if c.pending.Some? {
      AnswersParked(c, NotSelected(text), []);
      var p := c.pending.value;
      var said := p.results + [ToolResult(p.toolUseId, NotSelected(text))];
      assert said + [] == said;
      SayAnswers(Freeze(c, p.handle), said);
    }
  }

  lemma RecordClickReady(c: Conversation, h: Handle, said: string, u: Unread)
    requires Settled(c) && forall b | b in u.blocks :: b.NoticeText?
    ensures Ready(RecordClick(c, h, said, u))
  {
    match c.pending
    case Some(p) =>
      AnswersParked(c, said, u.blocks);
      SayAnswers(Freeze(c, h), p.results + [ToolResult(p.toolUseId, said)] + u.blocks);
    case None => TakeReady(c, u, said);
  }

  /** A click whose save failed is undone exactly. */
  lemma {:induction false} UndoClickExact(c: Conversation, h: Handle, said: string, u: Unread)
    ensures UndoClick(RecordClick(c, h, said, u), Snapshot(c)) == c
  {}

  /** A model reply after a well-formed history leaves exactly its calls unanswered. */
  lemma ReplyLeaves(ms: seq<Message>, content: seq<Block>)
    requires WellFormed(ms)
    ensures var t := ms + [Message(Assistant, Blocks(content))];
            Paired(t) && Unanswered(t) == multiset(CallIds(content))
  {
    PairedPush(ms, Message(Assistant, Blocks(content)));
  }

  lemma {:induction false} NotRunAnswers(calls: seq<string>)
    ensures ResultIds(NotRun(calls)) == calls
  {
    if calls != [] {
      NotRunAnswers(calls[1..]);
      assert NotRun(calls)[1..] == NotRun(calls[1..]);
    }
  }

  // ── the invariant ──────────────────────────────────────────────────

  /** A wake turn under way can put back what it found: exactly so while no tool has run. */
  predicate Undoable(h: Holder) {
    && h.before == Snapshot(h.prior)
    && h.prior.pending.None? && !h.prior.status.Awaiting?
    && h.prior.messages <= h.copy.messages
    && (!h.toolsRan ==>
          && h.copy.handles == h.prior.handles && h.copy.frozen == h.prior.frozen
          && h.copy.superseded == h.prior.superseded
          && h.copy.announcing == h.prior.announcing && h.copy.outside == h.prior.outside)
  }

  ghost predicate CanUndoWake(h: Holder) { Undoable(h) && Rested(h.prior) }

  ghost predicate TurnOk(t: Turn) { OneQuestion(t) && Answering(t) }

  ghost predicate HistoryInv(h: Holder) {
    && (h.kind.Wake? && (h.pc.SaveWake? || (Turning(h.pc) && !h.pc.Init?)) ==> CanUndoWake(h))
    && (h.pc.SaveWake? ==> h.kind.Wake?)
    && (h.pc.SaveClick? ==> h.kind.Interact?)
    && (Opening(h.pc) ==> !h.toolsRan)
    && (h.kind.Start? && Opening(h.pc) ==> h.copy.messages == [])
    && (h.kind.Wake? && (h.pc.Fresh? || h.pc.Read?) ==> !h.copy.status.Awaiting?)
    && match h.pc
       case SaveClick => Ready(h.copy) && Settled(h.prior) && UndoClick(h.copy, h.before) == h.prior
       case SaveWake(_) => Ready(h.copy) && !h.toolsRan
       case Init(content, _, t) =>
         && !h.kind.Wake?
         && h.copy.messages == [] && h.copy.pending.None? && !h.copy.status.Awaiting? && !h.before.status.Awaiting?
         && ResultIds(content) == [] && TurnOk(t) && t.calls == ["init"]
       case SaveInit => Ready(h.copy) && !h.kind.Wake?
       case Model(_) => Ready(h.copy)
       case Tools(_, t) =>
         && Paired(h.copy.messages) && h.copy.pending.None? && !h.copy.status.Awaiting?
         && Unanswered(h.copy.messages) == multiset(t.calls) && TurnOk(t) && (t.running ==> h.toolsRan)
       case _ => Settled(h.copy)
  }

  /**
   * The one step that breaks the invariant: a wake turn that has run a tool and parked on a question fails
   * its last read, and is closed as idle with the question still pending.
   */
  predicate LosesQuestion(h: Holder, a: Action) {
    h.pc.Context? && !a.Go? && h.kind.Wake? && h.toolsRan && h.copy.pending.Some?
  }

  /** A failed wake turn puts the conversation back exactly, but that it was counted, while no tool has run. */
  lemma {:induction false} FailWakeExact(h: Holder)
    requires Undoable(h) && !h.toolsRan
    ensures FailWake(h.copy, h.before, h.toolsRan) == h.prior.(wakes := h.copy.wakes, wakeTurns := h.copy.wakeTurns)
  {}

  lemma TurnFailsSettled(h: Holder)
    requires Settled(h.copy) && (h.kind.Wake? ==> CanUndoWake(h))
    requires !(h.kind.Wake? && h.toolsRan && h.copy.pending.Some?)
    ensures Settled(TurnFails(h).copy)
  {
    if h.kind.Wake? && !h.toolsRan { FailWakeExact(h); }
  }

  lemma AtHopOk(cfg: Config, h: Holder, c: Conversation, hop: nat)
    requires Ready(c) && (h.kind.Wake? ==> CanUndoWake(h.(copy := c)))
    ensures HistoryInv(AtHop(cfg, h, c, hop))
  {
    ReadySettled(c);
  }

  lemma ReadChatHistory(cfg: Config, env: Env, h: Holder)
    requires HistoryInv(h) && h.pc.Read? && h.kind.Chat?
    ensures HistoryInv(StepRead(cfg, env, h, Go).holder.value)
  {
    var c, text := h.copy, h.kind.text;
    var u := UnreadNotices(cfg, c, env.log);
    UnreadAreText(cfg, c, env.log);
    if c.messages == [] && cfg.hasInit {
      NoResults(u.blocks + [Text(text)]);
      NewTurnOk(["init"]);
    } else {
      var taken := Take(CloseOut(c, text), u, text);
      CloseOutAnswers(c, text);
      TakeReady(CloseOut(c, text), u, text);
      AtHopOk(cfg, h.(copy := taken), taken.(status := Streaming), 0);
    }
  }

  lemma ReadStartHistory(cfg: Config, env: Env, h: Holder)
    requires HistoryInv(h) && h.pc.Read? && h.kind.Start?
    ensures HistoryInv(StepRead(cfg, env, h, Go).holder.value)
  {
    UnreadAreText(cfg, h.copy, env.log);
    NoResults(UnreadNotices(cfg, h.copy, env.log).blocks + [Text("[conversation started]")]);
    NewTurnOk(["init"]);
  }

  lemma ReadClickHistory(cfg: Config, env: Env, h: Holder)
    requires HistoryInv(h) && h.pc.Read? && h.kind.Interact?
    ensures HistoryInv(StepRead(cfg, env, h, Go).holder.value)
  {
    var u := UnreadNotices(cfg, h.copy, env.log);
    UnreadAreText(cfg, h.copy, env.log);
    RecordClickReady(h.copy, h.kind.handle, h.kind.said, u);
    UndoClickExact(h.copy, h.kind.handle, h.kind.said, u);
  }

  lemma WokenReady(cfg: Config, c: Conversation, u: Unread, now: nat)
    requires Settled(c) && c.pending.None? && WakeUp(cfg, c, u, now).Woken?
    requires forall b | b in u.blocks :: b.NoticeText?
    ensures var w := WakeUp(cfg, c, u, now).conv;
            Ready(w) && c.messages <= w.messages && w.handles == c.handles && w.frozen == c.frozen
            && w.superseded == c.superseded && w.announcing == c.announcing && w.outside == c.outside
  {
    TakeReady(c, u, WOKEN);
  }

  lemma ReadWakeHistory(cfg: Config, env: Env, h: Holder)
    requires HistoryInv(h) && h.pc.Read? && h.kind.Wake?
    ensures HistoryInv(StepRead(cfg, env, h, Go).holder.value)
  {
    var u := UnreadNotices(cfg, h.copy, env.log);
    UnreadAreText(cfg, h.copy, env.log);
    match WakeUp(cfg, h.copy, u, env.now)
    case Woken(w) => WokenReady(cfg, h.copy, u, env.now);
    case Limited(l) =>
    case NothingNew =>
  }

  lemma StepReadHistory(cfg: Config, env: Env, h: Holder, a: Action)
    requires HistoryInv(h) && h.pc.Read?
    ensures var o := StepRead(cfg, env, h, a).holder; o.Some? ==> HistoryInv(o.value)
  {
    if a.Go? {
      match h.kind
      case Chat(_) => ReadChatHistory(cfg, env, h);
      case Start => ReadStartHistory(cfg, env, h);
      case Interact(_, _) => ReadClickHistory(cfg, env, h);
      case Wake => ReadWakeHistory(cfg, env, h);
      case Update(_, _, _) =>
    }
  }

  lemma AnnouncedHistory(h: Holder)
    requires HistoryInv(h) && Opening(h.pc)
    ensures HistoryInv(Announced(h)) && HistoryInv(Announced(h.(copy := h.copy.(announcing := None))))
  {}

  lemma StepAnnounceHistory(env: Env, h: Holder, a: Action)
    requires HistoryInv(h) && h.pc.Announce?
    ensures HistoryInv(StepAnnounce(env, h, a).holder.value)
  {
    if !a.Go? {
      ReleaseOk(h);
    } else {
      AnnouncedHistory(h);
      OpeningStays(h, AppendOwed);
    }
  }

  lemma OpeningStays(h: Holder, pc: Pc)
    requires HistoryInv(h) && Opening(h.pc) && pc.AppendOwed?
    ensures HistoryInv(h.(pc := pc))
  {}

  lemma StepAppendOwedHistory(h: Holder, a: Action)
    requires HistoryInv(h) && h.pc.AppendOwed?
    ensures HistoryInv(StepAppendOwed(h, a).holder.value)
  {
    AnnouncedHistory(h);
  }

  lemma StepFreshHistory(cfg: Config, env: Env, h: Holder, a: Action)
    requires HistoryInv(h) && h.pc.Fresh?
    ensures HistoryInv(StepFresh(cfg, env, h, a).holder.value)
  {}

  lemma StepGateHistory(cfg: Config, env: Env, h: Holder, a: Action)
    requires HistoryInv(h) && h.pc.Gate?
    ensures HistoryInv(StepGate(cfg, env, h, a).holder.value)
  {}

  lemma StepOpeningHistory(cfg: Config, env: Env, h: Holder, a: Action)
    requires HistoryInv(h) && Opening(h.pc)
    ensures var o := StepOpening(cfg, env, h, a).holder; o.Some? ==> HistoryInv(o.value)
  {
    match h.pc
    case Announce => StepAnnounceHistory(env, h, a);
    case AppendOwed => StepAppendOwedHistory(h, a);
    case Fresh => StepFreshHistory(cfg, env, h, a);
    case Gate => StepGateHistory(cfg, env, h, a);
    case Read => StepReadHistory(cfg, env, h, a);
  }

  // ── a turn ─────────────────────────────────────────────────────────

  /** A tool touches surfaces only, and nothing before it runs. */
  lemma ToolStepTouches(cfg: Config, env: Env, token: Token, c: Conversation, t: Turn, ev: ToolEvent)
    ensures var d := ToolStep(cfg, env, token, c, t, ev).conv;
            d == c.(handles := d.handles, frozen := d.frozen, superseded := d.superseded) && (!t.running ==> d == c)
  {}

  lemma DecidedParks(c: Conversation, t: Turn)
    requires Paired(c.messages) && Unanswered(c.messages) == multiset(t.calls) && TurnOk(t) && Decided(t)
    ensures match t.parked
            case Some(q) => Settled(Park(c, q, t.results))
            case None => WellFormed(Say(c, t.results).messages)
  {
    assert t.calls[..t.at] == t.calls;
    if t.parked.None? { SayAnswers(c, t.results); }
  }

  lemma ReleaseOk(h: Holder)
    requires Settled(h.copy)
    ensures HistoryInv(h.(pc := Release))
  {}

  lemma RevisedOk(h: Holder)
    requires Settled(h.copy)
    ensures HistoryInv(h.(pc := SaveRevision))
  {}

  lemma AppendOk(h: Holder)
    requires Settled(h.copy)
    ensures HistoryInv(h.(pc := AppendRevision))
  {}

  lemma PutOk(h: Holder, was: Handle, record: Payload, next: Handle)
    requires Settled(h.copy)
    ensures HistoryInv(h.(pc := Revised(was, record, next)))
  {}

  lemma ContextOk(h: Holder)
    requires Settled(h.copy) && (h.kind.Wake? ==> CanUndoWake(h))
    ensures HistoryInv(h.(pc := Context))
  {}

  /** A tool's step, seen by the turn it is part of. */
  lemma CanStillUndo(h: Holder, c: Conversation, ran: bool)
    requires CanUndoWake(h) && h.copy.messages <= c.messages && (h.toolsRan ==> ran)
    requires ran || (c.handles == h.copy.handles && c.frozen == h.copy.frozen && c.superseded == h.copy.superseded
                     && c.announcing == h.copy.announcing && c.outside == h.copy.outside)
    ensures CanUndoWake(h.(copy := c, toolsRan := ran))
  {}

  lemma ToolsGoOn(h: Holder, c: Conversation, t: Turn)
    requires HistoryInv(h) && h.pc.Tools? && TurnOk(t) && t.calls == h.pc.turn.calls
    requires c == h.copy.(handles := c.handles, frozen := c.frozen, superseded := c.superseded)
    requires !h.pc.turn.running ==> c == h.copy
    ensures HistoryInv(h.(copy := c, toolsRan := h.toolsRan || t.running, pc := Tools(h.pc.hop, t)))
  {
    if h.kind.Wake? { CanStillUndo(h, c, h.toolsRan || t.running); }
  }

  lemma ToolsEnd(cfg: Config, h: Holder, t: Turn, hop: nat)
    requires TurnOk(t) && Decided(t)
    requires Paired(h.copy.messages) && h.copy.pending.None? && !h.copy.status.Awaiting?
             && Unanswered(h.copy.messages) == multiset(t.calls)
    requires h.kind.Wake? ==> CanUndoWake(h)
    ensures match t.parked
            case Some(q) => HistoryInv(h.(copy := Park(h.copy, q, t.results), pc := Context))
            case None => HistoryInv(AtHop(cfg, h, Say(h.copy, t.results), hop))
  {
    DecidedParks(h.copy, t);
    match t.parked
    case Some(q) =>
      if h.kind.Wake? { CanStillUndo(h, Park(h.copy, q, t.results), h.toolsRan); }
      ContextOk(h.(copy := Park(h.copy, q, t.results)));
    case None =>
      if h.kind.Wake? { CanStillUndo(h, Say(h.copy, t.results), h.toolsRan); }
      AtHopOk(cfg, h, Say(h.copy, t.results), hop);
  }

  lemma ToolsRan(h: Holder, c: Conversation, t: Turn)
    requires HistoryInv(h) && h.pc.Tools? && t.calls == h.pc.turn.calls
    requires c == h.copy.(handles := c.handles, frozen := c.frozen, superseded := c.superseded)
    requires !h.pc.turn.running ==> c == h.copy
    ensures var ran := h.(copy := c, toolsRan := h.toolsRan || t.running);
            Paired(c.messages) && c.pending.None? && !c.status.Awaiting? && Unanswered(c.messages) == multiset(t.calls)
            && (h.kind.Wake? ==> CanUndoWake(ran))
  {
    if h.kind.Wake? { CanStillUndo(h, c, h.toolsRan || t.running); }
  }

  /** What a tool's step leaves, as the turn needs it. */
  ghost predicate ToolLeft(h: Holder, t: Turn, o: TurnOut) {
    && TurnOk(o.turn) && o.turn.calls == t.calls
    && o.conv == h.copy.(handles := o.conv.handles, frozen := o.conv.frozen, superseded := o.conv.superseded)
    && (!t.running ==> o.conv == h.copy)
  }

  lemma ToolStepOk(cfg: Config, env: Env, h: Holder, t: Turn, ev: ToolEvent)
    requires TurnOk(t)
    ensures ToolLeft(h, t, ToolStep(cfg, env, h.token, h.copy, t, ev))
  {
    ToolStepTouches(cfg, env, h.token, h.copy, t, ev);
    ToolStepOneQuestion(cfg, env, h.token, h.copy, t, ev);
    ToolStepAnswering(cfg, env, h.token, h.copy, t, ev);
    ToolStepKeeps(cfg, env, h.token, h.copy, t, ev);
  }

  lemma ToolsAfterHistory(cfg: Config, h: Holder, o: TurnOut)
    requires HistoryInv(h) && h.pc.Tools? && ToolLeft(h, h.pc.turn, o)
    ensures var n := ToolsAfter(cfg, h, h.pc.hop, o).holder; n.Some? ==> HistoryInv(n.value)
  {
    if o.lost {
    } else if Decided(o.turn) {
      ToolsRan(h, o.conv, o.turn);
      ToolsEnd(cfg, h.(copy := o.conv, toolsRan := h.toolsRan || o.turn.running), o.turn, h.pc.hop + 1);
    } else {
      ToolsGoOn(h, o.conv, o.turn);
    }
  }

  function Replied(c: Conversation, content: seq<Block>): Conversation {
    c.(messages := c.messages + [Message(Assistant, Blocks(content))])
  }

  lemma ModelStops(h: Holder, content: seq<Block>)
    requires Ready(h.copy) && (h.kind.Wake? ==> CanUndoWake(h)) && CallIds(content) == []
    ensures HistoryInv(h.(copy := Replied(h.copy, content).(status := Idle), pc := Context))
  {
    ReplyLeaves(h.copy.messages, content);
    var c := Replied(h.copy, content).(status := Idle);
    if h.kind.Wake? { CanStillUndo(h, c, h.toolsRan); }
    ContextOk(h.(copy := c));
  }

  lemma ModelCutShort(cfg: Config, h: Holder, content: seq<Block>, hop: nat)
    requires Ready(h.copy) && (h.kind.Wake? ==> CanUndoWake(h))
    ensures HistoryInv(AtHop(cfg, h, Say(Replied(h.copy, content), NotRun(CallIds(content))), hop))
  {
    var c := Say(Replied(h.copy, content), NotRun(CallIds(content)));
    ReplyLeaves(h.copy.messages, content);
    NotRunAnswers(CallIds(content));
    SayAnswers(Replied(h.copy, content), NotRun(CallIds(content)));
    if h.kind.Wake? { CanStillUndo(h, c, h.toolsRan); }
    AtHopOk(cfg, h, c, hop);
  }

  lemma ModelCalls(h: Holder, content: seq<Block>, hop: nat)
    requires Ready(h.copy) && (h.kind.Wake? ==> CanUndoWake(h))
    ensures HistoryInv(h.(copy := Replied(h.copy, content), pc := Tools(hop, NewTurn(CallIds(content)))))
  {
    ReplyLeaves(h.copy.messages, content);
    NewTurnOk(CallIds(content));
    if h.kind.Wake? { CanStillUndo(h, Replied(h.copy, content), h.toolsRan); }
  }

  lemma StepModelHistory(cfg: Config, h: Holder, a: Action)
    requires HistoryInv(h) && h.pc.Model?
    ensures HistoryInv(StepModel(cfg, h, a).holder.value)
  {
    if a.Reply? {
      if CallIds(a.content) == [] { ModelStops(h, a.content); }
      else if !a.toolUse { ModelCutShort(cfg, h, a.content, h.pc.hop + 1); }
      else { ModelCalls(h, a.content, h.pc.hop); }
    } else {
      ModelFails(h);
    }
  }

  lemma ModelFails(h: Holder)
    requires HistoryInv(h) && h.pc.Model?
    ensures HistoryInv(TurnFails(h))
  {
    ReadySettled(h.copy);
    TurnFailsSettled(h);
    ReleaseOk(TurnFails(h));
  }

  /** Once init is decided, its message, call and result make a well-formed history, or a parked one. */
  lemma InitRecords(c: Conversation, content: seq<Block>, through: nat, t: Turn)
    requires c.messages == [] && ResultIds(content) == [] && TurnOk(t) && Decided(t) && t.calls == ["init"]
    ensures var asked := Say(c, content).(noticedThrough := through);
            var called := asked.(messages := asked.messages
              + [Message(Assistant, Blocks([ToolUse("init", "init", "{}")]))]);
            match t.parked
            case Some(q) => Settled(Park(called, q, []))
            case None => WellFormed(Say(called, t.results).messages)
  {
    var asked := Say(c, content).(noticedThrough := through);
    var call := [ToolUse("init", "init", "{}")];
    assert asked.messages == [Message(User, Blocks(content))];
    SayAnswers(c, content);
    ReplyLeaves(asked.messages, call);
    assert CallIds(call[1..]) == [];
    assert CallIds(call) == ["init"];
    var called := asked.(messages := asked.messages + [Message(Assistant, Blocks(call))]);
    DecidedParks(called, t);
    if t.parked.Some? {
      assert multiset(t.calls[..t.at]) == multiset{"init"};
      assert multiset(ResultIds(t.results)) == multiset{};
    }
  }

  lemma InitDecides(h: Holder, c: Conversation, content: seq<Block>, through: nat, t: Turn)
    requires !h.kind.Wake? && ResultIds(content) == [] && TurnOk(t) && Decided(t) && t.calls == ["init"]
    requires c.messages == [] && c.pending.None? && !c.status.Awaiting?
    ensures var asked := Say(c, content).(noticedThrough := through);
            var called := asked.(messages := asked.messages
              + [Message(Assistant, Blocks([ToolUse("init", "init", "{}")]))]);
            match t.parked
            case Some(q) => HistoryInv(h.(copy := Park(called, q, []), pc := Context))
            case None => HistoryInv(h.(copy := Say(called, t.results), pc := SaveInit))
  {
    InitRecords(c, content, through, t);
    var asked := Say(c, content).(noticedThrough := through);
    var called := asked.(messages := asked.messages + [Message(Assistant, Blocks([ToolUse("init", "init", "{}")]))]);
    if t.parked.Some? { ContextOk(h.(copy := Park(called, t.parked.value, []))); }
    else { assert Ready(Say(called, t.results)); }
  }

  lemma InitAfterHistory(h: Holder, o: TurnOut)
    requires HistoryInv(h) && h.pc.Init? && ToolLeft(h, h.pc.turn, o)
    ensures var n := InitAfter(h, h.pc.content, h.pc.through, o).holder; n.Some? ==> HistoryInv(n.value)
  {
    if Decided(o.turn) { InitDecides(h, o.conv, h.pc.content, h.pc.through, o.turn); }
  }

  lemma InitUndone(h: Holder)
    requires HistoryInv(h) && h.pc.Init?
    ensures HistoryInv(h.(copy := h.copy.(handles := Truncate(h.copy.handles, h.before.handles),
            status := h.before.status), pc := Release))
  {
    ReleaseOk(h.(copy := h.copy.(handles := Truncate(h.copy.handles, h.before.handles), status := h.before.status)));
  }

  lemma StepInitHistory(cfg: Config, env: Env, h: Holder, a: Action)
    requires HistoryInv(h) && h.pc.Init?
    ensures var n := StepInit(cfg, env, h, a).holder; n.Some? ==> HistoryInv(n.value)
  {
    InitUndone(h);
    if a.Tool? {
      ToolStepOk(cfg, env, h, h.pc.turn, a.ev);
      InitAfterHistory(h, ToolStep(cfg, env, h.token, h.copy, h.pc.turn, a.ev));
    }
  }

  lemma StepToolsHistory(cfg: Config, env: Env, h: Holder, a: Action)
    requires HistoryInv(h) && h.pc.Tools?
    ensures var n := StepTools(cfg, env, h, a).holder; n.Some? ==> HistoryInv(n.value)
  {
    if a.Tool? {
      ToolStepOk(cfg, env, h, h.pc.turn, a.ev);
      ToolsAfterHistory(cfg, h, ToolStep(cfg, env, h.token, h.copy, h.pc.turn, a.ev));
    }
  }

  lemma StepContextHistory(h: Holder, a: Action)
    requires HistoryInv(h) && h.pc.Context? && !LosesQuestion(h, a)
    ensures HistoryInv(StepContext(h, a).holder.value)
  {
    if a.Go? {
      ReleaseOk(h);
    } else {
      TurnFailsSettled(h);
      ReleaseOk(TurnFails(h));
    }
  }

  lemma StepTurningHistory(cfg: Config, env: Env, h: Holder, a: Action)
    requires HistoryInv(h) && Turning(h.pc) && !LosesQuestion(h, a)
    ensures var o := StepTurning(cfg, env, h, a).holder; o.Some? ==> HistoryInv(o.value)
  {
    match h.pc
    case Init(_, _, _) => StepInitHistory(cfg, env, h, a);
    case Model(_) => StepModelHistory(cfg, h, a);
    case Tools(_, _) => StepToolsHistory(cfg, env, h, a);
    case Context => StepContextHistory(h, a);
  }

  // ── saves ──────────────────────────────────────────────────────────

  lemma StepSaveClickHistory(cfg: Config, env: Env, h: Holder, a: Action)
    requires HistoryInv(h) && h.pc.SaveClick?
    ensures var o := StepSaveClick(cfg, env, h, a).holder; o.Some? ==> HistoryInv(o.value)
  {
    if a.Go? { AtHopOk(cfg, h, h.copy.(status := Streaming), 0); }
    else { ReleaseOk(h.(copy := UndoClick(h.copy, h.before))); }
  }

  lemma StepSaveWakeHistory(cfg: Config, env: Env, h: Holder, a: Action)
    requires HistoryInv(h) && h.pc.SaveWake?
    ensures var o := StepSaveWake(cfg, env, h, a).holder; o.Some? ==> HistoryInv(o.value)
  {
    if a.Go? {
      AtHopOk(cfg, h, h.copy.(status := Streaming), 0);
    } else {
      TurnFailsSettled(h);
      ReleaseOk(TurnFails(h));
    }
  }

  lemma StepSaveInitHistory(cfg: Config, env: Env, h: Holder, a: Action)
    requires HistoryInv(h) && h.pc.SaveInit?
    ensures var o := StepSaveInit(cfg, env, h, a).holder; o.Some? ==> HistoryInv(o.value)
  {
    ReadySettled(h.copy);
    if a.Go? && !h.kind.Start? { AtHopOk(cfg, h, h.copy.(status := Streaming), 0); }
    else if a.Go? { ContextOk(h.(copy := h.copy.(status := Idle))); }
    else { ReleaseOk(h); }
  }

  lemma RevisedSettled(c: Conversation, was: Handle, next: Handle, n: Notice)
    requires Settled(c)
    ensures Settled(ReviseOutside(c, was, next, n))
  {}

  lemma StepRevisedHistory(cfg: Config, env: Env, h: Holder, a: Action)
    requires HistoryInv(h) && h.pc.Revised?
    ensures HistoryInv(StepRevised(cfg, env, h, a).holder.value)
  {
    if a.Go? && !Late(cfg, h.pc.record, env.now) {
      var c := ReviseOutside(h.copy, h.pc.was, h.pc.next, RevisionNotice(h, h.pc.was, h.pc.next));
      RevisedSettled(h.copy, h.pc.was, h.pc.next, RevisionNotice(h, h.pc.was, h.pc.next));
      RevisedOk(h.(copy := c));
    } else {
      ReleaseOk(h);
    }
  }

  lemma StepAppendRevisionHistory(h: Holder, a: Action)
    requires HistoryInv(h) && h.pc.AppendRevision?
    ensures HistoryInv(StepAppendRevision(h, a).holder.value)
  {
    ReleaseOk(h);
    ReleaseOk(h.(copy := h.copy.(announcing := None)));
  }

  lemma StepSavingHistory(cfg: Config, env: Env, h: Holder, a: Action)
    requires HistoryInv(h) && !Opening(h.pc) && !Turning(h.pc)
    ensures var o := StepSaving(cfg, env, h, a).holder; o.Some? ==> HistoryInv(o.value)
  {
    match h.pc
    case SaveClick => StepSaveClickHistory(cfg, env, h, a);
    case SaveWake(_) => StepSaveWakeHistory(cfg, env, h, a);
    case SaveInit => StepSaveInitHistory(cfg, env, h, a);
    case Revised(_, _, _) => StepRevisedHistory(cfg, env, h, a);
    case AppendRevision => StepAppendRevisionHistory(h, a);
    case _ => StepRevisionHistory(cfg, env, h, a);
  }

  lemma StepRevisionHistory(cfg: Config, env: Env, h: Holder, a: Action)
    requires HistoryInv(h) && (h.pc.PutRevision? || h.pc.SaveRevision? || h.pc.Release?)
    ensures var o := StepSaving(cfg, env, h, a).holder; o.Some? ==> HistoryInv(o.value)
  {
    if h.pc.PutRevision? { StepPutHistory(cfg, env, h, a); }
    if h.pc.SaveRevision? { StepSaveRevisionHistory(env, h, a); }
  }

  lemma StepPutHistory(cfg: Config, env: Env, h: Holder, a: Action)
    requires Settled(h.copy) && h.pc.PutRevision?
    ensures var o := StepPutRevision(cfg, env, h, a).holder; o.Some? ==> HistoryInv(o.value)
  {
    if a.Go? { PutOk(h, h.pc.was, h.pc.record, env.nextHandle); } else { ReleaseOk(h); }
  }

  lemma StepSaveRevisionHistory(env: Env, h: Holder, a: Action)
    requires Settled(h.copy) && h.pc.SaveRevision?
    ensures var o := StepSaveRevision(env, h, a).holder; o.Some? ==> HistoryInv(o.value)
  {
    if a.Go? {
      AppendOk(h.(base := h.copy));
    } else {
      ReleaseOk(h);
      ReleaseOk(h.(base := h.copy));
    }
  }

  lemma StepHistory(cfg: Config, env: Env, h: Holder, a: Action)
    requires HistoryInv(h) && !LosesQuestion(h, a)
    ensures var o := Step(cfg, env, h, a).holder; o.Some? ==> HistoryInv(o.value)
  {
    if Opening(h.pc) { StepOpeningHistory(cfg, env, h, a); }
    else if Turning(h.pc) { StepTurningHistory(cfg, env, h, a); }
    else { StepSavingHistory(cfg, env, h, a); }
  }

  /** Whatever a request saves is settled. */
  lemma SavesSettled(h: Holder)
    requires HistoryInv(h) && Saving(h.pc)
    ensures Settled(h.copy)
  {}

  /** A step keeps the invariant exactly when it does not close a parked wake turn as idle. */
  lemma {:induction false} StepHistoryIff(cfg: Config, env: Env, h: Holder, a: Action)
    requires HistoryInv(h)
    ensures var o := Step(cfg, env, h, a).holder; (o.Some? ==> HistoryInv(o.value)) <==> !LosesQuestion(h, a)
  {
    if LosesQuestion(h, a) {
      var c := Step(cfg, env, h, a).holder.value.copy;
      assert c.status.Idle? && c.pending.Some?;
    } else {
      StepHistory(cfg, env, h, a);
    }
  }

  // ── over whole runs ────────────────────────────────────────────────

  /** No step of the run closes a parked wake turn as idle: every such turn's last read succeeds. */
  ghost predicate KeepsQuestions(cfg: Config, es: seq<Event>) {
    es == [] || (KeepsQuestions(cfg, es[..|es| - 1]) && Keeps(Run(cfg, es[..|es| - 1]), es[|es| - 1]))
  }

  lemma {:induction false} KeepsPrefix(cfg: Config, es: seq<Event>, more: seq<Event>)
    requires KeepsQuestions(cfg, es + more)
    ensures KeepsQuestions(cfg, es)
  {
    if more == [] {
      assert es + more == es;
    } else {
      assert (es + more)[..|es + more| - 1] == es + more[..|more| - 1];
      KeepsPrefix(cfg, es, more[..|more| - 1]);
    }
  }

  predicate Keeps(w: World, e: Event) {
    e.Act? && e.token in w.holders ==> !LosesQuestion(w.holders[e.token], e.action)
  }

  ghost predicate HistoryWorld(w: World) {
    Settled(w.row) && Everyone(w, HistoryInv)
  }

  lemma NewHistory(cfg: Config, w: World, kind: Kind)
    requires Settled(w.row)
    ensures HistoryInv(NewHolder(cfg, w, kind))
  {}

  lemma NextRowSettled(cfg: Config, w: World, e: Event)
    requires HistoryWorld(w)
    ensures Settled(Next(cfg, w, e).row)
  {
    if e.Act? && e.token in w.holders {
      StepFenced(cfg, EnvOf(w, e.token), w.holders[e.token], e.action);
      if Saving(w.holders[e.token].pc) { SavesSettled(w.holders[e.token]); }
    }
  }

  lemma NextHistory(cfg: Config, w: World, e: Event)
    requires HistoryWorld(w) && Keeps(w, e)
    ensures HistoryWorld(Next(cfg, w, e))
  {
    NextRowSettled(cfg, w, e);
    if e.Load? { NewHistory(cfg, w, e.kind); }
    if e.Act? && e.token in w.holders { StepHistory(cfg, EnvOf(w, e.token), w.holders[e.token], e.action); }
    NextEveryone(cfg, w, e, HistoryInv);
  }

  lemma {:induction false} RunHistory(cfg: Config, es: seq<Event>)
    requires KeepsQuestions(cfg, es)
    ensures HistoryWorld(Run(cfg, es))
  {
    if es != [] {
      RunHistory(cfg, es[..|es| - 1]);
      NextHistory(cfg, Run(cfg, es[..|es| - 1]), es[|es| - 1]);
    }
  }

  /**
   * At every model call of every run, by any request, overtaken or not: the history ends with a user message,
   * each call in it is answered by exactly one result in the very next message, and no result answers
   * anything else. And the stored conversation, while parked, holds exactly the calls of its last reply.
   */
  lemma {:induction false} ModelCallsAreWellFormed(cfg: Config, es: seq<Event>, t: Token)
    requires KeepsQuestions(cfg, es) && t in Run(cfg, es).holders && Run(cfg, es).holders[t].pc.Model?
    ensures WellFormed(Run(cfg, es).holders[t].copy.messages)
  {
    RunHistory(cfg, es);
  }

  lemma {:induction false} ParkedHoldsItsCalls(cfg: Config, es: seq<Event>)
    requires KeepsQuestions(cfg, es)
    ensures var c := Run(cfg, es).row;
            && (c.status.Awaiting? <==> c.pending.Some?)
            && (c.pending.Some? ==>
                  && c.messages != [] && c.messages[|c.messages| - 1].role.Assistant?
                  && multiset(Calls(c.messages[|c.messages| - 1])) == multiset(ResultIds(c.pending.value.results))
                     + multiset{c.pending.value.toolUseId})
  {
    RunHistory(cfg, es);
    var c := Run(cfg, es).row;
    if c.pending.Some? { assert c.pending.value.toolUseId in Unanswered(c.messages); }
  }

  // ── what else it says ──────────────────────────────────────────────

  /** It waits for the user exactly while a question is pending, and for none before it has begun. */
  predicate AtRest(c: Conversation) {
    (c.status.Awaiting? <==> c.pending.Some?) && (c.messages == [] ==> c.pending.None?)
  }

  /** What a request's kind and step say of it, its history aside. */
  ghost predicate Course(h: Holder) {
    && (h.kind.Wake? && (h.pc.SaveWake? || (Turning(h.pc) && !h.pc.Init?)) ==> Undoable(h))
    && (h.pc.SaveWake? ==> h.kind.Wake? && !h.toolsRan)
    && (h.pc.SaveClick? ==> h.kind.Interact? && UndoClick(h.copy, h.before) == h.prior)
    && (Opening(h.pc) ==> !h.toolsRan && AtRest(h.copy))
    && (h.kind.Start? && Opening(h.pc) ==> h.copy.messages == [])
    && (h.pc.Init? ==>
          !h.kind.Wake? && h.copy.messages == [] && h.copy.pending.None? && OneQuestion(h.pc.turn))
    && (h.pc.SaveInit? ==> !h.kind.Wake?)
    && (h.pc.Tools? ==> h.copy.pending.None? && OneQuestion(h.pc.turn) && (h.pc.turn.running ==> h.toolsRan))
    && (h.pc.Model? || h.pc.SaveInit? ==> h.copy.pending.None?)
  }

  ghost predicate CourseWorld(w: World) { forall t | t in w.holders :: Course(w.holders[t]) }

  lemma RunCourse(cfg: Config, es: seq<Event>)
    requires KeepsQuestions(cfg, es)
    ensures CourseWorld(Run(cfg, es))
  {
    RunHistory(cfg, es);
    var w := Run(cfg, es);
    forall t | t in w.holders ensures Course(w.holders[t]) {
      HistoryCourse(w.holders[t]);
      assert HistoryInv(w.holders[t]);
    }
  }

  lemma HistoryCourse(h: Holder)
    ensures HistoryInv(h) ==> Course(h)
  {}
}
