/** Notices are taken in exactly once, whatever fails. */
module Notices {
  import opened History
  import opened Conversations
  import opened Requests
  import opened Worlds
  import opened Turns
  import opened Fencing
  import opened Pairing

  function NoticesIn(bs: seq<Block>): seq<Block> {
    if bs == [] then [] else NoticesIn(bs[..|bs| - 1]) + (if bs[|bs| - 1].NoticeText? then [bs[|bs| - 1]] else [])
  }

  /** The notices a history holds, in order. */
  function TakenIn(ms: seq<Message>): seq<Block> {
    if ms == [] then []
    else
      var m := ms[|ms| - 1];
      TakenIn(ms[..|ms| - 1]) + (if m.role.User? then NoticesIn(BlocksOf(m.content)) else [])
  }

  lemma TakenPush(ms: seq<Message>, m: Message)
    ensures TakenIn(ms + [m]) == TakenIn(ms) + (if m.role.User? then NoticesIn(BlocksOf(m.content)) else [])
  {
    assert (ms + [m])[..|ms|] == ms;
  }

  lemma {:induction false} NoticesConcat(a: seq<Block>, b: seq<Block>)
    ensures NoticesIn(a + b) == NoticesIn(a) + NoticesIn(b)
  {
    if b == [] {
      assert a + b == a;
    } else {
      assert (a + b)[..|a + b| - 1] == a + b[..|b| - 1];
      NoticesConcat(a, b[..|b| - 1]);
    }
  }

  lemma {:induction false} AllNotices(bs: seq<Block>)
    requires forall b | b in bs :: b.NoticeText?
    ensures NoticesIn(bs) == bs
  {
    if bs != [] { AllNotices(bs[..|bs| - 1]); }
  }

  lemma {:induction false} LogBlocksSplit(log: seq<Notice>, a: nat, b: nat, c: nat)
    requires a <= b <= c <= |log|
    ensures LogBlocks(log, a, c) == LogBlocks(log, a, b) + LogBlocks(log, b, c)
  {
    if b < c { LogBlocksSplit(log, a, b, c - 1); }
  }

  lemma {:induction false} LogBlocksAppend(log: seq<Notice>, n: Notice, a: nat, b: nat)
    requires b <= |log|
    ensures LogBlocks(log + [n], a, b) == LogBlocks(log, a, b)
  {
    if a < b { LogBlocksAppend(log, n, a, b - 1); }
  }

  // ── the invariant ──────────────────────────────────────────────────

  /** The notices in the history are exactly those numbered through `noticedThrough`, each once, in order. */
  predicate Noticed(log: seq<Notice>, c: Conversation) {
    c.noticedThrough <= |log| && TakenIn(c.messages) == LogBlocks(log, 0, c.noticedThrough)
  }

  /** And a parked turn holds no notice back among its results. */
  predicate NoticedOk(log: seq<Notice>, c: Conversation) {
    Noticed(log, c) && (c.pending.Some? ==> NoticesIn(c.pending.value.results) == [])
  }

  ghost predicate NoticeInv(log: seq<Notice>, h: Holder) {
    && NoticedOk(log, h.copy)
    && (Undoing(h) ==> NoticedOk(log, h.prior))
    && (h.pc.Tools? ==> NoticesIn(h.pc.turn.results) == [])
    && (h.pc.Init? ==>
          && NoticesIn(h.pc.turn.results) == []
          && h.copy.noticedThrough <= h.pc.through <= |log|
          && NoticesIn(h.pc.content) == LogBlocks(log, h.copy.noticedThrough, h.pc.through))
  }

  lemma NoticedAppend(log: seq<Notice>, n: Notice, c: Conversation)
    requires NoticedOk(log, c)
    ensures NoticedOk(log + [n], c)
  {
    LogBlocksAppend(log, n, 0, c.noticedThrough);
  }

  lemma NoticeAppend(log: seq<Notice>, n: Notice, h: Holder)
    requires NoticeInv(log, h)
    ensures NoticeInv(log + [n], h)
  {
    NoticedAppend(log, n, h.copy);
    if Undoing(h) { NoticedAppend(log, n, h.prior); }
    if h.pc.Init? { LogBlocksAppend(log, n, h.copy.noticedThrough, h.pc.through); }
  }

  /** What a request reads is what it has not taken in, and nothing else. */
  lemma UnreadExact(cfg: Config, c: Conversation, log: seq<Notice>)
    requires c.noticedThrough <= |log|
    ensures var u := UnreadNotices(cfg, c, log);
            c.noticedThrough <= u.through <= |log| && NoticesIn(u.blocks) == u.blocks ==
              LogBlocks(log, c.noticedThrough, u.through)
  {
    UnreadAreText(cfg, c, log);
    AllNotices(UnreadNotices(cfg, c, log).blocks);
  }

  /** A user message with no notices in it takes none in. */
  lemma SayNoticed(log: seq<Notice>, c: Conversation, bs: seq<Block>)
    requires Noticed(log, c) && NoticesIn(bs) == []
    ensures Noticed(log, Say(c, bs))
  {
    TakenPush(c.messages, Message(User, Blocks(bs)));
  }

  /** One with exactly the unread notices in it takes those in. */
  lemma SayTakes(log: seq<Notice>, c: Conversation, bs: seq<Block>, through: nat)
    requires Noticed(log, c) && c.noticedThrough <= through <= |log|
    requires NoticesIn(bs) == LogBlocks(log, c.noticedThrough, through)
    ensures Noticed(log, Say(c, bs).(noticedThrough := through))
  {
    TakenPush(c.messages, Message(User, Blocks(bs)));
    LogBlocksSplit(log, 0, c.noticedThrough, through);
  }

  lemma TakeNoticed(cfg: Config, log: seq<Notice>, c: Conversation, text: string)
    requires Noticed(log, c)
    ensures Noticed(log, Take(c, UnreadNotices(cfg, c, log), text))
  {
    var u := UnreadNotices(cfg, c, log);
    UnreadExact(cfg, c, log);
    NoticesConcat(u.blocks, [Text(text)]);
    assert NoticesIn([Text(text)]) == [];
    SayTakes(log, c, u.blocks + [Text(text)], u.through);
  }

  lemma AnswerHoldsNone(results: seq<Block>, id: string, said: string)
    requires NoticesIn(results) == []
    ensures NoticesIn(results + [ToolResult(id, said)]) == []
  {
    assert (results + [ToolResult(id, said)])[..|results|] == results;
  }

  lemma CloseOutNoticed(log: seq<Notice>, c: Conversation, text: string)
    requires NoticedOk(log, c) && AtRest(c)
    ensures NoticedOk(log, CloseOut(c, text)) && CloseOut(c, text).noticedThrough == c.noticedThrough
  {
    if c.pending.Some? {
      var p := c.pending.value;
      AnswerHoldsNone(p.results, p.toolUseId, NotSelected(text));
      SayNoticed(log, Freeze(c, p.handle), p.results + [ToolResult(p.toolUseId, NotSelected(text))]);
    }
  }

  lemma RecordClickNoticed(cfg: Config, log: seq<Notice>, c: Conversation, h: Handle, said: string)
    requires NoticedOk(log, c)
    ensures NoticedOk(log, RecordClick(c, h, said, UnreadNotices(cfg, c, log)))
  {
    var u := UnreadNotices(cfg, c, log);
    match c.pending
    case None => TakeNoticed(cfg, log, c, said);
    case Some(p) =>
      UnreadExact(cfg, c, log);
      AnswerHoldsNone(p.results, p.toolUseId, said);
      NoticesConcat(p.results + [ToolResult(p.toolUseId, said)], u.blocks);
      SayTakes(log, Freeze(c, h), p.results + [ToolResult(p.toolUseId, said)] + u.blocks, u.through);
  }

  /** A reply takes no notice in, whatever it says. */
  lemma RepliedNoticed(log: seq<Notice>, c: Conversation, content: seq<Block>)
    requires NoticedOk(log, c)
    ensures NoticedOk(log, Replied(c, content))
  {
    TakenPush(c.messages, Message(Assistant, Blocks(content)));
  }

  lemma {:induction false} NotRunHoldsNone(calls: seq<string>)
    ensures NoticesIn(NotRun(calls)) == []
  {
    if calls != [] {
      NotRunHoldsNone(calls[1..]);
      NoticesConcat([ToolResult(calls[0], "Not run")], NotRun(calls[1..]));
    }
  }

  // ── steps ──────────────────────────────────────────────────────────

  lemma AtHopNoticed(log: seq<Notice>, cfg: Config, h: Holder, c: Conversation, hop: nat)
    requires NoticedOk(log, c) && (h.kind.Wake? ==> NoticedOk(log, h.prior))
    ensures NoticeInv(log, AtHop(cfg, h, c, hop))
  {}

  lemma PlainNoticed(log: seq<Notice>, h: Holder)
    requires NoticedOk(log, h.copy) && !h.pc.Init? && !h.pc.Tools? && (Undoing(h) ==> NoticedOk(log, h.prior))
    ensures NoticeInv(log, h)
  {}

  lemma InitBeginsNoticed(cfg: Config, log: seq<Notice>, h: Holder, text: string)
    requires NoticedOk(log, h.copy) && !h.kind.Wake?
    ensures var u := UnreadNotices(cfg, h.copy, log);
            NoticeInv(log, h.(pc := Init(u.blocks + [Text(text)], u.through, NewTurn(["init"])),
              copy := h.copy.(status := Streaming), before := Snapshot(h.copy)))
  {
    var u := UnreadNotices(cfg, h.copy, log);
    UnreadExact(cfg, h.copy, log);
    NoticesConcat(u.blocks, [Text(text)]);
    assert NoticesIn([Text(text)]) == [];
  }

  lemma ChatTakes(cfg: Config, log: seq<Notice>, c: Conversation, text: string)
    requires NoticedOk(log, c) && AtRest(c)
    ensures NoticedOk(log, Take(CloseOut(c, text), UnreadNotices(cfg, c, log), text))
  {
    CloseOutNoticed(log, c, text);
    TakeNoticed(cfg, log, CloseOut(c, text), text);
    assert UnreadNotices(cfg, CloseOut(c, text), log) == UnreadNotices(cfg, c, log);
  }

  lemma ReadChatNoticed(cfg: Config, env: Env, h: Holder)
    requires NoticeInv(env.log, h) && AtRest(h.copy) && h.pc.Read? && h.kind.Chat?
    ensures NoticeInv(env.log, StepRead(cfg, env, h, Go).holder.value)
  {
    if h.copy.messages == [] && cfg.hasInit {
      InitBeginsNoticed(cfg, env.log, h, h.kind.text);
    } else {
      var taken := Take(CloseOut(h.copy, h.kind.text), UnreadNotices(cfg, h.copy, env.log), h.kind.text);
      ChatTakes(cfg, env.log, h.copy, h.kind.text);
      AtHopNoticed(env.log, cfg, h.(copy := taken), taken.(status := Streaming), 0);
    }
  }

  lemma ReadStartNoticed(cfg: Config, env: Env, h: Holder)
    requires NoticeInv(env.log, h) && h.pc.Read? && h.kind.Start?
    ensures NoticeInv(env.log, StepRead(cfg, env, h, Go).holder.value)
  {
    InitBeginsNoticed(cfg, env.log, h, "[conversation started]");
  }

  lemma ReadWakeNoticed(cfg: Config, env: Env, h: Holder)
    requires NoticeInv(env.log, h) && h.pc.Read? && h.kind.Wake?
    ensures NoticeInv(env.log, StepRead(cfg, env, h, Go).holder.value)
  {
    var u := UnreadNotices(cfg, h.copy, env.log);
    TakeNoticed(cfg, env.log, h.copy, WOKEN);
    match WakeUp(cfg, h.copy, u, env.now)
    case NothingNew => PlainNoticed(env.log, h.(pc := Release));
    case Limited(l) => PlainNoticed(env.log, h.(copy := l, pc := Release));
    case Woken(w) => WokenNoticed(env.log, h, w, env.now);
  }

  lemma WokenNoticed(log: seq<Notice>, h: Holder, c: Conversation, at: nat)
    requires NoticedOk(log, h.copy) && NoticedOk(log, c)
    ensures NoticeInv(log, h.(pc := SaveWake(at), before := Snapshot(h.copy), prior := h.copy, copy := c))
  {}

  lemma StepReadNoticed(cfg: Config, env: Env, h: Holder, a: Action)
    requires NoticeInv(env.log, h) && AtRest(h.copy) && h.pc.Read?
    ensures NoticeInv(env.log, StepRead(cfg, env, h, a).holder.value)
  {
    if a.Go? {
      match h.kind
      case Chat(_) => ReadChatNoticed(cfg, env, h);
      case Start => ReadStartNoticed(cfg, env, h);
      case Interact(handle, said) => RecordClickNoticed(cfg, env.log, h.copy, handle, said);
      case Wake => ReadWakeNoticed(cfg, env, h);
      case Update(_, _, _) =>
    }
  }

  lemma AnnouncedNoticed(log: seq<Notice>, h: Holder)
    requires NoticedOk(log, h.copy) && Opening(h.pc)
    ensures NoticeInv(log, Announced(h)) && NoticeInv(log, Announced(h.(copy := h.copy.(announcing := None))))
  {}

  lemma StepAnnounceNoticed(env: Env, h: Holder, a: Action)
    requires NoticeInv(env.log, h) && (h.pc.Announce? || h.pc.AppendOwed?)
    ensures NoticeInv(env.log, StepAnnounce(env, h, a).holder.value)
    ensures NoticeInv(env.log, StepAppendOwed(h, a).holder.value)
  {
    AnnouncedNoticed(env.log, h);
  }

  lemma StepCheckNoticed(cfg: Config, env: Env, h: Holder, a: Action)
    requires NoticeInv(env.log, h) && (h.pc.Fresh? || h.pc.Gate?)
    ensures NoticeInv(env.log, StepFresh(cfg, env, h, a).holder.value)
    ensures NoticeInv(env.log, StepGate(cfg, env, h, a).holder.value)
  {}

  lemma StepOpeningNoticed(cfg: Config, env: Env, h: Holder, a: Action)
    requires NoticeInv(env.log, h) && AtRest(h.copy) && Opening(h.pc)
    ensures var o := StepOpening(cfg, env, h, a).holder; o.Some? ==> NoticeInv(env.log, o.value)
  {
    match h.pc
    case Read => StepReadNoticed(cfg, env, h, a);
    case Announce => StepAnnounceNoticed(env, h, a);
    case AppendOwed => StepAnnounceNoticed(env, h, a);
    case _ => StepCheckNoticed(cfg, env, h, a);
  }

  lemma ToolStepNoticed(cfg: Config, env: Env, token: Token, c: Conversation, t: Turn, ev: ToolEvent)
    requires NoticesIn(t.results) == []
    ensures NoticesIn(ToolStep(cfg, env, token, c, t, ev).turn.results) == []
  {
    if ev.Skip? { SkipNoticed(c, t, ev.text); }
    else if ev.End? { EndNoticed(c, t, ev.ok, ev.text); }
    else { ToolStepKeeps(cfg, env, token, c, t, ev); }
  }

  lemma SkipNoticed(c: Conversation, t: Turn, text: string)
    requires NoticesIn(t.results) == []
    ensures NoticesIn(SkipCall(c, t, text).turn.results) == []
  {
    if t.at < |t.calls| { AnswerHoldsNone(t.results, t.calls[t.at], text); }
  }

  lemma EndNoticed(c: Conversation, t: Turn, ok: bool, text: string)
    requires NoticesIn(t.results) == []
    ensures NoticesIn(EndCall(c, t, ok, text).turn.results) == []
  {
    if t.at < |t.calls| { AnswerHoldsNone(t.results, t.calls[t.at], text); }
  }

  lemma ToolsAfterNoticed(cfg: Config, log: seq<Notice>, h: Holder, o: TurnOut)
    requires NoticeInv(log, h) && h.pc.Tools? && NoticesIn(o.turn.results) == []
    requires o.conv == h.copy.(handles := o.conv.handles, frozen := o.conv.frozen, superseded := o.conv.superseded)
    ensures var n := ToolsAfter(cfg, h, h.pc.hop, o).holder; n.Some? ==> NoticeInv(log, n.value)
  {
    if Decided(o.turn) && o.turn.parked.None? {
      SayNoticed(log, o.conv, o.turn.results);
      AtHopNoticed(log, cfg, h.(copy := o.conv, toolsRan := h.toolsRan || o.turn.running), Say(o.conv, o.turn.results),
        h.pc.hop + 1);
    }
  }

  lemma StepToolsNoticed(cfg: Config, env: Env, h: Holder, a: Action)
    requires NoticeInv(env.log, h) && h.pc.Tools?
    ensures var n := StepTools(cfg, env, h, a).holder; n.Some? ==> NoticeInv(env.log, n.value)
  {
    if a.Tool? {
      ToolStepNoticed(cfg, env, h.token, h.copy, h.pc.turn, a.ev);
      ToolStepTouches(cfg, env, h.token, h.copy, h.pc.turn, a.ev);
      ToolsAfterNoticed(cfg, env.log, h, ToolStep(cfg, env, h.token, h.copy, h.pc.turn, a.ev));
    }
  }

  lemma InitAfterNoticed(log: seq<Notice>, h: Holder, o: TurnOut)
    requires NoticeInv(log, h) && h.pc.Init? && NoticesIn(o.turn.results) == [] && !h.kind.Wake?
    requires o.conv == h.copy.(handles := o.conv.handles, frozen := o.conv.frozen, superseded := o.conv.superseded)
    ensures var n := InitAfter(h, h.pc.content, h.pc.through, o).holder; n.Some? ==> NoticeInv(log, n.value)
  {
    var call := [ToolUse("init", "init", "{}")];
    var asked := Say(o.conv, h.pc.content).(noticedThrough := h.pc.through);
    var called := asked.(messages := asked.messages + [Message(Assistant, Blocks(call))]);
    SayTakes(log, o.conv, h.pc.content, h.pc.through);
    CallNoticed(log, asked, call);
    SayNoticed(log, called, o.turn.results);
    InitDone(log, h, o, called);
  }

  lemma CallNoticed(log: seq<Notice>, asked: Conversation, call: seq<Block>)
    requires NoticedOk(log, asked) && NoticesIn(call) == []
    ensures NoticedOk(log, asked.(messages := asked.messages + [Message(Assistant, Blocks(call))]))
  {
    TakenPush(asked.messages, Message(Assistant, Blocks(call)));
  }

  lemma InitDone(log: seq<Notice>, h: Holder, o: TurnOut, called: Conversation)
    requires NoticeInv(log, h) && h.pc.Init? && NoticesIn(o.turn.results) == [] && !h.kind.Wake?
    requires o.conv == h.copy.(handles := o.conv.handles, frozen := o.conv.frozen, superseded := o.conv.superseded)
    requires NoticedOk(log, called) && NoticedOk(log, Say(called, o.turn.results))
    requires called == Say(o.conv, h.pc.content).(noticedThrough := h.pc.through,
               messages := Say(o.conv, h.pc.content).messages
                 + [Message(Assistant, Blocks([ToolUse("init", "init", "{}")]))])
    ensures var n := InitAfter(h, h.pc.content, h.pc.through, o).holder; n.Some? ==> NoticeInv(log, n.value)
  {
    if !o.lost && !Decided(o.turn) {
      InitGoesOn(log, h, o.conv, h.pc.content, h.pc.through, o.turn);
    } else if !o.lost {
      match o.turn.parked
      case Some(q) => InitParks(log, h, called, q);
      case None => PlainNoticed(log, h.(copy := Say(called, o.turn.results), pc := SaveInit));
    }
  }

  lemma InitGoesOn(log: seq<Notice>, h: Holder, c: Conversation, content: seq<Block>, through: nat, t: Turn)
    requires NoticeInv(log, h) && h.pc.Init? && content == h.pc.content && through == h.pc.through && !h.kind.Wake?
    requires c == h.copy.(handles := c.handles, frozen := c.frozen, superseded := c.superseded)
    requires NoticesIn(t.results) == []
    ensures NoticeInv(log, h.(copy := c, pc := Init(content, through, t)))
  {}

  lemma InitParks(log: seq<Notice>, h: Holder, c: Conversation, q: Parked)
    requires NoticedOk(log, c) && !h.kind.Wake?
    ensures NoticeInv(log, h.(copy := Park(c, q, []), pc := Context))
  {}

  lemma StepInitNoticed(cfg: Config, env: Env, h: Holder, a: Action)
    requires NoticeInv(env.log, h) && h.pc.Init? && !h.kind.Wake?
    ensures var n := StepInit(cfg, env, h, a).holder; n.Some? ==> NoticeInv(env.log, n.value)
  {
    if a.Tool? {
      ToolStepNoticed(cfg, env, h.token, h.copy, h.pc.turn, a.ev);
      ToolStepTouches(cfg, env, h.token, h.copy, h.pc.turn, a.ev);
      InitAfterNoticed(env.log, h, ToolStep(cfg, env, h.token, h.copy, h.pc.turn, a.ev));
    }
  }

  lemma TurnFailsNoticed(log: seq<Notice>, h: Holder)
    requires NoticedOk(log, h.copy) && (h.kind.Wake? ==> Undoable(h) && NoticedOk(log, h.prior))
    ensures NoticeInv(log, TurnFails(h))
  {
    if h.kind.Wake? && !h.toolsRan { FailWakeExact(h); }
  }

  lemma ModelRepliesNoticed(log: seq<Notice>, cfg: Config, h: Holder, content: seq<Block>, hop: nat)
    requires NoticeInv(log, h) && h.pc.Model?
    ensures NoticeInv(log, h.(copy := Replied(h.copy, content).(status := Idle), pc := Context))
    ensures NoticeInv(log, AtHop(cfg, h, Say(Replied(h.copy, content), NotRun(CallIds(content))), hop + 1))
    ensures NoticeInv(log, h.(copy := Replied(h.copy, content), pc := Tools(hop, NewTurn(CallIds(content)))))
  {
    RepliedNoticed(log, h.copy, content);
    ModelStopsNoticed(log, h, Replied(h.copy, content));
    ModelCutShortNoticed(log, cfg, h, Replied(h.copy, content), CallIds(content), hop + 1);
    ModelCallsNoticed(log, h, Replied(h.copy, content), hop, NewTurn(CallIds(content)));
  }

  lemma ModelStopsNoticed(log: seq<Notice>, h: Holder, c: Conversation)
    requires NoticedOk(log, c) && (Undoing(h.(pc := Context)) ==> NoticedOk(log, h.prior))
    ensures NoticeInv(log, h.(copy := c.(status := Idle), pc := Context))
  {}

  lemma ModelCutShortNoticed(log: seq<Notice>, cfg: Config, h: Holder, c: Conversation, calls: seq<string>, hop: nat)
    requires NoticedOk(log, c) && (h.kind.Wake? ==> NoticedOk(log, h.prior))
    ensures NoticeInv(log, AtHop(cfg, h, Say(c, NotRun(calls)), hop))
  {
    NotRunHoldsNone(calls);
    SayNoticed(log, c, NotRun(calls));
    AtHopNoticed(log, cfg, h, Say(c, NotRun(calls)), hop);
  }

  lemma ModelCallsNoticed(log: seq<Notice>, h: Holder, c: Conversation, hop: nat, t: Turn)
    requires NoticedOk(log, c) && (h.kind.Wake? ==> NoticedOk(log, h.prior)) && t.results == []
    ensures NoticeInv(log, h.(copy := c, pc := Tools(hop, t)))
  {}

  lemma StepModelNoticed(log: seq<Notice>, cfg: Config, h: Holder, a: Action)
    requires NoticeInv(log, h) && h.pc.Model? && (h.kind.Wake? ==> Undoable(h))
    ensures NoticeInv(log, StepModel(cfg, h, a).holder.value)
  {
    if a.Reply? { ModelRepliesNoticed(log, cfg, h, a.content, h.pc.hop); } else { TurnFailsNoticed(log, h); }
  }

  lemma StepTurningNoticed(cfg: Config, env: Env, h: Holder, a: Action)
    requires NoticeInv(env.log, h) && Course(h) && Turning(h.pc)
    ensures var n := StepTurning(cfg, env, h, a).holder; n.Some? ==> NoticeInv(env.log, n.value)
  {
    match h.pc
    case Init(_, _, _) => StepInitNoticed(cfg, env, h, a);
    case Model(_) => StepModelNoticed(env.log, cfg, h, a);
    case Tools(_, _) => StepToolsNoticed(cfg, env, h, a);
    case Context => TurnFailsNoticed(env.log, h);
  }

  lemma StepSaveNoticed(cfg: Config, env: Env, h: Holder, a: Action)
    requires NoticeInv(env.log, h) && (h.pc.SaveClick? || h.pc.SaveWake? || h.pc.SaveInit?)
    requires h.kind.Wake? ==> h.pc.SaveWake? && Undoable(h)
    requires h.pc.SaveClick? ==> UndoClick(h.copy, h.before) == h.prior
    ensures var n := StepSaving(cfg, env, h, a).holder; n.Some? ==> NoticeInv(env.log, n.value)
  {
    if a.Go? { AtHopNoticed(env.log, cfg, h, h.copy.(status := Streaming), 0); }
    else if h.pc.SaveWake? { TurnFailsNoticed(env.log, h); }
  }

  lemma StepRevisedNoticed(cfg: Config, env: Env, h: Holder, a: Action)
    requires NoticeInv(env.log, h) && h.pc.Revised?
    ensures NoticeInv(env.log, StepRevised(cfg, env, h, a).holder.value)
  {
    PlainNoticed(env.log, h.(pc := Release));
    PlainNoticed(env.log,
      h.(copy := ReviseOutside(h.copy, h.pc.was, h.pc.next, RevisionNotice(h, h.pc.was, h.pc.next)),
      pc := SaveRevision));
  }

  lemma StepRevisionNoticed(cfg: Config, env: Env, h: Holder, a: Action)
    requires NoticeInv(env.log, h) && (h.pc.PutRevision? || h.pc.SaveRevision? || h.pc.AppendRevision? || h.pc.Release?)
    ensures var n := StepSaving(cfg, env, h, a).holder; n.Some? ==> NoticeInv(env.log, n.value)
  {
    PlainNoticed(env.log, h.(pc := Release));
    PlainNoticed(env.log, h.(copy := h.copy.(announcing := None), pc := Release));
  }

  lemma StepNoticed(cfg: Config, env: Env, h: Holder, a: Action)
    requires NoticeInv(env.log, h) && Course(h)
    ensures var n := Step(cfg, env, h, a).holder; n.Some? ==> NoticeInv(env.log, n.value)
  {
    if Opening(h.pc) { StepOpeningNoticed(cfg, env, h, a); }
    else if Turning(h.pc) { StepTurningNoticed(cfg, env, h, a); }
    else if h.pc.SaveClick? || h.pc.SaveWake? || h.pc.SaveInit? { StepSaveNoticed(cfg, env, h, a); }
    else if h.pc.Revised? { StepRevisedNoticed(cfg, env, h, a); }
    else { StepRevisionNoticed(cfg, env, h, a); }
  }

  // ── over whole runs ────────────────────────────────────────────────

  ghost predicate NoticeWorld(w: World) { NoticedOk(w.log, w.row) && Everyone(w, h => NoticeInv(w.log, h)) }

  lemma LogGrows(cfg: Config, w: World, e: Event)
    ensures Next(cfg, w, e).log == w.log || exists n :: Next(cfg, w, e).log == w.log + [n]
  {}

  lemma EveryoneAppend(w: World, n: Notice)
    requires NoticeWorld(w)
    ensures NoticedOk(w.log + [n], w.row) && Everyone(w, h => NoticeInv(w.log + [n], h))
  {
    NoticedAppend(w.log, n, w.row);
    forall t | t in w.holders ensures NoticeInv(w.log + [n], w.holders[t]) { NoticeAppend(w.log, n, w.holders[t]); }
  }

  lemma ActedNoticed(cfg: Config, w: World, token: Token, a: Action, log: seq<Notice>)
    requires NoticeWorld(w) && CourseWorld(w) && token in w.holders
    requires log == w.log || exists n :: log == w.log + [n]
    ensures var o := Step(cfg, EnvOf(w, token), w.holders[token], a).holder; o.Some? ==> NoticeInv(log, o.value)
  {
    var h := w.holders[token];
    assert NoticeInv(w.log, h) && Course(h);
    StepNoticed(cfg, EnvOf(w, token), h, a);
    var o := Step(cfg, EnvOf(w, token), h, a).holder;
    if o.Some? && log != w.log {
      var n :| log == w.log + [n];
      NoticeAppend(w.log, n, o.value);
    }
  }

  lemma NextNoticedRow(cfg: Config, w: World, e: Event, log: seq<Notice>)
    requires NoticedOk(log, w.row) && Everyone(w, h => NoticeInv(log, h))
    ensures NoticedOk(log, Next(cfg, w, e).row)
  {
    if e.Act? && e.token in w.holders {
      StepFenced(cfg, EnvOf(w, e.token), w.holders[e.token], e.action);
      assert NoticeInv(log, w.holders[e.token]);
    }
  }

  lemma NextNoticed(cfg: Config, w: World, e: Event)
    requires NoticeWorld(w) && CourseWorld(w)
    ensures NoticeWorld(Next(cfg, w, e))
  {
    var log := Next(cfg, w, e).log;
    LogGrows(cfg, w, e);
    if log != w.log {
      var n :| log == w.log + [n];
      EveryoneAppend(w, n);
    }
    NextNoticedRow(cfg, w, e, log);
    if e.Act? && e.token in w.holders { ActedNoticed(cfg, w, e.token, e.action, log); }
    NextEveryone(cfg, w, e, h => NoticeInv(log, h));
  }

  lemma {:induction false} RunNoticed(cfg: Config, es: seq<Event>)
    requires KeepsQuestions(cfg, es)
    ensures NoticeWorld(Run(cfg, es))
  {
    if es != [] {
      RunNoticed(cfg, es[..|es| - 1]);
      RunCourse(cfg, es[..|es| - 1]);
      NextNoticed(cfg, Run(cfg, es[..|es| - 1]), es[|es| - 1]);
    }
  }

  /**
   * In every stored conversation the notices in the history are exactly those numbered through
   * `noticedThrough` that have something for the model, each once, in order, under its number and with what
   * the model reads of it: through failed saves, refused inits, undone wake turns and overtaken turns.
   */
  lemma {:induction false} NoticesTakenOnce(cfg: Config, es: seq<Event>)
    requires KeepsQuestions(cfg, es)
    ensures var w := Run(cfg, es);
            w.row.noticedThrough <= |w.log| && Tells(TakenIn(w.row.messages), w.log, 0, w.row.noticedThrough)
  {
    RunNoticed(cfg, es);
    LogBlocksTell(Run(cfg, es).log, 0, Run(cfg, es).row.noticedThrough);
  }

  /** A notice the history took in is a block of one of its user messages. */
  lemma {:induction false} TakenIsSaid(ms: seq<Message>, b: Block)
    requires b in TakenIn(ms)
    ensures exists m | m in ms :: m.role.User? && b in BlocksOf(m.content)
  {
    var front, m := ms[..|ms| - 1], ms[|ms| - 1];
    if b in TakenIn(front) {
      TakenIsSaid(front, b);
      var x :| x in front && x.role.User? && b in BlocksOf(x.content);
      assert x in ms;
    } else {
      NoticeIsBlock(BlocksOf(m.content), b);
      assert m in ms;
    }
  }

  lemma {:induction false} NoticeIsBlock(bs: seq<Block>, b: Block)
    requires b in NoticesIn(bs)
    ensures b in bs
  {
    if b != bs[|bs| - 1] { NoticeIsBlock(bs[..|bs| - 1], b); }
  }
}
