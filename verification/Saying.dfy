/** What the user typed or picked, and what woke the model, is in the history word for word before the model runs. */
module Saying {
  import opened History
  import opened Conversations
  import opened Requests
  import opened Worlds
  import opened Fencing
  import opened Pairing

  // ── what a request records first ───────────────────────────────────

  function Spoken(blocks: seq<Block>): Message { Message(User, Blocks(blocks)) }

  /** The results held beside a question, then its own. */
  function Answered(p: Pending, text: string): seq<Block> { p.results + [ToolResult(p.toolUseId, text)] }

  function Began(blocks: seq<Block>): seq<Message> {
    [Spoken(blocks), Message(Assistant, Blocks([ToolUse("init", "init", "{}")]))]
  }

  /** What a request says, of the conversation it found and the notices it read. */
  function Words(cfg: Config, kind: Kind, found: Conversation, notices: seq<Block>): seq<Message> {
    match kind
    case Chat(text) =>
      if found.messages == [] && cfg.hasInit then Began(notices + [Text(text)])
      else if found.status.Awaiting? && found.pending.Some? then
        [Spoken(Answered(found.pending.value, "User did not select; they said: \"" + text + "\"")),
         Spoken(notices + [Text(text)])]
      else [Spoken(notices + [Text(text)])]
    case Start => Began(notices + [Text("[conversation started]")])
    case Interact(_, said) =>
      (match found.pending
       case Some(p) => [Spoken(Answered(p, said) + notices)]
       case None => [Spoken(notices + [Text(said)])])
    case Wake =>
      [Spoken(notices + [Text("[The user has not said anything. The notifications above arrived on their own.]")])]
    case Update(_, _, _) => []
  }

  predicate OnlyNotices(bs: seq<Block>) { forall b | b in bs :: b.NoticeText? }

  /** The history goes on from what the request found with its words, and any notices it read ahead of them. */
  ghost predicate Says(cfg: Config, kind: Kind, found: Conversation, ms: seq<Message>) {
    exists notices :: OnlyNotices(notices) && found.messages + Words(cfg, kind, found, notices) <= ms
  }

  // ── the invariant ──────────────────────────────────────────────────

  predicate Speaking(pc: Pc) {
    pc.SaveClick? || pc.SaveWake? || pc.SaveInit? || pc.Model? || pc.Tools? || pc.Context?
  }

  predicate AsFound(h: Holder) {
    && h.copy.messages == h.prior.messages && h.copy.pending == h.prior.pending && h.copy.status == h.prior.status
    && (h.kind.Start? ==> h.copy.messages == [])
  }

  /** Init's message is the first, whoever it is from. */
  ghost predicate Beginning(cfg: Config, h: Holder, content: seq<Block>) {
    && h.prior.messages == h.copy.messages == []
    && (h.kind.Start? || (h.kind.Chat? && cfg.hasInit))
    && exists notices :: OnlyNotices(notices) && Words(cfg, h.kind, h.prior, notices) == Began(content)
  }

  ghost predicate SayingInv(cfg: Config, h: Holder) {
    && (Opening(h.pc) ==> AsFound(h))
    && (h.pc.Init? ==> Beginning(cfg, h, h.pc.content))
    && (Speaking(h.pc) ==> Says(cfg, h.kind, h.prior, h.copy.messages))
  }

  lemma SaysOn(cfg: Config, kind: Kind, found: Conversation, ms: seq<Message>, m: Message)
    requires Says(cfg, kind, found, ms)
    ensures Says(cfg, kind, found, ms + [m])
  {
    assert ms <= ms + [m];
  }

  lemma SaysNow(cfg: Config, kind: Kind, found: Conversation, notices: seq<Block>, ms: seq<Message>)
    requires OnlyNotices(notices) && ms == found.messages + Words(cfg, kind, found, notices)
    ensures Says(cfg, kind, found, ms)
  {}

  lemma UnreadOnly(cfg: Config, c: Conversation, log: seq<Notice>)
    ensures OnlyNotices(UnreadNotices(cfg, c, log).blocks)
  {
    UnreadAreText(cfg, c, log);
  }

  lemma AnnouncedSaying(cfg: Config, h: Holder)
    requires AsFound(h)
    ensures SayingInv(cfg, Announced(h))
  {}

  lemma OpeningSaying(cfg: Config, env: Env, h: Holder, a: Action)
    requires AsFound(h) && Opening(h.pc) && !h.pc.Read?
    ensures var n := StepOpening(cfg, env, h, a).holder; n.Some? ==> SayingInv(cfg, n.value)
  {
    if h.pc.Announce? { AnnounceSaying(cfg, env, h, a); }
    else if h.pc.AppendOwed? { AppendOwedSaying(cfg, h, a); }
    else if h.pc.Fresh? { FreshSaying(cfg, env, h, a); }
    else { GateSaying(cfg, env, h, a); }
  }

  lemma AnnounceSaying(cfg: Config, env: Env, h: Holder, a: Action)
    requires AsFound(h) && h.pc.Announce?
    ensures var n := StepAnnounce(env, h, a).holder; n.Some? ==> SayingInv(cfg, n.value)
  {
    AnnouncedSaying(cfg, h);
    AnnouncedSaying(cfg, h.(copy := h.copy.(announcing := None)));
  }

  lemma AppendOwedSaying(cfg: Config, h: Holder, a: Action)
    requires AsFound(h) && h.pc.AppendOwed?
    ensures var n := StepAppendOwed(h, a).holder; n.Some? ==> SayingInv(cfg, n.value)
  {
    AnnouncedSaying(cfg, h.(copy := h.copy.(announcing := None)));
  }

  lemma FreshSaying(cfg: Config, env: Env, h: Holder, a: Action)
    requires AsFound(h) && h.pc.Fresh?
    ensures var n := StepFresh(cfg, env, h, a).holder; n.Some? ==> SayingInv(cfg, n.value)
  {}

  lemma GateSaying(cfg: Config, env: Env, h: Holder, a: Action)
    requires AsFound(h) && h.pc.Gate?
    ensures var n := StepGate(cfg, env, h, a).holder; n.Some? ==> SayingInv(cfg, n.value)
  {}

  lemma ReadSaying(cfg: Config, env: Env, h: Holder, a: Action)
    requires AsFound(h) && h.pc.Read?
    ensures var n := StepRead(cfg, env, h, a).holder; n.Some? ==> SayingInv(cfg, n.value)
  {
    if a.Go? {
      UnreadOnly(cfg, h.copy, env.log);
      var notices := UnreadNotices(cfg, h.copy, env.log).blocks;
      match h.kind
      case Chat(text) => ReadChatSaying(cfg, env, h, text);
      case Start =>
        assert Words(cfg, h.kind, h.prior, notices) == Began(notices + [Text("[conversation started]")]);
      case Interact(handle, said) =>
        SaysNow(cfg, h.kind, h.copy, notices, StepRead(cfg, env, h, a).holder.value.copy.messages);
      case Wake => ReadWakeSaying(cfg, env, h);
      case Update(_, _, _) =>
    }
  }

  lemma ReadWakeSaying(cfg: Config, env: Env, h: Holder)
    requires AsFound(h) && h.pc.Read? && h.kind.Wake?
    ensures var n := StepRead(cfg, env, h, Go).holder; n.Some? ==> SayingInv(cfg, n.value)
  {
    UnreadOnly(cfg, h.copy, env.log);
    var u := UnreadNotices(cfg, h.copy, env.log);
    match WakeUp(cfg, h.copy, u, env.now)
    case Woken(w) => SaysNow(cfg, h.kind, h.copy, u.blocks, w.messages);
    case _ =>
  }

  lemma ReadChatSaying(cfg: Config, env: Env, h: Holder, text: string)
    requires AsFound(h) && h.pc.Read? && h.kind == Chat(text)
    ensures var n := StepRead(cfg, env, h, Go).holder; n.Some? ==> SayingInv(cfg, n.value)
  {
    UnreadOnly(cfg, h.copy, env.log);
    var u := UnreadNotices(cfg, h.copy, env.log);
    if h.copy.messages == [] && cfg.hasInit {
      assert Words(cfg, h.kind, h.prior, u.blocks) == Began(u.blocks + [Text(text)]);
    } else {
      ChatSays(cfg, h.kind, h.prior, h.copy, u, text);
    }
  }

  lemma ChatSays(cfg: Config, kind: Kind, found: Conversation, c: Conversation, u: Unread, text: string)
    requires kind == Chat(text) && !(found.messages == [] && cfg.hasInit) && OnlyNotices(u.blocks)
    requires c.messages == found.messages && c.pending == found.pending && c.status == found.status
    ensures Says(cfg, kind, found, Take(CloseOut(c, text), u, text).messages)
  {
    SaysNow(cfg, kind, found, u.blocks, Take(CloseOut(c, text), u, text).messages);
  }

  lemma AtHopSaying(cfg: Config, h: Holder, c: Conversation, hop: nat)
    requires Says(cfg, h.kind, h.prior, c.messages)
    ensures SayingInv(cfg, AtHop(cfg, h, c, hop))
  {}

  lemma SavingSaying(cfg: Config, env: Env, h: Holder, a: Action)
    requires Says(cfg, h.kind, h.prior, h.copy.messages) && (h.pc.SaveClick? || h.pc.SaveWake? || h.pc.SaveInit?)
    ensures var n := StepSaving(cfg, env, h, a).holder; n.Some? ==> SayingInv(cfg, n.value)
  {
    AtHopSaying(cfg, h, h.copy.(status := Streaming), 0);
    if h.pc.SaveClick? { SaveClickSaying(cfg, env, h, a); }
    else if h.pc.SaveWake? { SaveWakeSaying(cfg, env, h, a); }
    else { SaveInitSaying(cfg, env, h, a); }
  }

  lemma SavedSaying(cfg: Config, env: Env, h: Holder, a: Action, next: Holder, failed: Holder)
    requires SayingInv(cfg, next) && failed.pc.Release?
    ensures var o := if a.Go? then Save(env, h, next) else FailedSave(env, h, a.Fail? && a.landed, failed);
            o.holder.Some? ==> SayingInv(cfg, o.holder.value)
  {}

  lemma SaveClickSaying(cfg: Config, env: Env, h: Holder, a: Action)
    requires SayingInv(cfg, RunTurn(cfg, h))
    ensures var n := StepSaveClick(cfg, env, h, a).holder; n.Some? ==> SayingInv(cfg, n.value)
  {
    SavedSaying(cfg, env, h, a, RunTurn(cfg, h), h.(copy := UndoClick(h.copy, h.before), pc := Release));
  }

  lemma SaveWakeSaying(cfg: Config, env: Env, h: Holder, a: Action)
    requires SayingInv(cfg, RunTurn(cfg, h))
    ensures var n := StepSaveWake(cfg, env, h, a).holder; n.Some? ==> SayingInv(cfg, n.value)
  {
    SavedSaying(cfg, env, h, a, RunTurn(cfg, h), TurnFails(h));
  }

  lemma SaveInitSaying(cfg: Config, env: Env, h: Holder, a: Action)
    requires SayingInv(cfg, RunTurn(cfg, h)) && Says(cfg, h.kind, h.prior, h.copy.messages)
    ensures var n := StepSaveInit(cfg, env, h, a).holder; n.Some? ==> SayingInv(cfg, n.value)
  {
    var stopped := h.(copy := h.copy.(status := Idle), pc := Context);
    SpeaksOn(cfg, h, stopped);
    SavedSaying(cfg, env, h, a, if h.kind.Start? then stopped else RunTurn(cfg, h), h.(pc := Release));
  }

  /** It goes on from a history that holds its words. */
  lemma SpeaksOn(cfg: Config, h: Holder, n: Holder)
    requires Says(cfg, h.kind, h.prior, h.copy.messages) && n.kind == h.kind && n.prior == h.prior
    requires n.copy.messages == h.copy.messages && !Opening(n.pc) && !n.pc.Init?
    ensures SayingInv(cfg, n)
  {}

  lemma ModelSaying(cfg: Config, h: Holder, a: Action)
    requires Says(cfg, h.kind, h.prior, h.copy.messages) && h.pc.Model?
    ensures var n := StepModel(cfg, h, a).holder; n.Some? ==> SayingInv(cfg, n.value)
  {
    if a.Reply? {
      var replied := Replied(h.copy, a.content);
      SaysOn(cfg, h.kind, h.prior, h.copy.messages, Message(Assistant, Blocks(a.content)));
      if CallIds(a.content) == [] || a.toolUse { ModelKeeps(cfg, h, a, replied); }
      else { AsksAgain(cfg, h.(copy := replied), NotRun(CallIds(a.content)), h.pc.hop + 1); }
    }
  }

  lemma ModelKeeps(cfg: Config, h: Holder, a: Action, replied: Conversation)
    requires h.pc.Model? && a.Reply? && (CallIds(a.content) == [] || a.toolUse)
    requires replied == Replied(h.copy, a.content) && Says(cfg, h.kind, h.prior, replied.messages)
    ensures var n := StepModel(cfg, h, a).holder; n.Some? ==> SayingInv(cfg, n.value)
  {}

  /** It says something more, and asks the model again. */
  lemma AsksAgain(cfg: Config, h: Holder, results: seq<Block>, hop: nat)
    requires Says(cfg, h.kind, h.prior, h.copy.messages)
    ensures SayingInv(cfg, AtHop(cfg, h, Say(h.copy, results), hop))
  {
    SaysOn(cfg, h.kind, h.prior, h.copy.messages, Message(User, Blocks(results)));
    AtHopSaying(cfg, h, Say(h.copy, results), hop);
  }

  lemma ToolsSaying(cfg: Config, env: Env, h: Holder, a: Action)
    requires SayingInv(cfg, h) && h.pc.Tools?
    ensures var n := StepTools(cfg, env, h, a).holder; n.Some? ==> SayingInv(cfg, n.value)
  {
    if a.Tool? {
      ToolStepTouches(cfg, env, h.token, h.copy, h.pc.turn, a.ev);
      ToolsAfterSaying(cfg, h, ToolStep(cfg, env, h.token, h.copy, h.pc.turn, a.ev));
    }
  }

  lemma ToolsAfterSaying(cfg: Config, h: Holder, o: TurnOut)
    requires Says(cfg, h.kind, h.prior, h.copy.messages) && o.conv.messages == h.copy.messages && h.pc.Tools?
    ensures var n := ToolsAfter(cfg, h, h.pc.hop, o).holder; n.Some? ==> SayingInv(cfg, n.value)
  {
    if !o.lost {
      var ran := h.(copy := o.conv, toolsRan := h.toolsRan || o.turn.running);
      if Decided(o.turn) && o.turn.parked.None? { AsksAgain(cfg, ran, o.turn.results, h.pc.hop + 1); }
      else { SpeaksOn(cfg, h, ToolsAfter(cfg, h, h.pc.hop, o).holder.value); }
    }
  }

  lemma InitSaying(cfg: Config, env: Env, h: Holder, a: Action)
    requires SayingInv(cfg, h) && h.pc.Init?
    ensures var n := StepInit(cfg, env, h, a).holder; n.Some? ==> SayingInv(cfg, n.value)
  {
    if a.Tool? {
      ToolStepTouches(cfg, env, h.token, h.copy, h.pc.turn, a.ev);
      InitAfterSaying(cfg, h, h.pc.content, h.pc.through, ToolStep(cfg, env, h.token, h.copy, h.pc.turn, a.ev));
    }
  }

  lemma InitAfterSaying(cfg: Config, h: Holder, content: seq<Block>, through: nat, o: TurnOut)
    requires Beginning(cfg, h, content) && o.conv.messages == []
    ensures var n := InitAfter(h, content, through, o).holder; n.Some? ==> SayingInv(cfg, n.value)
  {
    var notices :| OnlyNotices(notices) && Words(cfg, h.kind, h.prior, notices) == Began(content);
    if o.lost {
    } else if !Decided(o.turn) {
    } else {
      var n := InitAfter(h, content, through, o).holder.value;
      assert h.prior.messages + Began(content) <= n.copy.messages;
      assert Says(cfg, h.kind, h.prior, n.copy.messages);
    }
  }

  predicate Silent(pc: Pc) { !Opening(pc) && !pc.Init? && !Speaking(pc) }

  lemma RevisingSilent(cfg: Config, env: Env, h: Holder, a: Action)
    requires h.pc.PutRevision? || h.pc.Revised? || h.pc.SaveRevision? || h.pc.AppendRevision?
    ensures var n := StepSaving(cfg, env, h, a).holder; n.Some? ==> Silent(n.value.pc)
  {}

  lemma ContextSilent(h: Holder, a: Action)
    ensures var n := StepContext(h, a).holder; n.Some? ==> Silent(n.value.pc)
  {}

  lemma RestSaying(cfg: Config, env: Env, h: Holder, a: Action)
    requires Silent(h.pc) || h.pc.Context?
    ensures var n := Step(cfg, env, h, a).holder; n.Some? ==> SayingInv(cfg, n.value)
  {
    if h.pc.Context? { ContextSilent(h, a); }
    else if !h.pc.Release? { RevisingSilent(cfg, env, h, a); }
  }

  lemma StepSaying(cfg: Config, env: Env, h: Holder, a: Action)
    requires SayingInv(cfg, h)
    ensures var n := Step(cfg, env, h, a).holder; n.Some? ==> SayingInv(cfg, n.value)
  {
    if h.pc.Read? { ReadSaying(cfg, env, h, a); }
    else if Opening(h.pc) { OpeningSaying(cfg, env, h, a); }
    else if h.pc.Init? { InitSaying(cfg, env, h, a); }
    else if h.pc.Model? { ModelSaying(cfg, h, a); }
    else if h.pc.Tools? { ToolsSaying(cfg, env, h, a); }
    else if h.pc.SaveClick? || h.pc.SaveWake? || h.pc.SaveInit? { SavingSaying(cfg, env, h, a); }
    else { RestSaying(cfg, env, h, a); }
  }

  // ── over whole runs ────────────────────────────────────────────────

  ghost predicate SayingWorld(cfg: Config, w: World) { Everyone(w, h => SayingInv(cfg, h)) }

  lemma ActedSaying(cfg: Config, w: World, t: Token, a: Action)
    requires SayingWorld(cfg, w) && t in w.holders
    ensures var n := Step(cfg, EnvOf(w, t), w.holders[t], a).holder; n.Some? ==> SayingInv(cfg, n.value)
  {
    assert SayingInv(cfg, w.holders[t]);
    StepSaying(cfg, EnvOf(w, t), w.holders[t], a);
  }

  lemma {:induction false} RunSaying(cfg: Config, es: seq<Event>)
    ensures SayingWorld(cfg, Run(cfg, es))
  {
    if es != [] {
      var w, e := Run(cfg, es[..|es| - 1]), es[|es| - 1];
      RunSaying(cfg, es[..|es| - 1]);
      if e.Act? && e.token in w.holders { ActedSaying(cfg, w, e.token, e.action); }
      NextEveryone(cfg, w, e, h => SayingInv(cfg, h));
    }
  }

  /**
   * Whenever a request calls the model, runs its tools or ends its turn, its history goes on from what it found with
   * its own words: what the user typed, a question's answer, or that no one said anything. A question left waiting
   * is answered first, by what was picked or that nothing was, behind the results held beside it.
   */
  lemma {:induction false} SaidAsSaid(cfg: Config, es: seq<Event>, t: Token)
    requires var w := Run(cfg, es);
             t in w.holders && (w.holders[t].pc.Model? || w.holders[t].pc.Tools? || w.holders[t].pc.Context?)
    ensures var h := Run(cfg, es).holders[t]; Says(cfg, h.kind, h.prior, h.copy.messages)
  {
    RunSaying(cfg, es);
    assert SayingInv(cfg, Run(cfg, es).holders[t]);
  }

  // ── updates ────────────────────────────────────────────────────────

  /** It is where the handle it was asked for leads. */
  predicate Asked(h: Holder) {
    && (h.pc.PutRevision? || h.pc.Revised? ==> h.kind.Update? && h.pc.was == CurrentHandle(h.copy, h.kind.handle))
  }

  lemma OpeningAsked(cfg: Config, env: Env, h: Holder, a: Action)
    requires Opening(h.pc)
    ensures var n := StepOpening(cfg, env, h, a).holder; n.Some? ==> Asked(n.value)
  {
    if h.pc.Gate? { GateAsked(cfg, env, h, a); }
    else if h.pc.Read? { ReadAsksNone(cfg, env, h, a); }
  }

  lemma GateAsked(cfg: Config, env: Env, h: Holder, a: Action)
    requires h.pc.Gate?
    ensures var n := StepGate(cfg, env, h, a).holder; n.Some? ==> Asked(n.value)
  {}

  lemma ReadAsksNone(cfg: Config, env: Env, h: Holder, a: Action)
    requires h.pc.Read?
    ensures var n := StepRead(cfg, env, h, a).holder; n.Some? ==> !n.value.pc.PutRevision? && !n.value.pc.Revised?
  {}

  lemma TurningAsksNone(cfg: Config, env: Env, h: Holder, a: Action)
    requires Turning(h.pc)
    ensures var n := StepTurning(cfg, env, h, a).holder; n.Some? ==> !n.value.pc.PutRevision? && !n.value.pc.Revised?
  {}

  lemma SavingAsked(cfg: Config, env: Env, h: Holder, a: Action)
    requires !Opening(h.pc) && !Turning(h.pc) && Asked(h)
    ensures var n := StepSaving(cfg, env, h, a).holder; n.Some? ==> Asked(n.value)
  {}

  lemma StepAsked(cfg: Config, env: Env, h: Holder, a: Action)
    requires Asked(h)
    ensures var n := Step(cfg, env, h, a).holder; n.Some? ==> Asked(n.value)
  {
    if Opening(h.pc) { OpeningAsked(cfg, env, h, a); }
    else if Turning(h.pc) { TurningAsksNone(cfg, env, h, a); }
    else { SavingAsked(cfg, env, h, a); }
  }

  /** The notice of a revision: the text it came with if any, then which handle replaced which. */
  predicate Replaces(r: Notice, text: string, wake: bool) {
    && r.handle.Some? && r.revises.Some? && r.wake == wake
    && r.model == Some((if text == "" then "" else text + " ") + Digits(r.revises.value) + " was replaced by "
         + Digits(r.handle.value) + "; its earlier digest is out of date. Now: ")
  }

  /** It is the notice of a revision some update request asked for: its text, and whether it is to wake the model. */
  ghost predicate ToldBy(es: seq<Event>, r: Notice) {
    exists e | e in es :: e.Load? && e.kind.Update? && Replaces(r, e.kind.text, e.kind.wake)
  }

  ghost predicate AllTold(es: seq<Event>, c: Conversation) { forall r | r in c.outside :: ToldBy(es, r) }

  ghost predicate UpdateInv(es: seq<Event>, h: Holder) {
    Load(h.kind) in es && Asked(h) && AllTold(es, h.base) && AllTold(es, h.copy)
  }

  lemma OpeningOutside(cfg: Config, env: Env, h: Holder, a: Action)
    requires Opening(h.pc)
    ensures var n := StepOpening(cfg, env, h, a).holder; n.Some? ==>
              n.value.kind == h.kind && n.value.base == h.base && n.value.copy.outside == h.copy.outside
  {
    if h.pc.Read? { ReadOutside(cfg, env, h, a); }
  }

  lemma ReadOutside(cfg: Config, env: Env, h: Holder, a: Action)
    requires h.pc.Read?
    ensures var n := StepRead(cfg, env, h, a).holder; n.Some? ==>
              n.value.kind == h.kind && n.value.base == h.base && n.value.copy.outside == h.copy.outside
  {}

  lemma TurningOutside(cfg: Config, env: Env, h: Holder, a: Action)
    requires Turning(h.pc)
    ensures var n := StepTurning(cfg, env, h, a).holder; n.Some? ==>
              n.value.kind == h.kind && n.value.base == h.base && n.value.copy.outside == h.copy.outside
  {
    if h.pc.Tools? || h.pc.Init? {
      if a.Tool? { ToolStepTouches(cfg, env, h.token, h.copy, h.pc.turn, a.ev); }
    }
  }

  lemma SavingOutside(cfg: Config, env: Env, h: Holder, a: Action)
    requires !Opening(h.pc) && !Turning(h.pc) && !h.pc.Revised?
    ensures var n := StepSaving(cfg, env, h, a).holder; n.Some? ==>
              n.value.kind == h.kind && n.value.base in {h.base, h.copy} && n.value.copy.outside == h.copy.outside
  {}

  lemma RevisedOutside(cfg: Config, env: Env, h: Holder, a: Action)
    requires h.pc.Revised? && h.kind.Update?
    ensures var n := StepRevised(cfg, env, h, a).holder;
            n.Some? && n.value.kind == h.kind && n.value.base == h.base
            && (n.value.copy.outside == h.copy.outside || exists r ::
                  n.value.copy.outside == h.copy.outside + [r]
                  && Replaces(r, h.kind.text, h.kind.wake)
                  && r.handle == Some(h.pc.next) && r.revises == Some(h.pc.was))
  {}

  lemma StepUpdates(es: seq<Event>, cfg: Config, env: Env, h: Holder, a: Action)
    requires UpdateInv(es, h)
    ensures var n := Step(cfg, env, h, a).holder; n.Some? ==> UpdateInv(es, n.value)
  {
    StepAsked(cfg, env, h, a);
    if Opening(h.pc) { OpeningOutside(cfg, env, h, a); }
    else if Turning(h.pc) { TurningOutside(cfg, env, h, a); }
    else if h.pc.Revised? { RevisedTold(es, cfg, env, h, a); }
    else { SavingOutside(cfg, env, h, a); }
  }

  lemma RevisedTold(es: seq<Event>, cfg: Config, env: Env, h: Holder, a: Action)
    requires UpdateInv(es, h) && h.pc.Revised?
    ensures var n := StepRevised(cfg, env, h, a).holder;
            n.Some? && n.value.kind == h.kind && n.value.base == h.base && AllTold(es, n.value.copy)
  {
    RevisedOutside(cfg, env, h, a);
  }

  lemma MoreTold(es: seq<Event>, e: Event, c: Conversation)
    requires AllTold(es, c)
    ensures AllTold(es + [e], c)
  {
    forall r | r in c.outside ensures ToldBy(es + [e], r) {
      var x :| x in es && x.Load? && x.kind.Update? && Replaces(r, x.kind.text, x.kind.wake);
      assert x in es + [e];
    }
  }

  lemma UpdateOn(es: seq<Event>, e: Event, h: Holder)
    requires UpdateInv(es, h)
    ensures UpdateInv(es + [e], h)
  {
    MoreTold(es, e, h.base);
    MoreTold(es, e, h.copy);
  }

  ghost predicate UpdateWorld(es: seq<Event>, w: World) {
    AllTold(es, w.row) && Everyone(w, h => UpdateInv(es, h))
  }

  lemma WorldOn(es: seq<Event>, e: Event, w: World)
    requires UpdateWorld(es, w)
    ensures UpdateWorld(es + [e], w)
  {
    MoreTold(es, e, w.row);
    forall t | t in w.holders ensures UpdateInv(es + [e], w.holders[t]) { UpdateOn(es, e, w.holders[t]); }
  }

  lemma ActedUpdates(es: seq<Event>, cfg: Config, w: World, t: Token, a: Action)
    requires UpdateWorld(es, w) && t in w.holders
    ensures var o := Step(cfg, EnvOf(w, t), w.holders[t], a);
            (o.holder.Some? ==> UpdateInv(es, o.holder.value)) && (o.effect.Saved? ==> AllTold(es, o.effect.conv))
  {
    var h := w.holders[t];
    assert UpdateInv(es, h);
    StepUpdates(es, cfg, EnvOf(w, t), h, a);
    StepFenced(cfg, EnvOf(w, t), h, a);
  }

  lemma NextUpdates(es: seq<Event>, cfg: Config, w: World, e: Event)
    requires UpdateWorld(es, w) && (e.Load? ==> e in es)
    ensures UpdateWorld(es, Next(cfg, w, e))
  {
    if e.Act? && e.token in w.holders { ActedUpdates(es, cfg, w, e.token, e.action); }
    NextEveryone(cfg, w, e, h => UpdateInv(es, h));
  }

  lemma {:induction false} RunUpdates(cfg: Config, es: seq<Event>)
    ensures UpdateWorld(es, Run(cfg, es))
  {
    if es != [] {
      var before, e := es[..|es| - 1], es[|es| - 1];
      assert es == before + [e];
      RunUpdates(cfg, before);
      WorldOn(before, e, Run(cfg, before));
      NextUpdates(es, cfg, Run(cfg, before), e);
    }
  }

  /**
   * The notice of every outside revision has the text of a request for one, if it had any, and then says which handle
   * replaced which; it wakes the model exactly if that request asked to.
   */
  lemma {:induction false} RevisionsSayTheirText(cfg: Config, es: seq<Event>, r: Notice)
    requires r in Run(cfg, es).row.outside
    ensures exists e | e in es :: e.Load? && e.kind.Update? && Replaces(r, e.kind.text, e.kind.wake)
  {
    RunUpdates(cfg, es);
    assert ToldBy(es, r);
  }

  /** A request for a revision replaces the surface its handle leads to, and its notice names both handles. */
  lemma {:induction false} RevisesWhatItWasAsked(cfg: Config, es: seq<Event>, t: Token)
    requires var w := Run(cfg, es); t in w.holders && w.holders[t].pc.Revised?
    ensures var w := Run(cfg, es);
            var h, c := w.holders[t], StepRevised(cfg, EnvOf(w, t), w.holders[t], Go).holder.value.copy;
            && h.kind.Update? && h.pc.was == CurrentHandle(h.copy, h.kind.handle)
            && (if OutOfDate(cfg, h.pc.record, w.now) then c == h.copy else exists r ::
                  c.outside == h.copy.outside + [r] && c.superseded == h.copy.superseded[h.pc.was := h.pc.next]
                  && c.handles == h.copy.handles + [h.pc.next] && c.announcing == Some(r)
                  && Replaces(r, h.kind.text, h.kind.wake)
                  && r.handle == Some(h.pc.next) && r.revises == Some(h.pc.was))
  {
    RunUpdates(cfg, es);
    var w := Run(cfg, es);
    assert UpdateInv(es, w.holders[t]);
    RevisedOutside(cfg, EnvOf(w, t), w.holders[t], Go);
    LateIff(cfg, w.holders[t].pc.record, w.now);
  }
}
