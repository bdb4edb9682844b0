/**
 * A revision made outside any turn and its update notice cannot come apart, and the model hears of it before it runs.
 */
module Announcing {
  import opened History
  import opened Conversations
  import opened Requests
  import opened Worlds
  import opened Turns
  import opened Fencing
  import opened Pairing
  import opened Surfaces
  import opened Identity
  import opened Sessions
  import opened Notices

  /** Each outside revision names its own handle, one this conversation shows. */
  ghost predicate Named(c: Conversation) {
    && (forall r | r in c.outside :: r.revises.Some? && r.model.Some? && r.handle.Some? && r.handle.value in c.handles)
    && (forall r, s | r in c.outside && s in c.outside && r.handle == s.handle :: r == s)
    && (c.announcing.Some? ==> c.announcing.value in c.outside)
    && (c.handles == [] ==> c.outside == [])
  }

  /** The notice of every outside revision is in the log, or owed. */
  ghost predicate Covers(log: seq<Notice>, c: Conversation) {
    forall r | r in c.outside :: r in log || c.announcing == Some(r)
  }

  ghost predicate Kept(log: seq<Notice>, c: Conversation) { Named(c) && Covers(log, c) }

  /** The notice of every outside revision is numbered through `through`. */
  ghost predicate Heard(log: seq<Notice>, c: Conversation, through: nat) {
    through <= |log| && forall r | r in c.outside :: r in log[..through]
  }

  /** Past announcing, and before anything new is owed. */
  predicate Clear(pc: Pc) {
    pc.Fresh? || pc.Gate? || pc.Read? || pc.SaveClick? || pc.SaveWake? || pc.SaveInit? || Turning(pc)
      || pc.PutRevision? || pc.Revised?
  }

  /** Past reading the notices. */
  predicate Hears(pc: Pc) { pc.SaveClick? || pc.SaveWake? || pc.SaveInit? || pc.Model? || pc.Tools? || pc.Context? }

  ghost predicate OwedInv(log: seq<Notice>, h: Holder) {
    && Kept(log, h.copy)
    && (Clear(h.pc) ==> h.copy.announcing.None?)
    && (Hears(h.pc) ==> Heard(log, h.copy, h.copy.noticedThrough))
    && (h.pc.Init? ==> Heard(log, h.copy, h.pc.through) && h.copy.outside == [])
    && (Undoing(h) ==> Kept(log, h.prior))
    && (h.pc.AppendRevision? ==> h.copy == h.base)
  }

  lemma HeardAppend(log: seq<Notice>, n: Notice, c: Conversation, through: nat)
    requires Heard(log, c, through)
    ensures Heard(log + [n], c, through)
  {
    assert (log + [n])[..through] == log[..through];
  }

  lemma OwedAppend(log: seq<Notice>, n: Notice, h: Holder)
    requires OwedInv(log, h)
    ensures OwedInv(log + [n], h)
  {
    if Hears(h.pc) { HeardAppend(log, n, h.copy, h.copy.noticedThrough); }
    if h.pc.Init? { HeardAppend(log, n, h.copy, h.pc.through); }
  }

  // ── steps ──────────────────────────────────────────────────────────

  /** A copy that differs only in what no revision depends on. */
  predicate SameRevisions(c: Conversation, d: Conversation) {
    c.handles <= d.handles && d.outside == c.outside && d.announcing == c.announcing
  }

  lemma KeptSame(log: seq<Notice>, c: Conversation, d: Conversation)
    requires Kept(log, c) && SameRevisions(c, d)
    ensures Kept(log, d)
  {}

  lemma ReadHears(cfg: Config, log: seq<Notice>, c: Conversation)
    requires Kept(log, c) && c.announcing.None? && c.noticedThrough <= |log| && cfg.sendsNotices
    ensures Heard(log, c, UnreadNotices(cfg, c, log).through)
  {
    assert log[..|log|] == log;
  }

  lemma StepGateOwed(cfg: Config, env: Env, h: Holder, a: Action)
    requires OwedInv(env.log, h) && (h.pc.Fresh? || h.pc.Gate?)
    ensures OwedInv(env.log, StepFresh(cfg, env, h, a).holder.value)
    ensures OwedInv(env.log, StepGate(cfg, env, h, a).holder.value)
  {}

  /** No other notice in the log passes for the one owed. */
  ghost predicate Unmistakable(log: seq<Notice>, c: Conversation) {
    c.announcing.Some? ==> forall n | n in log && Announces(n, c.announcing.value) :: n == c.announcing.value
  }

  lemma StepAnnounceOwed(env: Env, h: Holder, a: Action)
    requires OwedInv(env.log, h) && h.pc.Announce? && Unmistakable(env.log, h.copy)
    ensures OwedInv(env.log, StepAnnounce(env, h, a).holder.value)
  {}

  /** The log after a step. */
  function Appended(log: seq<Notice>, e: Effect): seq<Notice> { if e.Logged? then log + [e.notice] else log }

  lemma StepAppendOwedOwed(log: seq<Notice>, h: Holder, a: Action)
    requires OwedInv(log, h) && h.pc.AppendOwed?
    ensures var o := StepAppendOwed(h, a); OwedInv(Appended(log, o.effect), o.holder.value)
  {
    if h.copy.announcing.Some? { OwedAppend(log, h.copy.announcing.value, h); }
  }

  lemma AtHopOwed(cfg: Config, log: seq<Notice>, h: Holder, c: Conversation, hop: nat)
    requires Kept(log, c) && c.announcing.None? && Heard(log, c, c.noticedThrough)
             && (h.kind.Wake? ==> Kept(log, h.prior))
    ensures OwedInv(log, AtHop(cfg, h, c, hop))
  {}

  lemma PlainOwed(log: seq<Notice>, h: Holder)
    requires Kept(log, h.copy) && (h.pc.Release? || h.pc.SaveRevision?)
    ensures OwedInv(log, h)
  {}

  lemma ReadChatOwed(cfg: Config, env: Env, h: Holder)
    requires OwedInv(env.log, h) && h.copy.noticedThrough <= |env.log| && h.pc.Read? && h.kind.Chat? && cfg.sendsNotices
    requires h.copy.messages == [] ==> h.copy.outside == []
    ensures OwedInv(env.log, StepRead(cfg, env, h, Go).holder.value)
  {
    ReadHears(cfg, env.log, h.copy);
    var u := UnreadNotices(cfg, h.copy, env.log);
    if !(h.copy.messages == [] && cfg.hasInit) {
      var taken := Take(CloseOut(h.copy, h.kind.text), u, h.kind.text);
      KeptSame(env.log, h.copy, taken);
      AtHopOwed(cfg, env.log, h.(copy := taken), taken.(status := Streaming), 0);
    }
  }

  lemma ReadClickOwed(cfg: Config, env: Env, h: Holder)
    requires OwedInv(env.log, h) && h.copy.noticedThrough <= |env.log| && h.pc.Read? && h.kind.Interact?
             && cfg.sendsNotices
    ensures OwedInv(env.log, StepRead(cfg, env, h, Go).holder.value)
  {
    ReadHears(cfg, env.log, h.copy);
  }

  lemma ReadWakeOwed(cfg: Config, env: Env, h: Holder)
    requires OwedInv(env.log, h) && h.copy.noticedThrough <= |env.log| && h.pc.Read? && h.kind.Wake? && cfg.sendsNotices
    ensures OwedInv(env.log, StepRead(cfg, env, h, Go).holder.value)
  {
    var u := UnreadNotices(cfg, h.copy, env.log);
    ReadHears(cfg, env.log, h.copy);
    match WakeUp(cfg, h.copy, u, env.now)
    case NothingNew => PlainOwed(env.log, h.(pc := Release));
    case Limited(l) => PlainOwed(env.log, h.(copy := l, pc := Release));
    case Woken(c) => WokenOwed(env.log, h, c, env.now);
  }

  lemma WokenOwed(log: seq<Notice>, h: Holder, c: Conversation, at: nat)
    requires Kept(log, h.copy) && h.copy.announcing.None? && SameRevisions(h.copy, c) && Heard(log, c, c.noticedThrough)
    ensures OwedInv(log, h.(pc := SaveWake(at), before := Snapshot(h.copy), prior := h.copy, copy := c))
  {}

  lemma ReadStartOwed(cfg: Config, env: Env, h: Holder)
    requires OwedInv(env.log, h) && h.copy.noticedThrough <= |env.log| && h.pc.Read? && h.kind.Start?
             && cfg.sendsNotices && h.copy.outside == []
    ensures OwedInv(env.log, StepRead(cfg, env, h, Go).holder.value)
  {
    ReadHears(cfg, env.log, h.copy);
  }

  /** The notices are read by someone who owes none, so each one committed before is among them. */
  lemma StepReadOwed(cfg: Config, env: Env, h: Holder, a: Action)
    requires OwedInv(env.log, h) && h.copy.noticedThrough <= |env.log| && h.pc.Read? && cfg.sendsNotices
    requires h.copy.messages == [] ==> h.copy.outside == []
    requires h.kind.Start? ==> h.copy.messages == []
    ensures OwedInv(env.log, StepRead(cfg, env, h, a).holder.value)
  {
    PlainOwed(env.log, h.(pc := Release));
    if a.Go? {
      match h.kind
      case Chat(_) => ReadChatOwed(cfg, env, h);
      case Start => ReadStartOwed(cfg, env, h);
      case Interact(_, _) => ReadClickOwed(cfg, env, h);
      case Wake => ReadWakeOwed(cfg, env, h);
      case Update(_, _, _) =>
    }
  }

  lemma ToolTouchesNone(cfg: Config, env: Env, token: Token, c: Conversation, t: Turn, ev: ToolEvent)
    ensures SameRevisions(c, ToolStep(cfg, env, token, c, t, ev).conv)
  {}

  lemma ToolsAfterOwed(cfg: Config, log: seq<Notice>, h: Holder, o: TurnOut)
    requires OwedInv(log, h) && h.pc.Tools? && SameRevisions(h.copy, o.conv)
             && o.conv.noticedThrough == h.copy.noticedThrough
    ensures var n := ToolsAfter(cfg, h, h.pc.hop, o).holder; n.Some? ==> OwedInv(log, n.value)
  {
    KeptSame(log, h.copy, o.conv);
    if Decided(o.turn) && o.turn.parked.None? {
      AtHopOwed(cfg, log, h.(copy := o.conv, toolsRan := h.toolsRan || o.turn.running), Say(o.conv, o.turn.results),
        h.pc.hop + 1);
    }
  }

  lemma StepToolsOwed(cfg: Config, env: Env, h: Holder, a: Action)
    requires OwedInv(env.log, h) && h.pc.Tools?
    ensures var n := StepTools(cfg, env, h, a).holder; n.Some? ==> OwedInv(env.log, n.value)
  {
    if a.Tool? {
      ToolTouchesNone(cfg, env, h.token, h.copy, h.pc.turn, a.ev);
      ToolStepTouches(cfg, env, h.token, h.copy, h.pc.turn, a.ev);
      ToolsAfterOwed(cfg, env.log, h, ToolStep(cfg, env, h.token, h.copy, h.pc.turn, a.ev));
    }
  }

  lemma InitAfterOwed(log: seq<Notice>, h: Holder, o: TurnOut)
    requires OwedInv(log, h) && h.pc.Init? && SameRevisions(h.copy, o.conv) && !h.kind.Wake?
    ensures var n := InitAfter(h, h.pc.content, h.pc.through, o).holder; n.Some? ==> OwedInv(log, n.value)
  {}

  lemma StepInitOwed(cfg: Config, env: Env, h: Holder, a: Action)
    requires OwedInv(env.log, h) && h.pc.Init? && !h.kind.Wake?
    ensures var n := StepInit(cfg, env, h, a).holder; n.Some? ==> OwedInv(env.log, n.value)
  {
    if a.Tool? {
      ToolTouchesNone(cfg, env, h.token, h.copy, h.pc.turn, a.ev);
      InitAfterOwed(env.log, h, ToolStep(cfg, env, h.token, h.copy, h.pc.turn, a.ev));
    }
  }

  lemma TurnFailsOwed(log: seq<Notice>, h: Holder)
    requires Kept(log, h.copy) && (h.kind.Wake? ==> Undoable(h) && Kept(log, h.prior))
    ensures OwedInv(log, TurnFails(h))
  {
    if h.kind.Wake? && !h.toolsRan { FailWakeExact(h); }
    PlainOwed(log, TurnFails(h));
  }

  lemma ModelRepliesOwed(log: seq<Notice>, cfg: Config, h: Holder, content: seq<Block>, hop: nat)
    requires OwedInv(log, h) && h.pc.Model?
    ensures OwedInv(log, h.(copy := Replied(h.copy, content).(status := Idle), pc := Context))
    ensures OwedInv(log, AtHop(cfg, h, Say(Replied(h.copy, content), NotRun(CallIds(content))), hop + 1))
    ensures OwedInv(log, h.(copy := Replied(h.copy, content), pc := Tools(hop, NewTurn(CallIds(content)))))
  {
    AtHopOwed(cfg, log, h, Say(Replied(h.copy, content), NotRun(CallIds(content))), hop + 1);
  }

  lemma StepModelOwed(log: seq<Notice>, cfg: Config, h: Holder, a: Action)
    requires OwedInv(log, h) && h.pc.Model? && (h.kind.Wake? ==> Undoable(h))
    ensures OwedInv(log, StepModel(cfg, h, a).holder.value)
  {
    if a.Reply? { ModelRepliesOwed(log, cfg, h, a.content, h.pc.hop); } else { TurnFailsOwed(log, h); }
  }

  lemma StepTurningOwed(cfg: Config, env: Env, h: Holder, a: Action)
    requires OwedInv(env.log, h) && Course(h) && Turning(h.pc)
    ensures var n := StepTurning(cfg, env, h, a).holder; n.Some? ==> OwedInv(env.log, n.value)
  {
    match h.pc
    case Init(_, _, _) => StepInitOwed(cfg, env, h, a);
    case Model(_) => StepModelOwed(env.log, cfg, h, a);
    case Tools(_, _) => StepToolsOwed(cfg, env, h, a);
    case Context => TurnFailsOwed(env.log, h);
  }

  lemma StepSaveOwed(cfg: Config, env: Env, h: Holder, a: Action)
    requires OwedInv(env.log, h) && (h.pc.SaveClick? || h.pc.SaveWake? || h.pc.SaveInit?)
    requires h.kind.Wake? ==> h.pc.SaveWake? && Undoable(h)
    requires h.pc.SaveClick? ==> UndoClick(h.copy, h.before) == h.prior
    ensures var n := StepSaving(cfg, env, h, a).holder; n.Some? ==> OwedInv(env.log, n.value)
  {
    if a.Go? { AtHopOwed(cfg, env.log, h, h.copy.(status := Streaming), 0); }
    else if h.pc.SaveWake? { TurnFailsOwed(env.log, h); }
  }

  lemma ReviseOutsideKept(log: seq<Notice>, c: Conversation, was: Handle, next: Handle, n: Notice)
    requires Kept(log, c) && c.announcing.None? && next !in c.handles
    requires n.handle == Some(next) && n.revises == Some(was) && n.model.Some?
    ensures Kept(log, ReviseOutside(c, was, next, n))
  {}

  lemma StepRevisedOwed(cfg: Config, env: Env, h: Holder, a: Action)
    requires OwedInv(env.log, h) && h.pc.Revised? && h.pc.next !in h.copy.handles
    ensures OwedInv(env.log, StepRevised(cfg, env, h, a).holder.value)
  {
    PlainOwed(env.log, h.(pc := Release));
    var n := RevisionNotice(h, h.pc.was, h.pc.next);
    ReviseOutsideKept(env.log, h.copy, h.pc.was, h.pc.next, n);
    PlainOwed(env.log, h.(copy := ReviseOutside(h.copy, h.pc.was, h.pc.next, n), pc := SaveRevision));
  }

  lemma StepAppendRevisionOwed(log: seq<Notice>, h: Holder, a: Action)
    requires OwedInv(log, h) && h.pc.AppendRevision?
    ensures var o := StepAppendRevision(h, a); OwedInv(Appended(log, o.effect), o.holder.value)
  {
    if h.copy.announcing.Some? { OwedAppend(log, h.copy.announcing.value, h.(pc := Release)); }
  }

  lemma StepRevisionOwed(cfg: Config, env: Env, h: Holder, a: Action)
    requires OwedInv(env.log, h) && (h.pc.PutRevision? || h.pc.SaveRevision? || h.pc.Release?)
    ensures var o := StepSaving(cfg, env, h, a);
            !o.effect.Logged? && (o.holder.Some? ==> OwedInv(env.log, o.holder.value))
  {
    PlainOwed(env.log, h.(pc := Release));
  }

  lemma StepOpeningOwed(cfg: Config, env: Env, h: Holder, a: Action)
    requires OwedInv(env.log, h) && Started(h.copy) && Opening(h.pc) && cfg.sendsNotices
             && (h.kind.Start? ==> h.copy.messages == [])
    requires h.copy.noticedThrough <= |env.log| && (h.pc.Announce? ==> Unmistakable(env.log, h.copy))
    ensures var o := StepOpening(cfg, env, h, a);
            o.holder.Some? ==> OwedInv(Appended(env.log, o.effect), o.holder.value)
  {
    match h.pc
    case Announce => StepAnnounceOwed(env, h, a);
    case AppendOwed => StepAppendOwedOwed(env.log, h, a);
    case Read => StepReadOwed(cfg, env, h, a);
    case _ => StepGateOwed(cfg, env, h, a);
  }

  lemma TurningLogsNone(cfg: Config, env: Env, h: Holder, a: Action)
    requires Turning(h.pc)
    ensures !StepTurning(cfg, env, h, a).effect.Logged?
  {
    if a.Tool? {
      if h.pc.Init? { ToolStepFenced(cfg, env, h.token, h.copy, h.pc.turn, a.ev); }
      if h.pc.Tools? { ToolStepFenced(cfg, env, h.token, h.copy, h.pc.turn, a.ev); }
    }
  }

  lemma StepSavingOwed(cfg: Config, env: Env, h: Holder, a: Action)
    requires OwedInv(env.log, h) && Course(h) && !Opening(h.pc) && !Turning(h.pc)
    requires h.pc.Revised? ==> h.pc.next !in h.copy.handles
    ensures var o := StepSaving(cfg, env, h, a); o.holder.Some? ==> OwedInv(Appended(env.log, o.effect), o.holder.value)
  {
    match h.pc
    case Revised(_, _, _) => StepRevisedOwed(cfg, env, h, a);
    case AppendRevision => StepAppendRevisionOwed(env.log, h, a);
    case PutRevision(_, _) => StepRevisionOwed(cfg, env, h, a);
    case SaveRevision => StepRevisionOwed(cfg, env, h, a);
    case Release =>
    case _ => StepSaveOwed(cfg, env, h, a);
  }

  lemma StepOwed(cfg: Config, env: Env, h: Holder, a: Action)
    requires OwedInv(env.log, h) && Course(h) && SurfaceInv(env.nextHandle, h) && cfg.sendsNotices
    requires h.copy.noticedThrough <= |env.log| && (h.pc.Announce? ==> Unmistakable(env.log, h.copy))
    ensures var o := Step(cfg, env, h, a); o.holder.Some? ==> OwedInv(Appended(env.log, o.effect), o.holder.value)
  {
    if Opening(h.pc) {
      StepOpeningOwed(cfg, env, h, a);
    } else if Turning(h.pc) {
      StepTurningOwed(cfg, env, h, a);
      TurningLogsNone(cfg, env, h, a);
    } else {
      StepSavingOwed(cfg, env, h, a);
    }
  }

  // ── over whole runs ────────────────────────────────────────────────

  /** No update notice names a revision the stored row lacks. */
  ghost predicate NoStray(w: World) { forall n | n in w.log && n.revises.Some? :: n in w.row.outside }

  /** What a request loaded, the row still has. */
  ghost predicate Rooted(w: World) { forall t | t in w.holders :: w.holders[t].base.outside <= w.row.outside }

  ghost predicate OwedWorld(w: World) {
    Kept(w.log, w.row) && Everyone(w, h => OwedInv(w.log, h)) && NoStray(w) && Rooted(w)
  }

  /** Everything known of a world on the way. */
  ghost predicate Known(w: World) { Serial(w) && CourseWorld(w) && SurfaceWorld(w) && Through(w) }

  /** No request has taken in more notices than there are. */
  predicate Through(w: World) { forall t | t in w.holders :: w.holders[t].copy.noticedThrough <= |w.log| }

  lemma NoticedThrough(w: World)
    requires NoticeWorld(w)
    ensures Through(w)
  {
    forall t | t in w.holders ensures w.holders[t].copy.noticedThrough <= |w.log| {
      assert NoticeInv(w.log, w.holders[t]);
    }
  }

  lemma RunKnown(cfg: Config, es: seq<Event>)
    requires KeepsQuestions(cfg, es)
    ensures Known(Run(cfg, es))
  {
    RunSerial(cfg, es);
    RunCourse(cfg, es);
    RunSurface(cfg, es);
    RunNoticed(cfg, es);
    NoticedThrough(Run(cfg, es));
  }

  lemma HolderKnown(w: World, t: Token)
    requires Known(w) && t in w.holders
    ensures var h := w.holders[t];
            Course(h) && SurfaceInv(w.nextHandle, h) && h.copy.noticedThrough <= |w.log| && Grown(h.base, h.copy)
            && (t == w.token ==> h.base == w.row)
  {
    HolderGrown(w, t);
    assert Course(w.holders[t]) && SurfaceInv(w.nextHandle, w.holders[t]);
  }

  /** Whatever a request appends, it loaded as owed or has just saved. */
  lemma AppendsItsBase(cfg: Config, env: Env, h: Holder, a: Action)
    requires OwedInv(env.log, h) && SurfaceInv(env.nextHandle, h)
    ensures var e := Step(cfg, env, h, a).effect; e.Logged? ==> e.notice in h.base.outside
  {
    if Turning(h.pc) { TurningLogsNone(cfg, env, h, a); }
    else if !h.pc.AppendOwed? && !h.pc.AppendRevision? { OthersLogNone(cfg, env, h, a); }
  }

  lemma OthersLogNone(cfg: Config, env: Env, h: Holder, a: Action)
    requires !Turning(h.pc) && !h.pc.AppendOwed? && !h.pc.AppendRevision?
    ensures !Step(cfg, env, h, a).effect.Logged?
  {}

  lemma OwedIsUnmistakable(w: World, t: Token)
    requires Known(w) && OwedWorld(w) && t in w.holders && w.holders[t].pc.Announce?
    ensures Unmistakable(w.log, w.holders[t].copy)
  {
    var h := w.holders[t];
    HolderKnown(w, t);
    assert OwedInv(w.log, h);
    if h.copy.announcing.Some? {
      var owed := h.copy.announcing.value;
      assert owed in w.row.outside;
      forall n | n in w.log && Announces(n, owed) ensures n == owed { assert n in w.row.outside; }
    }
  }

  lemma EveryoneOwedAppend(w: World, n: Notice)
    requires OwedWorld(w)
    ensures Kept(w.log + [n], w.row) && Everyone(w, h => OwedInv(w.log + [n], h))
  {
    forall t | t in w.holders ensures OwedInv(w.log + [n], w.holders[t]) {
      assert OwedInv(w.log, w.holders[t]);
      OwedAppend(w.log, n, w.holders[t]);
    }
  }

  lemma ActedLog(cfg: Config, w: World, t: Token, a: Action)
    requires t in w.holders
    ensures Acted(cfg, w, t, a).log == Appended(w.log, Step(cfg, EnvOf(w, t), w.holders[t], a).effect)
  {}

  lemma ActedOwed(cfg: Config, w: World, t: Token, a: Action)
    requires Known(w) && OwedWorld(w) && t in w.holders && cfg.sendsNotices
    ensures var o := Step(cfg, EnvOf(w, t), w.holders[t], a);
            o.holder.Some? ==> OwedInv(Appended(w.log, o.effect), o.holder.value)
  {
    var h := w.holders[t];
    HolderKnown(w, t);
    HolderOwed(w, t);
    if h.pc.Announce? { OwedIsUnmistakable(w, t); }
    StepOwed(cfg, EnvOf(w, t), h, a);
  }

  lemma HolderOwed(w: World, t: Token)
    requires OwedWorld(w) && t in w.holders
    ensures OwedInv(w.log, w.holders[t]) && w.holders[t].base.outside <= w.row.outside
  {}

  lemma NextOwedHolders(cfg: Config, w: World, e: Event)
    requires Known(w) && OwedWorld(w) && cfg.sendsNotices
    ensures var w2 := Next(cfg, w, e); Everyone(w2, h => OwedInv(w2.log, h)) && Kept(w2.log, w.row)
  {
    var log := Next(cfg, w, e).log;
    OwedStill(cfg, w, e);
    if e.Act? && e.token in w.holders { SteppedOwed(cfg, w, e, log); }
    if e.Load? { NewOwed(cfg, w, log, e.kind); }
    NextEveryone(cfg, w, e, h => OwedInv(log, h));
  }

  lemma SteppedOwed(cfg: Config, w: World, e: Event, log: seq<Notice>)
    requires Known(w) && OwedWorld(w) && cfg.sendsNotices && e.Act? && e.token in w.holders
             && log == Next(cfg, w, e).log
    ensures var o := Step(cfg, EnvOf(w, e.token), w.holders[e.token], e.action).holder;
            o.Some? ==> OwedInv(log, o.value)
  {
    ActedOwed(cfg, w, e.token, e.action);
    ActedLog(cfg, w, e.token, e.action);
  }

  lemma NewOwed(cfg: Config, w: World, log: seq<Notice>, kind: Kind)
    requires Kept(log, w.row)
    ensures OwedInv(log, NewHolder(cfg, w, kind))
  {}

  lemma OwedStill(cfg: Config, w: World, e: Event)
    requires OwedWorld(w)
    ensures var log := Next(cfg, w, e).log; Kept(log, w.row) && Everyone(w, h => OwedInv(log, h))
  {
    LogGrows(cfg, w, e);
    if Next(cfg, w, e).log != w.log {
      var n :| Next(cfg, w, e).log == w.log + [n];
      EveryoneOwedAppend(w, n);
    }
  }

  lemma SavedRow(cfg: Config, w: World, e: Event)
    requires Known(w)
    ensures var w2 := Next(cfg, w, e);
            w2.row == w.row || (e.Act? && e.token == w.token && e.token in w.holders
              && w2.row == w.holders[e.token].copy && Grown(w.row, w2.row))
  {
    if e.Act? && e.token in w.holders {
      HolderKnown(w, e.token);
      ActedRow(cfg, w, e.token, e.action);
    }
  }

  lemma ActedRow(cfg: Config, w: World, t: Token, a: Action)
    requires t in w.holders && w.holders[t].token == t
    ensures Acted(cfg, w, t, a).row == w.row || (t == w.token && Acted(cfg, w, t, a).row == w.holders[t].copy)
  {
    StepFenced(cfg, EnvOf(w, t), w.holders[t], a);
  }

  lemma NextRooted(cfg: Config, w: World, e: Event)
    requires Known(w) && Rooted(w)
    ensures Rooted(Next(cfg, w, e))
  {
    SavedRow(cfg, w, e);
    var row := Next(cfg, w, e).row;
    if e.Act? && e.token in w.holders { SteppedRooted(cfg, w, e.token, e.action, row); }
    NextEveryone(cfg, w, e, (h: Holder) => h.base.outside <= row.outside);
  }

  lemma SteppedRooted(cfg: Config, w: World, t: Token, a: Action, row: Conversation)
    requires Rooted(w) && t in w.holders && w.row.outside <= row.outside && row == Acted(cfg, w, t, a).row
    ensures var o := Step(cfg, EnvOf(w, t), w.holders[t], a).holder; o.Some? ==> o.value.base.outside <= row.outside
  {
    StepFenced(cfg, EnvOf(w, t), w.holders[t], a);
  }

  lemma AppendedNoStray(w: World, e: Effect, base: seq<Notice>, row: seq<Notice>)
    requires NoStray(w) && w.row.outside <= row && base <= w.row.outside && (e.Logged? ==> e.notice in base)
    ensures forall n | n in Appended(w.log, e) && n.revises.Some? :: n in row
  {}

  lemma NextNoStray(cfg: Config, w: World, e: Event)
    requires Known(w) && OwedWorld(w)
    ensures NoStray(Next(cfg, w, e))
  {
    SavedRow(cfg, w, e);
    if e.Act? && e.token in w.holders {
      var h, env := w.holders[e.token], EnvOf(w, e.token);
      HolderKnown(w, e.token);
      HolderOwed(w, e.token);
      AppendsItsBase(cfg, env, h, e.action);
      AppendedNoStray(w, Step(cfg, env, h, e.action).effect, h.base.outside, Next(cfg, w, e).row.outside);
      ActedLog(cfg, w, e.token, e.action);
    }
  }

  lemma NextOwed(cfg: Config, w: World, e: Event)
    requires Known(w) && OwedWorld(w) && cfg.sendsNotices
    ensures OwedWorld(Next(cfg, w, e))
  {
    NextOwedHolders(cfg, w, e);
    NextRooted(cfg, w, e);
    NextNoStray(cfg, w, e);
    NextOwedRow(cfg, w, e);
  }

  lemma NextOwedRow(cfg: Config, w: World, e: Event)
    requires Known(w) && OwedWorld(w) && cfg.sendsNotices
    ensures Kept(Next(cfg, w, e).log, Next(cfg, w, e).row)
  {
    NextOwedHolders(cfg, w, e);
    SavedRow(cfg, w, e);
    LogGrows(cfg, w, e);
    if Next(cfg, w, e).row != w.row {
      assert OwedInv(w.log, w.holders[e.token]);
      if Next(cfg, w, e).log != w.log {
        var n :| Next(cfg, w, e).log == w.log + [n];
        OwedAppend(w.log, n, w.holders[e.token]);
      }
    }
  }

  lemma {:induction false} RunOwed(cfg: Config, es: seq<Event>)
    requires KeepsQuestions(cfg, es) && cfg.sendsNotices
    ensures OwedWorld(Run(cfg, es))
  {
    if es != [] {
      RunOwed(cfg, es[..|es| - 1]);
      RunKnown(cfg, es[..|es| - 1]);
      NextOwed(cfg, Run(cfg, es[..|es| - 1]), es[|es| - 1]);
    }
  }

  /**
   * In every stored state, each revision made outside a turn has its update notice in the log, or owed by the
   * row; and no update notice in the log names a revision the row lacks.
   */
  lemma {:induction false} RevisionsAndNoticesTogether(cfg: Config, es: seq<Event>)
    requires KeepsQuestions(cfg, es) && cfg.sendsNotices
    ensures var w := Run(cfg, es);
            && (forall r | r in w.row.outside :: r in w.log || w.row.announcing == Some(r))
            && (forall n | n in w.log && n.revises.Some? :: n in w.row.outside)
  {
    RunOwed(cfg, es);
  }

  lemma {:induction false} LoggedIsTaken(log: seq<Notice>, blocks: seq<Block>, through: nat, r: Notice)
    requires through <= |log| && Tells(blocks, log, 0, through) && r in log[..through] && r.model.Some?
    ensures exists b | b in blocks :: b.NoticeText? && Worded(b.text, r)
  {
    var i :| 0 <= i < through && log[i] == r;
    NumbersAre(log, 0, through, i);
    var k :| 0 <= k < |Numbers(log, 0, through)| && Numbers(log, 0, through)[k] == i + 1;
    assert blocks[k] in blocks;
  }

  /** No model call, by any request, runs without the text of every outside revision in its history. */
  lemma {:induction false} ModelHeardRevisions(cfg: Config, es: seq<Event>, t: Token, r: Notice)
    requires KeepsQuestions(cfg, es) && cfg.sendsNotices
    requires var w := Run(cfg, es); t in w.holders && w.holders[t].pc.Model? && r in w.holders[t].copy.outside
    ensures r.model.Some? && exists m, b | m in Run(cfg, es).holders[t].copy.messages && b in BlocksOf(m.content) ::
              m.role.User? && b.NoticeText? && b.text == "[UI update] " + r.model.value
  {
    var w := Run(cfg, es);
    RunOwed(cfg, es);
    RunNoticed(cfg, es);
    var c := w.holders[t].copy;
    assert OwedInv(w.log, w.holders[t]) && NoticeInv(w.log, w.holders[t]);
    LogBlocksTell(w.log, 0, c.noticedThrough);
    LoggedIsTaken(w.log, TakenIn(c.messages), c.noticedThrough, r);
    var b :| b in TakenIn(c.messages) && b.NoticeText? && Worded(b.text, r);
    TakenIsSaid(c.messages, b);
  }
}
