/** The notice of an outside revision is appended once, unless a request that has lost its lease appends it too. */
module Appending {
  import opened History
  import opened Conversations
  import opened Requests
  import opened Worlds
  import opened Turns
  import opened Fencing
  import opened Pairing
  import opened Surfaces
  import opened Identity
  import opened Sessions
  import opened Notices
  import opened Announcing

  predicate Appends(pc: Pc) { pc.AppendOwed? || pc.AppendRevision? }

  /** The notice is in the log, or the request that holds the conversation is about to append it. */
  predicate ToldElsewhere(w: World, n: Notice) {
    n in w.log || (w.token in w.holders && Owes(w.holders[w.token]) && w.holders[w.token].copy.announcing == Some(n))
  }

  /** Between a revision taking effect, or its notice being found missing, and the append. */
  predicate Owes(h: Holder) { Appends(h.pc) || h.pc.SaveRevision? }

  /**
   * A request that another has taken the conversation over from, between its save and its append, appends a notice
   * the taker has appended, or is about to.
   */
  predicate Clash(cfg: Config, w: World, e: Event) {
    e.Act? && e.token in w.holders && e.token != w.token &&
    var f := Step(cfg, EnvOf(w, e.token), w.holders[e.token], e.action).effect;
    f.Logged? && ToldElsewhere(w, f.notice)
  }

  ghost predicate NoClash(cfg: Config, es: seq<Event>) {
    es == [] || (NoClash(cfg, es[..|es| - 1]) && !Clash(cfg, Run(cfg, es[..|es| - 1]), es[|es| - 1]))
  }

  /** No update notice is in the log twice. */
  predicate Once(log: seq<Notice>) { forall i, j | 0 <= i < j < |log| && log[i].revises.Some? :: log[i] != log[j] }

  /** What is owed is not among the notices taken in. */
  predicate NotTaken(log: seq<Notice>, c: Conversation) {
    c.announcing.Some? ==> c.noticedThrough <= |log| && c.announcing.value !in log[..c.noticedThrough]
  }

  /** About to append, or to save what it will append: the notice is not in the log. */
  predicate NotLogged(log: seq<Notice>, h: Holder) {
    Owes(h) && h.copy.announcing.Some? ==> h.copy.announcing.value !in log
  }

  // ── steps ──────────────────────────────────────────────────────────

  /** Only an append logs anything, and what it logs is what is owed. */
  lemma OnlyAppendsLog(cfg: Config, env: Env, h: Holder, a: Action)
    ensures var e := Step(cfg, env, h, a).effect;
            e.Logged? ==> Appends(h.pc) && h.copy.announcing == Some(e.notice)
  {
    if Turning(h.pc) { TurningLogsNone(cfg, env, h, a); }
  }

  /** Nothing is owed after a step that owed nothing, but for a revision taking effect. */
  lemma StaysClear(cfg: Config, env: Env, h: Holder, a: Action)
    requires h.copy.announcing.None? && Clear(h.pc) && !h.pc.Revised?
    ensures var o := Step(cfg, env, h, a).holder; o.Some? ==> o.value.copy.announcing.None?
  {
    if Opening(h.pc) { OpeningClear(cfg, env, h, a); }
    else if Turning(h.pc) { TurningClear(cfg, env, h, a); }
    else { SavingClear(cfg, env, h, a); }
  }

  lemma OpeningClear(cfg: Config, env: Env, h: Holder, a: Action)
    requires h.copy.announcing.None? && (h.pc.Fresh? || h.pc.Gate? || h.pc.Read?)
    ensures var o := StepOpening(cfg, env, h, a).holder; o.Some? ==> o.value.copy.announcing.None?
  {
    if h.pc.Read? { ReadClear(cfg, env, h, a); }
  }

  lemma ReadClear(cfg: Config, env: Env, h: Holder, a: Action)
    requires h.copy.announcing.None? && h.pc.Read?
    ensures var o := StepRead(cfg, env, h, a).holder; o.Some? ==> o.value.copy.announcing.None?
  {}

  lemma SavingClear(cfg: Config, env: Env, h: Holder, a: Action)
    requires h.copy.announcing.None? && (h.pc.SaveClick? || h.pc.SaveWake? || h.pc.SaveInit? || h.pc.PutRevision?)
    ensures var o := StepSaving(cfg, env, h, a).holder; o.Some? ==> o.value.copy.announcing.None?
  {}

  lemma TurningClear(cfg: Config, env: Env, h: Holder, a: Action)
    requires Turning(h.pc) && h.copy.announcing.None?
    ensures var o := StepTurning(cfg, env, h, a).holder; o.Some? ==> o.value.copy.announcing.None?
  {
    match h.pc
    case Init(_, _, t) => if a.Tool? { ToolTouchesNone(cfg, env, h.token, h.copy, t, a.ev); }
    case Tools(_, t) => if a.Tool? { ToolTouchesNone(cfg, env, h.token, h.copy, t, a.ev); }
    case _ =>
  }

  /** The revision about to take effect has a notice the log cannot hold. */
  predicate NewRevision(log: seq<Notice>, h: Holder) {
    h.pc.Revised? ==> RevisionNotice(h, h.pc.was, h.pc.next) !in log
  }

  predicate Ready(log: seq<Notice>, h: Holder) {
    && NotTaken(log, h.copy) && NotLogged(log, h) && NewRevision(log, h) && h.copy.noticedThrough <= |log|
    && (Clear(h.pc) ==> h.copy.announcing.None?)
  }

  predicate Safe(log: seq<Notice>, h: Holder) { NotTaken(log, h.copy) && NotLogged(log, h) }

  lemma AnnounceSafe(env: Env, h: Holder, a: Action)
    requires Ready(env.log, h) && h.pc.Announce?
    ensures Safe(env.log, StepAnnounce(env, h, a).holder.value)
  {
    if StepAnnounce(env, h, a).holder.value.pc.AppendOwed? {
      NotThere(env.log, h.copy.noticedThrough, h.copy.announcing.value);
    }
  }

  lemma NotThere(log: seq<Notice>, through: nat, n: Notice)
    requires through <= |log| && n !in log[..through] && !exists i | through <= i < |log| :: Announces(log[i], n)
    ensures n !in log
  {
    forall i | 0 <= i < |log| ensures log[i] != n {
      if i < through { assert log[..through][i] == log[i]; } else { assert !Announces(log[i], n); }
    }
  }

  lemma RevisedSafe(cfg: Config, env: Env, h: Holder, a: Action)
    requires Ready(env.log, h) && h.pc.Revised?
    ensures var o := StepRevised(cfg, env, h, a); !o.effect.Logged? && o.holder.Some? && Safe(env.log, o.holder.value)
  {}

  lemma OtherSafe(cfg: Config, env: Env, h: Holder, a: Action)
    requires Ready(env.log, h) && (Appends(h.pc) || h.pc.SaveRevision? || h.pc.Release?)
    ensures var o := Step(cfg, env, h, a); o.holder.Some? ==> Safe(Appended(env.log, o.effect), o.holder.value)
  {}

  lemma StepSafe(cfg: Config, env: Env, h: Holder, a: Action)
    requires Ready(env.log, h)
    ensures var o := Step(cfg, env, h, a); o.holder.Some? ==> Safe(Appended(env.log, o.effect), o.holder.value)
  {
    if h.pc.Announce? { AnnounceSafe(env, h, a); }
    else if h.pc.Revised? { RevisedSafe(cfg, env, h, a); }
    else if Clear(h.pc) { StaysClear(cfg, env, h, a); OnlyAppendsLog(cfg, env, h, a); }
    else { OtherSafe(cfg, env, h, a); }
  }

  // ── over whole runs ────────────────────────────────────────────────

  /** The request that holds the conversation appends nothing the log has. */
  ghost predicate OnceWorld(w: World) {
    Once(w.log) && NotTaken(w.log, w.row) && (w.token in w.holders ==> Safe(w.log, w.holders[w.token]))
  }

  /** Every update notice in the log is of a revision the holder's copy has, and its own next handle is of none. */
  lemma HolderReady(w: World)
    requires Known(w) && OwedWorld(w) && OnceWorld(w) && w.token in w.holders
    ensures Ready(w.log, w.holders[w.token])
  {
    var h := w.holders[w.token];
    HolderKnown(w, w.token);
    HolderOwed(w, w.token);
    if h.pc.Revised? { RevisionIsNew(w, h); }
  }

  lemma RevisionIsNew(w: World, h: Holder)
    requires NoStray(w) && h.pc.Revised? && w.row.outside <= h.copy.outside && Named(h.copy)
             && h.pc.next !in h.copy.handles
    ensures NewRevision(w.log, h)
  {
    assert forall n | n in w.log && n.revises.Some? :: n.handle.Some? && n.handle.value in h.copy.handles;
  }

  lemma SafeAppend(log: seq<Notice>, n: Notice, c: Conversation)
    requires NotTaken(log, c)
    ensures NotTaken(log + [n], c)
  {
    if c.announcing.Some? { assert (log + [n])[..c.noticedThrough] == log[..c.noticedThrough]; }
  }

  lemma LogOnce(log: seq<Notice>, h: Holder, e: Effect)
    requires Once(log) && NotLogged(log, h) && (e.Logged? ==> Appends(h.pc) && h.copy.announcing == Some(e.notice))
    ensures Once(Appended(log, e))
  {}

  lemma RowNotTaken(w: World, h: Holder, e: Effect)
    requires NotTaken(w.log, w.row) && NotTaken(w.log, h.copy) && (e.Saved? ==> e.conv == h.copy)
    ensures NotTaken(Appended(w.log, e), Effected(w, h, e).row)
  {
    if e.Logged? { SafeAppend(w.log, e.notice, w.row); }
  }

  lemma HoldsOnce(cfg: Config, w: World, a: Action)
    requires Known(w) && OwedWorld(w) && OnceWorld(w) && w.token in w.holders
    ensures OnceWorld(Acted(cfg, w, w.token, a))
  {
    HolderReady(w);
    ReadyOnce(cfg, w, a);
  }

  lemma ReadyOnce(cfg: Config, w: World, a: Action)
    requires OnceWorld(w) && w.token in w.holders && Ready(w.log, w.holders[w.token])
    ensures OnceWorld(Acted(cfg, w, w.token, a))
  {
    var h, env := w.holders[w.token], EnvOf(w, w.token);
    OnlyAppendsLog(cfg, env, h, a);
    StepSafe(cfg, env, h, a);
    StepFenced(cfg, env, h, a);
    ActedLog(cfg, w, w.token, a);
    LogOnce(w.log, h, Step(cfg, env, h, a).effect);
    RowNotTaken(w, h, Step(cfg, env, h, a).effect);
  }

  /** Another request's step changes nothing here but for what it appends. */
  lemma OthersStep(cfg: Config, w: World, t: Token, a: Action)
    requires Known(w) && t in w.holders && t != w.token
    ensures var v := Acted(cfg, w, t, a);
            && v.row == w.row && v.token == w.token && (w.token in v.holders <==> w.token in w.holders)
            && (w.token in w.holders ==> v.holders[w.token] == w.holders[w.token])
            && v.log == Appended(w.log, Step(cfg, EnvOf(w, t), w.holders[t], a).effect)
  {
    StepFenced(cfg, EnvOf(w, t), w.holders[t], a);
  }

  lemma OthersOnce(cfg: Config, w: World, t: Token, a: Action)
    requires Known(w) && OwedWorld(w) && OnceWorld(w) && t in w.holders && t != w.token
    ensures OnceWorld(Acted(cfg, w, t, a)) <==> !Clash(cfg, w, Act(t, a))
  {
    var f := Step(cfg, EnvOf(w, t), w.holders[t], a).effect;
    OthersStep(cfg, w, t, a);
    if f.Logged? {
      HolderKnown(w, t);
      HolderOwed(w, t);
      AppendsItsBase(cfg, EnvOf(w, t), w.holders[t], a);
      assert f.notice.revises.Some?;
      AppendIff(w, f.notice);
    }
  }

  lemma AppendIff(w: World, n: Notice)
    requires OnceWorld(w) && n.revises.Some?
    requires w.token in w.holders ==> w.holders[w.token].copy.noticedThrough <= |w.log|
    ensures OnceWorld(w.(log := w.log + [n])) <==> !ToldElsewhere(w, n)
  {
    SafeAppend(w.log, n, w.row);
    if w.token in w.holders { SafeAppend(w.log, n, w.holders[w.token].copy); }
    if n in w.log {
      var i :| 0 <= i < |w.log| && w.log[i] == n;
      assert (w.log + [n])[i] == (w.log + [n])[|w.log|];
    }
  }

  lemma NotifiedOnce(cfg: Config, w: World, e: Event)
    requires Known(w) && OwedWorld(w) && OnceWorld(w) && e.Notify?
    ensures OnceWorld(Next(cfg, w, e))
  {
    var n := Notice(e.name, e.model, e.wake, e.beside, None);
    SafeAppend(w.log, n, w.row);
    if w.token in w.holders {
      var h := w.holders[w.token];
      HolderOwed(w, w.token);
      SafeAppend(w.log, n, h.copy);
    }
  }

  /**
   * A step leaves a notice told twice, or about to be, exactly when an overtaken request appends what the taker tells.
   */
  lemma {:induction false} NextOnceIff(cfg: Config, w: World, e: Event)
    requires Known(w) && OwedWorld(w) && OnceWorld(w)
    ensures OnceWorld(Next(cfg, w, e)) <==> !Clash(cfg, w, e)
  {
    match e
    case Act(t, a) => ActOnceIff(cfg, w, t, a);
    case Notify(name, model, wake, beside) => NotifiedOnce(cfg, w, e);
    case _ => RestOnce(cfg, w, e);
  }

  lemma ActOnceIff(cfg: Config, w: World, t: Token, a: Action)
    requires Known(w) && OwedWorld(w) && OnceWorld(w)
    ensures OnceWorld(Next(cfg, w, Act(t, a))) <==> !Clash(cfg, w, Act(t, a))
  {
    ActIs(cfg, w, t, a);
    if t !in w.holders {
    } else if t == w.token {
      HoldsOnce(cfg, w, a);
    } else {
      OthersOnce(cfg, w, t, a);
    }
  }

  lemma ActIs(cfg: Config, w: World, t: Token, a: Action)
    ensures Next(cfg, w, Act(t, a)) == if t in w.holders then Acted(cfg, w, t, a) else w
    ensures t !in w.holders || t == w.token ==> !Clash(cfg, w, Act(t, a))
  {}

  lemma RestOnce(cfg: Config, w: World, e: Event)
    requires OnceWorld(w) && !e.Notify? && (e.Act? ==> e.token !in w.holders)
    ensures OnceWorld(Next(cfg, w, e))
  {}

  lemma {:induction false} RunOnce(cfg: Config, es: seq<Event>)
    requires KeepsQuestions(cfg, es) && NoClash(cfg, es) && cfg.sendsNotices
    ensures OnceWorld(Run(cfg, es))
  {
    if es != [] {
      RunOnce(cfg, es[..|es| - 1]);
      RunKnown(cfg, es[..|es| - 1]);
      RunOwed(cfg, es[..|es| - 1]);
      NextOnceIff(cfg, Run(cfg, es[..|es| - 1]), es[|es| - 1]);
    }
  }

  /**
   * The notice of each outside revision is appended once, whatever fails and whoever owes it, unless a request
   * overtaken between its save and its append appends it beside the taker (Findings.ToldTwice is such a run).
   */
  lemma {:induction false} AppendedOnce(cfg: Config, es: seq<Event>)
    requires KeepsQuestions(cfg, es) && NoClash(cfg, es) && cfg.sendsNotices
    ensures var log := Run(cfg, es).log;
            forall i, j | 0 <= i < j < |log| && log[i].revises.Some? && log[j].revises.Some? ::
              log[i].handle != log[j].handle
  {
    var w := Run(cfg, es);
    RunOnce(cfg, es);
    RunOwed(cfg, es);
    forall i, j | 0 <= i < j < |w.log| && w.log[i].revises.Some? && w.log[j].revises.Some?
      ensures w.log[i].handle != w.log[j].handle {
      assert w.log[i] in w.row.outside && w.log[j] in w.row.outside;
    }
  }
}
