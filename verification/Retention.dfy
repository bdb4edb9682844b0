/** A sweep deletes no payload the stored history references, or that any later save will. */
module Retention {
  import opened History
  import opened Conversations
  import opened Requests
  import opened Worlds
  import opened Fencing

  /** A payload the request wrote itself. */
  predicate Own(payloads: map<Handle, Payload>, token: Token, s: Handle) { s in payloads && payloads[s].token == token }

  /** Stored, and either of the conversation loaded or written by this request. */
  ghost predicate Held(payloads: map<Handle, Payload>, base: Conversation, token: Token, c: Conversation) {
    forall s | s in c.handles :: s in payloads && (s in base.handles || payloads[s].token == token)
  }

  ghost predicate OpsOwn(payloads: map<Handle, Payload>, token: Token, t: Turn) {
    forall o | o in t.ops && t.ops[o].stored.Some? :: Own(payloads, token, t.ops[o].stored.value)
  }

  ghost predicate InFlight(payloads: map<Handle, Payload>, h: Holder) {
    match h.pc
    case Init(_, _, t) => OpsOwn(payloads, h.token, t)
    case Tools(_, t) => OpsOwn(payloads, h.token, t)
    case Revised(_, _, next) => Own(payloads, h.token, next)
    case _ => true
  }

  ghost predicate HeldInv(payloads: map<Handle, Payload>, h: Holder) {
    Held(payloads, h.base, h.token, h.copy) && InFlight(payloads, h)
  }

  lemma ToolStepHeld(cfg: Config, env: Env, token: Token, base: Conversation, c: Conversation, t: Turn, ev: ToolEvent)
    requires Held(env.payloads, base, token, c) && OpsOwn(env.payloads, token, t)
    ensures var o := ToolStep(cfg, env, token, c, t, ev);
            Held(StoredIn(env, o.effect), base, token, o.conv) && OpsOwn(StoredIn(env, o.effect), token, o.turn)
  {}

  /** A step that shows nothing new and has nothing in flight. */
  predicate Shrinks(h: Holder, n: Holder) {
    && n.copy.handles <= h.copy.handles
    && n.token == h.token
    && (n.base == h.base || n.base == h.copy)
    && !n.pc.Tools? && !n.pc.Revised?
    && (n.pc.Init? ==> n.pc.turn.ops == map[])
  }

  lemma ShrinksHeld(payloads: map<Handle, Payload>, h: Holder, n: Holder)
    requires HeldInv(payloads, h) && Shrinks(h, n)
    ensures HeldInv(payloads, n)
  {}

  lemma ToolsAfterHeld(cfg: Config, payloads: map<Handle, Payload>, h: Holder, o: TurnOut)
    requires h.pc.Tools? && Held(payloads, h.base, h.token, o.conv) && OpsOwn(payloads, h.token, o.turn)
    ensures var n := ToolsAfter(cfg, h, h.pc.hop, o).holder; n.Some? ==> HeldInv(payloads, n.value)
  {}

  lemma InitAfterHeld(payloads: map<Handle, Payload>, h: Holder, o: TurnOut)
    requires h.pc.Init? && Held(payloads, h.base, h.token, o.conv) && OpsOwn(payloads, h.token, o.turn)
    ensures var n := InitAfter(h, h.pc.content, h.pc.through, o).holder; n.Some? ==> HeldInv(payloads, n.value)
  {}

  lemma StepToolsHeld(cfg: Config, env: Env, h: Holder, a: Action)
    requires HeldInv(env.payloads, h) && h.pc.Tools?
    ensures var o := StepTools(cfg, env, h, a); o.holder.Some? ==> HeldInv(StoredIn(env, o.effect), o.holder.value)
  {
    if a.Tool? {
      var o := ToolStep(cfg, env, h.token, h.copy, h.pc.turn, a.ev);
      ToolStepHeld(cfg, env, h.token, h.base, h.copy, h.pc.turn, a.ev);
      ToolsAfterHeld(cfg, StoredIn(env, o.effect), h, o);
    }
  }

  lemma StepInitHeld(cfg: Config, env: Env, h: Holder, a: Action)
    requires HeldInv(env.payloads, h) && h.pc.Init?
    ensures var o := StepInit(cfg, env, h, a); o.holder.Some? ==> HeldInv(StoredIn(env, o.effect), o.holder.value)
  {
    if a.Tool? {
      var o := ToolStep(cfg, env, h.token, h.copy, h.pc.turn, a.ev);
      ToolStepHeld(cfg, env, h.token, h.base, h.copy, h.pc.turn, a.ev);
      InitAfterHeld(StoredIn(env, o.effect), h, o);
    }
  }

  lemma ModelShrinks(cfg: Config, h: Holder, a: Action)
    requires h.pc.Model? || h.pc.Context?
    ensures h.pc.Context? ==> Shrinks(h, StepContext(h, a).holder.value)
    ensures h.pc.Model? ==> var n := StepModel(cfg, h, a).holder.value;
              Shrinks(h, n) || (n.pc.Tools? && n.pc.turn.ops == map[] && Shrinks(h, n.(pc := Context)))
  {}

  lemma StepTurningHeld(cfg: Config, env: Env, h: Holder, a: Action)
    requires HeldInv(env.payloads, h) && Turning(h.pc)
    ensures var o := StepTurning(cfg, env, h, a); o.holder.Some? ==> HeldInv(StoredIn(env, o.effect), o.holder.value)
  {
    if h.pc.Init? {
      StepInitHeld(cfg, env, h, a);
    } else if h.pc.Tools? {
      StepToolsHeld(cfg, env, h, a);
    } else {
      var n := StepTurning(cfg, env, h, a).holder.value;
      ModelShrinks(cfg, h, a);
      ShrinksHeld(env.payloads, h, if n.pc.Tools? then n.(pc := Context) else n);
    }
  }

  lemma StepReadShrinks(cfg: Config, env: Env, h: Holder, a: Action)
    requires h.pc.Read?
    ensures var o := StepRead(cfg, env, h, a); !o.effect.Stored? && o.holder.Some? && Shrinks(h, o.holder.value)
  {
    if a.Go? && h.kind.Chat? { ReadChatShrinks(cfg, env, h); }
  }

  lemma ReadChatShrinks(cfg: Config, env: Env, h: Holder)
    requires h.pc.Read? && h.kind.Chat?
    ensures var o := StepRead(cfg, env, h, Go); !o.effect.Stored? && o.holder.Some? && Shrinks(h, o.holder.value)
  {}

  lemma StepOpeningHeld(cfg: Config, env: Env, h: Holder, a: Action)
    requires HeldInv(env.payloads, h) && Opening(h.pc)
    ensures var o := StepOpening(cfg, env, h, a);
            !o.effect.Stored? && (o.holder.Some? ==> HeldInv(env.payloads, o.holder.value))
  {
    if h.pc.Read? {
      StepReadShrinks(cfg, env, h, a);
      ShrinksHeld(env.payloads, h, StepRead(cfg, env, h, a).holder.value);
    }
  }

  lemma SaveShrinks(cfg: Config, env: Env, h: Holder, a: Action)
    requires h.pc.SaveClick? || h.pc.SaveWake? || h.pc.SaveInit? || h.pc.SaveRevision? || h.pc.AppendRevision?
             || h.pc.Release?
    ensures var o := StepSaving(cfg, env, h, a); !o.effect.Stored? && (o.holder.Some? ==> Shrinks(h, o.holder.value))
  {}

  lemma StepRevisingHeld(cfg: Config, env: Env, h: Holder, a: Action)
    requires HeldInv(env.payloads, h) && (h.pc.PutRevision? || h.pc.Revised?)
    ensures var o := StepSaving(cfg, env, h, a); o.holder.Some? ==> HeldInv(StoredIn(env, o.effect), o.holder.value)
  {}

  lemma StepSavingHeld(cfg: Config, env: Env, h: Holder, a: Action)
    requires HeldInv(env.payloads, h) && !Opening(h.pc) && !Turning(h.pc)
    ensures var o := StepSaving(cfg, env, h, a); o.holder.Some? ==> HeldInv(StoredIn(env, o.effect), o.holder.value)
  {
    if h.pc.PutRevision? || h.pc.Revised? {
      StepRevisingHeld(cfg, env, h, a);
    } else {
      SaveShrinks(cfg, env, h, a);
      var o := StepSaving(cfg, env, h, a);
      if o.holder.Some? { ShrinksHeld(env.payloads, h, o.holder.value); }
    }
  }

  lemma StepHeld(cfg: Config, env: Env, h: Holder, a: Action)
    requires HeldInv(env.payloads, h)
    ensures var o := Step(cfg, env, h, a); o.holder.Some? ==> HeldInv(StoredIn(env, o.effect), o.holder.value)
  {
    if Opening(h.pc) { StepOpeningHeld(cfg, env, h, a); }
    else if Turning(h.pc) { StepTurningHeld(cfg, env, h, a); }
    else { StepSavingHeld(cfg, env, h, a); }
  }

  // ── over whole runs ────────────────────────────────────────────────

  ghost predicate HeldWorld(w: World) {
    && (forall s | s in w.row.handles :: s in w.payloads)
    && (forall s | s in w.payloads :: s < w.nextHandle && w.payloads[s].token <= w.token)
    && (w.token in w.holders ==> HeldInv(w.payloads, w.holders[w.token]))
  }

  lemma SweepHeld(w: World, olderThanMs: nat)
    requires HeldWorld(w) && Serial(w)
    ensures HeldWorld(w.(payloads := w.payloads - Orphans(w, olderThanMs)))
  {}

  lemma ActedHeld(cfg: Config, w: World, t: Token, a: Action)
    requires HeldWorld(w) && Serial(w) && t in w.holders
    ensures HeldWorld(Acted(cfg, w, t, a))
  {
    var env, h := EnvOf(w, t), w.holders[t];
    StepFenced(cfg, env, h, a);
    if t == w.token { StepHeld(cfg, env, h, a); }
    ActedLands(w, h, Step(cfg, env, h, a).effect);
  }

  lemma ActedLands(w: World, h: Holder, e: Effect)
    ensures Effected(w, h, e).payloads == (if e.Stored? then w.payloads[w.nextHandle := e.payload] else w.payloads)
  {}

  lemma NextHeld(cfg: Config, w: World, e: Event)
    requires HeldWorld(w) && Serial(w) && !e.Lose?
    ensures HeldWorld(Next(cfg, w, e))
  {
    match e
    case Sweep(ms) => SweepHeld(w, ms);
    case Act(t, a) => if t in w.holders { ActedHeld(cfg, w, t, a); }
    case _ =>
  }

  lemma {:induction false} RunHeld(cfg: Config, es: seq<Event>)
    requires forall e | e in es :: !e.Lose?
    ensures HeldWorld(Run(cfg, es))
  {
    if es != [] {
      RunHeld(cfg, es[..|es| - 1]);
      RunSerial(cfg, es[..|es| - 1]);
      NextHeld(cfg, Run(cfg, es[..|es| - 1]), es[|es| - 1]);
    }
  }

  /**
   * However sweeps interleave with the requests under way, and whatever grace they are given, every surface
   * of the stored history has its payload, and so has every surface the next save would store.
   */
  lemma {:induction false} SweepsAreSafe(cfg: Config, es: seq<Event>)
    requires forall e | e in es :: !e.Lose?
    ensures var w := Run(cfg, es);
            && (forall s | s in w.row.handles :: s in w.payloads)
            && (w.token in w.holders ==> forall s | s in w.holders[w.token].copy.handles :: s in w.payloads)
  {
    RunHeld(cfg, es);
  }

  /** Unreferenced, and its writer superseded. */
  predicate Orphan(w: World, s: Handle) {
    s < w.nextHandle && s !in w.row.handles && (s in w.payloads ==> w.payloads[s].token != w.token)
  }

  lemma NextOrphan(cfg: Config, w: World, e: Event, s: Handle)
    requires HeldWorld(w) && Serial(w) && Orphan(w, s)
    ensures Orphan(Next(cfg, w, e), s)
  {
    if e.Act? && e.token in w.holders { StepFenced(cfg, EnvOf(w, e.token), w.holders[e.token], e.action); }
  }

  /** What a sweep may delete, no later state of the row ever references. */
  lemma {:induction false} OrphansStayOrphans(cfg: Config, es: seq<Event>, more: seq<Event>, s: Handle)
    requires (forall e | e in es + more :: !e.Lose?) && Orphan(Run(cfg, es), s)
    ensures s !in Run(cfg, es + more).row.handles && Orphan(Run(cfg, es + more), s)
  {
    if more == [] {
      assert es + more == es;
    } else {
      var so := es + more[..|more| - 1];
      assert (es + more)[..|es + more| - 1] == so;
      OrphansStayOrphans(cfg, es, more[..|more| - 1], s);
      RunHeld(cfg, so);
      RunSerial(cfg, so);
      NextOrphan(cfg, Run(cfg, so), more[|more| - 1], s);
    }
  }
}
