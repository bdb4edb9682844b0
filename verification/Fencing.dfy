/** Fencing: turns are serializable, whatever the interleaving. */
module Fencing {
  import opened History
  import opened Conversations
  import opened Requests
  import opened Worlds

  predicate Saving(pc: Pc) { pc.SaveClick? || pc.SaveWake? || pc.SaveInit? || pc.SaveRevision? || pc.Release? }

  /** What a step may do to the world, and what of the request it keeps. */
  ghost predicate Fenced(env: Env, h: Holder, o: Out) {
    && (o.effect.Saved? ==> env.live && o.effect.conv == h.copy && Saving(h.pc))
    && (o.effect.Stored? ==> env.live && o.effect.payload.token == h.token)
    && (o.holder.Some? ==>
          && o.holder.value.token == h.token
          && o.holder.value.kind == h.kind
          && o.holder.value.leaseUntil == h.leaseUntil
          && o.holder.value.base == if o.effect.Saved? then h.copy else h.base)
  }

  lemma ToolStepFenced(cfg: Config, env: Env, token: Token, c: Conversation, t: Turn, ev: ToolEvent)
    ensures var e := ToolStep(cfg, env, token, c, t, ev).effect;
            e.Nothing? || (e.Stored? && env.live && e.payload.token == token)
  {}

  lemma StepInitFenced(cfg: Config, env: Env, h: Holder, a: Action)
    requires h.pc.Init?
    ensures Fenced(env, h, StepInit(cfg, env, h, a))
  {
    if a.Tool? { ToolStepFenced(cfg, env, h.token, h.copy, h.pc.turn, a.ev); }
  }

  lemma StepToolsFenced(cfg: Config, env: Env, h: Holder, a: Action)
    requires h.pc.Tools?
    ensures Fenced(env, h, StepTools(cfg, env, h, a))
  {
    if a.Tool? { ToolStepFenced(cfg, env, h.token, h.copy, h.pc.turn, a.ev); }
  }

  lemma StepReadFenced(cfg: Config, env: Env, h: Holder, a: Action)
    ensures Fenced(env, h, StepRead(cfg, env, h, a))
  {}

  lemma StepOpeningFenced(cfg: Config, env: Env, h: Holder, a: Action)
    requires Opening(h.pc)
    ensures Fenced(env, h, StepOpening(cfg, env, h, a))
  {
    if h.pc.Read? { StepReadFenced(cfg, env, h, a); }
  }

  lemma StepTurningFenced(cfg: Config, env: Env, h: Holder, a: Action)
    requires Turning(h.pc)
    ensures Fenced(env, h, StepTurning(cfg, env, h, a))
  {
    if h.pc.Init? { StepInitFenced(cfg, env, h, a); }
    if h.pc.Tools? { StepToolsFenced(cfg, env, h, a); }
  }

  lemma StepSavingFenced(cfg: Config, env: Env, h: Holder, a: Action)
    requires !Opening(h.pc) && !Turning(h.pc)
    ensures Fenced(env, h, StepSaving(cfg, env, h, a))
  {}

  lemma StepFenced(cfg: Config, env: Env, h: Holder, a: Action)
    ensures Fenced(env, h, Step(cfg, env, h, a))
  {
    if Opening(h.pc) { StepOpeningFenced(cfg, env, h, a); }
    else if Turning(h.pc) { StepTurningFenced(cfg, env, h, a); }
    else { StepSavingFenced(cfg, env, h, a); }
  }

  /**
   * Every request holds a token of its own, none newer than the row's; the one whose token is current last loaded or
   * saved the row as it stands.
   */
  ghost predicate Serial(w: World) {
    && (forall t | t in w.holders :: w.holders[t].token == t <= w.token)
    && (w.token in w.holders ==> w.holders[w.token].base == w.row)
  }

  lemma NextSerial(cfg: Config, w: World, e: Event)
    requires Serial(w)
    ensures Serial(Next(cfg, w, e))
  {
    if e.Act? && e.token in w.holders {
      StepFenced(cfg, EnvOf(w, e.token), w.holders[e.token], e.action);
    }
  }

  lemma {:induction false} RunSerial(cfg: Config, es: seq<Event>)
    ensures Serial(Run(cfg, es))
  {
    if es != [] {
      RunSerial(cfg, es[..|es| - 1]);
      NextSerial(cfg, Run(cfg, es[..|es| - 1]), es[|es| - 1]);
    }
  }

  /**
   * Turns are serializable: in every run, whatever changes the row is a save by the request whose token is
   * current, and the row it replaces is exactly the one that request loaded or last saved. A superseded
   * request changes neither row, lease nor payloads.
   */
  lemma {:induction false} SavesExtendTheirBase(cfg: Config, es: seq<Event>, e: Event)
    ensures var w, w2 := Run(cfg, es), Run(cfg, es + [e]);
            && (w2.row != w.row ==>
                  && e.Act? && e.token == w.token && e.token in w.holders
                  && w.holders[e.token].base == w.row && w2.row == w.holders[e.token].copy)
            && (e.Act? && e.token != w.token ==>
               w2.row == w.row && w2.leaseUntil == w.leaseUntil && w2.payloads == w.payloads)
  {
    RunSerial(cfg, es);
    assert (es + [e])[..|es|] == es;
    var w := Run(cfg, es);
    if e.Act? && e.token in w.holders { StepFenced(cfg, EnvOf(w, e.token), w.holders[e.token], e.action); }
  }
}
