/** How often a request calls the model, and that the question it found is retired before it does. */
module Limits {
  import opened History
  import opened Conversations
  import opened Requests
  import opened Worlds
  import opened Fencing
  import opened Pairing
  import opened Saying

  // ── calls of the model ─────────────────────────────────────────────

  /** The event is a reply of the model to request `t`. */
  predicate RepliesTo(w: World, e: Event, t: Token) {
    e.Act? && e.token == t && t in w.holders && w.holders[t].pc.Model? && e.action.Reply?
  }

  /** How often the model has replied to it. */
  function ReplyCount(cfg: Config, es: seq<Event>, t: Token): nat {
    if es == [] then 0
    else
      var before := es[..|es| - 1];
      ReplyCount(cfg, before, t) + if RepliesTo(Run(cfg, before), es[|es| - 1], t) then 1 else 0
  }

  /**
   * A request's place in its turn is how often the model has replied to it, and it has not yet been asked too often.
   */
  predicate CountInv(cfg: Config, pc: Pc, n: nat) {
    match pc
    case Model(hop) => n == hop && hop < cfg.maxHops
    case Tools(hop, _) => n == hop + 1 && hop < cfg.maxHops
    case _ => n <= cfg.maxHops
  }

  /** It has not begun its turn. */
  predicate Unasked(pc: Pc) { Opening(pc) || pc.SaveClick? || pc.SaveWake? || pc.Init? || pc.SaveInit? }

  predicate Counted(cfg: Config, pc: Pc, n: nat) { CountInv(cfg, pc, n) && (Unasked(pc) ==> n == 0) }

  lemma AtHopCounted(cfg: Config, h: Holder, c: Conversation, hop: nat)
    requires hop <= cfg.maxHops
    ensures Counted(cfg, AtHop(cfg, h, c, hop).pc, hop)
  {}

  lemma ReadCounted(cfg: Config, env: Env, h: Holder, a: Action)
    requires h.pc.Read?
    ensures var n := StepRead(cfg, env, h, a).holder; n.Some? ==> Counted(cfg, n.value.pc, 0)
  {
    if a.Go? && h.kind.Chat? {
      var taken := Take(CloseOut(h.copy, h.kind.text), UnreadNotices(cfg, h.copy, env.log), h.kind.text);
      AtHopCounted(cfg, h.(copy := taken), taken.(status := Streaming), 0);
    }
  }

  lemma OpeningCounted(cfg: Config, env: Env, h: Holder, a: Action)
    requires Opening(h.pc) && !h.pc.Read?
    ensures var n := StepOpening(cfg, env, h, a).holder; n.Some? ==> Counted(cfg, n.value.pc, 0)
  {}

  lemma ModelCounted(cfg: Config, h: Holder, a: Action)
    requires h.pc.Model? && h.pc.hop < cfg.maxHops
    ensures var n := StepModel(cfg, h, a).holder;
            n.Some? ==> Counted(cfg, n.value.pc, if a.Reply? then h.pc.hop + 1 else h.pc.hop)
  {
    if a.Reply? {
      var cut := Say(Replied(h.copy, a.content), NotRun(CallIds(a.content)));
      AtHopCounted(cfg, h, cut, h.pc.hop + 1);
    }
  }

  lemma ToolsCounted(cfg: Config, h: Holder, o: TurnOut)
    requires h.pc.Tools? && h.pc.hop < cfg.maxHops
    ensures var n := ToolsAfter(cfg, h, h.pc.hop, o).holder; n.Some? ==> Counted(cfg, n.value.pc, h.pc.hop + 1)
  {
    AtHopCounted(cfg, h.(copy := o.conv, toolsRan := h.toolsRan || o.turn.running), Say(o.conv, o.turn.results),
      h.pc.hop + 1);
  }

  lemma InitCounted(cfg: Config, env: Env, h: Holder, a: Action)
    requires h.pc.Init?
    ensures var n := StepInit(cfg, env, h, a).holder; n.Some? ==> Counted(cfg, n.value.pc, 0)
  {
    if a.Tool? {
      InitAfterCounted(cfg, h, h.pc.content, h.pc.through,
        ToolStep(cfg, env, h.token, h.copy, h.pc.turn, a.ev));
    }
  }

  lemma InitAfterCounted(cfg: Config, h: Holder, content: seq<Block>, through: nat, o: TurnOut)
    ensures var n := InitAfter(h, content, through, o).holder; n.Some? ==> Counted(cfg, n.value.pc, 0)
  {}

  lemma SavedCounted(cfg: Config, env: Env, h: Holder, a: Action)
    requires h.pc.SaveClick? || h.pc.SaveWake? || h.pc.SaveInit?
    ensures var n := StepSaving(cfg, env, h, a).holder; n.Some? ==> Counted(cfg, n.value.pc, 0)
  {
    AtHopCounted(cfg, h, h.copy.(status := Streaming), 0);
  }

  lemma RestCounted(cfg: Config, env: Env, h: Holder, a: Action, n: nat)
    requires Silent(h.pc) && n <= cfg.maxHops
    ensures var o := StepSaving(cfg, env, h, a).holder; o.Some? ==> Counted(cfg, o.value.pc, n)
  {
    if !h.pc.Release? { RevisingSilent(cfg, env, h, a); }
  }

  lemma StepCounted(cfg: Config, env: Env, h: Holder, a: Action, n: nat)
    requires Counted(cfg, h.pc, n)
    ensures var o := Step(cfg, env, h, a).holder;
            o.Some? ==> Counted(cfg, o.value.pc, n + if h.pc.Model? && a.Reply? then 1 else 0)
  {
    if h.pc.Read? { ReadCounted(cfg, env, h, a); }
    else if Opening(h.pc) { OpeningCounted(cfg, env, h, a); }
    else if h.pc.Model? { ModelCounted(cfg, h, a); }
    else if h.pc.Tools? {
      if a.Tool? { ToolsCounted(cfg, h, ToolStep(cfg, env, h.token, h.copy, h.pc.turn, a.ev)); }
    }
    else if h.pc.Init? { InitCounted(cfg, env, h, a); }
    else if h.pc.Context? { ContextSilent(h, a); }
    else if h.pc.SaveClick? || h.pc.SaveWake? || h.pc.SaveInit? { SavedCounted(cfg, env, h, a); }
    else { RestCounted(cfg, env, h, a, n); }
  }

  /** What a request not yet loaded has: no replies. */
  lemma {:induction false} NoneYet(cfg: Config, es: seq<Event>, t: Token)
    requires t > Run(cfg, es).token
    ensures ReplyCount(cfg, es, t) == 0
  {
    if es != [] {
      var before, e := es[..|es| - 1], es[|es| - 1];
      TokensRise(cfg, Run(cfg, before), e);
      NoneYet(cfg, before, t);
      RunSerial(cfg, before);
    }
  }

  lemma TokensRise(cfg: Config, w: World, e: Event)
    ensures w.token <= Next(cfg, w, e).token
  {}

  lemma LoadedNew(cfg: Config, w: World, e: Event, t: Token)
    requires t in Next(cfg, w, e).holders && !(e.Act? && e.token == t)
    ensures var n := Next(cfg, w, e).holders[t];
            (t in w.holders && n == w.holders[t]) || (t == w.token + 1 && (n.pc.Announce? || n.pc.Release?))
  {}

  lemma ActedOwn(cfg: Config, w: World, t: Token, a: Action)
    requires t in Next(cfg, w, Act(t, a)).holders
    ensures t in w.holders && Step(cfg, EnvOf(w, t), w.holders[t], a).holder == Some(Next(cfg, w, Act(t, a)).holders[t])
  {}

  lemma {:induction false} RunCounted(cfg: Config, es: seq<Event>, t: Token)
    requires t in Run(cfg, es).holders
    ensures Counted(cfg, Run(cfg, es).holders[t].pc, ReplyCount(cfg, es, t))
  {
    if es != [] {
      var before, e := es[..|es| - 1], es[|es| - 1];
      var w := Run(cfg, before);
      if e.Act? && e.token == t {
        ActedOwn(cfg, w, t, e.action);
        RunCounted(cfg, before, t);
        StepCounted(cfg, EnvOf(w, t), w.holders[t], e.action, ReplyCount(cfg, before, t));
      } else {
        LoadedNew(cfg, w, e, t);
        if t in w.holders && Run(cfg, es).holders[t] == w.holders[t] { RunCounted(cfg, before, t); }
        else { NoneYet(cfg, before, t); }
      }
    }
  }

  /**
   * In every run a request hears the model at most `maxHops` times, and calls it only while it may hear it once more.
   */
  lemma {:induction false} ModelCallsLimited(cfg: Config, es: seq<Event>, t: Token)
    requires t in Run(cfg, es).holders
    ensures ReplyCount(cfg, es, t) <= cfg.maxHops
    ensures Run(cfg, es).holders[t].pc.Model? ==> ReplyCount(cfg, es, t) < cfg.maxHops
  {
    RunCounted(cfg, es, t);
  }

  // ── the question found ─────────────────────────────────────────────

  /** A question waited in what the request found, and it is one that closes it. */
  predicate Waited(cfg: Config, kind: Kind, found: Conversation) {
    && found.pending.Some?
    && (kind.Interact? || (kind.Chat? && found.status.Awaiting? && !(found.messages == [] && cfg.hasInit)))
  }

  ghost predicate RetiredInv(cfg: Config, h: Holder) {
    && (h.pc.Read? && h.kind.Interact? && h.copy.pending.Some? ==> h.copy.pending.value.handle == h.kind.handle)
    && (Speaking(h.pc) && Waited(cfg, h.kind, h.prior) ==> h.prior.pending.value.handle in h.copy.frozen)
    && (h.pc.Init? ==> !Waited(cfg, h.kind, h.prior))
  }

  lemma OpeningRetired(cfg: Config, env: Env, h: Holder, a: Action)
    requires Opening(h.pc) && !h.pc.Read?
    ensures var n := StepOpening(cfg, env, h, a).holder; n.Some? ==> RetiredInv(cfg, n.value)
  {
    if h.pc.Gate? { GateRetired(cfg, env, h, a); }
  }

  lemma GateRetired(cfg: Config, env: Env, h: Holder, a: Action)
    requires h.pc.Gate?
    ensures var n := StepGate(cfg, env, h, a).holder; n.Some? ==> RetiredInv(cfg, n.value)
  {}

  lemma ReadRetired(cfg: Config, env: Env, h: Holder, a: Action)
    requires RetiredInv(cfg, h) && AsFound(h) && h.pc.Read?
    ensures var n := StepRead(cfg, env, h, a).holder; n.Some? ==> RetiredInv(cfg, n.value)
  {
    if a.Go? && h.kind.Chat? { ReadChatRetired(cfg, env, h); }
    else if a.Go? && h.kind.Wake? { ReadWakeRetired(cfg, env, h); }
  }

  lemma ReadChatRetired(cfg: Config, env: Env, h: Holder)
    requires AsFound(h) && h.pc.Read? && h.kind.Chat?
    ensures var n := StepRead(cfg, env, h, Go).holder; n.Some? ==> RetiredInv(cfg, n.value)
  {}

  lemma ReadWakeRetired(cfg: Config, env: Env, h: Holder)
    requires h.pc.Read? && h.kind.Wake?
    ensures var n := StepRead(cfg, env, h, Go).holder; n.Some? ==> RetiredInv(cfg, n.value)
  {}

  lemma KeepsRetired(cfg: Config, h: Holder, n: Holder)
    requires RetiredInv(cfg, h) && n.kind == h.kind && n.prior == h.prior && h.copy.frozen <= n.copy.frozen
    requires !n.pc.Read? && (Speaking(n.pc) ==> Speaking(h.pc) || h.pc.Init?) && (n.pc.Init? ==> h.pc.Init?)
    ensures RetiredInv(cfg, n)
  {}

  lemma FrozenGrows(cfg: Config, env: Env, token: Token, c: Conversation, t: Turn, ev: ToolEvent)
    ensures c.frozen <= ToolStep(cfg, env, token, c, t, ev).conv.frozen
  {}

  lemma ToolsFrozen(cfg: Config, h: Holder, o: TurnOut)
    requires h.pc.Tools? && h.copy.frozen <= o.conv.frozen
    ensures var n := ToolsAfter(cfg, h, h.pc.hop, o).holder;
            n.Some? ==>
              && n.value.kind == h.kind && n.value.prior == h.prior && h.copy.frozen <= n.value.copy.frozen
              && (n.value.pc.Tools? || n.value.pc.Model? || n.value.pc.Context?)
  {}

  lemma InitFrozen(cfg: Config, env: Env, h: Holder, a: Action)
    requires h.pc.Init?
    ensures var n := StepInit(cfg, env, h, a).holder;
            n.Some? ==>
              && n.value.kind == h.kind && n.value.prior == h.prior && h.copy.frozen <= n.value.copy.frozen
              && (n.value.pc.Init? || n.value.pc.SaveInit? || n.value.pc.Context? || n.value.pc.Release?)
  {
    if a.Tool? { FrozenGrows(cfg, env, h.token, h.copy, h.pc.turn, a.ev); }
  }

  lemma ModelFrozen(cfg: Config, h: Holder, a: Action)
    requires h.pc.Model?
    ensures var n := StepModel(cfg, h, a).holder;
            n.Some? ==>
              && n.value.kind == h.kind && n.value.prior == h.prior
              && (n.value.pc.Release? ||
                  (n.value.copy.frozen == h.copy.frozen
                   && (n.value.pc.Tools? || n.value.pc.Model? || n.value.pc.Context?)))
  {}

  lemma SavedRetired(cfg: Config, env: Env, h: Holder, a: Action)
    requires RetiredInv(cfg, h) && (h.pc.SaveClick? || h.pc.SaveWake? || h.pc.SaveInit?)
    ensures var n := StepSaving(cfg, env, h, a).holder; n.Some? ==> RetiredInv(cfg, n.value)
  {}

  lemma StepRetired(cfg: Config, env: Env, h: Holder, a: Action)
    requires RetiredInv(cfg, h) && SayingInv(cfg, h)
    ensures var n := Step(cfg, env, h, a).holder; n.Some? ==> RetiredInv(cfg, n.value)
  {
    if h.pc.Read? { ReadRetired(cfg, env, h, a); }
    else if Opening(h.pc) { OpeningRetired(cfg, env, h, a); }
    else if h.pc.Tools? { ToolsRetired(cfg, env, h, a); }
    else if h.pc.Init? { InitRetired(cfg, env, h, a); }
    else if h.pc.Model? { ModelFrozen(cfg, h, a); }
    else if h.pc.Context? { ContextSilent(h, a); }
    else if h.pc.SaveClick? || h.pc.SaveWake? || h.pc.SaveInit? { SavedRetired(cfg, env, h, a); }
    else if !h.pc.Release? { RevisingSilent(cfg, env, h, a); }
  }

  lemma ToolsRetired(cfg: Config, env: Env, h: Holder, a: Action)
    requires RetiredInv(cfg, h) && h.pc.Tools?
    ensures var n := StepTools(cfg, env, h, a).holder; n.Some? ==> RetiredInv(cfg, n.value)
  {
    if a.Tool? {
      FrozenGrows(cfg, env, h.token, h.copy, h.pc.turn, a.ev);
      var o := ToolStep(cfg, env, h.token, h.copy, h.pc.turn, a.ev);
      ToolsFrozen(cfg, h, o);
      var n := ToolsAfter(cfg, h, h.pc.hop, o).holder;
      if n.Some? { KeepsRetired(cfg, h, n.value); }
    }
  }

  lemma InitRetired(cfg: Config, env: Env, h: Holder, a: Action)
    requires RetiredInv(cfg, h) && h.pc.Init?
    ensures var n := StepInit(cfg, env, h, a).holder; n.Some? ==> RetiredInv(cfg, n.value)
  {
    InitFrozen(cfg, env, h, a);
    var n := StepInit(cfg, env, h, a).holder;
    if n.Some? { KeepsRetired(cfg, h, n.value); }
  }

  ghost predicate RetiredWorld(cfg: Config, w: World) { Everyone(w, h => RetiredInv(cfg, h)) }

  lemma ActedRetired(cfg: Config, w: World, t: Token, a: Action)
    requires RetiredWorld(cfg, w) && SayingWorld(cfg, w) && t in w.holders
    ensures var n := Step(cfg, EnvOf(w, t), w.holders[t], a).holder; n.Some? ==> RetiredInv(cfg, n.value)
  {
    assert RetiredInv(cfg, w.holders[t]) && SayingInv(cfg, w.holders[t]);
    StepRetired(cfg, EnvOf(w, t), w.holders[t], a);
  }

  lemma {:induction false} RunRetired(cfg: Config, es: seq<Event>)
    ensures RetiredWorld(cfg, Run(cfg, es))
  {
    if es != [] {
      var w, e := Run(cfg, es[..|es| - 1]), es[|es| - 1];
      RunRetired(cfg, es[..|es| - 1]);
      RunSaying(cfg, es[..|es| - 1]);
      if e.Act? && e.token in w.holders { ActedRetired(cfg, w, e.token, e.action); }
      NextEveryone(cfg, w, e, h => RetiredInv(cfg, h));
    }
  }

  /** Whenever a request calls the model, the surface of the question it found waiting, and closed, is retired. */
  lemma {:induction false} FoundIsRetired(cfg: Config, es: seq<Event>, t: Token)
    requires var w := Run(cfg, es); t in w.holders && w.holders[t].pc.Model?
    ensures var h := Run(cfg, es).holders[t];
            h.prior.pending.Some?
            && (h.kind.Interact? || (h.kind.Chat? && h.prior.status.Awaiting?
                && !(h.prior.messages == [] && cfg.hasInit)))
            ==> h.prior.pending.value.handle in h.copy.frozen
  {
    RunRetired(cfg, es);
    assert RetiredInv(cfg, Run(cfg, es).holders[t]);
  }

  // ── how a turn ends ────────────────────────────────────────────────

  lemma EndsSettled(cfg: Config, env: Env, h: Holder, a: Action)
    ensures var n := Step(cfg, env, h, a).holder; n.Some? && n.value.pc.Context? ==> !n.value.copy.status.Streaming?
  {
    if h.pc.Read? { ReadEnds(cfg, env, h, a); }
    else if Opening(h.pc) { OpeningCounted(cfg, env, h, a); }
    else if Turning(h.pc) { TurningEnds(cfg, env, h, a); }
    else { SavingEnds(cfg, env, h, a); }
  }

  lemma ReadEnds(cfg: Config, env: Env, h: Holder, a: Action)
    requires h.pc.Read?
    ensures var n := StepRead(cfg, env, h, a).holder; n.Some? && n.value.pc.Context? ==> !n.value.copy.status.Streaming?
  {}

  lemma TurningEnds(cfg: Config, env: Env, h: Holder, a: Action)
    requires Turning(h.pc)
    ensures var n := StepTurning(cfg, env, h, a).holder;
            n.Some? && n.value.pc.Context? ==> !n.value.copy.status.Streaming?
  {}

  lemma SavingEnds(cfg: Config, env: Env, h: Holder, a: Action)
    requires !Opening(h.pc) && !Turning(h.pc)
    ensures var n := StepSaving(cfg, env, h, a).holder;
            n.Some? && n.value.pc.Context? ==> !n.value.copy.status.Streaming?
  {}

  /** A turn that has ended leaves the conversation idle, or awaiting the user: never streaming. */
  lemma {:induction false} TurnsEnd(cfg: Config, es: seq<Event>, t: Token)
    requires var w := Run(cfg, es); t in w.holders && w.holders[t].pc.Context?
    ensures !Run(cfg, es).holders[t].copy.status.Streaming?
  {
    var before, e := es[..|es| - 1], es[|es| - 1];
    var w := Run(cfg, before);
    if e.Act? && e.token == t {
      ActedOwn(cfg, w, t, e.action);
      EndsSettled(cfg, EnvOf(w, t), w.holders[t], e.action);
    } else {
      LoadedNew(cfg, w, e, t);
      TurnsEnd(cfg, before, t);
    }
  }

  // ── what is stored of a surface ────────────────────────────────────

  /** What a request stores of a surface, and when: a tool's as it is told, a revision's of what it revises. */
  predicate Stores(cfg: Config, env: Env, h: Holder, a: Action, p: Payload) {
    && p.token == h.token && env.live && p.createdAt == env.now
    && ((a.Tool? && a.ev.Put? && p.component == a.ev.component && p.window == a.ev.window)
        || (a.Go? && h.pc.PutRevision? && p.component == h.pc.record.component
            && p.window == if p.component in cfg.windows then Some(cfg.windows[p.component]) else None))
  }

  lemma StepStores(cfg: Config, env: Env, h: Holder, a: Action)
    ensures var e := Step(cfg, env, h, a).effect; e.Stored? ==> Stores(cfg, env, h, a, e.payload)
  {
    if Opening(h.pc) { OpeningStoresNone(cfg, env, h, a); }
    else if Turning(h.pc) { TurningStores(cfg, env, h, a); }
    else { SavingStores(cfg, env, h, a); }
  }

  lemma OpeningStoresNone(cfg: Config, env: Env, h: Holder, a: Action)
    requires Opening(h.pc)
    ensures !StepOpening(cfg, env, h, a).effect.Stored?
  {}

  lemma TurningStores(cfg: Config, env: Env, h: Holder, a: Action)
    requires Turning(h.pc)
    ensures var e := StepTurning(cfg, env, h, a).effect; e.Stored? ==> Stores(cfg, env, h, a, e.payload)
  {
    if a.Tool? && (h.pc.Init? || h.pc.Tools?) { ToolStores(cfg, env, h.token, h.copy, h.pc.turn, a.ev); }
  }

  lemma ToolStores(cfg: Config, env: Env, token: Token, c: Conversation, t: Turn, ev: ToolEvent)
    ensures var e := ToolStep(cfg, env, token, c, t, ev).effect;
            e.Stored? ==> env.live && ev.Put? && e.payload == Payload(token, ev.component, env.now, ev.window)
  {}

  lemma SavingStores(cfg: Config, env: Env, h: Holder, a: Action)
    requires !Opening(h.pc) && !Turning(h.pc)
    ensures var e := StepSaving(cfg, env, h, a).effect; e.Stored? ==> Stores(cfg, env, h, a, e.payload)
  {}

  /** Event `i` stored `p` under the handle `h`, for a request whose lease token was current. */
  ghost predicate StoredAt(cfg: Config, es: seq<Event>, i: int, h: Handle, p: Payload) {
    && 0 <= i < |es| && es[i].Act?
    && var w := Run(cfg, es[..i]);
       w.nextHandle == h && es[i].token in w.holders
       && Stores(cfg, EnvOf(w, es[i].token), w.holders[es[i].token], es[i].action, p)
  }

  lemma PayloadsFrom(cfg: Config, w: World, e: Event, h: Handle)
    requires h in Next(cfg, w, e).payloads
    ensures var p := Next(cfg, w, e).payloads[h];
            || (h in w.payloads && p == w.payloads[h])
            || (e.Act? && e.token in w.holders && h == w.nextHandle
                && Step(cfg, EnvOf(w, e.token), w.holders[e.token], e.action).effect == Stored(p))
  {}

  /** Every surface's payload is stamped with the time, the component, the window and the lease it was stored with. */
  lemma {:induction false} PayloadsAreStamped(cfg: Config, es: seq<Event>, h: Handle)
    requires h in Run(cfg, es).payloads
    ensures exists i :: StoredAt(cfg, es, i, h, Run(cfg, es).payloads[h])
  {
    var before, e := es[..|es| - 1], es[|es| - 1];
    var w, p := Run(cfg, before), Run(cfg, es).payloads[h];
    assert es == before + [e];
    PayloadsFrom(cfg, w, e, h);
    if h in w.payloads && p == w.payloads[h] {
      PayloadsAreStamped(cfg, before, h);
      var i :| StoredAt(cfg, before, i, h, p);
      assert es[..i] == before[..i];
      assert StoredAt(cfg, es, i, h, p);
    } else {
      StepStores(cfg, EnvOf(w, e.token), w.holders[e.token], e.action);
      assert StoredAt(cfg, es, |es| - 1, h, p);
    }
  }
}
