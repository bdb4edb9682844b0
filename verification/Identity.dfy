/** Surface identity, kept by every step of every request. */
module Identity {
  import opened History
  import opened Conversations
  import opened Requests
  import opened Worlds
  import opened Turns
  import opened Fencing
  import opened Pairing
  import opened Surfaces

  /** What a turn has in flight touches only open surfaces, each once, and stores only handles of its own. */
  ghost predicate OpsLinked(n: Handle, c: Conversation, t: Turn) {
    && (forall o | o in t.ops && t.ops[o].kind.Revise? :: Open(c, t.ops[o].kind.target))
    && (forall o, p | o in t.ops && p in t.ops && o != p && t.ops[o].kind.Revise? && t.ops[p].kind.Revise? ::
          t.ops[o].kind.target != t.ops[p].kind.target)
    && (forall o | o in t.ops && t.ops[o].stored.Some? :: Unknown(n, c, t.ops[o].stored.value))
    && (forall o | o in t.ops && t.ops[o].stored.Some? && t.ops[o].kind.Revise? ::
       t.ops[o].kind.target < t.ops[o].stored.value)
    && (forall o, p | o in t.ops && p in t.ops && o != p && t.ops[o].stored.Some? :: t.ops[o].stored != t.ops[p].stored)
  }

  /** The question asked is open, and the one parked on leads to it. */
  ghost predicate QuestionLinked(c: Conversation, t: Turn) {
    && (t.asking.Shown? ==> Open(c, t.asking.handle))
    && (t.parked.Some? ==>
       t.asking == Shown(CurrentHandle(c, t.parked.value.handle)) && t.parked.value.handle in c.handles)
  }

  ghost predicate TurnLinked(n: Handle, c: Conversation, t: Turn) {
    Linked(n, c) && OpsLinked(n, c, t) && QuestionLinked(c, t)
  }

  lemma NewTurnLinked(n: Handle, c: Conversation, calls: seq<string>)
    requires Linked(n, c)
    ensures TurnLinked(n, c, NewTurn(calls))
  {}

  lemma ShowNew(n: Handle, c: Conversation, t: Turn, op: nat, h: Handle)
    requires TurnLinked(n, c, t) && c.pending.None? && op in t.ops && t.ops[op].stored == Some(h)
    requires t.ops[op].kind.Elicit? ==> t.parked.None?
    ensures var rest := t.(ops := t.ops - {op});
            TurnLinked(n, Attach(c, h), if t.ops[op].kind.Elicit? then rest.(asking := Shown(h), asked := Some(h))
              else rest)
  {
    LinkedAttach(n, c, h);
    ShowNewOps(n, c, t, op, h);
  }

  lemma ShowNewOps(n: Handle, c: Conversation, t: Turn, op: nat, h: Handle)
    requires OpsLinked(n, c, t) && op in t.ops && t.ops[op].stored == Some(h)
    ensures OpsLinked(n, Attach(c, h), t.(ops := t.ops - {op}))
  {}

  lemma ShowRevisionQuestion(n: Handle, c: Conversation, t: Turn, was: Handle, h: Handle)
    requires Linked(n, c) && QuestionLinked(c, t) && Unknown(n, c, h) && Open(c, was) && was < h
    ensures QuestionLinked(Supersede(c, was, h), t.(asking := if t.asking == Shown(was) then Shown(h) else t.asking))
  {
    if t.parked.Some? { FollowSupersede(n, c, was, h, t.parked.value.handle, {}); }
  }

  lemma ShowRevisionOps(n: Handle, c: Conversation, t: Turn, op: nat, was: Handle, h: Handle)
    requires OpsLinked(n, c, t) && op in t.ops && t.ops[op].stored == Some(h) && t.ops[op].kind == Revise(was)
             && was != h
    ensures OpsLinked(n, Supersede(c, was, h), t.(ops := t.ops - {op}))
  {}

  lemma ShowRevisionLinked(cfg: Config, env: Env, c: Conversation, t: Turn, op: nat, was: Handle, h: Handle)
    requires TurnLinked(env.nextHandle, c, t) && OneQuestion(t) && c.pending.None? && t.running
    requires op in t.ops && t.ops[op].stored == Some(h) && t.ops[op].kind == Revise(was)
    ensures TurnLinked(env.nextHandle, ShowOp(cfg, env, c, t, op).conv, ShowOp(cfg, env, c, t, op).turn)
  {
    if t.ops[op].record.None? {
    } else if Late(cfg, t.ops[op].record.value, env.now) {
      DropLinked(env.nextHandle, c, t, op);
    } else {
      ShownRevisionLinked(env.nextHandle, c, t, op, was, h);
    }
  }

  lemma ShownRevisionLinked(n: Handle, c: Conversation, t: Turn, op: nat, was: Handle, h: Handle)
    requires TurnLinked(n, c, t) && c.pending.None? && op in t.ops && t.ops[op].stored == Some(h)
             && t.ops[op].kind == Revise(was)
    ensures TurnLinked(n, Supersede(c, was, h),
                       t.(ops := t.ops - {op}, asked := if t.asked == Some(was) then Some(h) else t.asked,
                          asking := if t.asking == Shown(was) then Shown(h) else t.asking))
  {
    ShowRevisionOps(n, c, t, op, was, h);
    ShowRevisionQuestion(n, c, t, was, h);
    LinkedSupersede(n, c, was, h);
  }

  lemma ShowOpLinked(cfg: Config, env: Env, c: Conversation, t: Turn, op: nat)
    requires TurnLinked(env.nextHandle, c, t) && OneQuestion(t) && c.pending.None?
    ensures TurnLinked(env.nextHandle, ShowOp(cfg, env, c, t, op).conv, ShowOp(cfg, env, c, t, op).turn)
  {
    if t.running && op in t.ops && t.ops[op].stored.Some? {
      var n, h := env.nextHandle, t.ops[op].stored.value;
      if t.ops[op].kind.Revise? {
        ShowRevisionLinked(cfg, env, c, t, op, t.ops[op].kind.target, h);
      } else {
        ShowNew(n, c, t, op, h);
      }
    }
  }

  lemma EndCallLinked(n: Handle, c: Conversation, t: Turn, ok: bool, text: string)
    requires TurnLinked(n, c, t) && OneQuestion(t) && c.pending.None?
    ensures TurnLinked(n, EndCall(c, t, ok, text).conv, EndCall(c, t, ok, text).turn)
  {
    if t.asked.Some? { LinkedFreeze(n, c, t.asked.value); }
  }

  lemma BeginLinked(n: Handle, c: Conversation, t: Turn, op: nat, kind: OpKind)
    requires TurnLinked(n, c, t)
    ensures TurnLinked(n, c, BeginOp(c, t, op, kind).turn)
  {}

  lemma DropLinked(n: Handle, c: Conversation, t: Turn, op: nat)
    requires TurnLinked(n, c, t) && OneQuestion(t)
    ensures TurnLinked(n, c, Fails(c, t, op).turn)
  {}

  lemma CheckLinked(cfg: Config, env: Env, c: Conversation, t: Turn, op: nat)
    requires TurnLinked(env.nextHandle, c, t) && OneQuestion(t)
    ensures TurnLinked(env.nextHandle, c, CheckOp(cfg, env, c, t, op).turn)
  {
    DropLinked(env.nextHandle, c, t, op);
  }

  lemma PutLinked(env: Env, token: Token, c: Conversation, t: Turn, op: nat, component: string, window: Option<Window>)
    requires TurnLinked(env.nextHandle, c, t)
    ensures var o := PutOp(env, token, c, t, op, component, window);
            TurnLinked(Issued(env.nextHandle, o.effect), c, o.turn)
  {
    LinkedMonotone(env.nextHandle, env.nextHandle + 1, c);
  }

  lemma ToolStepLinked(cfg: Config, env: Env, token: Token, c: Conversation, t: Turn, ev: ToolEvent)
    requires TurnLinked(env.nextHandle, c, t) && OneQuestion(t) && c.pending.None?
    ensures var o := ToolStep(cfg, env, token, c, t, ev); TurnLinked(Issued(env.nextHandle, o.effect), o.conv, o.turn)
  {
    if ev.Put? {
      PutLinked(env, token, c, t, ev.op, ev.component, ev.window);
    } else {
      ToolStepKeepsLinked(cfg, env, token, c, t, ev);
    }
  }

  lemma ToolStepKeepsLinked(cfg: Config, env: Env, token: Token, c: Conversation, t: Turn, ev: ToolEvent)
    requires TurnLinked(env.nextHandle, c, t) && OneQuestion(t) && c.pending.None? && !ev.Put?
    ensures var o := ToolStep(cfg, env, token, c, t, ev);
            !o.effect.Stored? && TurnLinked(env.nextHandle, o.conv, o.turn)
  {
    match ev
    case Show(op) => ShowOpLinked(cfg, env, c, t, op);
    case End(ok, text) => EndCallLinked(env.nextHandle, c, t, ok, text);
    case Begin(op, kind) => BeginLinked(env.nextHandle, c, t, op, kind);
    case Check(op) => CheckLinked(cfg, env, c, t, op);
    case Drop(op) => DropLinked(env.nextHandle, c, t, op);
    case _ =>
  }

  // ── requests ───────────────────────────────────────────────────────

  /** A conversation that has not begun shows nothing. */
  predicate Started(c: Conversation) { c.messages == [] ==> c.handles == [] && c.frozen == [] }

  /** What no request takes back: its surfaces, their revisions, and the revisions made outside turns. */
  predicate Grown(b: Conversation, c: Conversation) {
    && b.handles <= c.handles
    && (forall k | k in b.superseded :: k in c.superseded && c.superseded[k] == b.superseded[k])
    && b.outside <= c.outside
  }

  predicate Whole(n: Handle, c: Conversation) { Linked(n, c) && Started(c) }

  ghost predicate SurfacePc(n: Handle, h: Holder) {
    match h.pc
    case Init(_, _, t) =>
      TurnLinked(n, h.copy, t) && h.before.handles == 0 && h.base.handles == [] && h.copy.frozen == []
    case Tools(_, t) => TurnLinked(n, h.copy, t) && h.copy.messages != []
    case PutRevision(was, _) => Whole(n, h.copy) && Open(h.copy, was)
    case Revised(was, _, next) => Whole(n, h.copy) && Open(h.copy, was) && Unknown(n, h.copy, next) && was < next
    case _ => Whole(n, h.copy)
  }

  ghost predicate SurfaceInv(n: Handle, h: Holder) {
    && Whole(n, h.base)
    && Grown(h.base, h.copy)
    && SurfacePc(n, h)
    && (Undoing(h) ==> Whole(n, h.prior) && Grown(h.base, h.prior))
    && (Opening(h.pc) ==> h.copy == h.base.(announcing := h.copy.announcing))
    && (h.pc.Read? && h.kind.Interact? && h.copy.pending.Some? ==> h.copy.pending.value.handle == h.kind.handle)
  }

  lemma SurfaceMonotone(n: Handle, m: Handle, h: Holder)
    requires SurfaceInv(n, h) && n <= m
    ensures SurfaceInv(m, h)
  {
    LinkedMonotone(n, m, h.base);
    LinkedMonotone(n, m, h.copy);
    if Undoing(h) { LinkedMonotone(n, m, h.prior); }
  }

  lemma NewSurface(cfg: Config, w: World, kind: Kind)
    requires Whole(w.nextHandle, w.row)
    ensures SurfaceInv(w.nextHandle, NewHolder(cfg, w, kind))
  {}

  lemma CloseOutLinked(n: Handle, c: Conversation, text: string)
    requires Whole(n, c) && AtRest(c)
    ensures var d := CloseOut(c, text); Whole(n, d) && Grown(c, d)
  {
    if c.pending.Some? { LinkedFreeze(n, c, c.pending.value.handle); }
  }

  lemma RecordClickLinked(n: Handle, c: Conversation, h: Handle, said: string, u: Unread)
    requires Whole(n, c) && (c.pending.Some? ==> c.pending.value.handle == h)
    ensures var d := RecordClick(c, h, said, u); Whole(n, d) && Grown(c, d)
  {
    if c.pending.Some? { LinkedFreeze(n, c, h); }
  }

  /** Where only the copy matters. */
  predicate Plain(pc: Pc) {
    pc.Release? || pc.Model? || pc.Context? || pc.SaveInit? || pc.SaveRevision? || pc.AppendRevision?
  }

  lemma PlainSurface(n: Handle, h: Holder)
    requires Plain(h.pc) && Whole(n, h.base) && Whole(n, h.copy) && Grown(h.base, h.copy)
    requires Undoing(h) ==> Whole(n, h.prior) && Grown(h.base, h.prior)
    ensures SurfaceInv(n, h)
  {}

  lemma AtHopSurface(n: Handle, cfg: Config, h: Holder, c: Conversation, hop: nat)
    requires Whole(n, h.base) && Whole(n, c) && Grown(h.base, c)
    requires h.kind.Wake? ==> Whole(n, h.prior) && Grown(h.base, h.prior)
    ensures SurfaceInv(n, AtHop(cfg, h, c, hop))
  {
    PlainSurface(n, h.(copy := c, pc := Model(hop)));
    PlainSurface(n, h.(copy := c.(status := Idle), pc := Context));
  }

  lemma InitSurface(n: Handle, h: Holder, content: seq<Block>, through: nat)
    requires Whole(n, h.base) && Whole(n, h.copy) && Grown(h.base, h.copy) && h.copy.messages == [] && !h.kind.Wake?
             && h.base.handles == h.copy.handles
    ensures SurfaceInv(n,
            h.(pc := Init(content, through, NewTurn(["init"])), copy := h.copy.(status := Streaming),
            before := Snapshot(h.copy)))
  {
    NewTurnLinked(n, h.copy.(status := Streaming), ["init"]);
  }

  lemma ReadClickSurface(cfg: Config, env: Env, h: Holder)
    requires SurfaceInv(env.nextHandle, h) && h.pc.Read? && h.kind.Interact?
    ensures SurfaceInv(env.nextHandle, StepRead(cfg, env, h, Go).holder.value)
  {
    RecordClickLinked(env.nextHandle, h.copy, h.kind.handle, h.kind.said, UnreadNotices(cfg, h.copy, env.log));
  }

  lemma TakeWhole(n: Handle, c: Conversation, u: Unread, text: string)
    requires Whole(n, c)
    ensures Whole(n, Take(c, u, text)) && Grown(c, Take(c, u, text))
  {}

  lemma ReadChatSurface(cfg: Config, env: Env, h: Holder)
    requires SurfaceInv(env.nextHandle, h) && AtRest(h.copy) && h.pc.Read? && h.kind.Chat?
    ensures SurfaceInv(env.nextHandle, StepRead(cfg, env, h, Go).holder.value)
  {
    var n, u := env.nextHandle, UnreadNotices(cfg, h.copy, env.log);
    if h.copy.messages == [] && cfg.hasInit {
      InitSurface(n, h, u.blocks + [Text(h.kind.text)], u.through);
    } else {
      var closed := CloseOut(h.copy, h.kind.text);
      var taken := Take(closed, u, h.kind.text);
      CloseOutLinked(n, h.copy, h.kind.text);
      TakeWhole(n, closed, u, h.kind.text);
      AtHopSurface(n, cfg, h.(copy := taken), taken.(status := Streaming), 0);
    }
  }

  lemma ReadStartSurface(cfg: Config, env: Env, h: Holder)
    requires SurfaceInv(env.nextHandle, h) && h.copy.messages == [] && h.pc.Read? && h.kind.Start?
    ensures SurfaceInv(env.nextHandle, StepRead(cfg, env, h, Go).holder.value)
  {
    var u := UnreadNotices(cfg, h.copy, env.log);
    InitSurface(env.nextHandle, h, u.blocks + [Text("[conversation started]")], u.through);
  }

  lemma ReadWakeSurface(cfg: Config, env: Env, h: Holder)
    requires SurfaceInv(env.nextHandle, h) && h.pc.Read? && h.kind.Wake?
    ensures SurfaceInv(env.nextHandle, StepRead(cfg, env, h, Go).holder.value)
  {}

  lemma GateSurface(cfg: Config, env: Env, h: Holder, a: Action)
    requires SurfaceInv(env.nextHandle, h) && h.pc.Gate?
    ensures SurfaceInv(env.nextHandle, StepGate(cfg, env, h, a).holder.value)
  {
    if h.kind.Update? && h.kind.handle in h.copy.handles {
      FollowEnds(env.nextHandle, h.copy, h.kind.handle, {});
    }
  }

  lemma AnnouncedSurface(n: Handle, h: Holder)
    requires SurfaceInv(n, h) && (h.pc.Announce? || h.pc.AppendOwed?)
    ensures SurfaceInv(n, Announced(h)) && SurfaceInv(n, Announced(h.(copy := h.copy.(announcing := None))))
  {}

  lemma StepReadSurface(cfg: Config, env: Env, h: Holder, a: Action)
    requires SurfaceInv(env.nextHandle, h) && Course(h) && h.pc.Read?
    ensures SurfaceInv(env.nextHandle, StepRead(cfg, env, h, a).holder.value)
  {
    if a.Go? {
      match h.kind
      case Chat(_) => ReadChatSurface(cfg, env, h);
      case Interact(_, _) => ReadClickSurface(cfg, env, h);
      case Update(_, _, _) =>
      case Start => ReadStartSurface(cfg, env, h);
      case Wake => ReadWakeSurface(cfg, env, h);
    } else {
      PlainSurface(env.nextHandle, h.(pc := Release));
    }
  }

  lemma StepAnnounceSurface(env: Env, h: Holder, a: Action)
    requires SurfaceInv(env.nextHandle, h) && (h.pc.Announce? || h.pc.AppendOwed?)
    ensures SurfaceInv(env.nextHandle, StepAnnounce(env, h, a).holder.value)
    ensures SurfaceInv(env.nextHandle, StepAppendOwed(h, a).holder.value)
  {
    PlainSurface(env.nextHandle, h.(pc := Release));
    AnnouncedSurface(env.nextHandle, h);
  }

  lemma StepFreshSurface(cfg: Config, env: Env, h: Holder, a: Action)
    requires SurfaceInv(env.nextHandle, h) && h.pc.Fresh?
    ensures SurfaceInv(env.nextHandle, StepFresh(cfg, env, h, a).holder.value)
  {}

  lemma StepOpeningSurface(cfg: Config, env: Env, h: Holder, a: Action)
    requires SurfaceInv(env.nextHandle, h) && Course(h) && Opening(h.pc)
    ensures var o := StepOpening(cfg, env, h, a).holder; o.Some? ==> SurfaceInv(env.nextHandle, o.value)
  {
    match h.pc
    case Gate => GateSurface(cfg, env, h, a);
    case Read => StepReadSurface(cfg, env, h, a);
    case Fresh => StepFreshSurface(cfg, env, h, a);
    case _ => StepAnnounceSurface(env, h, a);
  }

  // ── turns and saves ────────────────────────────────────────────────

  lemma ParkWhole(n: Handle, b: Conversation, c: Conversation, t: Turn, results: seq<Block>)
    requires TurnLinked(n, c, t) && t.parked.Some? && Grown(b, c)
    ensures var d := Park(c, t.parked.value, results); Linked(n, d) && Grown(b, d)
  {}

  /** What a tool's step does to what is shown. */
  lemma ToolStepGrows(cfg: Config, env: Env, token: Token, c: Conversation, t: Turn, ev: ToolEvent)
    requires TurnLinked(env.nextHandle, c, t)
    ensures Grown(c, ToolStep(cfg, env, token, c, t, ev).conv)
    ensures (ev.End? && !ev.ok) || ToolStep(cfg, env, token, c, t, ev).conv.frozen == c.frozen
  {
    match ev
    case Show(op) => ShowGrows(cfg, env, c, t, op);
    case _ =>
  }

  lemma ShowGrows(cfg: Config, env: Env, c: Conversation, t: Turn, op: nat)
    requires OpsLinked(env.nextHandle, c, t)
    ensures Grown(c, ShowOp(cfg, env, c, t, op).conv) && ShowOp(cfg, env, c, t, op).conv.frozen == c.frozen
  {}

  lemma GrownTrans(a: Conversation, b: Conversation, c: Conversation)
    requires Grown(a, b) && Grown(b, c)
    ensures Grown(a, c)
  {}

  lemma ToolsAfterSurface(cfg: Config, n: Handle, h: Holder, o: TurnOut)
    requires SurfaceInv(n, h) && h.pc.Tools?
    requires TurnLinked(Issued(n, o.effect), o.conv, o.turn) && Grown(h.copy, o.conv)
             && o.conv.messages == h.copy.messages
    ensures var r := ToolsAfter(cfg, h, h.pc.hop, o).holder; r.Some? ==> SurfaceInv(Issued(n, o.effect), r.value)
  {
    var m := Issued(n, o.effect);
    var ran := h.(copy := o.conv, toolsRan := h.toolsRan || o.turn.running);
    SurfaceMonotone(n, m, h);
    GrownTrans(h.base, h.copy, o.conv);
    if Decided(o.turn) && !o.lost {
      match o.turn.parked
      case Some(q) =>
        ParkWhole(m, h.base, o.conv, o.turn, o.turn.results);
        PlainSurface(m, ran.(copy := Park(o.conv, q, o.turn.results), pc := Context));
      case None => AtHopSurface(m, cfg, ran, Say(o.conv, o.turn.results), h.pc.hop + 1);
    }
  }

  lemma StepToolsSurface(cfg: Config, env: Env, h: Holder, a: Action)
    requires SurfaceInv(env.nextHandle, h) && h.pc.Tools? && OneQuestion(h.pc.turn) && h.copy.pending.None?
    ensures var o := StepTools(cfg, env, h, a);
            o.holder.Some? ==> SurfaceInv(Issued(env.nextHandle, o.effect), o.holder.value)
  {
    if a.Tool? {
      ToolStepLinked(cfg, env, h.token, h.copy, h.pc.turn, a.ev);
      ToolStepGrows(cfg, env, h.token, h.copy, h.pc.turn, a.ev);
      ToolStepTouches(cfg, env, h.token, h.copy, h.pc.turn, a.ev);
      ToolsAfterSurface(cfg, env.nextHandle, h, ToolStep(cfg, env, h.token, h.copy, h.pc.turn, a.ev));
    }
  }

  lemma InitAfterSurface(n: Handle, h: Holder, o: TurnOut)
    requires SurfaceInv(n, h) && h.pc.Init? && !h.kind.Wake? && o.conv.frozen == []
    requires TurnLinked(Issued(n, o.effect), o.conv, o.turn) && Grown(h.copy, o.conv)
    ensures var r := InitAfter(h, h.pc.content, h.pc.through, o).holder;
            r.Some? ==> SurfaceInv(Issued(n, o.effect), r.value)
  {
    var m := Issued(n, o.effect);
    SurfaceMonotone(n, m, h);
    GrownTrans(h.base, h.copy, o.conv);
    if Decided(o.turn) && !o.lost {
      var asked := Say(o.conv, h.pc.content).(noticedThrough := h.pc.through);
      var called := asked.(messages := asked.messages + [Message(Assistant, Blocks([ToolUse("init", "init", "{}")]))]);
      match o.turn.parked
      case Some(q) =>
        ParkWhole(m, h.base, called, o.turn, []);
        PlainSurface(m, h.(copy := Park(called, q, []), pc := Context));
      case None => PlainSurface(m, h.(copy := Say(called, o.turn.results), pc := SaveInit));
    }
  }

  /** A refused init takes back everything it showed. */
  lemma InitUndoneSurface(n: Handle, h: Holder)
    requires SurfaceInv(n, h) && h.pc.Init? && h.copy.pending.None? && !h.kind.Wake?
    ensures SurfaceInv(n,
            h.(copy := h.copy.(handles := Truncate(h.copy.handles, h.before.handles), status := h.before.status),
            pc := Release))
  {
    assert Truncate(h.copy.handles, h.before.handles) == [];
  }

  lemma StepInitSurface(cfg: Config, env: Env, h: Holder, a: Action)
    requires SurfaceInv(env.nextHandle, h) && h.pc.Init? && OneQuestion(h.pc.turn) && h.copy.pending.None?
             && !h.kind.Wake?
    ensures var o := StepInit(cfg, env, h, a);
            o.holder.Some? ==> SurfaceInv(Issued(env.nextHandle, o.effect), o.holder.value)
  {
    InitUndoneSurface(env.nextHandle, h);
    if a.Tool? && !(a.ev.End? && !a.ev.ok && h.pc.turn.running && h.pc.turn.ops == map[]) {
      var o := ToolStep(cfg, env, h.token, h.copy, h.pc.turn, a.ev);
      InitToolLinked(cfg, env, h, a.ev);
      InitAfterSurface(env.nextHandle, h, o);
    }
  }

  lemma InitToolLinked(cfg: Config, env: Env, h: Holder, ev: ToolEvent)
    requires SurfaceInv(env.nextHandle, h) && h.pc.Init? && OneQuestion(h.pc.turn) && h.copy.pending.None?
    requires !(ev.End? && !ev.ok && h.pc.turn.running && h.pc.turn.ops == map[])
    ensures var o := ToolStep(cfg, env, h.token, h.copy, h.pc.turn, ev);
            o.conv.frozen == [] && TurnLinked(Issued(env.nextHandle, o.effect), o.conv, o.turn) && Grown(h.copy, o.conv)
  {
    ToolStepLinked(cfg, env, h.token, h.copy, h.pc.turn, ev);
    ToolStepGrows(cfg, env, h.token, h.copy, h.pc.turn, ev);
  }

  lemma TurnFailsSurface(n: Handle, h: Holder)
    requires SurfaceInv(n, h) && (h.pc.Model? || h.pc.Context? || h.pc.SaveWake?) && (h.kind.Wake? ==> Undoable(h))
    ensures SurfaceInv(n, TurnFails(h))
  {
    if h.kind.Wake? && !h.toolsRan { FailWakeExact(h); }
    PlainSurface(n, TurnFails(h));
  }

  lemma RepliedSurface(n: Handle, cfg: Config, h: Holder, content: seq<Block>, hop: nat)
    requires SurfaceInv(n, h) && h.pc.Model?
    ensures SurfaceInv(n, h.(copy := Replied(h.copy, content).(status := Idle), pc := Context))
    ensures SurfaceInv(n, AtHop(cfg, h, Say(Replied(h.copy, content), NotRun(CallIds(content))), hop))
  {
    PlainSurface(n, h.(copy := Replied(h.copy, content).(status := Idle), pc := Context));
    AtHopSurface(n, cfg, h, Say(Replied(h.copy, content), NotRun(CallIds(content))), hop);
  }

  lemma CallsSurface(n: Handle, h: Holder, content: seq<Block>, hop: nat)
    requires SurfaceInv(n, h) && h.pc.Model?
    ensures SurfaceInv(n, h.(copy := Replied(h.copy, content), pc := Tools(hop, NewTurn(CallIds(content)))))
  {
    NewTurnLinked(n, Replied(h.copy, content), CallIds(content));
  }

  lemma StepModelSurface(n: Handle, cfg: Config, h: Holder, a: Action)
    requires SurfaceInv(n, h) && h.pc.Model? && (h.kind.Wake? ==> Undoable(h))
    ensures SurfaceInv(n, StepModel(cfg, h, a).holder.value)
  {
    if a.Reply? {
      RepliedSurface(n, cfg, h, a.content, h.pc.hop + 1);
      CallsSurface(n, h, a.content, h.pc.hop);
    } else {
      TurnFailsSurface(n, h);
    }
  }

  lemma StepContextSurface(n: Handle, h: Holder, a: Action)
    requires SurfaceInv(n, h) && h.pc.Context? && (h.kind.Wake? ==> Undoable(h))
    ensures SurfaceInv(n, StepContext(h, a).holder.value)
  {
    PlainSurface(n, h.(pc := Release));
    TurnFailsSurface(n, h);
  }

  lemma TurningFacts(h: Holder)
    requires Course(h) && Turning(h.pc)
    ensures h.pc.Init? ==> OneQuestion(h.pc.turn) && h.copy.pending.None? && !h.kind.Wake?
    ensures h.pc.Tools? ==> OneQuestion(h.pc.turn) && h.copy.pending.None?
    ensures h.kind.Wake? ==> Undoable(h)
  {}

  lemma SavingFacts(h: Holder)
    requires Course(h) && !Opening(h.pc) && !Turning(h.pc)
    ensures h.pc.SaveWake? ==> h.kind.Wake? && Undoable(h) && !h.toolsRan
    ensures h.pc.SaveClick? ==> !h.kind.Wake? && UndoClick(h.copy, h.before) == h.prior
    ensures h.pc.SaveInit? ==> !h.kind.Wake?
  {}

  lemma StepTurningSurface(cfg: Config, env: Env, h: Holder, a: Action)
    requires SurfaceInv(env.nextHandle, h) && Turning(h.pc)
    requires h.pc.Init? ==> OneQuestion(h.pc.turn) && h.copy.pending.None? && !h.kind.Wake?
    requires h.pc.Tools? ==> OneQuestion(h.pc.turn) && h.copy.pending.None?
    requires h.kind.Wake? ==> Undoable(h)
    ensures var o := StepTurning(cfg, env, h, a);
            o.holder.Some? ==> SurfaceInv(Issued(env.nextHandle, o.effect), o.holder.value)
  {
    if h.pc.Init? { StepInitSurface(cfg, env, h, a); }
    else if h.pc.Model? { StepModelSurface(env.nextHandle, cfg, h, a); }
    else if h.pc.Tools? { StepToolsSurface(cfg, env, h, a); }
    else { StepContextSurface(env.nextHandle, h, a); }
  }

  lemma ReviseOutsideWhole(n: Handle, c: Conversation, was: Handle, next: Handle, note: Notice)
    requires Whole(n, c) && Open(c, was) && Unknown(n, c, next) && was < next
    ensures var d := ReviseOutside(c, was, next, note); Whole(n, d) && Grown(c, d)
  {
    LinkedSupersede(n, c.(pending := None), was, next);
  }

  lemma StepRevisedSurface(cfg: Config, env: Env, h: Holder, a: Action)
    requires SurfaceInv(env.nextHandle, h) && h.pc.Revised?
    ensures SurfaceInv(env.nextHandle, StepRevised(cfg, env, h, a).holder.value)
  {
    var n := RevisionNotice(h, h.pc.was, h.pc.next);
    ReviseOutsideWhole(env.nextHandle, h.copy, h.pc.was, h.pc.next, n);
    GrownTrans(h.base, h.copy, ReviseOutside(h.copy, h.pc.was, h.pc.next, n));
    PlainSurface(env.nextHandle, h.(copy := ReviseOutside(h.copy, h.pc.was, h.pc.next, n), pc := SaveRevision));
    PlainSurface(env.nextHandle, h.(pc := Release));
  }

  lemma StepPutRevisionSurface(cfg: Config, env: Env, h: Holder, a: Action)
    requires SurfaceInv(env.nextHandle, h) && h.pc.PutRevision?
    ensures var o := StepPutRevision(cfg, env, h, a);
            o.holder.Some? ==> SurfaceInv(Issued(env.nextHandle, o.effect), o.holder.value)
  {
    PlainSurface(env.nextHandle, h.(pc := Release));
    SurfaceMonotone(env.nextHandle, env.nextHandle + 1, h);
  }

  /** A save: the copy becomes the base, and what follows only grows from it. */
  lemma StepSaveClickSurface(cfg: Config, env: Env, h: Holder, a: Action)
    requires SurfaceInv(env.nextHandle, h) && h.pc.SaveClick? && !h.kind.Wake? && UndoClick(h.copy, h.before) == h.prior
    ensures var o := StepSaveClick(cfg, env, h, a); o.holder.Some? ==> SurfaceInv(env.nextHandle, o.holder.value)
  {
    var n := env.nextHandle;
    if a.Go? {
      AtHopSurface(n, cfg, h.(base := h.copy), h.copy.(status := Streaming), 0);
    } else {
      PlainSurface(n, h.(copy := h.prior, pc := Release));
      PlainSurface(n, h.(base := h.copy, copy := h.prior, pc := Release));
    }
  }

  lemma StepSaveInitSurface(cfg: Config, env: Env, h: Holder, a: Action)
    requires SurfaceInv(env.nextHandle, h) && h.pc.SaveInit? && !h.kind.Wake?
    ensures var o := StepSaveInit(cfg, env, h, a); o.holder.Some? ==> SurfaceInv(env.nextHandle, o.holder.value)
  {
    var n, saved := env.nextHandle, h.(base := h.copy);
    if a.Go? {
      AtHopSurface(n, cfg, saved, h.copy.(status := Streaming), 0);
      PlainSurface(n, saved.(copy := h.copy.(status := Idle), pc := Context));
    } else {
      PlainSurface(n, h.(pc := Release));
      PlainSurface(n, saved.(pc := Release));
    }
  }

  lemma StepSaveWakeSurface(cfg: Config, env: Env, h: Holder, a: Action)
    requires SurfaceInv(env.nextHandle, h) && h.pc.SaveWake? && h.kind.Wake? && Undoable(h) && !h.toolsRan
    ensures var o := StepSaveWake(cfg, env, h, a); o.holder.Some? ==> SurfaceInv(env.nextHandle, o.holder.value)
  {
    var n := env.nextHandle;
    var saved := h.(base := h.copy);
    FailWakeExact(h);
    AtHopSurface(n, cfg, saved, h.copy.(status := Streaming), 0);
    PlainSurface(n, TurnFails(h));
    PlainSurface(n, TurnFails(h).(base := h.copy));
  }

  lemma StepSavingSurface(cfg: Config, env: Env, h: Holder, a: Action)
    requires SurfaceInv(env.nextHandle, h) && !Opening(h.pc) && !Turning(h.pc)
    requires h.pc.SaveWake? ==> h.kind.Wake? && Undoable(h) && !h.toolsRan
    requires h.pc.SaveClick? ==> !h.kind.Wake? && UndoClick(h.copy, h.before) == h.prior
    requires h.pc.SaveInit? ==> !h.kind.Wake?
    ensures var o := StepSaving(cfg, env, h, a);
            o.holder.Some? ==> SurfaceInv(Issued(env.nextHandle, o.effect), o.holder.value)
  {
    if h.pc.SaveWake? { StepSaveWakeSurface(cfg, env, h, a); }
    else if h.pc.SaveClick? { StepSaveClickSurface(cfg, env, h, a); }
    else if h.pc.SaveInit? { StepSaveInitSurface(cfg, env, h, a); }
    else { StepRevisionSurface(cfg, env, h, a); }
  }

  lemma StepRevisionSurface(cfg: Config, env: Env, h: Holder, a: Action)
    requires SurfaceInv(env.nextHandle, h) && !Opening(h.pc) && !Turning(h.pc) && !h.pc.SaveWake? && !h.pc.SaveClick?
             && !h.pc.SaveInit?
    ensures var o := StepSaving(cfg, env, h, a);
            o.holder.Some? ==> SurfaceInv(Issued(env.nextHandle, o.effect), o.holder.value)
  {
    if h.pc.Revised? { StepRevisedSurface(cfg, env, h, a); }
    else if h.pc.PutRevision? { StepPutRevisionSurface(cfg, env, h, a); }
    else if h.pc.SaveRevision? { StepSaveRevisionSurface(env, h, a); }
    else if h.pc.AppendRevision? { StepAppendRevisionSurface(env.nextHandle, h, a); }
  }

  lemma StepSaveRevisionSurface(env: Env, h: Holder, a: Action)
    requires SurfaceInv(env.nextHandle, h) && h.pc.SaveRevision?
    ensures var o := StepSaveRevision(env, h, a); o.holder.Some? ==> SurfaceInv(env.nextHandle, o.holder.value)
  {
    PlainSurface(env.nextHandle, h.(pc := Release));
    PlainSurface(env.nextHandle, h.(base := h.copy, pc := AppendRevision));
    PlainSurface(env.nextHandle, h.(base := h.copy, pc := Release));
  }

  lemma StepAppendRevisionSurface(n: Handle, h: Holder, a: Action)
    requires SurfaceInv(n, h) && h.pc.AppendRevision?
    ensures SurfaceInv(n, StepAppendRevision(h, a).holder.value)
  {
    PlainSurface(n, h.(pc := Release));
    PlainSurface(n, h.(copy := h.copy.(announcing := None), pc := Release));
  }

  lemma StepSurface(cfg: Config, env: Env, h: Holder, a: Action)
    requires SurfaceInv(env.nextHandle, h) && Course(h)
    ensures var o := Step(cfg, env, h, a);
            o.holder.Some? ==> SurfaceInv(Issued(env.nextHandle, o.effect), o.holder.value)
  {
    if Opening(h.pc) { StepOpeningSurface(cfg, env, h, a); OpeningIssuesNone(cfg, env, h, a); }
    else if Turning(h.pc) { TurningFacts(h); StepTurningSurface(cfg, env, h, a); }
    else { SavingFacts(h); StepSavingSurface(cfg, env, h, a); }
  }

  lemma OpeningIssuesNone(cfg: Config, env: Env, h: Holder, a: Action)
    requires Opening(h.pc)
    ensures !StepOpening(cfg, env, h, a).effect.Stored?
  {}
}
