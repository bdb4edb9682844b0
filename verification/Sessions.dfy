/** Surface identity over whole runs. */
module Sessions {
  import opened History
  import opened Conversations
  import opened Requests
  import opened Worlds
  import opened Turns
  import opened Fencing
  import opened Pairing
  import opened Surfaces
  import opened Identity

  ghost predicate SurfaceWorld(w: World) {
    Whole(w.nextHandle, w.row) && Everyone(w, h => SurfaceInv(w.nextHandle, h))
  }

  lemma NextIssues(cfg: Config, w: World, e: Event)
    ensures Next(cfg, w, e).nextHandle >= w.nextHandle
    ensures e.Act? && e.token in w.holders ==>
              Next(cfg, w, e).nextHandle ==
                Issued(w.nextHandle, Step(cfg, EnvOf(w, e.token), w.holders[e.token], e.action).effect)
  {}

  lemma EveryoneMonotone(w: World, n: Handle)
    requires SurfaceWorld(w) && w.nextHandle <= n
    ensures Whole(n, w.row) && Everyone(w, h => SurfaceInv(n, h))
  {
    LinkedMonotone(w.nextHandle, n, w.row);
    forall t | t in w.holders ensures SurfaceInv(n, w.holders[t]) { SurfaceMonotone(w.nextHandle, n, w.holders[t]); }
  }

  lemma NextSurfaceRow(cfg: Config, w: World, e: Event, n: Handle)
    requires Whole(n, w.row) && Everyone(w, h => SurfaceInv(n, h))
    ensures Whole(n, Next(cfg, w, e).row)
  {
    if e.Act? && e.token in w.holders {
      StepFenced(cfg, EnvOf(w, e.token), w.holders[e.token], e.action);
      assert SurfaceInv(n, w.holders[e.token]);
    }
  }

  lemma NextSurface(cfg: Config, w: World, e: Event)
    requires SurfaceWorld(w) && CourseWorld(w)
    ensures SurfaceWorld(Next(cfg, w, e))
  {
    var n := Next(cfg, w, e).nextHandle;
    NextIssues(cfg, w, e);
    EveryoneMonotone(w, n);
    NextSurfaceRow(cfg, w, e, n);
    if e.Load? { NewSurface(cfg, w, e.kind); }
    if e.Act? && e.token in w.holders {
      assert SurfaceInv(w.nextHandle, w.holders[e.token]);
      StepSurface(cfg, EnvOf(w, e.token), w.holders[e.token], e.action);
    }
    NextEveryone(cfg, w, e, h => SurfaceInv(n, h));
  }

  lemma {:induction false} RunSurface(cfg: Config, es: seq<Event>)
    requires KeepsQuestions(cfg, es)
    ensures SurfaceWorld(Run(cfg, es))
  {
    if es != [] {
      var w := Run(cfg, es[..|es| - 1]);
      RunSurface(cfg, es[..|es| - 1]);
      RunCourse(cfg, es[..|es| - 1]);
      NextSurface(cfg, w, es[|es| - 1]);
    }
  }

  /**
   * Surface identity, in every stored state: each handle leads to one unrevised handle of the conversation, by
   * links to later-issued handles only; what was answered was never revised, nor answered twice; and the
   * question waiting is open.
   */
  lemma {:induction false} SurfaceIdentity(cfg: Config, es: seq<Event>)
    requires KeepsQuestions(cfg, es)
    ensures var c := Run(cfg, es).row;
            && Distinct(c.handles) && Distinct(c.frozen)
            && (forall h | h in c.handles :: CurrentHandle(c, h) in c.handles && CurrentHandle(c, h) !in c.superseded)
            && (forall h | h in c.superseded :: h < c.superseded[h])
            && (forall h | h in c.frozen :: h in c.handles && h !in c.superseded)
            && (c.pending.Some? ==> Open(c, c.pending.value.handle))
  {
    RunSurface(cfg, es);
    var w := Run(cfg, es);
    forall h | h in w.row.handles ensures CurrentHandle(w.row, h) in w.row.handles
      && CurrentHandle(w.row, h) !in w.row.superseded {
      FollowEnds(w.nextHandle, w.row, h, {});
    }
  }

  /** The walk to a surface's latest revision never stops early: its guard could start with anything older seen. */
  lemma {:induction false} GuardIsIdle(cfg: Config, es: seq<Event>, h: Handle, seen: set<Handle>)
    requires KeepsQuestions(cfg, es) && forall s | s in seen :: s < h
    ensures Follow(Run(cfg, es).row.superseded, h, seen) == CurrentHandle(Run(cfg, es).row, h)
  {
    RunSurface(cfg, es);
    FollowUnguarded(Run(cfg, es).nextHandle, Run(cfg, es).row, h, seen, {});
  }

  lemma HolderGrown(w: World, t: Token)
    requires SurfaceWorld(w) && t in w.holders
    ensures Grown(w.holders[t].base, w.holders[t].copy)
  {
    assert SurfaceInv(w.nextHandle, w.holders[t]);
  }

  /** No save ever takes back a surface, a revision of one, or a revision made outside a turn. */
  lemma {:induction false} RowGrows(cfg: Config, es: seq<Event>, e: Event)
    requires KeepsQuestions(cfg, es)
    ensures Grown(Run(cfg, es).row, Run(cfg, es + [e]).row)
  {
    RunSurface(cfg, es);
    SavesExtendTheirBase(cfg, es, e);
    if Run(cfg, es + [e]).row != Run(cfg, es).row { HolderGrown(Run(cfg, es), e.token); }
  }

  // ── surfaces shown and asked on ────────────────────────────────────

  /**
   * A stored surface takes effect. A revision, unless what it revises is late, takes the place of the surface for
   * every handle that led to it, and for no other; anything else is a surface of its own, and an asked one is the
   * question the reply asks. Nothing else shown changes.
   */
  lemma {:induction false} ShownTakesItsPlace(cfg: Config, env: Env, token: Token, c: Conversation, t: Turn, op: nat)
    requires TurnLinked(env.nextHandle, c, t) && t.running && op in t.ops && t.ops[op].stored.Some?
    requires t.ops[op].kind.Revise? ==> t.ops[op].record.Some? && !OutOfDate(cfg, t.ops[op].record.value, env.now)
    ensures var o, next := ToolStep(cfg, env, token, c, t, Show(op)), t.ops[op].stored.value;
            && o.conv.handles == c.handles + [next]
            && (forall h | h in c.handles :: CurrentHandle(o.conv, h) ==
                  if t.ops[op].kind == Revise(CurrentHandle(c, h)) then next else CurrentHandle(c, h))
            && CurrentHandle(o.conv, next) == next
            && (t.ops[op].kind.Elicit? ==> o.turn.asking == Shown(next) && o.turn.asked == Some(next))
            && (t.ops[op].kind.Display? ==> o.turn.asking == t.asking && o.turn.asked == t.asked)
  {
    var k, next := t.ops[op].kind, t.ops[op].stored.value;
    if k.Revise? { LateIff(cfg, t.ops[op].record.value, env.now); }
    var d := ToolStep(cfg, env, token, c, t, Show(op)).conv;
    assert d.superseded == if k.Revise? then c.superseded[k.target := next] else c.superseded;
    assert d.handles == c.handles + [next] && next !in d.superseded;
    forall h | h in c.handles
      ensures CurrentHandle(d, h) == if k == Revise(CurrentHandle(c, h)) then next else CurrentHandle(c, h)
    {
      if k.Revise? { FollowSupersede(env.nextHandle, c, k.target, next, h, {}); }
    }
  }

  /** A call that asked and returned, its reply's last, parks the turn on the very surface it asked on. */
  lemma {:induction false} ParksWhereAsked(cfg: Config, es: seq<Event>, t: Token, text: string)
    requires KeepsQuestions(cfg, es)
    requires var w := Run(cfg, es);
             t in w.holders && w.holders[t].pc.Tools?
             && (var turn := w.holders[t].pc.turn;
                 && turn.running && turn.ops == map[] && turn.at + 1 == |turn.calls| && turn.asked.Some?)
    ensures var after := es + [Act(t, Tool(End(true, text)))];
            var turn := Run(cfg, es).holders[t].pc.turn;
            t in Run(cfg, after).holders
            && (var p := Run(cfg, after).holders[t].copy.pending;
                p.Some? && p.value.handle == turn.asked.value && p.value.toolUseId == turn.calls[turn.at])
  {
    var w, after := Run(cfg, es), es + [Act(t, Tool(End(true, text)))];
    assert after[..|es|] == es;
    RunSurface(cfg, es);
    RunCourse(cfg, es);
    var h := w.holders[t];
    assert SurfaceInv(w.nextHandle, h) && Course(h);
    ParksOnAsked(cfg, EnvOf(w, t), h, text);
  }

  lemma ParksOnAsked(cfg: Config, env: Env, h: Holder, text: string)
    requires h.pc.Tools? && OneQuestion(h.pc.turn) && QuestionLinked(h.copy, h.pc.turn)
    requires var turn := h.pc.turn;
             turn.running && turn.ops == map[] && turn.at + 1 == |turn.calls| && turn.asked.Some?
    ensures var n := StepTools(cfg, env, h, Tool(End(true, text))).holder;
            n.Some? && n.value.copy.pending.Some?
            && n.value.copy.pending.value.handle == h.pc.turn.asked.value
            && n.value.copy.pending.value.toolUseId == h.pc.turn.calls[h.pc.turn.at]
  {}

  // ── answers ────────────────────────────────────────────────────────

  /** A request's copy answers at least what its base does. */
  ghost predicate Answers(h: Holder) {
    h.base.frozen <= h.copy.frozen && (Undoing(h) ==> h.base.frozen <= h.prior.frozen)
  }

  /** A click about to be saved has answered the question that waited, if one did. */
  predicate Clicked(h: Holder) {
    h.pc.SaveClick? ==>
      h.kind.Interact? && h.copy.frozen == h.prior.frozen + if h.prior.pending.Some? then [h.kind.handle] else []
  }

  /** A click that was stored, and then undone by its own request: the question waits again in what it stores next. */
  predicate TookBack(h: Holder) {
    h.pc.Release? && h.kind.Interact? && h.copy.pending.Some? && h.base.frozen == h.copy.frozen + [h.kind.handle]
  }

  ghost predicate AnswersInv(h: Holder) { (Answers(h) && Clicked(h)) || TookBack(h) }

  /** The save of an answer lands, but is reported as failed, and the request undoes the click. */
  predicate LosesAnswer(env: Env, h: Holder, a: Action) {
    env.live && h.pc.SaveClick? && h.prior.pending.Some? && a == Fail(true)
  }

  lemma AtHopAnswers(cfg: Config, h: Holder, c: Conversation, hop: nat)
    requires h.base.frozen <= c.frozen && (h.kind.Wake? ==> h.base.frozen <= h.prior.frozen)
    ensures Answers(AtHop(cfg, h, c, hop)) && AtHop(cfg, h, c, hop).base == h.base
  {}

  lemma ReadChatAnswers(cfg: Config, env: Env, h: Holder)
    requires Answers(h) && h.pc.Read? && h.kind.Chat?
    ensures Answers(StepRead(cfg, env, h, Go).holder.value)
  {
    var taken := Take(CloseOut(h.copy, h.kind.text), UnreadNotices(cfg, h.copy, env.log), h.kind.text);
    AtHopAnswers(cfg, h.(copy := taken), taken.(status := Streaming), 0);
  }

  lemma ReadAnswers(cfg: Config, env: Env, h: Holder, a: Action)
    requires Answers(h) && h.pc.Read?
    ensures var o := StepRead(cfg, env, h, a).holder; o.Some? ==> Answers(o.value)
  {
    if a.Go? && h.kind.Chat? { ReadChatAnswers(cfg, env, h); }
  }

  lemma OpeningAnswers(cfg: Config, env: Env, h: Holder, a: Action)
    requires Answers(h) && Opening(h.pc)
    ensures var o := StepOpening(cfg, env, h, a).holder; o.Some? ==> Answers(o.value)
  {
    if h.pc.Read? { ReadAnswers(cfg, env, h, a); }
  }

  lemma ToolAnswers(cfg: Config, env: Env, token: Token, c: Conversation, t: Turn, ev: ToolEvent)
    ensures c.frozen <= ToolStep(cfg, env, token, c, t, ev).conv.frozen
  {}

  lemma FailsAnswers(h: Holder)
    requires Answers(h) && (h.kind.Wake? ==> Undoable(h) && Undoing(h))
    ensures Answers(TurnFails(h))
  {
    if h.kind.Wake? && !h.toolsRan { FailWakeExact(h); }
  }

  lemma ToolsAnswers(cfg: Config, env: Env, h: Holder, a: Action)
    requires Answers(h) && h.pc.Tools?
    ensures var o := StepTools(cfg, env, h, a).holder; o.Some? ==> Answers(o.value)
  {
    if a.Tool? {
      ToolAnswers(cfg, env, h.token, h.copy, h.pc.turn, a.ev);
      var o := ToolStep(cfg, env, h.token, h.copy, h.pc.turn, a.ev);
      AtHopAnswers(cfg, h.(copy := o.conv, toolsRan := h.toolsRan || o.turn.running), Say(o.conv, o.turn.results),
        h.pc.hop + 1);
    }
  }

  lemma InitAnswers(cfg: Config, env: Env, h: Holder, a: Action)
    requires Answers(h) && h.pc.Init? && !h.kind.Wake?
    ensures var o := StepInit(cfg, env, h, a).holder; o.Some? ==> Answers(o.value)
  {
    if a.Tool? { ToolAnswers(cfg, env, h.token, h.copy, h.pc.turn, a.ev); }
  }

  lemma ModelAnswers(cfg: Config, h: Holder, a: Action)
    requires Answers(h) && h.pc.Model? && (h.kind.Wake? ==> Undoable(h))
    ensures Answers(StepModel(cfg, h, a).holder.value)
  {
    FailsAnswers(h);
    if a.Reply? { AtHopAnswers(cfg, h, Say(Replied(h.copy, a.content), NotRun(CallIds(a.content))), h.pc.hop + 1); }
  }

  lemma TurningAnswers(cfg: Config, env: Env, h: Holder, a: Action)
    requires Answers(h) && Course(h) && Turning(h.pc)
    ensures var o := StepTurning(cfg, env, h, a).holder; o.Some? ==> Answers(o.value)
  {
    match h.pc
    case Init(_, _, _) => InitAnswers(cfg, env, h, a);
    case Tools(_, _) => ToolsAnswers(cfg, env, h, a);
    case Model(_) => ModelAnswers(cfg, h, a);
    case Context => FailsAnswers(h);
  }

  lemma ClickAnswers(cfg: Config, env: Env, h: Holder, a: Action)
    requires Answers(h) && Clicked(h) && h.pc.SaveClick? && UndoClick(h.copy, h.before) == h.prior
    ensures var o := StepSaveClick(cfg, env, h, a).holder;
            if LosesAnswer(env, h, a) then o.Some? && TookBack(o.value) else o.Some? ==> Answers(o.value)
  {
    if a.Go? { AtHopAnswers(cfg, h, h.copy.(status := Streaming), 0); }
  }

  lemma SavesAnswers(cfg: Config, env: Env, h: Holder, a: Action)
    requires Answers(h) && (h.pc.SaveInit? || h.pc.SaveWake?)
    requires h.pc.SaveInit? ==> !h.kind.Wake?
    requires h.pc.SaveWake? ==> h.kind.Wake? && Undoable(h) && !h.toolsRan
    ensures var o := StepSaving(cfg, env, h, a).holder; o.Some? ==> Answers(o.value)
  {
    if a.Go? { AtHopAnswers(cfg, h, h.copy.(status := Streaming), 0); }
    else if h.pc.SaveWake? { FailsAnswers(h); }
  }

  lemma RevisionAnswers(cfg: Config, env: Env, h: Holder, a: Action)
    requires Answers(h) && !Opening(h.pc) && !Turning(h.pc) && !h.pc.SaveClick? && !h.pc.SaveInit? && !h.pc.SaveWake?
    ensures var o := StepSaving(cfg, env, h, a).holder; o.Some? ==> Answers(o.value)
  {
    if h.pc.SaveRevision? { SaveRevisionAnswers(env, h, a); }
  }

  lemma SaveRevisionAnswers(env: Env, h: Holder, a: Action)
    requires Answers(h) && h.pc.SaveRevision?
    ensures var o := StepSaveRevision(env, h, a).holder; o.Some? ==> Answers(o.value)
  {}

  lemma SavingAnswers(cfg: Config, env: Env, h: Holder, a: Action)
    requires Answers(h) && Clicked(h) && Course(h) && !Opening(h.pc) && !Turning(h.pc)
    ensures var o := StepSaving(cfg, env, h, a).holder;
            if LosesAnswer(env, h, a) then o.Some? && TookBack(o.value) else o.Some? ==> Answers(o.value)
  {
    if h.pc.SaveClick? { ClickAnswers(cfg, env, h, a); }
    else if h.pc.SaveInit? || h.pc.SaveWake? { SavesAnswers(cfg, env, h, a); }
    else { RevisionAnswers(cfg, env, h, a); }
  }

  /** Only reading the notices records a click. */
  lemma ReadClicked(cfg: Config, env: Env, h: Holder, a: Action)
    requires h.pc.Read?
    ensures Clicked(StepRead(cfg, env, h, a).holder.value)
  {}

  lemma OpeningClicked(cfg: Config, env: Env, h: Holder, a: Action)
    requires Opening(h.pc)
    ensures var o := StepOpening(cfg, env, h, a).holder; o.Some? ==> Clicked(o.value)
  {
    if h.pc.Read? { ReadClicked(cfg, env, h, a); }
  }

  lemma TurningClicked(cfg: Config, env: Env, h: Holder, a: Action)
    requires Turning(h.pc)
    ensures var o := StepTurning(cfg, env, h, a).holder; o.Some? ==> Clicked(o.value)
  {}

  lemma SavingClicked(cfg: Config, env: Env, h: Holder, a: Action)
    requires !Opening(h.pc) && !Turning(h.pc)
    ensures var o := StepSaving(cfg, env, h, a).holder; o.Some? ==> Clicked(o.value)
  {}

  lemma StepAnswers(cfg: Config, env: Env, h: Holder, a: Action)
    requires Answers(h) && Clicked(h) && Course(h)
    ensures var o := Step(cfg, env, h, a).holder;
            if LosesAnswer(env, h, a) then o.Some? && TookBack(o.value) else o.Some? ==>
              Answers(o.value) && Clicked(o.value)
  {
    if Opening(h.pc) {
      OpeningAnswers(cfg, env, h, a);
      OpeningClicked(cfg, env, h, a);
    } else if Turning(h.pc) {
      TurningAnswers(cfg, env, h, a);
      TurningClicked(cfg, env, h, a);
    } else {
      SavingAnswers(cfg, env, h, a);
      SavingClicked(cfg, env, h, a);
    }
  }

  lemma StepAnswersInv(cfg: Config, env: Env, h: Holder, a: Action)
    requires AnswersInv(h) && Course(h)
    ensures var o := Step(cfg, env, h, a).holder;
            o.Some? ==> AnswersInv(o.value) && (TookBack(o.value) <==> LosesAnswer(env, h, a))
  {
    if !TookBack(h) {
      StepAnswers(cfg, env, h, a);
    }
  }

  lemma {:induction false} RunAnswers(cfg: Config, es: seq<Event>)
    requires KeepsQuestions(cfg, es)
    ensures Everyone(Run(cfg, es), AnswersInv)
  {
    if es != [] {
      var w, e := Run(cfg, es[..|es| - 1]), es[|es| - 1];
      RunAnswers(cfg, es[..|es| - 1]);
      RunCourse(cfg, es[..|es| - 1]);
      if e.Act? && e.token in w.holders {
        assert Course(w.holders[e.token]) && AnswersInv(w.holders[e.token]);
        StepAnswersInv(cfg, EnvOf(w, e.token), w.holders[e.token], e.action);
      }
      NextEveryone(cfg, w, e, AnswersInv);
    }
  }

  /** The current holder's save of an answer lands, and is reported as failed. */
  predicate AnswerLost(w: World, e: Event) {
    e.Act? && e.token in w.holders && LosesAnswer(EnvOf(w, e.token), w.holders[e.token], e.action)
  }

  /** The current holder's last save lands. */
  predicate Releases(w: World, e: Event) {
    e.Act? && e.token == w.token && e.token in w.holders && w.holders[e.token].pc.Release?
      && (e.action.Go? || e.action == Fail(true))
  }

  lemma OwnTookBack(cfg: Config, w: World, t: Token, a: Action)
    requires Serial(w) && t in w.holders && AnswersInv(w.holders[t]) && Course(w.holders[t])
    ensures var v := Acted(cfg, w, t, a); t in v.holders ==> (TookBack(v.holders[t]) <==> AnswerLost(w, Act(t, a)))
  {
    StepAnswersInv(cfg, EnvOf(w, t), w.holders[t], a);
  }

  /** A request keeps its state while others act, or has just loaded it, with no answer to take back. */
  lemma OthersTookBack(cfg: Config, w: World, e: Event, t: Token)
    requires Serial(w) && !(e.Act? && e.token == t) && t in Next(cfg, w, e).holders
    ensures TookBack(Next(cfg, w, e).holders[t]) <==> t in w.holders && TookBack(w.holders[t])
  {}

  /** A request stands to take an answer back exactly from the event that lost it to its own next step. */
  lemma {:induction false} TookBackIff(cfg: Config, es: seq<Event>, e: Event, t: Token)
    requires KeepsQuestions(cfg, es) && t in Run(cfg, es + [e]).holders
    ensures var w, v := Run(cfg, es), Run(cfg, es + [e]);
            TookBack(v.holders[t]) <==>
            (AnswerLost(w, e) && e.token == t)
              || (t in w.holders && TookBack(w.holders[t]) && !(e.Act? && e.token == t))
  {
    var w := Run(cfg, es);
    RunAnswers(cfg, es);
    RunCourse(cfg, es);
    RunSerial(cfg, es);
    assert (es + [e])[..|es|] == es;
    if e.Act? && e.token == t && t in w.holders {
      assert Course(w.holders[t]) && AnswersInv(w.holders[t]);
      OwnTookBack(cfg, w, t, e.action);
    } else {
      OthersTookBack(cfg, w, e, t);
    }
  }

  /** A last save stores the copy exactly when it lands. */
  lemma ReleaseSaves(cfg: Config, w: World, t: Token, a: Action)
    requires t in w.holders && w.holders[t].pc.Release?
    ensures Acted(cfg, w, t, a).row == if Releases(w, Act(t, a)) then w.holders[t].copy else w.row
  {}

  lemma TakenBackBy(cfg: Config, w: World, t: Token, a: Action)
    requires t in w.holders && AnswersInv(w.holders[t]) && (t == w.token ==> w.holders[t].base == w.row)
    requires Acted(cfg, w, t, a).row == w.row || (t == w.token && Acted(cfg, w, t, a).row == w.holders[t].copy)
    ensures !(w.row.frozen <= Acted(cfg, w, t, a).row.frozen) <==>
            Releases(w, Act(t, a)) && TookBack(w.holders[w.token])
  {
    if w.holders[t].pc.Release? { ReleaseSaves(cfg, w, t, a); }
  }

  /**
   * An answer is ever taken back exactly when a click whose save landed, though it was reported as failed, was
   * undone, and the request's last save stores the copy without it (Findings.AnswerTakenBack is such a run).
   */
  lemma {:induction false} TakenBackIff(cfg: Config, es: seq<Event>, e: Event)
    requires KeepsQuestions(cfg, es)
    ensures var w, v := Run(cfg, es), Run(cfg, es + [e]);
            !(w.row.frozen <= v.row.frozen) <==> Releases(w, e) && TookBack(w.holders[w.token])
  {
    var w := Run(cfg, es);
    RunAnswers(cfg, es);
    SavesExtendTheirBase(cfg, es, e);
    RunSerial(cfg, es);
    assert (es + [e])[..|es|] == es;
    if e.Act? && e.token in w.holders { TakenBackBy(cfg, w, e.token, e.action); }
  }

  /** No answer's save lands and is reported as failed. */
  ghost predicate KeepsAnswers(cfg: Config, es: seq<Event>) {
    es == [] || (KeepsAnswers(cfg, es[..|es| - 1]) && !AnswerLost(Run(cfg, es[..|es| - 1]), es[|es| - 1]))
  }

  lemma {:induction false} NoneTookBack(cfg: Config, es: seq<Event>, t: Token)
    requires KeepsQuestions(cfg, es) && KeepsAnswers(cfg, es) && t in Run(cfg, es).holders
    ensures !TookBack(Run(cfg, es).holders[t])
  {
    if es != [] {
      var front, e := es[..|es| - 1], es[|es| - 1];
      assert es == front + [e];
      TookBackIff(cfg, front, e, t);
      if t in Run(cfg, front).holders { NoneTookBack(cfg, front, t); }
    }
  }

  /**
   * Each question is answered at most once over a whole run, whatever else fails: what a stored conversation has
   * answered stays answered, in order, and (SurfaceIdentity) appears there once.
   */
  lemma {:induction false} AnswersStand(cfg: Config, es: seq<Event>, e: Event)
    requires KeepsQuestions(cfg, es) && KeepsAnswers(cfg, es)
    ensures Run(cfg, es).row.frozen <= Run(cfg, es + [e]).row.frozen
  {
    var w := Run(cfg, es);
    TakenBackIff(cfg, es, e);
    if w.token in w.holders { NoneTookBack(cfg, es, w.token); }
  }
}
