/** Expiry is final: what one live request is refused for, every later request is refused for. */
module Expiry {
  import opened History
  import opened Conversations
  import opened Requests
  import opened Worlds
  import opened Turns
  import opened Fencing
  import opened Pairing
  import opened Surfaces
  import opened Identity
  import opened Sessions

  /** What was read of a surface is what the store holds of it, unless that is lost. */
  predicate Faithful(payloads: map<Handle, Payload>, n: Handle, was: Handle, record: Payload) {
    was < n && (was in payloads ==> payloads[was] == record)
  }

  /**
   * A request that checks its copy is refused exactly when a surface's payload is lost, or an unrevised one has no
   * known
   * window or one that has run out; either way the copy is as it was, and a refusal only lets the lease go.
   */
  lemma {:induction false} RefusedExactly(cfg: Config, env: Env, h: Holder)
    requires h.pc.Fresh?
    ensures var n := Step(cfg, env, h, Go).holder;
            && n.Some? && n.value.copy == h.copy
            && (n.value.pc.Release? <==> exists k | k in h.copy.handles ::
                  k !in env.payloads || (k !in h.copy.superseded && OutOfDate(cfg, env.payloads[k], env.now)))
            && (n.value.pc.Release? || n.value.pc.Gate? || n.value.pc.Read?)
  {
    ExpiredIff(cfg, h.copy, env.payloads, env.now);
  }

  ghost predicate OpsFaithful(payloads: map<Handle, Payload>, n: Handle, t: Turn) {
    forall o | o in t.ops && t.ops[o].kind.Revise? && t.ops[o].record.Some? ::
      Faithful(payloads, n, t.ops[o].kind.target, t.ops[o].record.value)
  }

  ghost predicate ReadsFaithful(payloads: map<Handle, Payload>, n: Handle, h: Holder) {
    match h.pc
    case Init(_, _, t) => OpsFaithful(payloads, n, t)
    case Tools(_, t) => OpsFaithful(payloads, n, t)
    case PutRevision(was, record) => Faithful(payloads, n, was, record)
    case Revised(was, record, _) => Faithful(payloads, n, was, record)
    case _ => true
  }

  /** Handles are issued in order. */
  ghost predicate Below(payloads: map<Handle, Payload>, n: Handle) { forall h | h in payloads :: h < n }

  lemma ToolStepFaithful(cfg: Config, env: Env, token: Token, c: Conversation, t: Turn, ev: ToolEvent)
    requires OpsFaithful(env.payloads, env.nextHandle, t) && Below(env.payloads, env.nextHandle)
    ensures var o := ToolStep(cfg, env, token, c, t, ev);
            OpsFaithful(StoredIn(env, o.effect), Issued(env.nextHandle, o.effect), o.turn)
  {}

  lemma StepTurningFaithful(cfg: Config, env: Env, h: Holder, a: Action)
    requires ReadsFaithful(env.payloads, env.nextHandle, h) && Below(env.payloads, env.nextHandle) && Turning(h.pc)
    ensures var o := StepTurning(cfg, env, h, a);
            o.holder.Some? ==> ReadsFaithful(StoredIn(env, o.effect), Issued(env.nextHandle, o.effect), o.holder.value)
  {
    if a.Tool? {
      if h.pc.Init? { ToolStepFaithful(cfg, env, h.token, h.copy, h.pc.turn, a.ev); }
      if h.pc.Tools? { ToolStepFaithful(cfg, env, h.token, h.copy, h.pc.turn, a.ev); }
    }
  }

  lemma StepFaithful(cfg: Config, env: Env, h: Holder, a: Action)
    requires ReadsFaithful(env.payloads, env.nextHandle, h) && Below(env.payloads, env.nextHandle)
    ensures var o := Step(cfg, env, h, a);
            o.holder.Some? ==> ReadsFaithful(StoredIn(env, o.effect), Issued(env.nextHandle, o.effect), o.holder.value)
  {
    if Turning(h.pc) { StepTurningFaithful(cfg, env, h, a); }
    else if Opening(h.pc) { StepOpeningFaithful(cfg, env, h, a); }
    else { StepSavingFaithful(cfg, env, h, a); }
  }

  lemma StepOpeningFaithful(cfg: Config, env: Env, h: Holder, a: Action)
    requires Below(env.payloads, env.nextHandle) && Opening(h.pc)
    ensures var o := StepOpening(cfg, env, h, a);
            !o.effect.Stored? && (o.holder.Some? ==> ReadsFaithful(env.payloads, env.nextHandle, o.holder.value))
  {
    if h.pc.Read? { StepReadFaithful(cfg, env, h, a); }
  }

  lemma StepReadFaithful(cfg: Config, env: Env, h: Holder, a: Action)
    requires h.pc.Read?
    ensures var o := StepRead(cfg, env, h, a);
            !o.effect.Stored? && o.holder.Some? && ReadsFaithful(env.payloads, env.nextHandle, o.holder.value)
  {}

  lemma StepSavingFaithful(cfg: Config, env: Env, h: Holder, a: Action)
    requires ReadsFaithful(env.payloads, env.nextHandle, h) && Below(env.payloads, env.nextHandle) && !Opening(h.pc)
             && !Turning(h.pc)
    ensures var o := StepSaving(cfg, env, h, a);
            o.holder.Some? ==> ReadsFaithful(StoredIn(env, o.effect), Issued(env.nextHandle, o.effect), o.holder.value)
  {}

  // ── what a step may supersede ──────────────────────────────────────

  /** Whatever a step newly supersedes is not past its window. */
  ghost predicate SupersedesFresh(cfg: Config, env: Env, c: Conversation, d: Conversation) {
    forall k | k in d.superseded && k !in c.superseded && k in env.payloads :: !Late(cfg, env.payloads[k], env.now)
  }

  lemma ToolStepSupersedes(cfg: Config, env: Env, token: Token, c: Conversation, t: Turn, ev: ToolEvent)
    requires OpsFaithful(env.payloads, env.nextHandle, t)
    ensures SupersedesFresh(cfg, env, c, ToolStep(cfg, env, token, c, t, ev).conv)
  {}

  lemma StepTurningSupersedes(cfg: Config, env: Env, h: Holder, a: Action)
    requires ReadsFaithful(env.payloads, env.nextHandle, h) && Turning(h.pc)
    ensures var o := StepTurning(cfg, env, h, a);
            o.holder.Some? ==> SupersedesFresh(cfg, env, h.copy, o.holder.value.copy)
  {
    if a.Tool? {
      if h.pc.Init? { ToolStepSupersedes(cfg, env, h.token, h.copy, h.pc.turn, a.ev); }
      if h.pc.Tools? { ToolStepSupersedes(cfg, env, h.token, h.copy, h.pc.turn, a.ev); }
    }
  }

  lemma StepOpeningSupersedes(cfg: Config, env: Env, h: Holder, a: Action)
    requires Opening(h.pc)
    ensures var o := StepOpening(cfg, env, h, a); o.holder.Some? ==> o.holder.value.copy.superseded == h.copy.superseded
  {
    if h.pc.Read? { StepReadSupersedes(cfg, env, h, a); }
  }

  lemma StepReadSupersedes(cfg: Config, env: Env, h: Holder, a: Action)
    ensures var o := StepRead(cfg, env, h, a).holder; o.Some? ==> o.value.copy.superseded == h.copy.superseded
  {
    if a.Go? && h.kind.Chat? { ReadChatSupersedes(cfg, env, h); }
  }

  lemma ReadChatSupersedes(cfg: Config, env: Env, h: Holder)
    requires h.kind.Chat?
    ensures var o := StepRead(cfg, env, h, Go).holder; o.Some? ==> o.value.copy.superseded == h.copy.superseded
  {}

  lemma StepSavingSupersedes(cfg: Config, env: Env, h: Holder, a: Action)
    requires ReadsFaithful(env.payloads, env.nextHandle, h) && !Opening(h.pc) && !Turning(h.pc)
    ensures var o := StepSaving(cfg, env, h, a);
            o.holder.Some? ==> SupersedesFresh(cfg, env, h.copy, o.holder.value.copy)
  {}

  /** No turn, undo or revision supersedes a surface that is past its window. */
  lemma StepSupersedes(cfg: Config, env: Env, h: Holder, a: Action)
    requires ReadsFaithful(env.payloads, env.nextHandle, h)
    ensures var o := Step(cfg, env, h, a); o.holder.Some? ==> SupersedesFresh(cfg, env, h.copy, o.holder.value.copy)
  {
    if Turning(h.pc) { StepTurningSupersedes(cfg, env, h, a); }
    else if Opening(h.pc) { StepOpeningSupersedes(cfg, env, h, a); }
    else { StepSavingSupersedes(cfg, env, h, a); }
  }

  // ── over whole runs ────────────────────────────────────────────────

  ghost predicate PayloadWorld(w: World) {
    Below(w.payloads, w.nextHandle) && Everyone(w, h => ReadsFaithful(w.payloads, w.nextHandle, h))
  }

  /** Later payloads take newer handles; others may be lost. */
  predicate Newer(w: World, v: World) {
    w.nextHandle <= v.nextHandle && forall h | h in v.payloads && h < w.nextHandle ::
      h in w.payloads && v.payloads[h] == w.payloads[h]
  }

  lemma NextNewer(cfg: Config, w: World, e: Event)
    ensures Newer(w, Next(cfg, w, e))
  {}

  lemma FaithfulStill(w: World, v: World, h: Holder)
    requires ReadsFaithful(w.payloads, w.nextHandle, h) && Newer(w, v)
    ensures ReadsFaithful(v.payloads, v.nextHandle, h)
  {}

  lemma NextBelow(cfg: Config, w: World, e: Event)
    requires Below(w.payloads, w.nextHandle)
    ensures Below(Next(cfg, w, e).payloads, Next(cfg, w, e).nextHandle)
  {}

  lemma ActedPayloads(cfg: Config, w: World, t: Token, a: Action)
    requires t in w.holders
    ensures var e, v := Step(cfg, EnvOf(w, t), w.holders[t], a).effect, Acted(cfg, w, t, a);
            v.payloads == StoredIn(EnvOf(w, t), e) && v.nextHandle == Issued(w.nextHandle, e)
  {}

  lemma NextPayloads(cfg: Config, w: World, e: Event)
    requires PayloadWorld(w)
    ensures PayloadWorld(Next(cfg, w, e))
  {
    var v := Next(cfg, w, e);
    NextBelow(cfg, w, e);
    NextNewer(cfg, w, e);
    forall t | t in w.holders ensures ReadsFaithful(v.payloads, v.nextHandle, w.holders[t]) {
      assert ReadsFaithful(w.payloads, w.nextHandle, w.holders[t]);
      FaithfulStill(w, v, w.holders[t]);
    }
    if e.Act? && e.token in w.holders {
      StepFaithful(cfg, EnvOf(w, e.token), w.holders[e.token], e.action);
      ActedPayloads(cfg, w, e.token, e.action);
    }
    NextEveryone(cfg, w, e, (h: Holder) => ReadsFaithful(v.payloads, v.nextHandle, h));
  }

  lemma {:induction false} RunPayloads(cfg: Config, es: seq<Event>)
    ensures PayloadWorld(Run(cfg, es))
  {
    if es != [] {
      RunPayloads(cfg, es[..|es| - 1]);
      NextPayloads(cfg, Run(cfg, es[..|es| - 1]), es[|es| - 1]);
    }
  }

  /**
   * Surface `s` closes the conversation for good: in the row, and in the copy of the request whose lease is current.
   */
  predicate Closed(cfg: Config, w: World, s: Handle) {
    && Closes(cfg, w.row, w.payloads, w.now, s)
    && (w.token in w.holders && s in w.payloads ==> s !in w.holders[w.token].copy.superseded)
  }

  lemma ClosesStill(cfg: Config, w: World, v: World, c: Conversation, d: Conversation, s: Handle)
    requires Closes(cfg, c, w.payloads, w.now, s) && s < w.nextHandle && Newer(w, v) && w.now <= v.now
    requires s in d.handles && (s in d.superseded ==> s in c.superseded || s !in w.payloads)
    ensures Closes(cfg, d, v.payloads, v.now, s)
  {}

  lemma RowKnows(w: World, s: Handle)
    requires SurfaceWorld(w) && s in w.row.handles
    ensures s < w.nextHandle
  {}

  lemma SavedGrown(cfg: Config, w: World, e: Event)
    requires Serial(w) && SurfaceWorld(w)
    ensures var v := Next(cfg, w, e);
            v.row == w.row || (e.Act? && e.token == w.token && e.token in w.holders && v.row == w.holders[e.token].copy
              && Grown(w.row, v.row))
  {
    if e.Act? && e.token in w.holders {
      StepFenced(cfg, EnvOf(w, e.token), w.holders[e.token], e.action);
      HolderGrown(w, e.token);
    }
  }

  lemma NextClosesRow(cfg: Config, w: World, e: Event, s: Handle)
    requires Serial(w) && SurfaceWorld(w) && Closed(cfg, w, s)
    ensures var v := Next(cfg, w, e); Closes(cfg, v.row, v.payloads, v.now, s)
  {
    var v := Next(cfg, w, e);
    NextNewer(cfg, w, e);
    RowKnows(w, s);
    RowStill(cfg, w, e, s);
    ClosesStill(cfg, w, v, w.row, v.row, s);
  }

  lemma RowStill(cfg: Config, w: World, e: Event, s: Handle)
    requires Serial(w) && SurfaceWorld(w) && s in w.row.handles
             && (w.token in w.holders && s in w.payloads ==> s !in w.holders[w.token].copy.superseded)
    ensures var v := Next(cfg, w, e);
            s in v.row.handles && w.now <= v.now
            && (s in v.row.superseded ==> s in w.row.superseded || s !in w.payloads)
  {
    SavedGrown(cfg, w, e);
  }

  /** Whose copy the next save would store, after a step. */
  lemma NextLive(cfg: Config, w: World, e: Event)
    requires Serial(w)
    ensures var v := Next(cfg, w, e);
            v.token in v.holders ==>
              || (v.token == w.token && v.token in w.holders && v.holders[v.token] == w.holders[v.token])
              || (e.Act? && e.token == w.token == v.token && e.token in w.holders
                 && Step(cfg, EnvOf(w, e.token), w.holders[e.token], e.action).holder == Some(v.holders[v.token]))
              || (e.Load? && v.holders[v.token].copy == w.row)
  {}

  lemma NextClosed(cfg: Config, w: World, e: Event, s: Handle)
    requires Serial(w) && SurfaceWorld(w) && PayloadWorld(w) && Closed(cfg, w, s)
    ensures Closed(cfg, Next(cfg, w, e), s)
  {
    var v := Next(cfg, w, e);
    NextClosesRow(cfg, w, e, s);
    NextNewer(cfg, w, e);
    RowKnows(w, s);
    NextLive(cfg, w, e);
    if w.token in w.holders {
      assert ReadsFaithful(w.payloads, w.nextHandle, w.holders[w.token]);
      if e.Act? { StepSupersedes(cfg, EnvOf(w, w.token), w.holders[w.token], e.action); }
    }
  }

  /** A request that will do nothing but let its lease go: refused, or sure to be. */
  predicate TurnedAway(cfg: Config, w: World, s: Handle, h: Holder) {
    || h.pc.Release?
    || (Closes(cfg, h.copy, w.payloads, w.now, s) && !h.kind.Start?
        && (h.pc.Announce? || h.pc.AppendOwed? || (h.pc.Fresh? && !h.kind.Update?) || (h.pc.Gate? && h.kind.Update?)))
  }

  lemma StepTurnedAway(cfg: Config, w: World, t: Token, a: Action, s: Handle)
    requires t in w.holders && TurnedAway(cfg, w, s, w.holders[t])
    ensures var o := Step(cfg, EnvOf(w, t), w.holders[t], a);
            !o.effect.Stored? && (o.holder.Some? ==> TurnedAway(cfg, w, s, o.holder.value))
  {}

  lemma NewTurnedAway(cfg: Config, w: World, kind: Kind, s: Handle)
    requires Whole(w.nextHandle, w.row) && Closes(cfg, w.row, w.payloads, w.now, s)
    ensures TurnedAway(cfg, w, s, NewHolder(cfg, w, kind))
  {}

  lemma TurnedAwayStill(cfg: Config, w: World, v: World, s: Handle, h: Holder)
    requires TurnedAway(cfg, w, s, h) && s < w.nextHandle && Newer(w, v) && w.now <= v.now
    ensures TurnedAway(cfg, v, s, h)
  {}

  /** Every request newer than `t` is turned away. */
  predicate Shut(cfg: Config, w: World, s: Handle, t: Token) {
    forall u | u in w.holders && u > t :: TurnedAway(cfg, w, s, w.holders[u])
  }

  lemma NextShut(cfg: Config, w: World, e: Event, s: Handle, t: Token)
    requires Serial(w) && SurfaceWorld(w) && Closed(cfg, w, s) && Shut(cfg, w, s, t)
    ensures Shut(cfg, Next(cfg, w, e), s, t)
  {
    var v := Next(cfg, w, e);
    NextNewer(cfg, w, e);
    RowKnows(w, s);
    forall u | u in v.holders && u > t ensures TurnedAway(cfg, v, s, v.holders[u]) {
      NextTurnedAway(cfg, w, e, s, u);
      TurnedAwayStill(cfg, w, v, s, v.holders[u]);
    }
  }

  lemma NextTurnedAway(cfg: Config, w: World, e: Event, s: Handle, u: Token)
    requires Whole(w.nextHandle, w.row) && Closes(cfg, w.row, w.payloads, w.now, s)
    requires u in w.holders ==> TurnedAway(cfg, w, s, w.holders[u])
    ensures u in Next(cfg, w, e).holders ==> TurnedAway(cfg, w, s, Next(cfg, w, e).holders[u])
  {
    if e.Load? { NewTurnedAway(cfg, w, e.kind, s); }
    else if e.Act? && e.token == u && u in w.holders { StepTurnedAway(cfg, w, u, e.action, s); }
  }

  lemma {:induction false} ClosedForGood(cfg: Config, es: seq<Event>, more: seq<Event>, s: Handle)
    requires KeepsQuestions(cfg, es + more) && Closed(cfg, Run(cfg, es), s) && Serial(Run(cfg, es))
    ensures Closed(cfg, Run(cfg, es + more), s) && Shut(cfg, Run(cfg, es + more), s, Run(cfg, es).token)
  {
    if more == [] {
      assert es + more == es;
    } else {
      var so := es + more[..|more| - 1];
      assert (es + more)[..|es + more| - 1] == so;
      ClosedForGood(cfg, es, more[..|more| - 1], s);
      RunSerial(cfg, so);
      RunSurface(cfg, so);
      RunPayloads(cfg, so);
      NextClosed(cfg, Run(cfg, so), more[|more| - 1], s);
      NextShut(cfg, Run(cfg, so), more[|more| - 1], s, Run(cfg, es).token);
    }
  }

  /** `t` is about to be refused as out of date. */
  predicate Refused(cfg: Config, w: World, t: Token) {
    && t in w.holders
    && (w.holders[t].pc.Fresh? || (w.holders[t].pc.Gate? && w.holders[t].kind.Update?))
    && Expired(cfg, w.holders[t].copy, w.payloads, w.now)
  }

  /**
   * For the request whose lease is current, what closes its copy closes the conversation, unless this turn showed it.
   */
  lemma LiveCloses(cfg: Config, w: World, s: Handle)
    requires Serial(w) && SurfaceWorld(w) && w.token in w.holders
    ensures Closed(cfg, w, s) <==> s in w.row.handles && Closes(cfg, w.holders[w.token].copy, w.payloads, w.now, s)
  {
    HolderGrown(w, w.token);
  }

  lemma RefusedCloses(cfg: Config, w: World)
    requires Serial(w) && SurfaceWorld(w) && Refused(cfg, w, w.token)
    ensures exists s :: Closed(cfg, w, s)
  {
    var h := w.holders[w.token];
    var s :| s in h.copy.handles && Closes(cfg, h.copy, w.payloads, w.now, s);
    assert SurfaceInv(w.nextHandle, h);
    LiveCloses(cfg, w, s);
  }

  /**
   * Expiry is final: once any request is refused as out of date, and it is the one that holds the lease or the
   * surface that closed its copy closes the conversation as it now is, whatever happens next the row stays
   * expired, and no request loaded after it ever does more than let its lease go.
   */
  lemma {:induction false} RefusalIsFinal(cfg: Config, es: seq<Event>, more: seq<Event>, t: Token)
    requires KeepsQuestions(cfg, es + more) && Refused(cfg, Run(cfg, es), t)
    requires t == Run(cfg, es).token || exists s :: Closed(cfg, Run(cfg, es), s)
    ensures var w, v := Run(cfg, es), Run(cfg, es + more);
            Expired(cfg, v.row, v.payloads, v.now) && exists s :: Closed(cfg, v, s) && Shut(cfg, v, s, w.token)
  {
    KeepsPrefix(cfg, es, more);
    RunSerial(cfg, es);
    RunSurface(cfg, es);
    if t == Run(cfg, es).token { RefusedCloses(cfg, Run(cfg, es)); }
    var s :| Closed(cfg, Run(cfg, es), s);
    ClosedForGood(cfg, es, more, s);
  }

  /** So is an update refused within a turn, for a surface the conversation had before the turn's last save. */
  lemma {:induction false} TurnRefusalIsFinal(cfg: Config, es: seq<Event>, more: seq<Event>, s: Handle)
    requires KeepsQuestions(cfg, es + more)
    requires var w := Run(cfg, es);
             w.token in w.holders && s in w.row.handles && Closes(cfg, w.holders[w.token].copy, w.payloads, w.now, s)
    ensures var w, v := Run(cfg, es), Run(cfg, es + more);
            Expired(cfg, v.row, v.payloads, v.now) && Shut(cfg, v, s, w.token)
  {
    KeepsPrefix(cfg, es, more);
    RunSerial(cfg, es);
    RunSurface(cfg, es);
    LiveCloses(cfg, Run(cfg, es), s);
    ClosedForGood(cfg, es, more, s);
  }

  // ── exactly when a refusal is final ────────────────────────────────

  /** Not let in: a request refused, about to be, or still to be judged. */
  predicate Outside(h: Holder) {
    h.pc.Announce? || h.pc.AppendOwed? || h.pc.Release? || (h.pc.Fresh? && !h.kind.Update?)
      || (h.pc.Gate? && h.kind.Update?)
  }

  predicate AllOutside(w: World, t: Token) { forall u | u in w.holders && u > t :: Outside(w.holders[u]) }

  /** Whatever happens next, no request loaded from now on is ever let in. */
  ghost predicate Final(cfg: Config, es: seq<Event>) {
    forall more | KeepsQuestions(cfg, es + more) :: AllOutside(Run(cfg, es + more), Run(cfg, es).token)
  }

  /** The request whose token is current has ended: until its lease runs out nobody is let in, and then anybody. */
  predicate Ended(w: World) { w.token !in w.holders }

  /** When the next request can load. */
  function Opens(w: World): nat {
    if w.leaseUntil.Some? && w.leaseUntil.value > w.now then w.leaseUntil.value else w.now
  }

  lemma ShutIsOutside(cfg: Config, w: World, s: Handle, t: Token)
    requires Shut(cfg, w, s, t)
    ensures AllOutside(w, t)
  {
    forall u | u in w.holders && u > t ensures Outside(w.holders[u]) { assert TurnedAway(cfg, w, s, w.holders[u]); }
  }

  /** Held by nobody, with a lease still to run out, and closed by then. */
  predicate Lapsing(cfg: Config, w: World, s: Handle, t: Token) {
    && w.token == t && t !in w.holders && w.leaseUntil.Some? && w.leaseUntil.value > w.now
    && Closes(cfg, w.row, w.payloads, w.leaseUntil.value, s)
  }

  predicate Doomed(cfg: Config, w: World, s: Handle, t: Token) {
    Lapsing(cfg, w, s, t) || (Closed(cfg, w, s) && Shut(cfg, w, s, t))
  }

  /** Nothing that happens meanwhile touches the row, but for data loss. */
  lemma LapsingStays(cfg: Config, w: World, e: Event, s: Handle, t: Token)
    requires Serial(w) && Lapsing(cfg, w, s, t) && s < w.nextHandle
    ensures var v := Next(cfg, w, e);
            && v.token == t && t !in v.holders && v.row == w.row && v.leaseUntil == w.leaseUntil
            && (forall u | u in v.holders :: u < t)
            && (s in v.payloads ==> s in w.payloads && v.payloads[s] == w.payloads[s])
  {
    if e.Act? && e.token in w.holders {
      StepFenced(cfg, EnvOf(w, e.token), w.holders[e.token], e.action);
    }
  }

  lemma LapsingNext(cfg: Config, w: World, e: Event, s: Handle, t: Token)
    requires Serial(w) && SurfaceWorld(w) && Lapsing(cfg, w, s, t)
    ensures Doomed(cfg, Next(cfg, w, e), s, t)
  {
    var v := Next(cfg, w, e);
    RowKnows(w, s);
    LapsingStays(cfg, w, e, s, t);
    ClosesThen(cfg, w, v, s, w.leaseUntil.value);
    if v.leaseUntil.value <= v.now { ClosesThen(cfg, w, v, s, v.now); }
  }

  lemma ClosesThen(cfg: Config, w: World, v: World, s: Handle, at: nat)
    requires w.leaseUntil.Some? && Closes(cfg, w.row, w.payloads, w.leaseUntil.value, s) && w.leaseUntil.value <= at
    requires v.row == w.row
    requires s in v.payloads ==> s in w.payloads && v.payloads[s] == w.payloads[s]
    ensures Closes(cfg, v.row, v.payloads, at, s)
  {}

  lemma {:induction false} DoomedForGood(cfg: Config, es: seq<Event>, more: seq<Event>, s: Handle)
    requires KeepsQuestions(cfg, es + more) && Doomed(cfg, Run(cfg, es), s, Run(cfg, es).token)
    ensures Doomed(cfg, Run(cfg, es + more), s, Run(cfg, es).token)
  {
    if more == [] {
      assert es + more == es;
    } else {
      var so, e := es + more[..|more| - 1], more[|more| - 1];
      assert (es + more)[..|es + more| - 1] == so;
      DoomedForGood(cfg, es, more[..|more| - 1], s);
      RunSerial(cfg, so);
      RunSurface(cfg, so);
      RunPayloads(cfg, so);
      DoomedNext(cfg, Run(cfg, so), e, s, Run(cfg, es).token);
    }
  }

  lemma DoomedNext(cfg: Config, w: World, e: Event, s: Handle, t: Token)
    requires Serial(w) && SurfaceWorld(w) && PayloadWorld(w) && Doomed(cfg, w, s, t)
    ensures Doomed(cfg, Next(cfg, w, e), s, t)
  {
    if Lapsing(cfg, w, s, t) {
      LapsingNext(cfg, w, e, s, t);
    } else {
      NextClosed(cfg, w, e, s);
      NextShut(cfg, w, e, s, t);
    }
  }

  lemma {:induction false} ExpiredIsFinal(cfg: Config, es: seq<Event>, more: seq<Event>)
    requires KeepsQuestions(cfg, es + more) && Ended(Run(cfg, es))
    requires var w := Run(cfg, es); Expired(cfg, w.row, w.payloads, Opens(w))
    ensures AllOutside(Run(cfg, es + more), Run(cfg, es).token)
  {
    var w := Run(cfg, es);
    var s :| s in w.row.handles && Closes(cfg, w.row, w.payloads, Opens(w), s);
    RunSerial(cfg, es);
    DoomedForGood(cfg, es, more, s);
    RunSerial(cfg, es + more);
    if !Lapsing(cfg, Run(cfg, es + more), s, w.token) { ShutIsOutside(cfg, Run(cfg, es + more), s, w.token); }
  }

  /** One more event, of a kind that loses no question. */
  lemma Along(cfg: Config, es: seq<Event>, e: Event)
    requires KeepsQuestions(cfg, es) && Keeps(Run(cfg, es), e)
    ensures KeepsQuestions(cfg, es + [e]) && Run(cfg, es + [e]) == Next(cfg, Run(cfg, es), e)
  {
    assert (es + [e])[..|es|] == es;
  }

  /** A message is at most three steps from being let in. */
  predicate Knocks(cfg: Config, w: World, t: Token, pc: Pc) {
    && t == w.token && t in w.holders && w.holders[t].kind.Chat? && w.holders[t].pc == pc
    && !Expired(cfg, w.holders[t].copy, w.payloads, w.now)
    && (pc.AppendOwed? ==> w.holders[t].copy.announcing.Some?)
  }

  /** Some request newer than `t` may yet be let in. */
  ghost predicate CanLetIn(cfg: Config, es: seq<Event>, t: Token) {
    exists more :: KeepsQuestions(cfg, es + more) && !AllOutside(Run(cfg, es + more), t)
  }

  lemma LaterCan(cfg: Config, es: seq<Event>, e: Event, t: Token)
    requires CanLetIn(cfg, es + [e], t)
    ensures CanLetIn(cfg, es, t)
  {
    var more :| KeepsQuestions(cfg, es + [e] + more) && !AllOutside(Run(cfg, es + [e] + more), t);
    assert es + [e] + more == es + ([e] + more);
  }

  lemma NowCan(cfg: Config, es: seq<Event>, t: Token, u: Token)
    requires KeepsQuestions(cfg, es) && u in Run(cfg, es).holders && u > t && Run(cfg, es).holders[u].pc.Read?
    ensures CanLetIn(cfg, es, t)
  {
    assert !Outside(Run(cfg, es).holders[u]);
    assert es + [] == es;
  }

  lemma KnocksCan(cfg: Config, es: seq<Event>, u: Token, pc: Pc, t: Token)
    requires KeepsQuestions(cfg, es) && Knocks(cfg, Run(cfg, es), u, pc) && u > t
             && (pc.Announce? || pc.AppendOwed? || pc.Fresh?)
    ensures CanLetIn(cfg, es, t)
    decreases if pc.Announce? then 2 else if pc.AppendOwed? then 1 else 0
  {
    var so := es + [Act(u, Go)];
    Along(cfg, es, Act(u, Go));
    KnocksNext(cfg, Run(cfg, es), u, pc);
    if pc.Fresh? { NowCan(cfg, so, t, u); } else { KnocksCan(cfg, so, u, Run(cfg, so).holders[u].pc, t); }
    LaterCan(cfg, es, Act(u, Go), t);
  }

  lemma KnocksNext(cfg: Config, w: World, t: Token, pc: Pc)
    requires Knocks(cfg, w, t, pc) && (pc.Announce? || pc.AppendOwed? || pc.Fresh?)
    ensures var v := Next(cfg, w, Act(t, Go));
            && t in v.holders
            && (pc.Announce? ==> Knocks(cfg, v, t, AppendOwed) || Knocks(cfg, v, t, Fresh))
            && (pc.AppendOwed? ==> Knocks(cfg, v, t, Fresh))
            && (pc.Fresh? ==> v.holders[t].pc.Read?)
  {
    var c := w.holders[t].copy;
    assert forall h :: Closes(cfg, c.(announcing := None), w.payloads, w.now, h) == Closes(cfg, c, w.payloads, w.now,
           h);
  }

  lemma FreshCan(cfg: Config, es: seq<Event>)
    requires KeepsQuestions(cfg, es) && Ended(Run(cfg, es))
    requires var w := Run(cfg, es); !Expired(cfg, w.row, w.payloads, Opens(w))
    ensures CanLetIn(cfg, es, Run(cfg, es).token)
  {
    var w := Run(cfg, es);
    var wait, load := Tick(Opens(w) - w.now), Load(Chat(""));
    Along(cfg, es, wait);
    Along(cfg, es + [wait], load);
    KnocksFirst(cfg, w);
    KnocksCan(cfg, es + [wait] + [load], w.token + 1, Announce, w.token);
    LaterCan(cfg, es + [wait], load, w.token);
    LaterCan(cfg, es, wait, w.token);
  }

  lemma KnocksFirst(cfg: Config, w: World)
    requires Ended(w) && !Expired(cfg, w.row, w.payloads, Opens(w))
    ensures Knocks(cfg, Next(cfg, Next(cfg, w, Tick(Opens(w) - w.now)), Load(Chat(""))), w.token + 1, Announce)
  {}

  /**
   * Once the request that held the conversation has ended or crashed, a refusal is final exactly when the stored
   * conversation is out of date by the time the next request can load: whoever was refused, and over whatever copy, a
   * request loaded later can be let in if and only if the row shows nothing expired then.
   */
  lemma {:induction false} FinalIff(cfg: Config, es: seq<Event>)
    requires KeepsQuestions(cfg, es) && Ended(Run(cfg, es))
    ensures var w := Run(cfg, es); Final(cfg, es) <==> Expired(cfg, w.row, w.payloads, Opens(w))
  {
    var w := Run(cfg, es);
    if Expired(cfg, w.row, w.payloads, Opens(w)) {
      forall more | KeepsQuestions(cfg, es + more) ensures AllOutside(Run(cfg, es + more), w.token) {
        ExpiredIsFinal(cfg, es, more);
      }
    } else {
      FreshCan(cfg, es);
    }
  }
}
