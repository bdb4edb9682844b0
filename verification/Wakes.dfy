/** Wake turns: how often they run, and that no notice wakes two of them that act. */
module Wakes {
  import opened History
  import opened Conversations
  import opened Requests
  import opened Worlds
  import opened Turns
  import opened Fencing
  import opened Pairing

  // ── when a notice wakes the model ──────────────────────────────────

  /** The turns noted that started within the window. */
  function StartedWithin(wakes: seq<nat>, now: nat, perMs: nat): set<int> {
    set i | 0 <= i < |wakes| && now < wakes[i] + perMs
  }

  lemma {:induction false} RecentCounts(wakes: seq<nat>, now: nat, perMs: nat)
    ensures |Recent(wakes, now, perMs)| == |StartedWithin(wakes, now, perMs)|
  {
    if wakes != [] {
      var last := |wakes| - 1;
      RecentCounts(wakes[..last], now, perMs);
      var before := StartedWithin(wakes[..last], now, perMs);
      assert StartedWithin(wakes, now, perMs) == before + if now < wakes[last] + perMs then {last} else {};
    }
  }

  /** A wake notice no turn has woken for, nor the history taken in. */
  predicate Due(c: Conversation, log: seq<Notice>) {
    exists i | 0 <= i < |log| :: c.noticedThrough <= i && c.wokeThrough <= i && log[i].wake
  }

  /**
   * A request to wake the model does so exactly when a notice is due and fewer turns than the limit have started
   * within its window. Whether it does or not, no notice then known wakes again; and if none was due nothing changes.
   */
  lemma {:induction false} WakesWhenDue(cfg: Config, env: Env, h: Holder)
    requires h.pc.Read? && h.kind.Wake? && cfg.sendsNotices
    ensures var n, c := StepRead(cfg, env, h, Go).holder.value, h.copy;
            && (n.pc.SaveWake? <==>
                  Due(c, env.log) && |StartedWithin(c.wakes, env.now, cfg.wakePerMs)| < cfg.wakeCount)
            && (Due(c, env.log) ==> NewestWake(env.log, c.noticedThrough, n.copy.wokeThrough))
            && (!n.pc.SaveWake? ==> n.pc.Release? && n.copy == c.(wokeThrough := n.copy.wokeThrough,
                  wakes := n.copy.wakes))
            && (n.pc.SaveWake? && cfg.wakeCount > 0 ==>
                  n.copy.wakeTurns == c.wakeTurns + 1 && n.copy.wakes != [] && n.copy.wakes[|n.copy.wakes| - 1] ==
                    env.now)
            && (!Due(c, env.log) ==> n.copy == c)
  {
    var c, log := h.copy, env.log;
    RecentCounts(c.wakes, env.now, cfg.wakePerMs);
    var u := UnreadNotices(cfg, c, log);
    if |log| > c.noticedThrough { LastWakeIs(log, c.noticedThrough); }
    DueIff(c, log, u.wake);
  }

  lemma DueIff(c: Conversation, log: seq<Notice>, wake: nat)
    requires if |log| <= c.noticedThrough then wake == 0 else NewestWake(log, c.noticedThrough, wake)
    ensures Due(c, log) <==> wake > c.wokeThrough
  {
    if wake > c.wokeThrough {
      var i := wake - 1;
      assert log[i].wake;
    }
  }

  // ── the limit ──────────────────────────────────────────────────────

  predicate Ordered(s: seq<nat>) { forall i, j | 0 <= i < j < |s| :: s[i] <= s[j] }

  predicate Within(s: seq<nat>, now: nat) { forall t | t in s :: t <= now }

  lemma RecentPush(s: seq<nat>, t: nat, now: nat, perMs: nat)
    ensures Recent(s + [t], now, perMs) == Recent(s, now, perMs) + (if now < t + perMs then [t] else [])
  {
    assert (s + [t])[..|s|] == s;
  }

  lemma {:induction false} RecentTwice(s: seq<nat>, a: nat, b: nat, perMs: nat)
    requires a <= b
    ensures Recent(Recent(s, a, perMs), b, perMs) == Recent(s, b, perMs)
  {
    if s != [] {
      RecentTwice(s[..|s| - 1], a, b, perMs);
      if a < s[|s| - 1] + perMs { RecentPush(Recent(s[..|s| - 1], a, perMs), s[|s| - 1], b, perMs); }
      else { assert Recent(s, a, perMs) == Recent(s[..|s| - 1], a, perMs); }
    }
  }

  lemma {:induction false} RecentTail(s: seq<nat>, now: nat, perMs: nat, k: nat)
    requires k <= |s| && forall i | |s| - k <= i < |s| :: now < s[i] + perMs
    ensures |Recent(s, now, perMs)| >= k
  {
    if k > 0 { RecentTail(s[..|s| - 1], now, perMs, k - 1); }
  }

  /** At any moment from `from` on, the turns that ran are no more than the recorded ones in the window. */
  ghost predicate Counts(perMs: nat, starts: seq<nat>, wakes: seq<nat>, from: nat) {
    forall now: nat | from <= now :: |Recent(starts, now, perMs)| <= |Recent(wakes, now, perMs)|
  }

  lemma CountsPush(perMs: nat, starts: seq<nat>, wakes: seq<nat>, t: nat, from: nat)
    requires Counts(perMs, starts, wakes, from)
    ensures Counts(perMs, starts + [t], wakes + [t], from)
  {
    forall now: nat | from <= now ensures |Recent(starts + [t], now, perMs)| <= |Recent(wakes + [t], now, perMs)| {
      RecentPush(starts, t, now, perMs);
      RecentPush(wakes, t, now, perMs);
    }
  }

  lemma CountsRecent(perMs: nat, starts: seq<nat>, wakes: seq<nat>, now: nat)
    requires Counts(perMs, starts, wakes, now)
    ensures Counts(perMs, starts, Recent(wakes, now, perMs), now)
  {
    forall later: nat | now <= later ensures |Recent(starts, later, perMs)| <=
      |Recent(Recent(wakes, now, perMs), later, perMs)| {
      RecentTwice(wakes, now, later, perMs);
    }
  }

  /** Any `count` + 1 turns in a row span at least `perMs`. */
  predicate Spaced(cfg: Config, starts: seq<nat>) {
    forall i | 0 <= i && i + cfg.wakeCount < |starts| :: starts[i] + cfg.wakePerMs <= starts[i + cfg.wakeCount]
  }

  lemma SpacedPush(cfg: Config, starts: seq<nat>, at: nat)
    requires Spaced(cfg, starts) && Ordered(starts) && Within(starts, at)
             && |Recent(starts, at, cfg.wakePerMs)| < cfg.wakeCount
    ensures Spaced(cfg, starts + [at])
  {
    var more := starts + [at];
    forall i | 0 <= i && i + cfg.wakeCount < |more| ensures more[i] + cfg.wakePerMs <= more[i + cfg.wakeCount] {
      if i + cfg.wakeCount == |starts| && at < starts[i] + cfg.wakePerMs {
        RecentTail(starts, at, cfg.wakePerMs, cfg.wakeCount);
      }
    }
  }

  lemma OrderedPush(starts: seq<nat>, at: nat)
    requires Ordered(starts) && Within(starts, at)
    ensures Ordered(starts + [at])
  {
    var more := starts + [at];
    forall i, j | 0 <= i < j < |more| ensures more[i] <= more[j] {
      if j == |starts| { assert starts[i] in starts; }
    }
  }

  /** What a request whose lease is current knows of the turns that ran. */
  ghost predicate WakeInv(cfg: Config, starts: seq<nat>, now: nat, h: Holder) {
    && Counts(cfg.wakePerMs, starts, h.copy.wakes, now)
    && (h.pc.SaveWake? ==>
          && h.pc.at <= now && Within(starts, h.pc.at)
          && |Recent(starts, h.pc.at, cfg.wakePerMs)| < cfg.wakeCount
          && Counts(cfg.wakePerMs, starts + [h.pc.at], h.copy.wakes, now))
  }

  lemma WokenCounts(cfg: Config, starts: seq<nat>, c: Conversation, u: Unread, now: nat)
    requires Counts(cfg.wakePerMs, starts, c.wakes, now) && WakeUp(cfg, c, u, now).Woken?
    ensures Counts(cfg.wakePerMs, starts + [now], WakeUp(cfg, c, u, now).conv.wakes, now)
    ensures Counts(cfg.wakePerMs, starts, WakeUp(cfg, c, u, now).conv.wakes, now)
    ensures |Recent(starts, now, cfg.wakePerMs)| < cfg.wakeCount
  {
    var recent := Recent(c.wakes, now, cfg.wakePerMs);
    CountsRecent(cfg.wakePerMs, starts, c.wakes, now);
    CountsPush(cfg.wakePerMs, starts, recent, now, now);
    CountsMore(cfg.wakePerMs, starts, recent, now);
    assert WakeUp(cfg, c, u, now).conv.wakes == recent + [now];
  }

  lemma CountsMore(perMs: nat, starts: seq<nat>, wakes: seq<nat>, now: nat)
    requires Counts(perMs, starts, wakes, now)
    ensures Counts(perMs, starts, wakes + [now], now)
  {
    forall later: nat | now <= later ensures |Recent(starts, later, perMs)| <= |Recent(wakes + [now], later, perMs)| {
      RecentPush(wakes, now, later, perMs);
    }
  }

  /** Only a wake request that finds something new touches the record of wake turns. */
  lemma ReadKeepsWakes(cfg: Config, env: Env, h: Holder, a: Action)
    requires h.pc.Read? && (!h.kind.Wake? || !a.Go?)
    ensures var n := StepRead(cfg, env, h, a).holder.value; n.copy.wakes == h.copy.wakes && !n.pc.SaveWake?
  {}

  lemma ReadWakes(cfg: Config, env: Env, starts: seq<nat>, h: Holder)
    requires WakeInv(cfg, starts, env.now, h) && Within(starts, env.now) && h.pc.Read? && h.kind.Wake?
    ensures WakeInv(cfg, starts, env.now, StepRead(cfg, env, h, Go).holder.value)
  {
    var u := UnreadNotices(cfg, h.copy, env.log);
    match WakeUp(cfg, h.copy, u, env.now)
    case NothingNew =>
    case Limited(_) => CountsRecent(cfg.wakePerMs, starts, h.copy.wakes, env.now);
    case Woken(_) => WokenCounts(cfg, starts, h.copy, u, env.now);
  }

  lemma OpeningKeepsWakes(cfg: Config, env: Env, h: Holder, a: Action)
    requires Opening(h.pc) && !h.pc.Read?
    ensures var o := StepOpening(cfg, env, h, a).holder;
            o.Some? ==> o.value.copy.wakes == h.copy.wakes && !o.value.pc.SaveWake?
  {}

  lemma ToolKeepsWakes(cfg: Config, env: Env, token: Token, c: Conversation, t: Turn, ev: ToolEvent)
    ensures var d := ToolStep(cfg, env, token, c, t, ev).conv; d.wakes == c.wakes && d.wokeThrough == c.wokeThrough
  {}

  lemma TurningKeepsWakes(cfg: Config, env: Env, h: Holder, a: Action)
    requires Turning(h.pc)
    ensures var o := StepTurning(cfg, env, h, a).holder;
            o.Some? ==> o.value.copy.wakes == h.copy.wakes && !o.value.pc.SaveWake?
  {
    if a.Tool? {
      if h.pc.Init? { ToolKeepsWakes(cfg, env, h.token, h.copy, h.pc.turn, a.ev); }
      if h.pc.Tools? { ToolKeepsWakes(cfg, env, h.token, h.copy, h.pc.turn, a.ev); }
    }
  }

  lemma SavingKeepsWakes(cfg: Config, env: Env, h: Holder, a: Action)
    requires !Opening(h.pc) && !Turning(h.pc)
    ensures var o := StepSaving(cfg, env, h, a).holder;
            o.Some? ==> o.value.copy.wakes == h.copy.wakes && !o.value.pc.SaveWake?
  {
    if !h.pc.SaveClick? && !h.pc.SaveWake? && !h.pc.SaveInit? { RevisingKeepsWakes(cfg, env, h, a); }
  }

  lemma RevisingKeepsWakes(cfg: Config, env: Env, h: Holder, a: Action)
    requires h.pc.PutRevision? || h.pc.Revised? || h.pc.SaveRevision? || h.pc.AppendRevision? || h.pc.Release?
    ensures var o := StepSaving(cfg, env, h, a).holder;
            o.Some? ==> o.value.copy.wakes == h.copy.wakes && !o.value.pc.SaveWake?
  {}

  lemma StepWakes(cfg: Config, env: Env, starts: seq<nat>, h: Holder, a: Action)
    requires WakeInv(cfg, starts, env.now, h) && Within(starts, env.now)
    ensures var o := Step(cfg, env, h, a).holder; o.Some? ==> WakeInv(cfg, starts, env.now, o.value)
  {
    if h.pc.Read? {
      if h.kind.Wake? && a.Go? { ReadWakes(cfg, env, starts, h); } else { ReadKeepsWakes(cfg, env, h, a); }
    } else if Opening(h.pc) {
      OpeningKeepsWakes(cfg, env, h, a);
    } else if Turning(h.pc) {
      TurningKeepsWakes(cfg, env, h, a);
    } else {
      SavingKeepsWakes(cfg, env, h, a);
    }
  }

  ghost predicate SpacedWorld(cfg: Config, w: World) {
    && Ordered(w.starts) && Within(w.starts, w.now) && Spaced(cfg, w.starts)
    && Counts(cfg.wakePerMs, w.starts, w.row.wakes, w.now)
    && (w.token in w.holders ==> WakeInv(cfg, w.starts, w.now, w.holders[w.token]))
  }

  /** A wake turn commits, and runs. */
  lemma WakeSaved(cfg: Config, w: World, a: Action)
    requires SpacedWorld(cfg, w) && w.token in w.holders && w.holders[w.token].pc.SaveWake? && a.Go?
    ensures SpacedWorld(cfg, Acted(cfg, w, w.token, a))
  {
    var h := w.holders[w.token];
    SpacedPush(cfg, w.starts, h.pc.at);
    OrderedPush(w.starts, h.pc.at);
    SavingKeepsWakes(cfg, EnvOf(w, w.token), h, a);
  }

  lemma ActedSpaced(cfg: Config, w: World, t: Token, a: Action)
    requires SpacedWorld(cfg, w) && Serial(w) && t in w.holders
    ensures SpacedWorld(cfg, Acted(cfg, w, t, a))
  {
    var h, env := w.holders[t], EnvOf(w, t);
    if h.pc.SaveWake? && a.Go? && t == w.token {
      WakeSaved(cfg, w, a);
    } else {
      StepFenced(cfg, env, h, a);
      if t == w.token { StepWakes(cfg, env, w.starts, h, a); }
      var v := Acted(cfg, w, t, a);
      assert v.starts == w.starts && v.now == w.now && v.token == w.token;
    }
  }

  lemma NextSpaced(cfg: Config, w: World, e: Event)
    requires SpacedWorld(cfg, w) && Serial(w)
    ensures SpacedWorld(cfg, Next(cfg, w, e))
  {
    if e.Act? && e.token in w.holders { ActedSpaced(cfg, w, e.token, e.action); }
  }

  lemma {:induction false} RunSpaced(cfg: Config, es: seq<Event>)
    ensures SpacedWorld(cfg, Run(cfg, es))
  {
    if es != [] {
      RunSpaced(cfg, es[..|es| - 1]);
      RunSerial(cfg, es[..|es| - 1]);
      NextSpaced(cfg, Run(cfg, es[..|es| - 1]), es[|es| - 1]);
    }
  }

  /**
   * In every run, any `count` + 1 wake turns in a row that reach the model span at least `perMs`, failed ones included.
   */
  lemma {:induction false} WakeLimit(cfg: Config, es: seq<Event>)
    ensures Spaced(cfg, Run(cfg, es).starts)
  {
    RunSpaced(cfg, es);
  }

  // ── what wakes a turn ──────────────────────────────────────────────

  /** A wake turn under way, its commit saved. */
  predicate Waking(h: Holder) { h.kind.Wake? && Turning(h.pc) }

  /** Whatever this request stores next has woken through `n` at least. */
  predicate Above(n: nat, h: Holder) {
    n <= h.base.wokeThrough && n <= h.copy.wokeThrough && (Undoing(h) ==> n <= h.prior.wokeThrough)
  }

  /** What a wake turn wakes for is new to it. */
  predicate WakesForNew(h: Holder) {
    h.kind.Wake? && (h.pc.SaveWake? || Turning(h.pc)) ==> h.prior.wokeThrough < h.copy.wokeThrough
  }

  lemma OpeningAbove(cfg: Config, env: Env, n: nat, h: Holder, a: Action)
    requires Opening(h.pc) && n <= h.base.wokeThrough && n <= h.copy.wokeThrough
             && (h.pc.Read? ==> h.kind.Wake? || !a.Go?)
    ensures var o := StepOpening(cfg, env, h, a).holder; o.Some? ==> Above(n, o.value) && WakesForNew(o.value)
  {}

  lemma ReadAbove(cfg: Config, env: Env, n: nat, h: Holder)
    requires h.pc.Read? && n <= h.base.wokeThrough && n <= h.copy.wokeThrough && !h.kind.Wake?
    ensures var o := StepRead(cfg, env, h, Go).holder; o.Some? ==> Above(n, o.value) && WakesForNew(o.value)
  {}

  /** Tools, replies and saves leave it as it is; only a wake turn that failed before any tool ran puts it back. */
  lemma TurningWakes(cfg: Config, env: Env, h: Holder, a: Action)
    requires Turning(h.pc) && (h.kind.Wake? ==> h.before.wokeThrough == h.prior.wokeThrough)
    ensures var o := StepTurning(cfg, env, h, a).holder;
            o.Some? ==>
              && o.value.base == h.base && o.value.prior == h.prior && o.value.kind == h.kind
              && (h.toolsRan ==> o.value.toolsRan)
              && (o.value.copy.wokeThrough == h.copy.wokeThrough ||
                  (h.kind.Wake? && !h.toolsRan && o.value.pc.Release? && o.value.copy.wokeThrough ==
                    h.prior.wokeThrough))
              && (Turning(o.value.pc) || o.value.pc.SaveInit? || o.value.pc.Release?)
              && (h.kind.Wake? && !h.pc.Init? ==> !o.value.pc.SaveInit?)
  {
    if a.Tool? {
      if h.pc.Init? { ToolKeepsWakes(cfg, env, h.token, h.copy, h.pc.turn, a.ev); }
      if h.pc.Tools? { ToolKeepsWakes(cfg, env, h.token, h.copy, h.pc.turn, a.ev); }
    }
  }

  lemma TurningAbove(cfg: Config, env: Env, n: nat, h: Holder, a: Action)
    requires Above(n, h) && WakesForNew(h) && Turning(h.pc)
             && (h.kind.Wake? ==> h.before.wokeThrough == h.prior.wokeThrough)
    ensures var o := StepTurning(cfg, env, h, a).holder; o.Some? ==> Above(n, o.value) && WakesForNew(o.value)
  {
    TurningWakes(cfg, env, h, a);
  }

  lemma SavingAbove(cfg: Config, env: Env, n: nat, h: Holder, a: Action)
    requires Above(n, h) && WakesForNew(h) && !Opening(h.pc) && !Turning(h.pc)
    requires h.pc.SaveWake? ==> h.kind.Wake? && h.before.wokeThrough == h.prior.wokeThrough && !h.toolsRan
    requires h.pc.SaveClick? || h.pc.SaveInit? ==> !h.kind.Wake?
    ensures var o := StepSaving(cfg, env, h, a).holder; o.Some? ==> Above(n, o.value) && WakesForNew(o.value)
  {
    if !h.pc.SaveClick? && !h.pc.SaveWake? && !h.pc.SaveInit? { RevisingAbove(cfg, env, n, h, a); }
  }

  lemma RevisingAbove(cfg: Config, env: Env, n: nat, h: Holder, a: Action)
    requires Above(n, h)
             && (h.pc.PutRevision? || h.pc.Revised? || h.pc.SaveRevision? || h.pc.AppendRevision? || h.pc.Release?)
    ensures var o := StepSaving(cfg, env, h, a).holder; o.Some? ==> Above(n, o.value) && WakesForNew(o.value)
  {}

  lemma WakeFacts(h: Holder)
    requires Course(h)
    ensures h.kind.Wake? && (h.pc.SaveWake? || Turning(h.pc)) ==>
            h.before.wokeThrough == h.prior.wokeThrough && !h.pc.Init?
    ensures h.pc.SaveWake? ==> h.kind.Wake? && !h.toolsRan
    ensures h.pc.SaveClick? || h.pc.SaveInit? ==> !h.kind.Wake?
  {}

  lemma StepAbove(cfg: Config, env: Env, n: nat, h: Holder, a: Action)
    requires Above(n, h) && WakesForNew(h) && Course(h)
    ensures var o := Step(cfg, env, h, a).holder; o.Some? ==> Above(n, o.value) && WakesForNew(o.value)
  {
    WakeFacts(h);
    if Turning(h.pc) { TurningAbove(cfg, env, n, h, a); }
    else if !Opening(h.pc) { SavingAbove(cfg, env, n, h, a); }
    else if h.pc.Read? && a.Go? && !h.kind.Wake? { ReadAbove(cfg, env, n, h); }
    else { OpeningAbove(cfg, env, n, h, a); }
  }

  predicate Acts(e: Event, t: Token) { e.Act? && e.token == t }

  /** What request `t` woke for, neither the row nor any later request gives back. */
  predicate Floor(w: World, t: Token, n: nat) {
    n <= w.row.wokeThrough && forall u | u in w.holders && u > t :: Above(n, w.holders[u])
  }

  ghost predicate WakeWorld(w: World) {
    && Everyone(w, WakesForNew)
    && forall t | t in w.holders && Waking(w.holders[t]) :: Floor(w, t, w.holders[t].copy.wokeThrough)
  }

  lemma NextWakesForNew(cfg: Config, w: World, e: Event)
    requires Everyone(w, WakesForNew) && CourseWorld(w)
    ensures Everyone(Next(cfg, w, e), WakesForNew)
  {
    if e.Act? && e.token in w.holders {
      var h := w.holders[e.token];
      assert Course(h) && WakesForNew(h);
      StepAbove(cfg, EnvOf(w, e.token), 0, h, e.action);
    }
    NextEveryone(cfg, w, e, WakesForNew);
  }

  lemma SaveLands(cfg: Config, w: World, e: Event)
    requires Serial(w)
    ensures var v := Next(cfg, w, e);
            v.row == w.row || (e.Act? && e.token == w.token && e.token in w.holders && Saving(w.holders[e.token].pc)
              && v.row == w.holders[e.token].copy)
  {
    if e.Act? && e.token in w.holders { StepFenced(cfg, EnvOf(w, e.token), w.holders[e.token], e.action); }
  }

  lemma NextAbove(cfg: Config, w: World, e: Event, u: Token, n: nat)
    requires CourseWorld(w) && Everyone(w, WakesForNew) && n <= w.row.wokeThrough
    requires u in w.holders ==> Above(n, w.holders[u])
    ensures u in Next(cfg, w, e).holders ==> Above(n, Next(cfg, w, e).holders[u])
  {
    if e.Act? && e.token == u && u in w.holders {
      assert Course(w.holders[u]) && WakesForNew(w.holders[u]);
      StepAbove(cfg, EnvOf(w, u), n, w.holders[u], e.action);
    }
  }

  lemma NextFloor(cfg: Config, w: World, e: Event, t: Token, n: nat)
    requires Serial(w) && CourseWorld(w) && Everyone(w, WakesForNew) && Floor(w, t, n) && t <= w.token
    requires n <= Next(cfg, w, e).row.wokeThrough || !Acts(e, t)
    ensures Floor(Next(cfg, w, e), t, n)
  {
    var v := Next(cfg, w, e);
    SaveLands(cfg, w, e);
    forall u | u in v.holders && u > t ensures Above(n, v.holders[u]) { NextAbove(cfg, w, e, u, n); }
  }

  /** A wake turn's commit is saved by the step that starts it, and stands while it runs. */
  lemma StepWaking(cfg: Config, env: Env, h: Holder, a: Action)
    requires Course(h)
    ensures var o := Step(cfg, env, h, a);
            o.holder.Some? && Waking(o.holder.value) ==>
              && o.holder.value.copy.wokeThrough == h.copy.wokeThrough
              && (Waking(h) || (h.pc.SaveWake? && o.effect == Saved(h.copy, false)))
  {
    WakeFacts(h);
    if Turning(h.pc) { TurningWakes(cfg, env, h, a); }
    else if Opening(h.pc) { OpeningWakesNone(cfg, env, h, a); }
    else { SavingWakes(cfg, env, h, a); }
  }

  lemma OpeningWakesNone(cfg: Config, env: Env, h: Holder, a: Action)
    requires Opening(h.pc)
    ensures var o := StepOpening(cfg, env, h, a); o.holder.Some? ==> !Waking(o.holder.value)
  {}

  lemma SavingWakes(cfg: Config, env: Env, h: Holder, a: Action)
    requires !Opening(h.pc) && !Turning(h.pc) && (h.pc.SaveClick? || h.pc.SaveInit? ==> !h.kind.Wake?)
    ensures var o := StepSaving(cfg, env, h, a);
            o.holder.Some? && Waking(o.holder.value) ==>
              h.pc.SaveWake? && o.effect == Saved(h.copy, false) && o.holder.value.copy.wokeThrough ==
                h.copy.wokeThrough
  {}

  /** A wake turn past its commit was so before this step, or has just committed. */
  lemma WakingBefore(cfg: Config, w: World, e: Event, t: Token)
    requires Serial(w) && CourseWorld(w) && t in Next(cfg, w, e).holders && Waking(Next(cfg, w, e).holders[t])
    ensures var v := Next(cfg, w, e);
            t in w.holders && v.holders[t].copy.wokeThrough == w.holders[t].copy.wokeThrough &&
            ((Waking(w.holders[t]) && (Acts(e, t) ==> v.row == w.row))
             || (t == w.token == v.token && v.row.wokeThrough == v.holders[t].copy.wokeThrough))
  {
    if Acts(e, t) && t in w.holders {
      assert Course(w.holders[t]);
      StepWaking(cfg, EnvOf(w, t), w.holders[t], e.action);
      StepFenced(cfg, EnvOf(w, t), w.holders[t], e.action);
    }
  }

  lemma NextWakeWorld(cfg: Config, w: World, e: Event)
    requires Serial(w) && CourseWorld(w) && WakeWorld(w)
    ensures WakeWorld(Next(cfg, w, e))
  {
    var v := Next(cfg, w, e);
    NextWakesForNew(cfg, w, e);
    NextSerial(cfg, w, e);
    forall t | t in v.holders && Waking(v.holders[t]) ensures Floor(v, t, v.holders[t].copy.wokeThrough) {
      WakingBefore(cfg, w, e, t);
      if Waking(w.holders[t]) && (Acts(e, t) ==> v.row == w.row) {
        NextFloor(cfg, w, e, t, v.holders[t].copy.wokeThrough);
      }
    }
  }

  lemma {:induction false} RunWakes(cfg: Config, es: seq<Event>)
    requires KeepsQuestions(cfg, es)
    ensures WakeWorld(Run(cfg, es))
  {
    if es != [] {
      RunWakes(cfg, es[..|es| - 1]);
      RunSerial(cfg, es[..|es| - 1]);
      RunCourse(cfg, es[..|es| - 1]);
      NextWakeWorld(cfg, Run(cfg, es[..|es| - 1]), es[|es| - 1]);
    }
  }

  /** Request `t`, while it may still save, keeps what it woke for. */
  predicate KeepsWoken(w: World, t: Token, n: nat) {
    t in w.holders ==>
      var h := w.holders[t];
      h.kind.Wake? && h.toolsRan && (Turning(h.pc) || h.pc.Release?) && n <= h.copy.wokeThrough
  }

  lemma NextKeepsWoken(cfg: Config, w: World, e: Event, t: Token, n: nat)
    requires Serial(w) && CourseWorld(w) && KeepsWoken(w, t, n) && t <= w.token
    ensures KeepsWoken(Next(cfg, w, e), t, n)
    ensures t in w.holders && Acts(e, t) && n <= w.row.wokeThrough ==> n <= Next(cfg, w, e).row.wokeThrough
  {
    SaveLands(cfg, w, e);
    if t in w.holders && e.Act? && e.token == t {
      assert Course(w.holders[t]);
      WakeFacts(w.holders[t]);
      if Turning(w.holders[t].pc) { TurningWakes(cfg, EnvOf(w, t), w.holders[t], e.action); }
    }
  }

  lemma {:induction false} RanForGood(cfg: Config, es: seq<Event>, more: seq<Event>, t: Token, n: nat)
    requires KeepsQuestions(cfg, es + more) && Ran(Run(cfg, es), t, n)
    ensures Ran(Run(cfg, es + more), t, n)
  {
    if more == [] {
      assert es + more == es;
    } else {
      var so := es + more[..|more| - 1];
      assert (es + more)[..|es + more| - 1] == so;
      RanForGood(cfg, es, more[..|more| - 1], t, n);
      RunSerial(cfg, so);
      RunCourse(cfg, so);
      RunWakes(cfg, so);
      RanStill(cfg, Run(cfg, so), more[|more| - 1], t, n);
    }
  }

  /** What a wake turn that has run a tool woke for stands, in the row and in its own copy. */
  ghost predicate Ran(w: World, t: Token, n: nat) { Floor(w, t, n) && KeepsWoken(w, t, n) && t <= w.token }

  lemma RanStill(cfg: Config, w: World, e: Event, t: Token, n: nat)
    requires Serial(w) && CourseWorld(w) && WakeWorld(w) && Ran(w, t, n)
    ensures Ran(Next(cfg, w, e), t, n)
  {
    NextKeepsWoken(cfg, w, e, t, n);
    NextFloor(cfg, w, e, t, n);
  }

  /**
   * No notice wakes two turns once the first has run a tool: a later wake turn, whether or not it runs one, and
   * whether the first was overtaken or failed, wakes only for notices numbered past those the first woke for.
   */
  lemma {:induction false} WokenOnce(cfg: Config, es: seq<Event>, more: seq<Event>, t: Token, u: Token)
    requires KeepsQuestions(cfg, es + more)
    requires var w := Run(cfg, es); t in w.holders && Waking(w.holders[t]) && w.holders[t].toolsRan
    requires var v := Run(cfg, es + more);
             u in v.holders && u > t && v.holders[u].kind.Wake?
             && (v.holders[u].pc.SaveWake? || Turning(v.holders[u].pc))
    ensures Run(cfg, es).holders[t].copy.wokeThrough <= Run(cfg, es + more).holders[u].prior.wokeThrough
    ensures Run(cfg, es + more).holders[u].prior.wokeThrough < Run(cfg, es + more).holders[u].copy.wokeThrough
  {
    KeepsPrefix(cfg, es, more);
    RunSerial(cfg, es);
    RunWakes(cfg, es);
    RunWakes(cfg, es + more);
    RanForGood(cfg, es, more, t, Run(cfg, es).holders[t].copy.wokeThrough);
    var v := Run(cfg, es + more);
    assert WakesForNew(v.holders[u]) && Above(Run(cfg, es).holders[t].copy.wokeThrough, v.holders[u]);
  }

  lemma TokensRise(cfg: Config, w: World, e: Event)
    ensures w.token <= Next(cfg, w, e).token
  {}

  /** Once a newer request has loaded, a wake turn that is under way later was under way then, for the same notices. */
  lemma {:induction false} WakingSince(cfg: Config, es: seq<Event>, more: seq<Event>, t: Token)
    requires KeepsQuestions(cfg, es + more) && t < Run(cfg, es).token
    ensures var w, v := Run(cfg, es), Run(cfg, es + more);
            && t < v.token
            && (t in v.holders && Waking(v.holders[t]) ==>
                  && t in w.holders && Waking(w.holders[t])
                  && v.holders[t].copy.wokeThrough == w.holders[t].copy.wokeThrough)
  {
    if more == [] {
      assert es + more == es;
    } else {
      var so := es + more[..|more| - 1];
      assert (es + more)[..|es + more| - 1] == so;
      WakingSince(cfg, es, more[..|more| - 1], t);
      RunSerial(cfg, so);
      RunCourse(cfg, so);
      TokensRise(cfg, Run(cfg, so), more[|more| - 1]);
      WasWaking(cfg, Run(cfg, so), more[|more| - 1], t);
    }
  }

  lemma WasWaking(cfg: Config, w: World, e: Event, t: Token)
    requires Serial(w) && CourseWorld(w) && t < w.token
    ensures var v := Next(cfg, w, e);
            t in v.holders && Waking(v.holders[t]) ==>
              t in w.holders && Waking(w.holders[t]) &&
              v.holders[t].copy.wokeThrough == w.holders[t].copy.wokeThrough
  {
    if t in Next(cfg, w, e).holders && Waking(Next(cfg, w, e).holders[t]) { WakingBefore(cfg, w, e, t); }
  }

  /** A wake turn, from its commit until it ends. */
  predicate Wakes(h: Holder) { h.kind.Wake? && (h.pc.SaveWake? || Turning(h.pc)) }

  /** And a newer one that has woken wakes for nothing an older one under way later wakes for. */
  lemma {:induction false} WokenBefore(cfg: Config, es: seq<Event>, more: seq<Event>, t: Token, u: Token)
    requires KeepsQuestions(cfg, es + more) && t < u
    requires u in Run(cfg, es).holders && Wakes(Run(cfg, es).holders[u])
    requires t in Run(cfg, es + more).holders && Waking(Run(cfg, es + more).holders[t])
    ensures Run(cfg, es + more).holders[t].copy.wokeThrough <= Run(cfg, es).holders[u].prior.wokeThrough
  {
    KeepsPrefix(cfg, es, more);
    RunSerial(cfg, es);
    RunWakes(cfg, es);
    WakingSince(cfg, es, more, t);
    var w := Run(cfg, es);
    assert Above(w.holders[t].copy.wokeThrough, w.holders[u]);
  }

  /** The notices a wake turn woke for, by number. */
  predicate WokeFor(h: Holder, n: nat) { h.prior.wokeThrough < n <= h.copy.wokeThrough }

  /**
   * No notice belongs to two wake turns that both ran a tool, in any run, whichever ran its tool first: not when the
   * first failed, nor when it was overtaken before or after its own tool ran.
   */
  lemma {:induction false} OneTurnForEach(cfg: Config, es: seq<Event>, i: nat, j: nat, t: Token, u: Token, n: nat)
    requires KeepsQuestions(cfg, es) && i <= |es| && j <= |es| && t < u
    requires var w := Run(cfg, es[..i]); t in w.holders && Waking(w.holders[t]) && w.holders[t].toolsRan
    requires var v := Run(cfg, es[..j]); u in v.holders && Waking(v.holders[u]) && v.holders[u].toolsRan
    ensures !(WokeFor(Run(cfg, es[..i]).holders[t], n) && WokeFor(Run(cfg, es[..j]).holders[u], n))
  {
    if i <= j { OlderFirst(cfg, es, i, j, t, u); } else { NewerFirst(cfg, es, i, j, t, u); }
  }

  lemma OlderFirst(cfg: Config, es: seq<Event>, i: nat, j: nat, t: Token, u: Token)
    requires KeepsQuestions(cfg, es) && i <= j <= |es| && t < u
    requires var w := Run(cfg, es[..i]); t in w.holders && Waking(w.holders[t]) && w.holders[t].toolsRan
    requires var v := Run(cfg, es[..j]); u in v.holders && Waking(v.holders[u])
    ensures Run(cfg, es[..i]).holders[t].copy.wokeThrough <= Run(cfg, es[..j]).holders[u].prior.wokeThrough
  {
    assert es[..j] == es[..i] + es[i..j] && es == es[..j] + es[j..];
    KeepsPrefix(cfg, es[..j], es[j..]);
    WokenOnce(cfg, es[..i], es[i..j], t, u);
  }

  lemma NewerFirst(cfg: Config, es: seq<Event>, i: nat, j: nat, t: Token, u: Token)
    requires KeepsQuestions(cfg, es) && j <= i <= |es| && t < u
    requires var w := Run(cfg, es[..i]); t in w.holders && Waking(w.holders[t])
    requires var v := Run(cfg, es[..j]); u in v.holders && Waking(v.holders[u])
    ensures Run(cfg, es[..i]).holders[t].copy.wokeThrough <= Run(cfg, es[..j]).holders[u].prior.wokeThrough
  {
    assert es[..i] == es[..j] + es[j..i] && es == es[..i] + es[i..];
    KeepsPrefix(cfg, es[..i], es[i..]);
    WokenBefore(cfg, es[..j], es[j..i], t, u);
  }
}
