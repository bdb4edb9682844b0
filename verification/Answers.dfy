/** A tool's answer reaches the model as the tool gave it: under its own call, in the order of the calls. */
module Answers {
  import opened History
  import opened Conversations
  import opened Requests
  import opened Worlds
  import opened Turns
  import opened Pairing

  // ── which texts answer which calls ─────────────────────────────────

  /** The event settles the call the turn is at. */
  predicate Decides(t: Turn, ev: ToolEvent) {
    t.at < |t.calls| && ((ev.Skip? && !t.running) || (ev.End? && t.running && t.ops == map[]))
  }

  /** Some call of the reply asked a question and returned, with this event or before it. */
  predicate Parks(t: Turn, ev: ToolEvent) { t.parked.Some? || (ev.End? && ev.ok && t.asked.Some?) }

  /** The text it answers the call with, if it settles it. */
  function TextOf(t: Turn, ev: ToolEvent): seq<string> {
    if Decides(t, ev) then [ev.text] else []
  }

  /** One result a call, in order, with its own text; the call the turn parks on has none yet. */
  function AnswersOf(calls: seq<string>, texts: seq<string>, parked: Option<nat>): seq<Block>
    requires |texts| <= |calls|
  {
    if texts == [] then []
    else
      var i := |texts| - 1;
      AnswersOf(calls, texts[..i], parked) + if parked == Some(i) then [] else [ToolResult(calls[i], texts[i])]
  }

  /** Where the result of call `i` is, among those of the calls settled so far. */
  function Place(parked: Option<nat>, i: nat): int {
    if parked.Some? && parked.value < i then i - 1 else i
  }

  lemma {:induction false} AnswersAre(calls: seq<string>, texts: seq<string>, parked: Option<nat>, i: nat)
    requires |texts| <= |calls| && i < |texts| && parked != Some(i)
    ensures |AnswersOf(calls, texts, parked)| == Place(parked, |texts|)
    ensures 0 <= Place(parked, i) < |AnswersOf(calls, texts, parked)|
    ensures AnswersOf(calls, texts, parked)[Place(parked, i)] == ToolResult(calls[i], texts[i])
  {
    var last := |texts| - 1;
    AnswersCount(calls, texts, parked);
    AnswersCount(calls, texts[..last], parked);
    if i < last { AnswersAre(calls, texts[..last], parked, i); }
  }

  lemma {:induction false} AnswersCount(calls: seq<string>, texts: seq<string>, parked: Option<nat>)
    requires |texts| <= |calls|
    ensures |AnswersOf(calls, texts, parked)| == Place(parked, |texts|)
  {
    if texts != [] { AnswersCount(calls, texts[..|texts| - 1], parked); }
  }

  /** The turn parks on call `k`, or on none. */
  predicate ParksOn(t: Turn, k: Option<nat>) {
    match k
    case Some(i) => i < t.at && i < |t.calls| && t.parked.Some? && t.parked.value.toolUseId == t.calls[i]
    case None => t.parked.None?
  }

  /** Each call settled so far has its own text as its result, but the one the turn parks on. */
  ghost predicate AnsweredWith(t: Turn, texts: seq<string>) {
    && |texts| == t.at <= |t.calls|
    && exists k: Option<nat> :: ParksOn(t, k) && t.results == AnswersOf(t.calls, texts, k)
  }

  lemma AnsweredMore(t: Turn, n: Turn, texts: seq<string>, text: string)
    requires AnsweredWith(t, texts) && t.at < |t.calls| && n.calls == t.calls && n.at == t.at + 1
    requires
      || (n.results == t.results + [ToolResult(t.calls[t.at], text)] && n.parked == t.parked)
      || (n.results == t.results && t.parked.None? && n.parked.Some? && n.parked.value.toolUseId == t.calls[t.at])
    ensures AnsweredWith(n, texts + [text])
  {
    var k :| ParksOn(t, k) && t.results == AnswersOf(t.calls, texts, k);
    assert (texts + [text])[..t.at] == texts;
    if n.parked == t.parked {
      assert ParksOn(n, k) && n.results == AnswersOf(n.calls, texts + [text], k);
    } else {
      OthersParked(t.calls, texts, t.at);
      assert ParksOn(n, Some(t.at)) && n.results == AnswersOf(n.calls, texts + [text], Some(t.at));
    }
  }

  /** Calls settled before the one a turn parks on have their results either way. */
  lemma {:induction false} OthersParked(calls: seq<string>, texts: seq<string>, k: nat)
    requires |texts| <= |calls| && |texts| <= k
    ensures AnswersOf(calls, texts, Some(k)) == AnswersOf(calls, texts, None)
  {
    if texts != [] { OthersParked(calls, texts[..|texts| - 1], k); }
  }

  lemma SkipAnswers(c: Conversation, t: Turn, texts: seq<string>, text: string)
    requires AnsweredWith(t, texts)
    ensures AnsweredWith(SkipCall(c, t, text).turn, texts + TextOf(t, Skip(text)))
  {
    if Decides(t, Skip(text)) { AnsweredMore(t, SkipCall(c, t, text).turn, texts, text); }
    else { assert texts + [] == texts; }
  }

  lemma EndAnswers(c: Conversation, t: Turn, texts: seq<string>, ok: bool, text: string)
    requires AnsweredWith(t, texts) && OneQuestion(t)
    ensures AnsweredWith(EndCall(c, t, ok, text).turn, texts + TextOf(t, End(ok, text)))
  {
    if Decides(t, End(ok, text)) { AnsweredMore(t, EndCall(c, t, ok, text).turn, texts, text); }
    else { assert texts + [] == texts; }
  }

  /** Whatever a tool does, each call has the text that settled it. */
  lemma {:induction false} ToolStepAnswers(cfg: Config, env: Env, token: Token, c: Conversation, t: Turn,
    texts: seq<string>, ev: ToolEvent)
    requires AnsweredWith(t, texts) && OneQuestion(t)
    ensures AnsweredWith(ToolStep(cfg, env, token, c, t, ev).turn, texts + TextOf(t, ev))
  {
    match ev
    case Skip(text) => SkipAnswers(c, t, texts, text);
    case End(ok, text) => EndAnswers(c, t, texts, ok, text);
    case _ => OtherAnswers(cfg, env, token, c, t, texts, ev);
  }

  lemma OtherAnswers(cfg: Config, env: Env, token: Token, c: Conversation, t: Turn, texts: seq<string>, ev: ToolEvent)
    requires AnsweredWith(t, texts) && !ev.Skip? && !ev.End?
    ensures AnsweredWith(ToolStep(cfg, env, token, c, t, ev).turn, texts + TextOf(t, ev))
  {
    ToolStepKeeps(cfg, env, token, c, t, ev);
    SameAnswers(t, ToolStep(cfg, env, token, c, t, ev).turn, texts);
    assert texts + [] == texts;
  }

  lemma SameAnswers(t: Turn, u: Turn, texts: seq<string>)
    requires AnsweredWith(t, texts) && u.calls == t.calls && u.at == t.at && u.results == t.results
             && u.parked == t.parked
    ensures AnsweredWith(u, texts)
  {
    var k :| ParksOn(t, k) && t.results == AnswersOf(t.calls, texts, k);
    assert ParksOn(u, k);
  }

  lemma NewAnswers(calls: seq<string>)
    ensures AnsweredWith(NewTurn(calls), [])
  {
    assert ParksOn(NewTurn(calls), None);
  }

  /** Each of the calls has the text that settled it as its result, in their order, but the one parked on. */
  ghost predicate SettledWith(c: Conversation, d: Conversation, calls: seq<string>, texts: seq<string>) {
    && |texts| == |calls|
    && (d.messages == c.messages + [Message(User, Blocks(AnswersOf(calls, texts, None)))]
        || exists k: nat :: ParkedOn(c, d, calls, texts, k))
  }

  ghost predicate ParkedOn(c: Conversation, d: Conversation, calls: seq<string>, texts: seq<string>, k: nat) {
    && k < |calls| == |texts|
    && d.messages == c.messages && d.status.Awaiting? && d.pending.Some?
    && d.pending.value.toolUseId == calls[k] && d.pending.value.results == AnswersOf(calls, texts, Some(k))
  }

  lemma Settles(c: Conversation, t: Turn, texts: seq<string>)
    requires AnsweredWith(t, texts) && t.at == |t.calls|
    ensures match t.parked
            case Some(q) => exists k: nat :: ParkedOn(c, Park(c, q, t.results), t.calls, texts, k)
            case None => t.results == AnswersOf(t.calls, texts, None)
  {
    var k :| ParksOn(t, k) && t.results == AnswersOf(t.calls, texts, k);
    match t.parked
    case Some(q) => assert ParkedOn(c, Park(c, q, t.results), t.calls, texts, k.value);
    case None =>
  }

  // ── over whole runs ────────────────────────────────────────────────

  /** The turn whose calls a request is running, if it is. */
  function TurnOf(pc: Pc): Option<Turn> {
    match pc
    case Tools(_, turn) => Some(turn)
    case Init(_, _, turn) => Some(turn)
    case _ => None
  }

  /** The texts that have settled the calls of the reply a request last ran, one by one, as its tools gave them. */
  function Texts(cfg: Config, es: seq<Event>, t: Token): seq<string> {
    if es == [] then []
    else
      var before, e := es[..|es| - 1], es[|es| - 1];
      var w := Run(cfg, before);
      if !e.Act? || e.token != t || t !in w.holders then Texts(cfg, before, t)
      else
        match TurnOf(w.holders[t].pc)
        case Some(turn) => Texts(cfg, before, t) + if e.action.Tool? then TextOf(turn, e.action.ev) else []
        case None => []
  }

  /** The calls of a turn of the model are those of the reply that ends its history, in order. */
  predicate RunsReply(h: Holder) {
    h.pc.Tools? ==> h.copy.messages != [] && Calls(h.copy.messages[|h.copy.messages| - 1]) == h.pc.turn.calls
  }

  ghost predicate AnswersInv(h: Holder, texts: seq<string>) {
    && RunsReply(h)
    && (h.pc.Init? ==> h.pc.turn.calls == ["init"])
    && match TurnOf(h.pc) case Some(turn) => OneQuestion(turn) && AnsweredWith(turn, texts) case None => true
  }

  lemma ToolsAnswers(cfg: Config, env: Env, h: Holder, a: Action, texts: seq<string>)
    requires AnswersInv(h, texts) && h.pc.Tools?
    ensures var n := StepTools(cfg, env, h, a).holder;
            n.Some? ==> AnswersInv(n.value, texts + if a.Tool? then TextOf(h.pc.turn, a.ev) else [])
  {
    if a.Tool? {
      ToolStepTouches(cfg, env, h.token, h.copy, h.pc.turn, a.ev);
      ToolStepKeeps(cfg, env, h.token, h.copy, h.pc.turn, a.ev);
      ToolStepOneQuestion(cfg, env, h.token, h.copy, h.pc.turn, a.ev);
      ToolStepAnswers(cfg, env, h.token, h.copy, h.pc.turn, texts, a.ev);
      ToolsAfterAnswers(cfg, h, ToolStep(cfg, env, h.token, h.copy, h.pc.turn, a.ev), texts + TextOf(h.pc.turn, a.ev));
    } else { assert texts + [] == texts; }
  }

  lemma ToolsAfterAnswers(cfg: Config, h: Holder, o: TurnOut, texts: seq<string>)
    requires h.pc.Tools? && RunsReply(h) && OneQuestion(o.turn) && AnsweredWith(o.turn, texts)
    requires o.conv.messages == h.copy.messages && o.turn.calls == h.pc.turn.calls
    ensures var n := ToolsAfter(cfg, h, h.pc.hop, o).holder; n.Some? ==> AnswersInv(n.value, texts)
  {}

  lemma InitAnswers(cfg: Config, env: Env, h: Holder, a: Action, texts: seq<string>)
    requires AnswersInv(h, texts) && h.pc.Init?
    ensures var n := StepInit(cfg, env, h, a).holder;
            n.Some? ==> AnswersInv(n.value, texts + if a.Tool? then TextOf(h.pc.turn, a.ev) else [])
  {
    if a.Tool? {
      ToolStepKeeps(cfg, env, h.token, h.copy, h.pc.turn, a.ev);
      ToolStepOneQuestion(cfg, env, h.token, h.copy, h.pc.turn, a.ev);
      ToolStepAnswers(cfg, env, h.token, h.copy, h.pc.turn, texts, a.ev);
      InitAfterAnswers(h, h.pc.content, h.pc.through, ToolStep(cfg, env, h.token, h.copy, h.pc.turn, a.ev),
        texts + TextOf(h.pc.turn, a.ev));
    }
  }

  lemma InitAfterAnswers(h: Holder, content: seq<Block>, through: nat, o: TurnOut, texts: seq<string>)
    requires OneQuestion(o.turn) && AnsweredWith(o.turn, texts) && o.turn.calls == ["init"]
    ensures var n := InitAfter(h, content, through, o).holder; n.Some? ==> AnswersInv(n.value, texts)
  {}

  lemma ModelAnswers(cfg: Config, h: Holder, a: Action)
    requires h.pc.Model?
    ensures var n := StepModel(cfg, h, a).holder; n.Some? ==> AnswersInv(n.value, [])
  {
    if a.Reply? {
      NewTurnOk(CallIds(a.content));
      NewAnswers(CallIds(a.content));
    }
  }

  lemma OpeningAnswers(cfg: Config, env: Env, h: Holder, a: Action)
    requires Opening(h.pc)
    ensures var n := StepOpening(cfg, env, h, a).holder; n.Some? ==> AnswersInv(n.value, [])
  {
    if h.pc.Read? { ReadAnswers(cfg, env, h, a); } else { OpeningRunsNone(cfg, env, h, a); }
  }

  lemma OpeningRunsNone(cfg: Config, env: Env, h: Holder, a: Action)
    requires Opening(h.pc) && !h.pc.Read?
    ensures var n := StepOpening(cfg, env, h, a).holder; n.Some? ==> TurnOf(n.value.pc).None?
  {}

  lemma ReadAnswers(cfg: Config, env: Env, h: Holder, a: Action)
    requires h.pc.Read?
    ensures var n := StepRead(cfg, env, h, a).holder; n.Some? ==> AnswersInv(n.value, [])
  {
    NewTurnOk(["init"]);
    NewAnswers(["init"]);
    ReadRuns(cfg, env, h, a);
  }

  lemma ReadRuns(cfg: Config, env: Env, h: Holder, a: Action)
    requires h.pc.Read?
    ensures var n := StepRead(cfg, env, h, a).holder;
            n.Some? ==> TurnOf(n.value.pc).None? || (n.value.pc.Init? && n.value.pc.turn == NewTurn(["init"]))
  {}

  lemma SavingAnswers(cfg: Config, env: Env, h: Holder, a: Action)
    requires !Opening(h.pc) && !Turning(h.pc)
    ensures var n := StepSaving(cfg, env, h, a).holder; n.Some? ==> TurnOf(n.value.pc).None?
  {}

  lemma StepAnswers(cfg: Config, env: Env, h: Holder, a: Action, texts: seq<string>)
    requires AnswersInv(h, texts)
    ensures var n := Step(cfg, env, h, a).holder;
            n.Some? ==> AnswersInv(n.value, match TurnOf(h.pc)
              case Some(turn) => texts + (if a.Tool? then TextOf(turn, a.ev) else [])
              case None => [])
  {
    if h.pc.Tools? { ToolsAnswers(cfg, env, h, a, texts); }
    else if h.pc.Init? { InitAnswers(cfg, env, h, a, texts); }
    else if h.pc.Model? { ModelAnswers(cfg, h, a); }
    else if Opening(h.pc) { OpeningAnswers(cfg, env, h, a); }
    else if Turning(h.pc) { ContextRunsNone(h, a); }
    else { SavingAnswers(cfg, env, h, a); }
  }

  lemma ContextRunsNone(h: Holder, a: Action)
    ensures var n := StepContext(h, a).holder; n.Some? ==> TurnOf(n.value.pc).None?
  {}

  lemma OthersHolder(cfg: Config, w: World, e: Event, t: Token)
    requires !(e.Act? && e.token == t) && t in Next(cfg, w, e).holders
    ensures var n := Next(cfg, w, e).holders[t]; TurnOf(n.pc).None? || (t in w.holders && n == w.holders[t])
  {}

  lemma OwnHolder(cfg: Config, w: World, t: Token, a: Action)
    requires t in Next(cfg, w, Act(t, a)).holders
    ensures t in w.holders && Step(cfg, EnvOf(w, t), w.holders[t], a).holder == Some(Next(cfg, w, Act(t, a)).holders[t])
  {}

  lemma {:induction false} RunAnswers(cfg: Config, es: seq<Event>, t: Token)
    requires t in Run(cfg, es).holders
    ensures AnswersInv(Run(cfg, es).holders[t], Texts(cfg, es, t))
  {
    if es != [] {
      var before, e := es[..|es| - 1], es[|es| - 1];
      var w := Run(cfg, before);
      if e.Act? && e.token == t {
        OwnHolder(cfg, w, t, e.action);
        RunAnswers(cfg, before, t);
        StepAnswers(cfg, EnvOf(w, t), w.holders[t], e.action, Texts(cfg, before, t));
      } else {
        OthersHolder(cfg, w, e, t);
        if t in w.holders { RunAnswers(cfg, before, t); }
      }
    }
  }

  /**
   * Once the last call of a reply is settled, the message after the reply holds for each of its calls, in their
   * order, the text that settled it. Instead, if one of them asked and returned, the turn parks on it and holds the
   * others' results so.
   */
  lemma {:induction false} CallsAnsweredAsTold(cfg: Config, es: seq<Event>, t: Token, ev: ToolEvent)
    requires var w := Run(cfg, es);
             t in w.holders && w.holders[t].pc.Tools? && Decides(w.holders[t].pc.turn, ev)
             && w.holders[t].pc.turn.at + 1 == |w.holders[t].pc.turn.calls|
    ensures var c, after := Run(cfg, es).holders[t].copy, es + [Act(t, Tool(ev))];
            && t in Run(cfg, after).holders && c.messages != []
            && SettledWith(c, Run(cfg, after).holders[t].copy, Calls(c.messages[|c.messages| - 1]),
                 Texts(cfg, after, t))
    ensures var h, after := Run(cfg, es).holders[t], es + [Act(t, Tool(ev))];
            t in Run(cfg, after).holders
            && (Run(cfg, after).holders[t].copy.messages == h.copy.messages <==> Parks(h.pc.turn, ev))
  {
    var w, after := Run(cfg, es), es + [Act(t, Tool(ev))];
    var h := w.holders[t];
    assert after[..|es|] == es;
    RunAnswers(cfg, es, t);
    ToolsSettle(cfg, EnvOf(w, t), h, ev, Texts(cfg, es, t));
  }

  lemma ToolsSettle(cfg: Config, env: Env, h: Holder, ev: ToolEvent, texts: seq<string>)
    requires AnswersInv(h, texts) && h.pc.Tools? && Decides(h.pc.turn, ev) && h.pc.turn.at + 1 == |h.pc.turn.calls|
    ensures var n := StepTools(cfg, env, h, Tool(ev)).holder;
            n.Some? && SettledWith(h.copy, n.value.copy, h.pc.turn.calls, texts + TextOf(h.pc.turn, ev))
            && (n.value.copy.messages == h.copy.messages <==> Parks(h.pc.turn, ev))
  {
    var t := h.pc.turn;
    var o := ToolStep(cfg, env, h.token, h.copy, t, ev);
    ToolStepTouches(cfg, env, h.token, h.copy, t, ev);
    ToolStepKeeps(cfg, env, h.token, h.copy, t, ev);
    ToolStepAnswers(cfg, env, h.token, h.copy, t, texts, ev);
    DecidesOne(cfg, env, h.token, h.copy, t, ev);
    Settles(o.conv, o.turn, texts + TextOf(t, ev));
    ToolsAfterSettled(cfg, h, o, texts + TextOf(t, ev));
  }

  lemma DecidesOne(cfg: Config, env: Env, token: Token, c: Conversation, t: Turn, ev: ToolEvent)
    requires Decides(t, ev)
    ensures var o := ToolStep(cfg, env, token, c, t, ev);
            o.turn.at == t.at + 1 && !o.lost && (o.turn.parked.Some? <==> Parks(t, ev))
  {}

  lemma ToolsAfterSettled(cfg: Config, h: Holder, o: TurnOut, texts: seq<string>)
    requires h.pc.Tools? && !o.lost && o.turn.at == |o.turn.calls| && o.conv.messages == h.copy.messages
    requires |texts| == |o.turn.calls|
    requires match o.turn.parked
             case Some(q) => exists k: nat :: ParkedOn(o.conv, Park(o.conv, q, o.turn.results), o.turn.calls, texts, k)
             case None => o.turn.results == AnswersOf(o.turn.calls, texts, None)
    ensures var n := ToolsAfter(cfg, h, h.pc.hop, o).holder;
            n.Some? && SettledWith(h.copy, n.value.copy, o.turn.calls, texts)
            && (n.value.copy.messages == h.copy.messages <==> o.turn.parked.Some?)
  {
    if o.turn.parked.Some? {
      var c := Park(o.conv, o.turn.parked.value, o.turn.results);
      var k: nat :| ParkedOn(o.conv, c, o.turn.calls, texts, k);
      assert ParkedOn(h.copy, c, o.turn.calls, texts, k);
    }
  }

  /** Init's message, its call, and its text as the call's result, or the question it parks on instead. */
  predicate InitSettled(c: Conversation, d: Conversation, content: seq<Block>, through: nat, text: string) {
    var called := c.messages + [Message(User, Blocks(content)),
      Message(Assistant, Blocks([ToolUse("init", "init", "{}")]))];
    && d.noticedThrough == through
    && (d.messages == called + [Message(User, Blocks([ToolResult("init", text)]))]
        || (d.messages == called && d.status.Awaiting? && d.pending.Some?
            && d.pending.value.toolUseId == "init" && d.pending.value.results == []))
  }

  /** The same of `init`: nothing reaches the history before it returns, and then its message, its call and its text. */
  lemma {:induction false} InitAnsweredAsTold(cfg: Config, es: seq<Event>, t: Token, text: string)
    requires var w := Run(cfg, es);
             t in w.holders && w.holders[t].pc.Init? && Decides(w.holders[t].pc.turn, End(true, text))
    ensures var h, after := Run(cfg, es).holders[t], es + [Act(t, Tool(End(true, text)))];
            t in Run(cfg, after).holders
            && InitSettled(h.copy, Run(cfg, after).holders[t].copy, h.pc.content, h.pc.through, text)
  {
    var w, after := Run(cfg, es), es + [Act(t, Tool(End(true, text)))];
    assert after[..|es|] == es;
    RunAnswers(cfg, es, t);
    InitSettles(cfg, EnvOf(w, t), w.holders[t], text, Texts(cfg, es, t));
  }

  lemma InitSettles(cfg: Config, env: Env, h: Holder, text: string, texts: seq<string>)
    requires h.pc.Init? && AnswersInv(h, texts) && Decides(h.pc.turn, End(true, text))
    ensures var n := StepInit(cfg, env, h, Tool(End(true, text))).holder;
            n.Some? && InitSettled(h.copy, n.value.copy, h.pc.content, h.pc.through, text)
  {
    var t := h.pc.turn;
    assert texts == [] && t.results == [] && t.parked.None?;
    ToolStepTouches(cfg, env, h.token, h.copy, t, End(true, text));
    var o := ToolStep(cfg, env, h.token, h.copy, t, End(true, text));
    assert o.turn.parked.Some? ==> o.turn.parked.value.toolUseId == "init";
    assert o.turn.parked.None? ==> o.turn.results == [ToolResult("init", text)];
    assert Decided(o.turn) && !o.lost;
    InitAfterSettled(h, o, text);
  }

  lemma InitAfterSettled(h: Holder, o: TurnOut, text: string)
    requires h.pc.Init? && Decided(o.turn) && !o.lost && o.conv.messages == h.copy.messages
    requires match o.turn.parked
             case Some(q) => q.toolUseId == "init"
             case None => o.turn.results == [ToolResult("init", text)]
    ensures var n := InitAfter(h, h.pc.content, h.pc.through, o).holder;
            n.Some? && InitSettled(h.copy, n.value.copy, h.pc.content, h.pc.through, text)
  {}

  lemma {:induction false} NotRunEach(calls: seq<string>, i: nat)
    requires i < |calls|
    ensures |NotRun(calls)| == |calls| && NotRun(calls)[i] == ToolResult(calls[i], "Not run")
  {
    if i > 0 { NotRunEach(calls[1..], i - 1); }
    else if |calls| > 1 { NotRunEach(calls[1..], 0); }
  }

  /** A reply that was cut short has each of its calls answered, in order, as not run. */
  lemma {:induction false} CutShortAsTold(cfg: Config, h: Holder, content: seq<Block>)
    requires h.pc.Model? && CallIds(content) != []
    ensures var d := StepModel(cfg, h, Reply(content, false)).holder.value.copy;
            && |d.messages| == |h.copy.messages| + 2 && h.copy.messages <= d.messages
            && d.messages[|h.copy.messages|] == Message(Assistant, Blocks(content))
            && var results := d.messages[|h.copy.messages| + 1];
               && results.role.User? && |BlocksOf(results.content)| == |CallIds(content)|
               && forall i | 0 <= i < |CallIds(content)| ::
                    BlocksOf(results.content)[i] == ToolResult(CallIds(content)[i], "Not run")
  {
    var calls := CallIds(content);
    NotRunEach(calls, 0);
    forall i | 0 <= i < |calls| ensures NotRun(calls)[i] == ToolResult(calls[i], "Not run") { NotRunEach(calls, i); }
  }
}
