/** One model reply's tool calls, run in place over a draft: what they render, revise and ask. */
module Replies {
  import opened History
  import opened Conversations
  import opened Requests
  import opened Turns
  import opened Worlds
  import opened Pairing
  import opened Answers
  import opened Drafts

  /** What became of a surface's write. */
  datatype PutOutcome = Issued(handle: Handle) | Overtaken | NotReady

  /** The results of a reply whose calls are all decided answer each of them once, in the history they go into. */
  lemma ResultsFit(c: Conversation, t: Turn)
    requires TurnOk(t) && t.at == |t.calls| && Paired(c.messages) && Unanswered(c.messages) == multiset(t.calls)
    ensures multiset(t.calls) == multiset(ResultIds(t.results)) + ParkedIds(t)
    ensures t.parked.None? ==> WellFormed(Say(c, t.results).messages)
  {
    assert t.calls[..t.at] == t.calls;
    if t.parked.None? { SayAnswers(c, t.results); }
  }

  /** One more thing a tool, or the store under it, does, and what the store shows then. */
  datatype Moment = Moment(env: Env, ev: ToolEvent)

  ghost predicate Calling(calls: seq<string>, c: Conversation, t: Turn) {
    TurnOk(t) && t.calls == calls && Paired(c.messages) && Unanswered(c.messages) == multiset(calls)
  }

  lemma CallingNext(cfg: Config, env: Env, token: Token, c: Conversation, t: Turn, ev: ToolEvent)
    requires Calling(t.calls, c, t)
    ensures var o := ToolStep(cfg, env, token, c, t, ev); Calling(t.calls, o.conv, o.turn)
  {
    ToolStepOneQuestion(cfg, env, token, c, t, ev);
    ToolStepAnswering(cfg, env, token, c, t, ev);
    ToolStepTouches(cfg, env, token, c, t, ev);
    ToolStepKeeps(cfg, env, token, c, t, ev);
    var o := ToolStep(cfg, env, token, c, t, ev);
    CallingKept(c, t, o.conv, o.turn);
  }

  lemma CallingKept(c: Conversation, t: Turn, d: Conversation, u: Turn)
    requires Calling(t.calls, c, t) && TurnOk(u) && u.calls == t.calls && d.messages == c.messages
    ensures Calling(t.calls, d, u)
  {}

  /** What the first `n` things of a script make of a reply's calls and the copy beside them. */
  ghost function After(cfg: Config, token: Token, c: Conversation, t: Turn, script: seq<Moment>, n: nat): TurnOut
    requires n <= |script|
  {
    if n == 0 then TurnOut(c, t, Nothing, false)
    else
      var o, m := After(cfg, token, c, t, script, n - 1), script[n - 1];
      if o.lost then o else ToolStep(cfg, m.env, token, o.conv, o.turn, m.ev)
  }

  /** The texts with which they settle calls, in turn. */
  ghost function TextsIn(cfg: Config, token: Token, c: Conversation, t: Turn, script: seq<Moment>, n: nat): seq<string>
    requires n <= |script|
  {
    if n == 0 then []
    else
      var o, m := After(cfg, token, c, t, script, n - 1), script[n - 1];
      TextsIn(cfg, token, c, t, script, n - 1) + if o.lost then [] else TextOf(o.turn, m.ev)
  }

  /** Where a script has got to: nothing in the history yet, and each call it settled with the text that settled it. */
  ghost predicate Played(cfg: Config, token: Token, c: Conversation, t: Turn, told: seq<string>, script: seq<Moment>,
    n: nat, d: Conversation, u: Turn)
    requires n <= |script|
  {
    && Calling(t.calls, d, u) && d.messages == c.messages
    && (var o := After(cfg, token, c, t, script, n); o.conv == d && o.turn == u && !o.lost)
    && AnsweredWith(u, told + TextsIn(cfg, token, c, t, script, n))
  }

  lemma PlayedNone(cfg: Config, token: Token, c: Conversation, t: Turn, told: seq<string>, script: seq<Moment>)
    requires Calling(t.calls, c, t) && AnsweredWith(t, told)
    ensures Played(cfg, token, c, t, told, script, 0, c, t)
  {
    assert told + [] == told;
  }

  lemma PlayedNext(cfg: Config, token: Token, c: Conversation, t: Turn, told: seq<string>, script: seq<Moment>,
    n: nat, d: Conversation, u: Turn)
    requires n < |script| && Played(cfg, token, c, t, told, script, n, d, u)
    ensures var o := ToolStep(cfg, script[n].env, token, d, u, script[n].ev);
            Calling(t.calls, o.conv, o.turn)
            && (!o.lost ==> Played(cfg, token, c, t, told, script, n + 1, o.conv, o.turn))
  {
    var m, texts := script[n], TextsIn(cfg, token, c, t, script, n);
    CallingNext(cfg, m.env, token, d, u, m.ev);
    ToolStepKeeps(cfg, m.env, token, d, u, m.ev);
    ToolStepAnswers(cfg, m.env, token, d, u, told + texts, m.ev);
    ToolStepTouches(cfg, m.env, token, d, u, m.ev);
    OneAfterAnother(told, texts, TextOf(u, m.ev));
  }

  lemma OneAfterAnother(a: seq<string>, b: seq<string>, c: seq<string>)
    ensures a + b + c == a + (b + c)
  {}

  /** Its calls are all decided: parked on one of them, or each with its own text in the message after the reply. */
  ghost predicate PlayedOut(c: Conversation, d: Conversation, calls: seq<string>, texts: seq<string>, parks: bool) {
    && |texts| == |calls|
    && if parks then exists k: nat :: ParkedOn(c, d, calls, texts, k)
       else d.messages == c.messages + [Message(User, Blocks(AnswersOf(calls, texts, None)))]
  }

  lemma PlaysOut(cfg: Config, token: Token, c: Conversation, t: Turn, told: seq<string>, script: seq<Moment>,
    d: Conversation, u: Turn)
    requires Played(cfg, token, c, t, told, script, |script|, d, u) && u.at == |t.calls|
    ensures var e := match u.parked case Some(q) => Park(d, q, u.results) case None => Say(d, u.results);
            PlayedOut(c, e, t.calls, told + TextsIn(cfg, token, c, t, script, |script|), u.parked.Some?)
  {
    var texts := told + TextsIn(cfg, token, c, t, script, |script|);
    Settles(d, u, texts);
    if u.parked.Some? {
      var e := Park(d, u.parked.value, u.results);
      var k: nat :| ParkedOn(d, e, t.calls, texts, k);
      assert ParkedOn(c, e, t.calls, texts, k);
    }
  }

  /** What holds once every call is decided, of the copy `e` the turn leaves. */
  ghost predicate Finished(c: Conversation, e: Conversation, calls: seq<string>, texts: seq<string>, parks: bool) {
    && PlayedOut(c, e, calls, texts, parks)
    && (!parks ==> WellFormed(e.messages))
    && (parks ==>
          && e.status.Awaiting? && e.pending.Some?
          && multiset(calls) == multiset(ResultIds(e.pending.value.results)) + multiset{e.pending.value.toolUseId})
  }

  lemma Finishes(cfg: Config, token: Token, c: Conversation, t: Turn, told: seq<string>, script: seq<Moment>,
    d: Conversation, u: Turn)
    requires Played(cfg, token, c, t, told, script, |script|, d, u) && u.at == |t.calls|
    ensures var e := match u.parked case Some(q) => Park(d, q, u.results) case None => Say(d, u.results);
            Finished(c, e, t.calls, told + TextsIn(cfg, token, c, t, script, |script|), u.parked.Some?)
  {
    ResultsFit(d, u);
    PlaysOut(cfg, token, c, t, told, script, d, u);
  }

  class Reply {
    const calls: seq<string>
    const draft: Draft
    var at: nat
    var results: seq<Block>
    var parked: Option<Parked>
    /** Shared by every call of the reply: one question is asked at most. */
    var asking: Asking
    var running: bool
    var asked: Option<Handle>
    var ops: map<nat, Op>

    ghost function View(): Turn
      reads this
    {
      Turn(calls, at, results, parked, asking, running, asked, ops)
    }

    constructor (calls: seq<string>, draft: Draft)
      ensures View() == NewTurn(calls) && this.draft == draft
    {
      this.calls, this.draft := calls, draft;
      at, results, parked, asking, running, asked, ops := 0, [], None, NoQuestion, false, None, map[];
    }

    ghost predicate Did(o: TurnOut)
      reads this, draft
    {
      View() == o.turn && draft.View() == o.conv
    }

    /** A call answered without running its tool. */
    method Skip(text: string)
      modifies this
      ensures Did(SkipCall(draft.View(), old(View()), text))
    {
      if running || at >= |calls| { return; }
      results := results + [ToolResult(calls[at], text)];
      at := at + 1;
    }

    method Run()
      modifies this
      ensures Did(RunCall(draft.View(), old(View())))
    {
      if running { return; }
      running, asked, ops := true, None, map[];
    }

    /** A render or an update starts, and claims the question or the surface before it first waits. */
    method Begin(op: nat, kind: OpKind)
      modifies this
      ensures Did(BeginOp(draft.View(), old(View()), op, kind))
    {
      if !running || op in ops { return; }
      match kind {
        case Display => ops := ops[op := Op(kind, None, None)];
        case Elicit =>
          if asking != NoQuestion { return; }
          ops, asking := ops[op := Op(kind, None, None)], Claimed(op);
        case Revise(target) =>
          if target !in draft.handles || target in draft.frozen || target in draft.superseded { return; }
          if exists o | o in ops :: ops[o].kind == Revise(target) { return; }
          ops := ops[op := Op(kind, None, None)];
      }
    }

    /** It failed before it was shown: a question gives its claim back, so that a later one can ask. */
    method Drop(op: nat)
      modifies this
      ensures Did(Fails(draft.View(), old(View()), op))
    {
      if !running || op !in ops { return; }
      ops := ops - {op};
      if asking == Claimed(op) { asking := NoQuestion; }
    }

    /** An update reads the surface it revises, and refuses a conversation that is out of date. */
    method Check(cfg: Config, env: Env, op: nat)
      modifies this
      ensures Did(CheckOp(cfg, env, draft.View(), old(View()), op))
    {
      if !running || op !in ops || !ops[op].kind.Revise? || ops[op].stored.Some? { return; }
      var target := ops[op].kind.target;
      var records := draft.Payloads(env.payloads);
      var closed := draft.ClosedAt(cfg, records, env.now, env.payloads);
      if target !in env.payloads || closed.Some? {
        Drop(op);
      } else {
        ops := ops[op := ops[op].(record := Some(env.payloads[target]))];
      }
    }

    /** The payload is written under the lease, and gets the next handle. */
    method Store(env: Env, token: Token, op: nat, component: string, window: Option<Window>) returns (put: PutOutcome)
      modifies this
      ensures var o := PutOp(env, token, draft.View(), old(View()), op, component, window);
              Did(o) && (put.Overtaken? <==> o.lost) && (put.Issued? <==> o.effect.Stored?)
                && (put.Issued? ==> put.handle == env.nextHandle)
    {
      if !running || op !in ops || ops[op].stored.Some? || (ops[op].kind.Revise? && ops[op].record.None?) {
        return NotReady;
      }
      if !env.live { return Overtaken; }
      ops := ops[op := ops[op].(stored := Some(env.nextHandle))];
      put := PutOutcome.Issued(env.nextHandle);
    }

    /** A stored surface takes effect: attached, and asked or put in the place of what it revises. */
    method Show(cfg: Config, env: Env, op: nat)
      modifies this, draft
      ensures Did(ShowOp(cfg, env, old(draft.View()), old(View()), op))
    {
      if !running || op !in ops || ops[op].stored.None? { return; }
      var o := ops[op];
      var h := o.stored.value;
      match o.kind {
        case Display =>
          draft.Attach(h);
          ops := ops - {op};
        case Elicit =>
          draft.Attach(h);
          ops, asking, asked := ops - {op}, Shown(h), Some(h);
        case Revise(target) =>
          if o.record.None? { return; }
          if Late(cfg, o.record.value, env.now) { Drop(op); return; }
          draft.Revise(target, h);
          ops := ops - {op};
          if asked == Some(target) { asked := Some(h); }
          if asking == Shown(target) { asking := Shown(h); }
      }
    }

    /** The tool returned or threw, with all it started settled: its call is answered, or waits for the user. */
    method End(ok: bool, text: string)
      modifies this, draft
      ensures Did(EndCall(old(draft.View()), old(View()), ok, text))
    {
      if !running || ops != map[] || at >= |calls| { return; }
      var id, question := calls[at], asked;
      at, running, asked := at + 1, false, None;
      if question.Some? && ok {
        parked := Some(Parked(id, question.value));
      } else {
        results := results + [ToolResult(id, text)];
        if question.Some? {
          draft.Retire(question.value);
          asking := NoQuestion;
        }
      }
    }

    method Handle(cfg: Config, token: Token, m: Moment) returns (lost: bool)
      modifies this, draft
      ensures var o := ToolStep(cfg, m.env, token, old(draft.View()), old(View()), m.ev); Did(o) && lost == o.lost
    {
      lost := false;
      match m.ev {
        case Skip(text) => Skip(text);
        case Call => Run();
        case Begin(op, kind) => Begin(op, kind);
        case Check(op) => Check(cfg, m.env, op);
        case Put(op, component, window) =>
          var put := Store(m.env, token, op, component, window);
          lost := put.Overtaken?;
        case Show(op) => Show(cfg, m.env, op);
        case Drop(op) => Drop(op);
        case End(ok, text) => End(ok, text);
      }
    }

    /**
     * Every call is decided: the turn parks on its question with the other results held, or they go into the history.
     */
    method Settle() returns (parks: bool)
      requires at == |calls| && Calling(calls, draft.View(), View())
      modifies draft
      ensures parks <==> parked.Some?
      ensures draft.View() == if parks then Park(old(draft.View()), parked.value, results)
              else Say(old(draft.View()), results)
    {
      parks := parked.Some?;
      if parks { draft.ParkOn(parked.value, results); } else { draft.Add(results); }
    }

    /** `n` things of the script are done, or the lease is lost. */
    ghost predicate GotTo(cfg: Config, token: Token, c: Conversation, t: Turn, told: seq<string>, script: seq<Moment>,
      n: nat, lost: bool)
      requires n <= |script|
      reads this, draft
    {
      if lost then Calling(t.calls, draft.View(), View())
      else Played(cfg, token, c, t, told, script, n, draft.View(), View())
    }

    /** The next thing a tool does. */
    method Advance(cfg: Config, token: Token, script: seq<Moment>, i: nat, ghost c: Conversation, ghost t: Turn,
      ghost told: seq<string>) returns (lost: bool)
      requires i < |script| && GotTo(cfg, token, c, t, told, script, i, false)
      modifies this, draft
      ensures GotTo(cfg, token, c, t, told, script, i + 1, lost)
    {
      PlayedNext(cfg, token, c, t, told, script, i, draft.View(), View());
      lost := Handle(cfg, token, script[i]);
    }

    /** Runs the calls one thing at a time, until the script ends or the lease is lost. */
    method Walk(cfg: Config, token: Token, script: seq<Moment>, ghost c: Conversation, ghost t: Turn,
      ghost told: seq<string>) returns (lost: bool)
      requires GotTo(cfg, token, c, t, told, script, 0, false)
      modifies this, draft
      ensures GotTo(cfg, token, c, t, told, script, |script|, lost)
    {
      lost := false;
      for i := 0 to |script|
        invariant !lost && GotTo(cfg, token, c, t, told, script, i, false)
      {
        lost := Advance(cfg, token, script, i, c, t, told);
        if lost { return; }
      }
    }

    /**
     * Runs the reply's calls, whatever their tools do and in whatever order their renders and updates interleave.
     * A lost lease stops it. Once every call is decided, each is answered in the history exactly once, in order and
     * with the text that decided it, or the results are held so beside the one question the turn parks on.
     * `told` are the texts of the calls decided before.
     */
    method Play(cfg: Config, token: Token, script: seq<Moment>, ghost told: seq<string>)
      returns (lost: bool, parks: bool)
      requires Calling(calls, draft.View(), View()) && AnsweredWith(View(), told)
      modifies this, draft
      ensures !lost && at == |calls| ==> Finished(old(draft.View()), draft.View(), calls,
                told + TextsIn(cfg, token, old(draft.View()), old(View()), script, |script|), parks)
      ensures lost || at < |calls| ==> Calling(calls, draft.View(), View())
    {
      parks := false;
      ghost var c, t := draft.View(), View();
      PlayedNone(cfg, token, c, t, told, script);
      lost := Walk(cfg, token, script, c, t, told);
      if lost || at < |calls| { return; }
      Finishes(cfg, token, c, t, told, script, draft.View(), View());
      parks := Settle();
    }
  }
}
