/** What holds of one model reply's calls, however its tools interleave their renders and updates. */
module Turns {
  import opened History
  import opened Conversations
  import opened Requests

  /**
   * One question a reply: the claim names the one being stored, so that a failed one's is given back, and none is
   * being stored once one is shown or parked on.
   */
  ghost predicate OneQuestion(t: Turn) {
    && (!t.running ==> t.ops == map[] && t.asked.None?)
    && (forall o | o in t.ops && t.ops[o].kind.Elicit? :: t.asking == Claimed(o))
    && (t.asking.Claimed? ==> t.asking.op in t.ops && t.ops[t.asking.op].kind.Elicit?)
    && (t.parked.Some? ==> t.asking.Shown? && t.asked.None?)
    && (t.asked.Some? ==> t.asking == Shown(t.asked.value))
  }

  function ParkedIds(t: Turn): multiset<string> {
    match t.parked case Some(q) => multiset{q.toolUseId} case None => multiset{}
  }

  /** Every call decided so far has a result, or is the one the turn parks on: each exactly once. */
  ghost predicate Answering(t: Turn) {
    && t.at <= |t.calls|
    && multiset(ResultIds(t.results)) + ParkedIds(t) == multiset(t.calls[..t.at])
  }

  lemma NewTurnOk(calls: seq<string>)
    ensures OneQuestion(NewTurn(calls)) && Answering(NewTurn(calls))
  {}

  lemma ShowOpOneQuestion(cfg: Config, env: Env, c: Conversation, t: Turn, op: nat)
    requires OneQuestion(t)
    ensures OneQuestion(ShowOp(cfg, env, c, t, op).turn)
  {}

  lemma ToolStepOneQuestion(cfg: Config, env: Env, token: Token, c: Conversation, t: Turn, ev: ToolEvent)
    requires OneQuestion(t)
    ensures OneQuestion(ToolStep(cfg, env, token, c, t, ev).turn)
  {
    if ev.Show? { ShowOpOneQuestion(cfg, env, c, t, ev.op); }
  }

  lemma AnswersOneMore(calls: seq<string>, at: nat, results: seq<Block>, text: string)
    requires at < |calls|
    ensures ResultIds(results + [ToolResult(calls[at], text)]) == ResultIds(results) + [calls[at]]
    ensures multiset(calls[..at + 1]) == multiset(calls[..at]) + multiset{calls[at]}
  {
    ResultIdsConcat(results, [ToolResult(calls[at], text)]);
    assert calls[..at + 1] == calls[..at] + [calls[at]];
  }

  lemma EndCallAnswering(c: Conversation, t: Turn, ok: bool, text: string)
    requires Answering(t) && OneQuestion(t)
    ensures Answering(EndCall(c, t, ok, text).turn)
  {
    if t.running && t.ops == map[] && t.at < |t.calls| { DecidedAnswering(t, EndCall(c, t, ok, text).turn, text); }
  }

  /** The next call is answered, or parked on where none was. */
  lemma DecidedAnswering(t: Turn, n: Turn, text: string)
    requires Answering(t) && t.at < |t.calls| && n.calls == t.calls && n.at == t.at + 1
    requires
      || (n.results == t.results + [ToolResult(t.calls[t.at], text)] && n.parked == t.parked)
      || (n.results == t.results && t.parked.None? && n.parked.Some? && n.parked.value.toolUseId == t.calls[t.at])
    ensures Answering(n)
  {
    AnswersOneMore(t.calls, t.at, t.results, text);
  }

  lemma SkipCallAnswering(c: Conversation, t: Turn, text: string)
    requires Answering(t)
    ensures Answering(SkipCall(c, t, text).turn)
  {
    if !t.running && t.at < |t.calls| { DecidedAnswering(t, SkipCall(c, t, text).turn, text); }
  }

  /** Only a call's end decides it. */
  lemma ToolStepKeeps(cfg: Config, env: Env, token: Token, c: Conversation, t: Turn, ev: ToolEvent)
    ensures var u := ToolStep(cfg, env, token, c, t, ev).turn;
            u.calls == t.calls && (!ev.Skip? && !ev.End? ==>
              u.at == t.at && u.results == t.results && u.parked == t.parked)
  {}

  lemma SameAnswering(t: Turn, u: Turn)
    requires Answering(t) && u.calls == t.calls && u.at == t.at && u.results == t.results && u.parked == t.parked
    ensures Answering(u)
  {}

  lemma ToolStepAnswering(cfg: Config, env: Env, token: Token, c: Conversation, t: Turn, ev: ToolEvent)
    requires Answering(t) && OneQuestion(t)
    ensures Answering(ToolStep(cfg, env, token, c, t, ev).turn)
  {
    match ev
    case Skip(text) => SkipCallAnswering(c, t, text);
    case End(ok, text) => EndCallAnswering(c, t, ok, text);
    case _ => OtherAnswering(cfg, env, token, c, t, ev);
  }

  lemma OtherAnswering(cfg: Config, env: Env, token: Token, c: Conversation, t: Turn, ev: ToolEvent)
    requires Answering(t) && !ev.Skip? && !ev.End?
    ensures Answering(ToolStep(cfg, env, token, c, t, ev).turn)
  {
    ToolStepKeeps(cfg, env, token, c, t, ev);
    SameAnswering(t, ToolStep(cfg, env, token, c, t, ev).turn);
  }

  /** A question that fails before it is shown, or whose call throws, lets the next one ask; one shown is retired. */
  lemma FailedGivesBack(c: Conversation, t: Turn, op: nat, next: nat, text: string)
    requires OneQuestion(t) && t.running
    ensures op in t.ops && t.ops[op].kind.Elicit? && next !in t.ops ==>
              BeginOp(c, Fails(c, t, op).turn, next, Elicit).turn.asking == Claimed(next)
    ensures t.asked.Some? && t.ops == map[] && t.at < |t.calls| ==>
              && EndCall(c, t, false, text).turn.asking == NoQuestion
              && t.asked.value in EndCall(c, t, false, text).conv.frozen
  {}
}
