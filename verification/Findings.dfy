/**
 * Where the code falls short of what it promises: concrete runs, beside the lemmas that say exactly when it does not.
 */
module Findings {
  import opened History
  import opened Conversations
  import opened Requests
  import opened Worlds
  import opened Fencing
  import opened Pairing
  import opened Expiry

  const CFG := Config(true, false, 3, 3, 1000, 5, map["v" := Ms(10)])

  function Three(w: World, a: Event, b: Event, c: Event): World { Next(CFG, Next(CFG, Next(CFG, w, a), b), c) }

  lemma RunThree(es: seq<Event>, a: Event, b: Event, c: Event)
    ensures Run(CFG, es + [a, b, c]) == Three(Run(CFG, es), a, b, c)
  {
    RunThen(es, a);
    RunThen(es + [a], b);
    RunThen(es + [a] + [b], c);
    assert es + [a] + [b] + [c] == es + [a, b, c];
  }

  lemma RunThen(es: seq<Event>, e: Event)
    ensures Run(CFG, es + [e]) == Next(CFG, Run(CFG, es), e)
  {
    assert (es + [e])[..|es|] == es;
  }

  function Asks(kind: Kind, token: Token, until: nat, base: Conversation, copy: Conversation, pc: Pc): Holder {
    Holder(kind, token, until, base, copy, base, Snapshot(base), false, pc)
  }

  function Said(text: string): Message { Message(User, Blocks([Text(text)])) }

  function Replies(bs: seq<Block>): Message { Message(Assistant, Blocks(bs)) }

  // ── a wake turn that parks, and then fails its last read ───────────

  const CHAT := NEW_CONVERSATION.(messages := [Said("hi"), Replies([])])
  const NEWS := Notice("n", None, true, None, None)
  const WOKE := CHAT.(messages := CHAT.messages + [Said(WOKEN)], noticedThrough := 1, wokeThrough := 1, wakes := [0],
    wakeTurns := 1)
  const ASK := [ToolUse("q", "ask", "{}")]
  const ASKED := WOKE.(messages := WOKE.messages + [Replies(ASK)], status := Streaming)
  const LOST := ASKED.(handles := [0], status := Idle, pending := Some(Pending("q", 0, [])))
  const PAYLOAD := Payload(2, "v", 0, None)

  function Wakes(base: Conversation, copy: Conversation, ran: bool, pc: Pc): Holder {
    Holder(Wake, 2, 5, base, copy, CHAT, Snapshot(CHAT), ran, pc)
  }

  const A1 := NEW_WORLD.(token := 1, leaseUntil := Some(5),
    holders := map[1 := Asks(Chat("hi"), 1, 5, NEW_CONVERSATION, NEW_CONVERSATION, Read)])
  const A2 := A1.(holders := map[1 := Asks(Chat("hi"), 1, 5, NEW_CONVERSATION, CHAT, Release)])
  const A3 := NEW_WORLD.(row := CHAT, token := 2, leaseUntil := Some(5), log := [NEWS],
    holders := map[2 := Asks(Wake, 2, 5, CHAT, CHAT, Announce)])
  const A4 := A3.(holders := map[2 := Wakes(CHAT, WOKE, false, SaveWake(0))])
  const CALLING := NewTurn(["q"]).(running := true)
  const A5 := A3.(row := WOKE, starts := [0], holders := map[2 := Wakes(WOKE, ASKED, true, Tools(0, CALLING))])
  const SHOWN := CALLING.(asking := Shown(0), asked := Some(0))
  const A6 := A5.(payloads := map[0 := PAYLOAD], nextHandle := 1,
    holders := map[2 := Wakes(WOKE, ASKED.(handles := [0]), true, Tools(0, SHOWN))])
  const A7 := A6.(row := LOST, leaseUntil := None, holders := map[])
  const A8 := A7.(token := 3, leaseUntil := Some(5), holders := map[3 := Asks(Chat("x"), 3, 5, LOST, LOST, Read)])

  lemma A1Next()
    ensures Three(NEW_WORLD, Load(Chat("hi")), Act(1, Go), Act(1, Go)) == A1
  {}

  lemma A2Next()
    ensures Three(A1, Act(1, Go), Act(1, Reply([], false)), Act(1, Go)) == A2
  {
    var w := Next(CFG, A1, Act(1, Go));
    assert [] + [Text("hi")] == [Text("hi")];
    assert w.holders[1].copy.messages == [Said("hi")];
    assert [Said("hi")] + [Replies([])] == CHAT.messages;
  }

  lemma A3Next()
    ensures Three(A2, Act(1, Go), Notify("n", None, true, None), Load(Wake)) == A3
  {}

  lemma WakesUp()
    ensures WakeUp(CFG, CHAT, UnreadNotices(CFG, CHAT, [NEWS]), 0) == Woken(WOKE)
  {
    assert LogBlocks([NEWS], 0, 1) == [];
    assert [] + [Text(WOKEN)] == [Text(WOKEN)];
    assert Recent([], 0, 1000) + [0] == [0];
  }

  lemma A4Next()
    ensures Three(A3, Act(2, Go), Act(2, Go), Act(2, Go)) == A4
  {
    WakesUp();
    assert Next(CFG, A3, Act(2, Go)) == A3.(holders := map[2 := Asks(Wake, 2, 5, CHAT, CHAT, Fresh)]);
  }

  lemma A5Next()
    ensures Three(A4, Act(2, Go), Act(2, Reply(ASK, true)), Act(2, Tool(Call))) == A5
  {
    assert CallIds(ASK) == ["q"];
    var running := WOKE.(status := Streaming);
    assert Next(CFG, A4, Act(2, Go)) ==
           A3.(row := WOKE, starts := [0], holders := map[2 := Wakes(WOKE, running, false, Model(0))]);
  }

  const CLAIMING := CALLING.(asking := Claimed(0), ops := map[0 := Op(Elicit, None, None)])
  const STORING := CLAIMING.(ops := map[0 := Op(Elicit, None, Some(0))])

  lemma Puts()
    ensures var w := A5.(holders := map[2 := Wakes(WOKE, ASKED, true, Tools(0, CLAIMING))]);
            Next(CFG, w, Act(2, Tool(Put(0, "v", None)))) ==
            A6.(holders := map[2 := Wakes(WOKE, ASKED, true, Tools(0, STORING))])
  {
    assert map[0 := Op(Elicit, None, None)][0 := Op(Elicit, None, Some(0))] == map[0 := Op(Elicit, None, Some(0))];
    var w := A5.(holders := map[2 := Wakes(WOKE, ASKED, true, Tools(0, CLAIMING))]);
    assert PutOp(EnvOf(w, 2), 2, ASKED, CLAIMING, 0, "v", None) == TurnOut(ASKED, STORING, Stored(PAYLOAD), false);
  }

  lemma ShowsQuestion()
    ensures Next(CFG, A6.(holders := map[2 := Wakes(WOKE, ASKED, true, Tools(0, STORING))]),
            Act(2, Tool(ToolEvent.Show(0)))) == A6
  {
    assert STORING.ops - {0} == map[];
    assert [] + [0] == [0];
  }

  lemma A6Next()
    ensures Three(A5, Act(2, Tool(Begin(0, Elicit))), Act(2, Tool(Put(0, "v", None))),
            Act(2, Tool(ToolEvent.Show(0)))) == A6
  {
    assert Next(CFG, A5, Act(2, Tool(Begin(0, Elicit)))) ==
           A5.(holders := map[2 := Wakes(WOKE, ASKED, true, Tools(0, CLAIMING))]);
    Puts();
    ShowsQuestion();
  }

  const PARKED := ASKED.(handles := [0], status := Awaiting, pending := Some(Pending("q", 0, [])))

  lemma Parks()
    ensures Next(CFG, A6, Act(2, Tool(End(true, "")))) == A6.(holders := map[2 := Wakes(WOKE, PARKED, true, Context)])
  {
    var c := ASKED.(handles := [0]);
    var o := EndCall(c, SHOWN, true, "");
    assert o == Unchanged(c, SHOWN.(at := 1, running := false, asked := None, parked := Some(Parked("q", 0))));
    assert Park(c, Parked("q", 0), []) == PARKED;
  }

  lemma Loses()
    ensures Next(CFG, A6.(holders := map[2 := Wakes(WOKE, PARKED, true, Context)]), Act(2, Fail(false))) ==
            A6.(holders := map[2 := Wakes(WOKE, LOST, true, Release)])
  {}

  lemma KeepsLost()
    ensures Next(CFG, A6.(holders := map[2 := Wakes(WOKE, LOST, true, Release)]), Act(2, Go)) == A7
  {}

  lemma A7Next()
    ensures Three(A6, Act(2, Tool(End(true, ""))), Act(2, Fail(false)), Act(2, Go)) == A7
  {
    Parks();
    Loses();
    KeepsLost();
  }

  lemma A8Next()
    ensures Three(A7, Load(Chat("x")), Act(3, Go), Act(3, Go)) == A8
  {}

  lemma Onto(es: seq<Event>, w: World, a: Event, b: Event, c: Event, v: World) returns (more: seq<Event>)
    requires Run(CFG, es) == w && Three(w, a, b, c) == v
    ensures Run(CFG, more) == v
  {
    RunThree(es, a, b, c);
    more := es + [a, b, c];
  }

  lemma IllFormed(c: Conversation)
    requires c.messages == LOST.messages + [Said("x")]
    ensures !WellFormed(c.messages)
  {
    PairedPush(LOST.messages, Said("x"));
    assert CallIds(ASK) == ["q"];
    assert "q" in Unanswered(LOST.messages);
    assert ResultIds([Text("x")]) == [];
  }

  lemma A9Next()
    ensures var w := Next(CFG, A8, Act(3, Go));
            3 in w.holders && w.holders[3].pc.Model? && w.holders[3].copy.messages == LOST.messages + [Said("x")]
  {
    assert [] + [Text("x")] == [Text("x")];
  }

  lemma RunsToA8() returns (es: seq<Event>)
    ensures Run(CFG, es) == A8
  {
    A1Next(); A2Next(); A3Next(); A4Next(); A5Next(); A6Next(); A7Next(); A8Next();
    es := Onto([], NEW_WORLD, Load(Chat("hi")), Act(1, Go), Act(1, Go), A1);
    es := Onto(es, A1, Act(1, Go), Act(1, Reply([], false)), Act(1, Go), A2);
    es := Onto(es, A2, Act(1, Go), Notify("n", None, true, None), Load(Wake), A3);
    es := Onto(es, A3, Act(2, Go), Act(2, Go), Act(2, Go), A4);
    es := Onto(es, A4, Act(2, Go), Act(2, Reply(ASK, true)), Act(2, Tool(Call)), A5);
    es := Onto(es, A5, Act(2, Tool(Begin(0, Elicit))), Act(2, Tool(Put(0, "v", None))),
      Act(2, Tool(ToolEvent.Show(0))), A6);
    es := Onto(es, A6, Act(2, Tool(End(true, ""))), Act(2, Fail(false)), Act(2, Go), A7);
    es := Onto(es, A7, Load(Chat("x")), Act(3, Go), Act(3, Go), A8);
  }

  /**
   * A wake turn whose tool asked, and whose last read then failed, is closed as idle with its question pending;
   * the next message then calls the model with a history in which that call has no result.
   */
  lemma {:induction false} LostQuestion()
    ensures exists es ::
            3 in Run(CFG, es).holders && Run(CFG, es).holders[3].pc.Model?
            && !WellFormed(Run(CFG, es).holders[3].copy.messages)
  {
    var es := RunsToA8();
    RunThen(es, Act(3, Go));
    A9Next();
    IllFormed(Run(CFG, es + [Act(3, Go)]).holders[3].copy);
  }

  // ── a refusal by a request that has lost its lease ─────────────────

  const SHOW := [ToolUse("q", "show", "{}")]
  const B2 := A1.(holders :=
    map[1 := Asks(Chat("hi"), 1, 5, NEW_CONVERSATION,
    NEW_CONVERSATION.(messages := [Said("hi"), Replies(SHOW)], status := Streaming),
    Tools(0, CALLING)).(toolsRan := true)])
  const FIRST := Payload(1, "v", 0, None)
  const DISPLAYED := NEW_CONVERSATION.(messages := [Said("hi"), Replies(SHOW)], status := Streaming, handles := [0])
  const B3 := B2.(payloads := map[0 := FIRST], nextHandle := 1,
    holders := map[1 := Asks(Chat("hi"), 1, 5, NEW_CONVERSATION, DISPLAYED, Tools(0, CALLING)).(toolsRan := true)])
  const ENDED := DISPLAYED.(messages := DISPLAYED.messages
    + [Message(User, Blocks([ToolResult("q", "")])), Replies([])], status := Idle)
  const B4 := B3.(holders := map[1 := Asks(Chat("hi"), 1, 5, NEW_CONVERSATION, ENDED, Release).(toolsRan := true)])
  const LATER := Asks(Chat("a"), 2, 5, ENDED, ENDED, Announce)
  const B5 := B4.(now := 5, row := ENDED, token := 2, leaseUntil := Some(5), holders := map[2 := LATER])
  const SECOND := Payload(3, "v", 5, Some(Ms(10)))

  function Updates(c: Conversation, pc: Pc): Holder { Asks(Update(0, false, "u"), 3, 10, ENDED, c, pc) }

  const B6 := B5.(token := 3, leaseUntil := Some(10),
    holders := map[2 := LATER, 3 := Updates(ENDED, PutRevision(0, FIRST))])
  const OWED := UpdateNotice("u", false, 0, 1)
  const REVISED := ENDED.(handles := [0, 1], superseded := map[0 := 1], announcing := Some(OWED), outside := [OWED])
  const B7 := B6.(payloads := map[0 := FIRST, 1 := SECOND], nextHandle := 2, row := REVISED,
                  holders := map[2 := LATER, 3 := Updates(REVISED, AppendRevision).(base := REVISED)])
  const TOLD := REVISED.(announcing := None)
  const B8 := B7.(now := 10, row := TOLD, leaseUntil := None, log := [OWED], holders := map[2 := LATER])
  const B9 := B8.(holders := map[2 := LATER.(pc := Fresh)])

  const TOLD_HI := NEW_CONVERSATION.(messages := [Said("hi")], status := Streaming)

  function Hears(c: Conversation, pc: Pc): World {
    A1.(holders := map[1 := Asks(Chat("hi"), 1, 5, NEW_CONVERSATION, c, pc)])
  }

  lemma SaysHi()
    ensures Next(CFG, A1, Act(1, Go)) == Hears(TOLD_HI, Model(0))
  {
    assert [] + [Text("hi")] == [Text("hi")];
    assert Next(CFG, A1, Act(1, Go)).holders[1].copy.messages == [Said("hi")];
  }

  lemma CallsShow()
    ensures Next(CFG, Hears(TOLD_HI, Model(0)), Act(1, Reply(SHOW, true))) ==
            Hears(TOLD_HI.(messages := [Said("hi"), Replies(SHOW)]), Tools(0, NewTurn(["q"])))
  {
    assert CallIds(SHOW) == ["q"];
    assert [Said("hi")] + [Replies(SHOW)] == [Said("hi"), Replies(SHOW)];
  }

  lemma B2Next()
    ensures Three(A1, Act(1, Go), Act(1, Reply(SHOW, true)), Act(1, Tool(Call))) == B2
  {
    SaysHi();
    CallsShow();
  }

  const PUTTING := CALLING.(ops := map[0 := Op(Display, None, Some(0))])

  const SHOWING := B2.holders[1].copy
  const BEGUN := CALLING.(ops := map[0 := Op(Display, None, None)])

  lemma PutsDisplay()
    ensures Next(CFG, B2.(holders := map[1 := B2.holders[1].(pc := Tools(0, BEGUN))]),
            Act(1, Tool(Put(0, "v", None)))) ==
            B3.(holders := map[1 := B2.holders[1].(pc := Tools(0, PUTTING))])
  {
    var w := B2.(holders := map[1 := B2.holders[1].(pc := Tools(0, BEGUN))]);
    assert BEGUN.ops[0 := Op(Display, None, Some(0))] == PUTTING.ops;
    assert PutOp(EnvOf(w, 1), 1, SHOWING, BEGUN, 0, "v", None) == TurnOut(SHOWING, PUTTING, Stored(FIRST), false);
  }

  lemma ShowsDisplay()
    ensures Next(CFG, B3.(holders := map[1 := B2.holders[1].(pc := Tools(0, PUTTING))]),
            Act(1, Tool(ToolEvent.Show(0)))) == B3
  {
    assert PUTTING.ops - {0} == map[];
    assert [] + [0] == [0];
  }

  lemma B3Next()
    ensures Three(B2, Act(1, Tool(Begin(0, Display))), Act(1, Tool(Put(0, "v", None))),
            Act(1, Tool(ToolEvent.Show(0)))) == B3
  {
    assert Next(CFG, B2, Act(1, Tool(Begin(0, Display)))) ==
           B2.(holders := map[1 := B2.holders[1].(pc := Tools(0, BEGUN))]);
    PutsDisplay();
    ShowsDisplay();
  }

  lemma B4Next()
    ensures Three(B3, Act(1, Tool(End(true, ""))), Act(1, Reply([], false)), Act(1, Go)) == B4
  {
    var w := Next(CFG, B3, Act(1, Tool(End(true, ""))));
    assert [] + [ToolResult("q", "")] == [ToolResult("q", "")];
    assert w == B3.(holders := map[1 := B3.holders[1].(copy := Say(DISPLAYED, [ToolResult("q", "")]), pc := Model(1))]);
    assert Say(DISPLAYED, [ToolResult("q", "")]).messages + [Replies([])] == ENDED.messages;
  }

  lemma B5Next()
    ensures Three(B4, Act(1, Go), Load(Chat("a")), Tick(5)) == B5
  {}

  lemma B6Next()
    ensures Three(B5, Load(Update(0, false, "u")), Act(3, Go), Act(3, Go)) == B6
  {
    var w := Next(CFG, B5, Load(Update(0, false, "u")));
    assert w == B5.(token := 3, leaseUntil := Some(10), holders := map[2 := LATER, 3 := Updates(ENDED, Announce)]);
    assert CurrentHandle(ENDED, 0) == 0;
    assert !Expired(CFG, ENDED, B5.payloads, 5);
  }

  const STORED := B6.(payloads := map[0 := FIRST, 1 := SECOND], nextHandle := 2,
    holders := map[2 := LATER, 3 := Updates(ENDED, Revised(0, FIRST, 1))])

  lemma PutsRevision()
    ensures Next(CFG, B6, Act(3, Go)) == STORED
  {
    assert FIRST.component in CFG.windows;
    assert B6.payloads[1 := SECOND] == STORED.payloads;
    assert B6.holders[3 := Updates(ENDED, Revised(0, FIRST, 1))] == STORED.holders;
  }

  lemma Revises()
    ensures Next(CFG, STORED, Act(3, Go)) == STORED.(holders := map[2 := LATER, 3 := Updates(REVISED, SaveRevision)])
  {
    assert ReviseOutside(ENDED, 0, 1, OWED) == REVISED;
    assert !Late(CFG, FIRST, 5);
  }

  lemma SavesRevision()
    ensures Next(CFG, STORED.(holders := map[2 := LATER, 3 := Updates(REVISED, SaveRevision)]), Act(3, Go)) == B7
  {}

  lemma B7Next()
    ensures Three(B6, Act(3, Go), Act(3, Go), Act(3, Go)) == B7
  {
    PutsRevision();
    Revises();
    SavesRevision();
  }

  lemma Tells()
    ensures Next(CFG, B7, Act(3, Go)) ==
            B7.(log := [OWED], holders := map[2 := LATER, 3 := Updates(TOLD, Release).(base := REVISED)])
  {}

  lemma B8Next()
    ensures Three(B7, Act(3, Go), Act(3, Go), Tick(5)) == B8
  {
    Tells();
    LetsGo();
  }

  lemma LetsGo()
    ensures Next(CFG, B7.(log := [OWED], holders := map[2 := LATER, 3 := Updates(TOLD, Release).(base := REVISED)]),
            Act(3, Go)) == B8.(now := 5)
  {
    var w := B7.(log := [OWED], holders := map[2 := LATER, 3 := Updates(TOLD, Release).(base := REVISED)]);
    assert w.holders - {3} == B8.holders;
  }

  const B10 := B8.(token := 4, leaseUntil := Some(15),
    holders := map[2 := LATER.(pc := Release), 4 := Asks(Chat("b"), 4, 15, TOLD, TOLD, Fresh)])

  lemma B9Next()
    ensures Next(CFG, B8, Act(2, Go)) == B9 && Refused(CFG, B9, 2)
  {
    assert Closes(CFG, ENDED, B8.payloads, 10, 0);
  }

  lemma B10Next()
    ensures Three(B9, Act(2, Go), Load(Chat("b")), Act(4, Go)) == B10
  {
    assert Closes(CFG, ENDED, B8.payloads, 10, 0);
    assert Next(CFG, B9, Act(2, Go)) == B8.(holders := map[2 := LATER.(pc := Release)]);
  }

  lemma B11Next()
    ensures var w := Next(CFG, B10, Act(4, Go)); 4 in w.holders && w.holders[4].pc.Read?
  {
    assert !Expired(CFG, TOLD, B8.payloads, 10);
  }

  lemma RunsToB7() returns (es: seq<Event>)
    ensures Run(CFG, es) == B7
  {
    A1Next(); B2Next(); B3Next(); B4Next(); B5Next(); B6Next(); B7Next();
    es := Onto([], NEW_WORLD, Load(Chat("hi")), Act(1, Go), Act(1, Go), A1);
    es := Onto(es, A1, Act(1, Go), Act(1, Reply(SHOW, true)), Act(1, Tool(Call)), B2);
    es := Onto(es, B2, Act(1, Tool(Begin(0, Display))), Act(1, Tool(Put(0, "v", None))),
      Act(1, Tool(ToolEvent.Show(0))), B3);
    es := Onto(es, B3, Act(1, Tool(End(true, ""))), Act(1, Reply([], false)), Act(1, Go), B4);
    es := Onto(es, B4, Act(1, Go), Load(Chat("a")), Tick(5), B5);
    es := Onto(es, B5, Load(Update(0, false, "u")), Act(3, Go), Act(3, Go), B6);
    es := Onto(es, B6, Act(3, Go), Act(3, Go), Act(3, Go), B7);
  }

  lemma RunsToB8() returns (es: seq<Event>)
    ensures Run(CFG, es) == B8
  {
    es := RunsToB7();
    B8Next();
    es := Onto(es, B7, Act(3, Go), Act(3, Go), Tick(5), B8);
  }

  lemma NotFinal(es: seq<Event>)
    requires Run(CFG, es) == B9
    ensures var v := Run(CFG, es + [Act(2, Go), Load(Chat("b")), Act(4, Go), Act(4, Go)]);
            4 in v.holders && v.holders[4].pc.Read?
  {
    RunThree(es, Act(2, Go), Load(Chat("b")), Act(4, Go));
    B10Next();
    B11Next();
    var so := es + [Act(2, Go), Load(Chat("b")), Act(4, Go)];
    RunThen(so, Act(4, Go));
    assert so + [Act(4, Go)] == es + [Act(2, Go), Load(Chat("b")), Act(4, Go), Act(4, Go)];
  }

  /**
   * A request that has lost its lease may be refused over a surface another request has revised meanwhile: the
   * refusal is not final, and the next message is let in.
   */
  lemma {:induction false} OvertakenRefusal()
    ensures exists es, more ::
              && Refused(CFG, Run(CFG, es), 2)
              && 4 in Run(CFG, es + more).holders && Run(CFG, es + more).holders[4].pc.Read?
  {
    var es := RunsToB8();
    B9Next();
    RunThen(es, Act(2, Go));
    NotFinal(es + [Act(2, Go)]);
  }

  // ── an append after the lease was overtaken ────────────────────────

  const REVISER := Updates(REVISED, AppendRevision).(base := REVISED)

  function Taker(c: Conversation, pc: Pc): Holder { Asks(Wake, 4, 15, REVISED, c, pc) }

  const C1 := B7.(now := 10, token := 4, leaseUntil := Some(15),
    holders := map[2 := LATER, 3 := REVISER, 4 := Taker(REVISED, AppendOwed)])
  const C2 := C1.(log := [OWED], holders := map[2 := LATER, 3 := REVISER, 4 := Taker(TOLD, Fresh)])

  lemma C1Next()
    ensures Three(B7, Tick(5), Load(Wake), Act(4, Go)) == C1
  {
    var w := Next(CFG, Next(CFG, B7, Tick(5)), Load(Wake));
    assert w == C1.(holders := map[2 := LATER, 3 := REVISER, 4 := Taker(REVISED, Announce)]);
  }

  lemma C2Next()
    ensures Next(CFG, C1, Act(4, Go)) == C2
  {}

  lemma C3Next()
    ensures Next(CFG, C2, Act(3, Go)).log == [OWED, OWED]
  {}

  /** A request overtaken between its save and its append tells its revision a second time. */
  lemma {:induction false} ToldTwice()
    ensures exists es :: Run(CFG, es).log == [OWED, OWED]
  {
    var es := RunsToB7();
    C1Next(); C2Next(); C3Next();
    es := Onto(es, B7, Tick(5), Load(Wake), Act(4, Go), C1);
    RunThen(es, Act(4, Go));
    RunThen(es + [Act(4, Go)], Act(3, Go));
  }

  // ── a click stored, but reported as failed ─────────────────────────

  function Chats(c: Conversation, pc: Pc): Holder { Asks(Chat("hi"), 1, 5, NEW_CONVERSATION, c, pc).(toolsRan := true) }

  const ASKING := B2.(payloads := map[0 := FIRST], nextHandle := 1,
    holders := map[1 := Chats(DISPLAYED, Tools(0, SHOWN))])
  const WAITING := DISPLAYED.(status := Awaiting, pending := Some(Pending("q", 0, [])))
  const D4 := ASKING.(row := WAITING, leaseUntil := None, holders := map[])
  const D5 := D4.(token := 2, leaseUntil := Some(5), holders := map[2 := Clicks(WAITING, WAITING, Gate)])
  const CLICKED := DISPLAYED.(messages := DISPLAYED.messages + [Message(User, Blocks([ToolResult("q", "yes")]))],
    status := Idle, frozen := [0])

  function Clicks(base: Conversation, copy: Conversation, pc: Pc): Holder {
    Holder(Interact(0, "yes"), 2, 5, base, copy, WAITING, Snapshot(WAITING), false, pc)
  }

  lemma BeginsQuestion()
    ensures Next(CFG, B2, Act(1, Tool(Begin(0, Elicit)))) ==
            B2.(holders := map[1 := Chats(SHOWING, Tools(0, CLAIMING))])
  {}

  lemma PutsQuestion()
    ensures Next(CFG, B2.(holders := map[1 := Chats(SHOWING, Tools(0, CLAIMING))]), Act(1, Tool(Put(0, "v", None)))) ==
            B3.(holders := map[1 := Chats(SHOWING, Tools(0, STORING))])
  {
    var w := B2.(holders := map[1 := Chats(SHOWING, Tools(0, CLAIMING))]);
    assert map[0 := Op(Elicit, None, None)][0 := Op(Elicit, None, Some(0))] == map[0 := Op(Elicit, None, Some(0))];
    assert PutOp(EnvOf(w, 1), 1, SHOWING, CLAIMING, 0, "v", None) == TurnOut(SHOWING, STORING, Stored(FIRST), false);
  }

  lemma OpensQuestion()
    ensures Next(CFG, B3.(holders := map[1 := Chats(SHOWING, Tools(0, STORING))]), Act(1, Tool(ToolEvent.Show(0)))) ==
            ASKING
  {
    assert STORING.ops - {0} == map[];
    assert [] + [0] == [0];
  }

  lemma D3Next()
    ensures Three(B2, Act(1, Tool(Begin(0, Elicit))), Act(1, Tool(Put(0, "v", None))),
            Act(1, Tool(ToolEvent.Show(0)))) == ASKING
  {
    BeginsQuestion();
    PutsQuestion();
    OpensQuestion();
  }

  lemma ParksChat()
    ensures Next(CFG, ASKING, Act(1, Tool(End(true, "")))) == ASKING.(holders := map[1 := Chats(WAITING, Context)])
  {
    assert EndCall(DISPLAYED, SHOWN, true, "") ==
           Unchanged(DISPLAYED, SHOWN.(at := 1, running := false, asked := None, parked := Some(Parked("q", 0))));
    assert Park(DISPLAYED, Parked("q", 0), []) == WAITING;
  }

  lemma D4Next()
    ensures Three(ASKING, Act(1, Tool(End(true, ""))), Act(1, Go), Act(1, Go)) == D4
  {
    ParksChat();
    assert Next(CFG, ASKING.(holders := map[1 := Chats(WAITING, Context)]), Act(1, Go)) ==
           ASKING.(holders := map[1 := Chats(WAITING, Release)]);
  }

  lemma D5Next()
    ensures Three(D4, Load(Interact(0, "yes")), Act(2, Go), Act(2, Go)) == D5
  {
    assert !Expired(CFG, WAITING, D4.payloads, 0);
  }

  const D6 := D5.(row := CLICKED, holders := map[2 := Clicks(CLICKED, WAITING, Release)])

  lemma Answers()
    ensures RecordClick(WAITING, 0, "yes", Unread([], 0, 0)) == CLICKED
  {
    assert [] + [ToolResult("q", "yes")] + [] == [ToolResult("q", "yes")];
    assert [] + [0] == [0];
  }

  lemma SavesClick()
    ensures Next(CFG, D5.(holders := map[2 := Clicks(WAITING, CLICKED, SaveClick)]), Act(2, Fail(true))) == D6
  {
    assert UndoClick(CLICKED, Snapshot(WAITING)) == WAITING;
  }

  lemma D6Next()
    ensures Three(D5, Act(2, Click(true, true)), Act(2, Go), Act(2, Fail(true))) == D6
  {
    assert Next(CFG, D5, Act(2, Click(true, true))) == D5.(holders := map[2 := Clicks(WAITING, WAITING, Read)]);
    Answers();
    assert Next(CFG, D5.(holders := map[2 := Clicks(WAITING, WAITING, Read)]), Act(2, Go)) ==
           D5.(holders := map[2 := Clicks(WAITING, CLICKED, SaveClick)]);
    SavesClick();
  }

  lemma RunsToD6() returns (es: seq<Event>)
    ensures Run(CFG, es) == D6
  {
    A1Next(); B2Next(); D3Next(); D4Next(); D5Next(); D6Next();
    es := Onto([], NEW_WORLD, Load(Chat("hi")), Act(1, Go), Act(1, Go), A1);
    es := Onto(es, A1, Act(1, Go), Act(1, Reply(SHOW, true)), Act(1, Tool(Call)), B2);
    es := Onto(es, B2, Act(1, Tool(Begin(0, Elicit))), Act(1, Tool(Put(0, "v", None))),
      Act(1, Tool(ToolEvent.Show(0))), ASKING);
    es := Onto(es, ASKING, Act(1, Tool(End(true, ""))), Act(1, Go), Act(1, Go), D4);
    es := Onto(es, D4, Load(Interact(0, "yes")), Act(2, Go), Act(2, Go), D5);
    es := Onto(es, D5, Act(2, Click(true, true)), Act(2, Go), Act(2, Fail(true)), D6);
  }

  lemma D7Next()
    ensures Next(CFG, D6, Act(2, Go)).row == WAITING
  {}

  /**
   * A stored answer is taken back by the request that gave it, and its question can be answered, and its handler run,
   * again.
   */
  lemma {:induction false} AnswerTakenBack()
    ensures exists es :: Run(CFG, es).row.frozen == [0] && Run(CFG, es + [Act(2, Go)]).row.frozen == []
                         && Run(CFG, es + [Act(2, Go)]).row.pending == Some(Pending("q", 0, []))
  {
    var es := RunsToD6();
    RunThen(es, Act(2, Go));
    D7Next();
    assert Run(CFG, es).row.frozen == [0];
  }
}
