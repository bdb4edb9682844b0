/**
 * A request on a conversation, as a program over its private copy. It stops wherever the
 * code awaits something others can see, change or make fail: a store call, the model, a tool.
 */
module Requests {
  import opened History
  import opened Conversations

  // ── one model reply's tool calls ───────────────────────────────────

  datatype OpKind = Display | Elicit | Revise(target: Handle)

  /**
   * A render or update in flight: `record` once an update has read and checked its surface, `stored` once its payload
   * is.
   */
  datatype Op = Op(kind: OpKind, record: Option<Payload>, stored: Option<Handle>)

  /** The question this reply has asked: claimed while its surface is being stored, then shown. */
  datatype Asking = NoQuestion | Claimed(op: nat) | Shown(handle: Handle)

  datatype Parked = Parked(toolUseId: string, handle: Handle)

  /** The calls of one reply, the results so far, and the call now running with what it has in flight. */
  datatype Turn = Turn(
    calls: seq<string>, at: nat, results: seq<Block>, parked: Option<Parked>, asking: Asking,
    running: bool, asked: Option<Handle>, ops: map<nat, Op>)

  function NewTurn(calls: seq<string>): Turn { Turn(calls, 0, [], None, NoQuestion, false, None, map[]) }

  /** What a tool, or the store under it, does next. Nothing constrains the order. */
  datatype ToolEvent =
    | Skip(text: string)
    | Call
    | Begin(op: nat, kind: OpKind)
    | Check(op: nat)
    | Put(op: nat, component: string, window: Option<Window>)
    | Show(op: nat)
    | Drop(op: nat)
    | End(ok: bool, text: string)

  /** What a request sees of the world: the clock, the notices, the payloads, and whether its lease token is current. */
  datatype Env = Env(now: nat, log: seq<Notice>, payloads: map<Handle, Payload>, nextHandle: Handle, live: bool)

  /** What one step does to what others can see. */
  datatype Effect =
    | Nothing
    | Saved(conv: Conversation, release: bool)
    | Logged(notice: Notice)
    | Stored(payload: Payload)

  /** The payloads after an effect, and the next handle to be issued. */
  function StoredIn(env: Env, e: Effect): map<Handle, Payload> {
    if e.Stored? then env.payloads[env.nextHandle := e.payload] else env.payloads
  }

  function Issued(n: Handle, e: Effect): Handle { if e.Stored? then n + 1 else n }

  datatype TurnOut = TurnOut(conv: Conversation, turn: Turn, effect: Effect, lost: bool)

  predicate CanRevise(c: Conversation, t: Turn, target: Handle) {
    && target in c.handles
    && target !in c.frozen
    && target !in c.superseded
    && (forall o | o in t.ops :: t.ops[o].kind != Revise(target))
  }

  function Unchanged(c: Conversation, t: Turn): TurnOut { TurnOut(c, t, Nothing, false) }

  /** A call the runtime answers without running its tool: an unknown one, bad input, or init called again. */
  function SkipCall(c: Conversation, t: Turn, text: string): TurnOut {
    if t.running || t.at >= |t.calls| then Unchanged(c, t)
    else Unchanged(c, t.(at := t.at + 1, results := t.results + [ToolResult(t.calls[t.at], text)]))
  }

  function RunCall(c: Conversation, t: Turn): TurnOut {
    if t.running then Unchanged(c, t) else Unchanged(c, t.(running := true, asked := None, ops := map[]))
  }

  /**
   * A render or an update starts. A second question waits while one is being stored, and is refused once one is shown.
   */
  function BeginOp(c: Conversation, t: Turn, op: nat, kind: OpKind): TurnOut {
    if || !t.running || op in t.ops
       || (kind.Elicit? && t.asking != NoQuestion)
       || (kind.Revise? && !CanRevise(c, t, kind.target))
    then Unchanged(c, t)
    else Unchanged(c, t.(ops := t.ops[op := Op(kind, None, None)], asking := if kind.Elicit? then Claimed(op)
      else t.asking))
  }

  /** Forget an operation that failed before it was shown; a question gives its claim back. */
  function Fails(c: Conversation, t: Turn, op: nat): TurnOut {
    if !t.running || op !in t.ops then Unchanged(c, t)
    else Unchanged(c, t.(ops := t.ops - {op}, asking := if t.asking == Claimed(op) then NoQuestion else t.asking))
  }

  /** An update reads the surface it revises, and checks the conversation is still fresh. */
  function CheckOp(cfg: Config, env: Env, c: Conversation, t: Turn, op: nat): TurnOut {
    if !t.running || op !in t.ops || !t.ops[op].kind.Revise? || t.ops[op].stored.Some? then Unchanged(c, t)
    else if t.ops[op].kind.target !in env.payloads || Expired(cfg, c, env.payloads, env.now) then Fails(c, t, op)
    else Unchanged(c, t.(ops := t.ops[op := t.ops[op].(record := Some(env.payloads[t.ops[op].kind.target]))]))
  }

  /** The fenced write of a surface's payload, which issues its handle. */
  function PutOp(env: Env, token: Token, c: Conversation, t: Turn, op: nat, component: string,
    window: Option<Window>): TurnOut {
    if !t.running || op !in t.ops || t.ops[op].stored.Some? || (t.ops[op].kind.Revise? && t.ops[op].record.None?)
      then Unchanged(c, t)
    else if !env.live then Unchanged(c, t).(lost := true)
    else TurnOut(c, t.(ops := t.ops[op := t.ops[op].(stored := Some(env.nextHandle))]),
                 Stored(Payload(token, component, env.now, window)), false)
  }

  /** A stored surface takes effect. An update asks once more whether what it revises is still fresh. */
  function ShowOp(cfg: Config, env: Env, c: Conversation, t: Turn, op: nat): TurnOut {
    if !t.running || op !in t.ops || t.ops[op].stored.None? || (t.ops[op].kind.Revise? && t.ops[op].record.None?)
      then Unchanged(c, t)
    else
      var h := t.ops[op].stored.value;
      var rest := t.(ops := t.ops - {op});
      match t.ops[op].kind
      case Display => Unchanged(Attach(c, h), rest)
      case Elicit => Unchanged(Attach(c, h), rest.(asking := Shown(h), asked := Some(h)))
      case Revise(target) =>
        if Late(cfg, t.ops[op].record.value, env.now) then Fails(c, t, op)
        else
          Unchanged(Supersede(c, target, h),
                    rest.(asked := if t.asked == Some(target) then Some(h) else t.asked,
                          asking := if t.asking == Shown(target) then Shown(h) else t.asking))
  }

  /** The running call has returned or thrown, with everything it started settled. */
  function EndCall(c: Conversation, t: Turn, ok: bool, text: string): TurnOut {
    if !t.running || t.ops != map[] || t.at >= |t.calls| then Unchanged(c, t)
    else
      var next := t.(at := t.at + 1, running := false, asked := None);
      var answered := next.(results := t.results + [ToolResult(t.calls[t.at], text)]);
      match t.asked
      case None => Unchanged(c, answered)
      case Some(h) =>
        if ok then Unchanged(c, next.(parked := Some(Parked(t.calls[t.at], h))))
        else Unchanged(Freeze(c, h), answered.(asking := NoQuestion))
  }

  function ToolStep(cfg: Config, env: Env, token: Token, c: Conversation, t: Turn, ev: ToolEvent): TurnOut {
    match ev
    case Skip(text) => SkipCall(c, t, text)
    case Call => RunCall(c, t)
    case Begin(op, kind) => BeginOp(c, t, op, kind)
    case Check(op) => CheckOp(cfg, env, c, t, op)
    case Put(op, component, window) => PutOp(env, token, c, t, op, component, window)
    case Show(op) => ShowOp(cfg, env, c, t, op)
    case Drop(op) => Fails(c, t, op)
    case End(ok, text) => EndCall(c, t, ok, text)
  }

  /** Every call of the reply is decided. */
  predicate Decided(t: Turn) { t.at >= |t.calls| }

  /** The turn parks on the question, at its latest revision, and holds the other calls' results. */
  function Park(c: Conversation, q: Parked, results: seq<Block>): Conversation {
    c.(status := Awaiting, pending := Some(Pending(q.toolUseId, CurrentHandle(c, q.handle), results)))
  }

  // ── requests ───────────────────────────────────────────────────────

  datatype Kind = Chat(text: string) | Start | Interact(handle: Handle, said: string) | Wake
    | Update(handle: Handle, wake: bool, text: string)

  datatype Pc =
    | Announce | AppendOwed | Fresh | Gate | Read
    | SaveClick | SaveWake(at: nat)
    | Init(content: seq<Block>, through: nat, turn: Turn) | SaveInit
    | Model(hop: nat) | Tools(hop: nat, turn: Turn) | Context
    | PutRevision(was: Handle, record: Payload) | Revised(was: Handle, record: Payload, next: Handle)
    | SaveRevision | AppendRevision
    | Release

  /**
   * A request under way. `base` is the conversation it loaded, or last saved, and `prior` its copy when
   * it recorded its click or woke: history variables, which no code reads. `before` is what the code keeps of `prior`.
   */
  datatype Holder = Holder(
    kind: Kind, token: Token, leaseUntil: nat, base: Conversation, copy: Conversation,
    prior: Conversation, before: Before, toolsRan: bool, pc: Pc)

  datatype Action =
    | Go
    | Fail(landed: bool)
    | Click(resolve: bool, ok: bool)
    | Reply(content: seq<Block>, toolUse: bool)
    | Tool(ev: ToolEvent)

  /** The request after a step, or None once it has ended. */
  datatype Out = Out(holder: Option<Holder>, effect: Effect)

  function Stay(h: Holder): Out { Out(Some(h), Nothing) }

  function To(h: Holder, c: Conversation, pc: Pc): Out { Stay(h.(copy := c, pc := pc)) }

  /** A fenced save: it lands only with the current token, and a request that has lost its lease ends. */
  function Save(env: Env, h: Holder, next: Holder): Out {
    if env.live then Out(Some(next.(base := h.copy)), Saved(h.copy, false)) else Out(None, Nothing)
  }

  /** A save that failed with some other error: it may have landed all the same. */
  function FailedSave(env: Env, h: Holder, landed: bool, next: Holder): Out {
    if env.live && landed then Out(Some(next.(base := h.copy)), Saved(h.copy, false)) else Stay(next)
  }

  function AtHop(cfg: Config, h: Holder, c: Conversation, hop: nat): Holder {
    if hop < cfg.maxHops then h.(copy := c, pc := Model(hop)) else h.(copy := c.(status := Idle), pc := Context)
  }

  function RunTurn(cfg: Config, h: Holder): Holder { AtHop(cfg, h, h.copy.(status := Streaming), 0) }

  /** The turn threw something other than a lost lease. */
  function TurnFails(h: Holder): Holder {
    h.(copy := if h.kind.Wake? then FailWake(h.copy, h.before, h.toolsRan) else h.copy, pc := Release)
  }

  /** Nothing is owed any more: on to the request itself. */
  function Announced(h: Holder): Holder {
    var pc := match h.kind
      case Chat(_) => Fresh
      case Start => Read
      case Interact(_, _) => Fresh
      case Wake => if h.copy.messages == [] || h.copy.status.Awaiting? then Release else Fresh
      case Update(_, _, _) => Gate;
    h.(pc := pc)
  }

  function StepAnnounce(env: Env, h: Holder, a: Action): Out {
    if !a.Go? then Stay(h.(pc := Release))
    else match h.copy.announcing
      case None => Stay(Announced(h))
      case Some(owed) =>
        if exists i | h.copy.noticedThrough <= i < |env.log| :: Announces(env.log[i], owed)
        then Stay(Announced(h.(copy := h.copy.(announcing := None))))
        else Stay(h.(pc := AppendOwed))
  }

  function StepAppendOwed(h: Holder, a: Action): Out {
    if h.copy.announcing.None? then Stay(h)
    else if a.Go? then Out(Some(Announced(h.(copy := h.copy.(announcing := None)))), Logged(h.copy.announcing.value))
    else Out(Some(h.(pc := Release)), if a.Fail? && a.landed then Logged(h.copy.announcing.value) else Nothing)
  }

  function StepFresh(cfg: Config, env: Env, h: Holder, a: Action): Out {
    if !a.Go? || Expired(cfg, h.copy, env.payloads, env.now) then Stay(h.(pc := Release))
    else Stay(h.(pc := if h.kind.Interact? then Gate else Read))
  }

  /** A click, or an outside revision, checked before it does anything. */
  function StepGate(cfg: Config, env: Env, h: Holder, a: Action): Out {
    var c := h.copy;
    match h.kind
    case Interact(handle, _) =>
      if || !a.Click? || !a.ok
         || handle !in c.handles || handle in c.superseded || handle in c.frozen || handle !in env.payloads
         || (a.resolve && (c.pending.None? || c.pending.value.handle != handle))
         || (!a.resolve && c.pending.Some?)
      then Stay(h.(pc := Release))
      else Stay(h.(pc := Read))
    case Update(handle, _, _) =>
      var current := CurrentHandle(c, handle);
      if || !a.Go? || handle !in c.handles || current in c.frozen || current !in env.payloads
         || Expired(cfg, c, env.payloads, env.now)
      then Stay(h.(pc := Release))
      else Stay(h.(pc := PutRevision(current, env.payloads[current])))
    case _ => Stay(h)
  }

  function StepRead(cfg: Config, env: Env, h: Holder, a: Action): Out {
    if !a.Go? then Stay(h.(pc := Release))
    else
      var c := h.copy;
      var u := UnreadNotices(cfg, c, env.log);
      match h.kind
      case Chat(text) =>
        if c.messages == [] && cfg.hasInit
          then Stay(h.(pc := Init(u.blocks + [Text(text)], u.through, NewTurn(["init"])),
          copy := c.(status := Streaming), before := Snapshot(c)))
        else Stay(RunTurn(cfg, h.(copy := Take(CloseOut(c, text), u, text))))
      case Start => Stay(h.(pc := Init(u.blocks + [Text("[conversation started]")], u.through, NewTurn(["init"])),
        copy := c.(status := Streaming), before := Snapshot(c)))
      case Interact(handle, said) =>
        Stay(h.(pc := SaveClick, before := Snapshot(c), prior := c, copy := RecordClick(c, handle, said, u)))
      case Wake =>
        (match WakeUp(cfg, c, u, env.now)
         case NothingNew => Stay(h.(pc := Release))
         case Limited(l) => To(h, l, Release)
         case Woken(w) => Stay(h.(pc := SaveWake(env.now), before := Snapshot(c), prior := c, copy := w)))
      case Update(_, _, _) => Stay(h)
  }

  function StepSaveClick(cfg: Config, env: Env, h: Holder, a: Action): Out {
    var undone := h.(copy := UndoClick(h.copy, h.before), pc := Release);
    if a.Go? then Save(env, h, RunTurn(cfg, h)) else FailedSave(env, h, a.Fail? && a.landed, undone)
  }

  function StepSaveWake(cfg: Config, env: Env, h: Holder, a: Action): Out {
    if a.Go? then Save(env, h, RunTurn(cfg, h)) else FailedSave(env, h, a.Fail? && a.landed, TurnFails(h))
  }

  /** Init goes on, or is decided: nothing reaches the history before then. */
  function InitAfter(h: Holder, content: seq<Block>, through: nat, o: TurnOut): Out {
    if o.lost then Out(None, Nothing)
    else if !Decided(o.turn) then Out(Some(h.(copy := o.conv, pc := Init(content, through, o.turn))), o.effect)
    else
      var asked := Say(o.conv, content).(noticedThrough := through);
      var called := asked.(messages := asked.messages + [Message(Assistant, Blocks([ToolUse("init", "init", "{}")]))]);
      match o.turn.parked
      case Some(q) => Out(Some(h.(copy := Park(called, q, []), pc := Context)), o.effect)
      case None => Out(Some(h.(copy := Say(called, o.turn.results), pc := SaveInit)), o.effect)
  }

  function StepInit(cfg: Config, env: Env, h: Holder, a: Action): Out
    requires h.pc.Init?
  {
    var t := h.pc.turn;
    if !a.Tool? || (a.ev.Skip? && !t.running) || (a.ev.End? && !a.ev.ok && t.running && t.ops == map[]) then
      Stay(h.(copy := h.copy.(handles := Truncate(h.copy.handles, h.before.handles), status := h.before.status),
        pc := Release))
    else InitAfter(h, h.pc.content, h.pc.through, ToolStep(cfg, env, h.token, h.copy, t, a.ev))
  }

  function StepSaveInit(cfg: Config, env: Env, h: Holder, a: Action): Out {
    var next := if h.kind.Start? then h.(copy := h.copy.(status := Idle), pc := Context) else RunTurn(cfg, h);
    if a.Go? then Save(env, h, next) else FailedSave(env, h, a.Fail? && a.landed, h.(pc := Release))
  }

  function StepModel(cfg: Config, h: Holder, a: Action): Out
    requires h.pc.Model?
  {
    if !a.Reply? then Stay(TurnFails(h))
    else
      var c := h.copy.(messages := h.copy.messages + [Message(Assistant, Blocks(a.content))]);
      var calls := CallIds(a.content);
      if calls == [] then To(h, c.(status := Idle), Context)
      else if !a.toolUse then Stay(AtHop(cfg, h, Say(c, NotRun(calls)), h.pc.hop + 1))
      else To(h, c, Tools(h.pc.hop, NewTurn(calls)))
  }

  /** The results of the calls of a reply that was cut short. */
  function NotRun(calls: seq<string>): seq<Block> {
    if calls == [] then [] else [ToolResult(calls[0], "Not run")] + NotRun(calls[1..])
  }

  /** The turn goes on, parks, or answers every call and asks the model again. */
  function ToolsAfter(cfg: Config, h: Holder, hop: nat, o: TurnOut): Out {
    var ran := h.(copy := o.conv, toolsRan := h.toolsRan || o.turn.running);
    if o.lost then Out(None, Nothing)
    else if !Decided(o.turn) then Out(Some(ran.(pc := Tools(hop, o.turn))), o.effect)
    else match o.turn.parked
      case Some(q) => Out(Some(ran.(copy := Park(o.conv, q, o.turn.results), pc := Context)), o.effect)
      case None => Out(Some(AtHop(cfg, ran, Say(o.conv, o.turn.results), hop + 1)), o.effect)
  }

  function StepTools(cfg: Config, env: Env, h: Holder, a: Action): Out
    requires h.pc.Tools?
  {
    if !a.Tool? then Stay(h) else ToolsAfter(cfg, h, h.pc.hop, ToolStep(cfg, env, h.token, h.copy, h.pc.turn, a.ev))
  }

  /** The last read of a turn, of what the browser's inspector shows. */
  function StepContext(h: Holder, a: Action): Out { Stay(if a.Go? then h.(pc := Release) else TurnFails(h)) }

  function StepPutRevision(cfg: Config, env: Env, h: Holder, a: Action): Out
    requires h.pc.PutRevision?
  {
    if !a.Go? then Stay(h.(pc := Release))
    else if !env.live then Out(None, Nothing)
    else Out(Some(h.(pc := Revised(h.pc.was, h.pc.record, env.nextHandle))),
      Stored(Payload(h.token, h.pc.record.component, env.now, Declared(cfg, h.pc.record.component))))
  }

  function RevisionNotice(h: Holder, was: Handle, next: Handle): Notice {
    UpdateNotice(if h.kind.Update? then h.kind.text else "", h.kind.Update? && h.kind.wake, was, next)
  }

  function StepRevised(cfg: Config, env: Env, h: Holder, a: Action): Out
    requires h.pc.Revised?
  {
    if !a.Go? || Late(cfg, h.pc.record, env.now) then Stay(h.(pc := Release))
    else To(h, ReviseOutside(h.copy, h.pc.was, h.pc.next, RevisionNotice(h, h.pc.was, h.pc.next)), SaveRevision)
  }

  function StepSaveRevision(env: Env, h: Holder, a: Action): Out {
    if a.Go? then Save(env, h, h.(pc := AppendRevision)) else FailedSave(env, h, a.Fail? && a.landed, h.(pc := Release))
  }

  function StepAppendRevision(h: Holder, a: Action): Out {
    if h.copy.announcing.None? then Stay(h.(pc := Release))
    else if a.Go? then Out(Some(h.(copy := h.copy.(announcing := None), pc := Release)),
      Logged(h.copy.announcing.value))
    else Out(Some(h.(pc := Release)), if a.Fail? && a.landed then Logged(h.copy.announcing.value) else Nothing)
  }

  /** The save at the end of every request, which lets the lease go. */
  function StepRelease(env: Env, h: Holder, a: Action): Out {
    Out(None, if env.live && (a.Go? || (a.Fail? && a.landed)) then Saved(h.copy, true) else Nothing)
  }

  /** Before anything is recorded. */
  predicate Opening(pc: Pc) { pc.Announce? || pc.AppendOwed? || pc.Fresh? || pc.Gate? || pc.Read? }

  /** In a turn of the model, or in init. */
  predicate Turning(pc: Pc) { pc.Init? || pc.Model? || pc.Tools? || pc.Context? }

  /** It may yet put back what it found. */
  predicate Undoing(h: Holder) { h.pc.SaveClick? || h.pc.SaveWake? || (h.kind.Wake? && Turning(h.pc)) }

  function StepOpening(cfg: Config, env: Env, h: Holder, a: Action): Out
    requires Opening(h.pc)
  {
    match h.pc
    case Announce => StepAnnounce(env, h, a)
    case AppendOwed => StepAppendOwed(h, a)
    case Fresh => StepFresh(cfg, env, h, a)
    case Gate => StepGate(cfg, env, h, a)
    case Read => StepRead(cfg, env, h, a)
  }

  function StepTurning(cfg: Config, env: Env, h: Holder, a: Action): Out
    requires Turning(h.pc)
  {
    match h.pc
    case Init(_, _, _) => StepInit(cfg, env, h, a)
    case Model(_) => StepModel(cfg, h, a)
    case Tools(_, _) => StepTools(cfg, env, h, a)
    case Context => StepContext(h, a)
  }

  function StepSaving(cfg: Config, env: Env, h: Holder, a: Action): Out
    requires !Opening(h.pc) && !Turning(h.pc)
  {
    match h.pc
    case SaveClick => StepSaveClick(cfg, env, h, a)
    case SaveWake(_) => StepSaveWake(cfg, env, h, a)
    case SaveInit => StepSaveInit(cfg, env, h, a)
    case PutRevision(_, _) => StepPutRevision(cfg, env, h, a)
    case Revised(_, _, _) => StepRevised(cfg, env, h, a)
    case SaveRevision => StepSaveRevision(env, h, a)
    case AppendRevision => StepAppendRevision(h, a)
    case Release => StepRelease(env, h, a)
  }

  function Step(cfg: Config, env: Env, h: Holder, a: Action): Out {
    if Opening(h.pc) then StepOpening(cfg, env, h, a)
    else if Turning(h.pc) then StepTurning(cfg, env, h, a)
    else StepSaving(cfg, env, h, a)
  }
}
