/**
 * A conversation as a store keeps it, and what each request does to its private copy.
 * Every function here is one uninterrupted stretch of a request's code.
 */
module Conversations {
  import opened History

  /** Handles and lease tokens are numbered in the order they are issued. */
  type Handle = nat
  type Token = nat

  datatype Status = Idle | Streaming | Awaiting

  datatype Pending = Pending(toolUseId: string, handle: Handle, results: seq<Block>)

  /**
   * A notice; its seq is its place in the log, counted from one. An update notice has `revises`, the surface its handle
   * replaced.
   */
  datatype Notice = Notice(name: string, model: Option<string>, wake: bool, handle: Option<Handle>,
    revises: Option<Handle>)

  datatype Conversation = Conversation(
    status: Status,
    messages: seq<Message>,
    handles: seq<Handle>,
    frozen: seq<Handle>,
    superseded: map<Handle, Handle>,
    pending: Option<Pending>,
    noticedThrough: nat,
    wakes: seq<nat>,
    wokeThrough: nat,
    wakeTurns: nat,
    announcing: Option<Notice>,
    // The update notices of the revisions made outside any turn. A history variable: no code reads it.
    outside: seq<Notice>)

  const NEW_CONVERSATION := Conversation(Idle, [], [], [], map[], None, 0, [], 0, 0, None, [])

  // ── freshness windows ──────────────────────────────────────────────

  datatype Window = Ms(ms: nat) | Never

  datatype Payload = Payload(token: Token, component: string, createdAt: nat, window: Option<Window>)

  datatype Config = Config(
    sendsNotices: bool, hasInit: bool, maxHops: nat, wakeCount: nat, wakePerMs: nat, leaseMs: nat,
    windows: map<string, Window>)

  /** The stricter of the window recorded with a payload and the one declared now; None when neither is known. */
  function Strictest(recorded: Option<Window>, declared: Option<Window>): Option<Window> {
    match (recorded, declared)
    case (None, d) => d
    case (r, None) => r
    case (Some(Never), d) => d
    case (r, Some(Never)) => r
    case (Some(Ms(a)), Some(Ms(b))) => Some(Ms(if a < b then a else b))
  }

  function Declared(cfg: Config, component: string): Option<Window> {
    if component in cfg.windows then Some(cfg.windows[component]) else None
  }

  predicate Late(cfg: Config, p: Payload, now: nat) {
    match Strictest(p.window, Declared(cfg, p.component))
    case None => true
    case Some(Never) => false
    case Some(Ms(ms)) => p.createdAt + ms <= now
  }

  /** Surface `h` closes the conversation: its payload is lost, or it is unrevised and past its window. */
  predicate Closes(cfg: Config, c: Conversation, payloads: map<Handle, Payload>, now: nat, h: Handle) {
    h in c.handles && (h !in payloads || (h !in c.superseded && Late(cfg, payloads[h], now)))
  }

  /** A window known for the payload: the one recorded with it, or the one declared now for its component. */
  predicate HeldTo(cfg: Config, p: Payload, w: Window) {
    p.window == Some(w) || (p.component in cfg.windows && cfg.windows[p.component] == w)
  }

  /** No window is known for it, or one that is has run out. */
  ghost predicate OutOfDate(cfg: Config, p: Payload, now: nat) {
    (p.window.None? && p.component !in cfg.windows)
    || exists ms :: HeldTo(cfg, p, Ms(ms)) && p.createdAt + ms <= now
  }

  /** A payload is late exactly when a window known for it, recorded or declared, has run out, or none is known. */
  lemma {:induction false} LateIff(cfg: Config, p: Payload, now: nat)
    ensures Late(cfg, p, now) <==> OutOfDate(cfg, p, now)
  {
    if p.window.Some? && p.window.value.Ms? {
      var a := p.window.value.ms;
      assert HeldTo(cfg, p, Ms(a)) && (p.createdAt + a <= now ==> OutOfDate(cfg, p, now));
    }
    if p.component in cfg.windows && cfg.windows[p.component].Ms? {
      var b := cfg.windows[p.component].ms;
      assert HeldTo(cfg, p, Ms(b)) && (p.createdAt + b <= now ==> OutOfDate(cfg, p, now));
    }
  }

  predicate Expired(cfg: Config, c: Conversation, payloads: map<Handle, Payload>, now: nat) {
    exists h | h in c.handles :: Closes(cfg, c, payloads, now, h)
  }

  /** A conversation is out of date exactly over a lost payload, or an unrevised one past a window known for it. */
  lemma {:induction false} ExpiredIff(cfg: Config, c: Conversation, payloads: map<Handle, Payload>, now: nat)
    ensures Expired(cfg, c, payloads, now) <==> exists h | h in c.handles ::
              h !in payloads || (h !in c.superseded && OutOfDate(cfg, payloads[h], now))
  {
    forall h | h in c.handles && h in payloads ensures Late(cfg, payloads[h], now) <==> OutOfDate(cfg, payloads[h], now)
    {
      LateIff(cfg, payloads[h], now);
    }
    if h :| h in c.handles && Closes(cfg, c, payloads, now, h) {}
    if h :| h in c.handles && (h !in payloads || (h !in c.superseded && OutOfDate(cfg, payloads[h], now))) {
      assert Closes(cfg, c, payloads, now, h);
    }
  }

  // ── surfaces ───────────────────────────────────────────────────────

  /** The latest revision of a surface. `seen` guards the walk, as in `currentHandle`. */
  function Follow(superseded: map<Handle, Handle>, at: Handle, seen: set<Handle>): Handle
    decreases superseded.Keys - seen
  {
    if at in superseded && at !in seen then Follow(superseded, superseded[at], seen + {at}) else at
  }

  function CurrentHandle(c: Conversation, h: Handle): Handle { Follow(c.superseded, h, {}) }

  function Attach(c: Conversation, h: Handle): Conversation { c.(handles := c.handles + [h]) }

  function Supersede(c: Conversation, was: Handle, next: Handle): Conversation {
    Attach(c, next).(superseded := c.superseded[was := next])
  }

  function Freeze(c: Conversation, h: Handle): Conversation { c.(frozen := c.frozen + [h]) }

  // ── notices ────────────────────────────────────────────────────────

  function NoticeBlock(n: Notice, number: nat): seq<Block> {
    match n.model
    case None => []
    case Some(t) => [NoticeText(number, (if n.revises.None? then "[App notification: " + n.name + "] "
      else "[UI update] ") + t)]
  }

  /** The blocks of the notices numbered after `after`, through `through`. */
  function LogBlocks(log: seq<Notice>, after: nat, through: nat): seq<Block>
    requires through <= |log|
  {
    if through <= after then [] else LogBlocks(log, after, through - 1) + NoticeBlock(log[through - 1], through)
  }

  /** The numbers after `after`, through `through`, of the notices that have something for the model. */
  function Numbers(log: seq<Notice>, after: nat, through: nat): seq<nat>
    requires through <= |log|
  {
    if through <= after then []
    else Numbers(log, after, through - 1) + if log[through - 1].model.Some? then [through] else []
  }

  /** What the model reads of a notice. */
  ghost predicate Worded(text: string, n: Notice) {
    match (n.model, n.revises)
    case (Some(says), Some(_)) => text == "[UI update] " + says
    case (Some(says), None) => text == "[App notification: " + n.name + "] " + says
    case (None, _) => false
  }

  /** One block for each of those notices, in order, each with its number and what the model reads of it. */
  ghost predicate Tells(blocks: seq<Block>, log: seq<Notice>, after: nat, through: nat)
    requires through <= |log|
  {
    var ns := Numbers(log, after, through);
    && |blocks| == |ns|
    && (forall k | 0 <= k < |ns| :: after < ns[k] <= through)
    && (forall k | 0 <= k < |ns| ::
          blocks[k].NoticeText? && blocks[k].number == ns[k] && Worded(blocks[k].text, log[ns[k] - 1]))
  }

  lemma TellsMore(blocks: seq<Block>, log: seq<Notice>, after: nat, through: nat)
    requires after < through <= |log| && Tells(blocks, log, after, through - 1)
    ensures Tells(blocks + NoticeBlock(log[through - 1], through), log, after, through)
  {
    var n, front, ns := log[through - 1], Numbers(log, after, through - 1), Numbers(log, after, through);
    if n.model.Some? {
      var b := NoticeBlock(n, through)[0];
      assert b.number == through && Worded(b.text, n);
      assert ns == front + [through] && NoticeBlock(n, through) == [b];
    } else {
      assert ns == front && blocks + [] == blocks;
    }
  }

  lemma {:induction false} LogBlocksTell(log: seq<Notice>, after: nat, through: nat)
    requires through <= |log|
    ensures Tells(LogBlocks(log, after, through), log, after, through)
  {
    if after < through {
      LogBlocksTell(log, after, through - 1);
      TellsMore(LogBlocks(log, after, through - 1), log, after, through);
    }
  }

  predicate RisingTo(ns: seq<nat>, top: nat) {
    (forall k | 0 <= k < |ns| :: ns[k] <= top) && (forall i, j | 0 <= i < j < |ns| :: ns[i] < ns[j])
  }

  /** They rise, and are of exactly the notices that have a text for the model. */
  lemma {:induction false} NumbersRise(log: seq<Notice>, after: nat, through: nat)
    requires through <= |log|
    ensures RisingTo(Numbers(log, after, through), through)
  {
    if after < through {
      NumbersRise(log, after, through - 1);
      var front := Numbers(log, after, through - 1);
      assert RisingTo(front, through) && RisingTo(front + [through], through);
      assert front + [] == front;
    }
  }

  lemma {:induction false} NumbersAre(log: seq<Notice>, after: nat, through: nat, i: nat)
    requires i < through <= |log|
    ensures i + 1 in Numbers(log, after, through) <==> after <= i && log[i].model.Some?
  {
    NumbersRise(log, after, through - 1);
    var front := Numbers(log, after, through - 1);
    if i + 1 in front { assert i + 1 < through; }
    if after < through && i < through - 1 { NumbersAre(log, after, through - 1, i); }
  }

  /** `wake` is the number of the newest notice after `after` that wakes the model, or 0 when none does. */
  ghost predicate NewestWake(log: seq<Notice>, after: nat, wake: nat) {
    && wake <= |log| && (wake != 0 ==> after < wake && log[wake - 1].wake)
    && forall i | after <= i < |log| && i >= wake :: !log[i].wake
  }

  lemma {:induction false} LastWakeIs(log: seq<Notice>, after: nat)
    ensures NewestWake(log, after, LastWake(log, after))
  {
    if |log| > after && !log[|log| - 1].wake { LastWakeIs(log[..|log| - 1], after); }
  }

  /** The number of the newest wake notice numbered after `after`, or 0. */
  function LastWake(log: seq<Notice>, after: nat): nat {
    if |log| <= after then 0
    else if log[|log| - 1].wake then |log| else LastWake(log[..|log| - 1], after)
  }

  datatype Unread = Unread(blocks: seq<Block>, through: nat, wake: nat)

  function UnreadNotices(cfg: Config, c: Conversation, log: seq<Notice>): Unread {
    if !cfg.sendsNotices || |log| <= c.noticedThrough then Unread([], c.noticedThrough, 0)
    else Unread(LogBlocks(log, c.noticedThrough, |log|), |log|, LastWake(log, c.noticedThrough))
  }

  predicate Announces(n: Notice, owed: Notice) { n.handle == owed.handle && n.revises == owed.revises }

  // ── what a request records ─────────────────────────────────────────

  function Say(c: Conversation, blocks: seq<Block>): Conversation {
    c.(messages := c.messages + [Message(User, Blocks(blocks))])
  }

  function Take(c: Conversation, u: Unread, text: string): Conversation {
    Say(c, u.blocks + [Text(text)]).(noticedThrough := u.through)
  }

  /** What a waiting question's call is answered when the user types instead, after the surface's digest. */
  function NotSelected(text: string): string { "User did not select; they said: \"" + text + "\"" }

  /** `send` while a question waits: every call gets a result, the asking one that the user said something else. */
  function CloseOut(c: Conversation, text: string): Conversation {
    if c.status.Awaiting? && c.pending.Some? then
      var p := c.pending.value;
      Say(Freeze(c, p.handle), p.results + [ToolResult(p.toolUseId, NotSelected(text))]).(pending := None)
    else c
  }

  function RecordClick(c: Conversation, h: Handle, said: string, u: Unread): Conversation {
    match c.pending
    case Some(p) =>
      Say(Freeze(c, h), p.results + [ToolResult(p.toolUseId, said)] + u.blocks)
        .(pending := None, status := Idle, noticedThrough := u.through)
    case None => Take(c, u, said)
  }

  /** What a click or a wake turn keeps, to undo itself with. */
  datatype Before = Before(
    messages: nat, handles: nat, frozen: nat, status: Status, pending: Option<Pending>, noticedThrough: nat,
      wokeThrough: nat)

  function Snapshot(c: Conversation): Before {
    Before(|c.messages|, |c.handles|, |c.frozen|, c.status, c.pending, c.noticedThrough, c.wokeThrough)
  }

  /** `array.length = n`, for an array at least that long. */
  function Truncate<T>(s: seq<T>, n: nat): seq<T> { if n <= |s| then s[..n] else s }

  function UndoClick(c: Conversation, b: Before): Conversation {
    c.(messages := Truncate(c.messages, b.messages), frozen := Truncate(c.frozen, b.frozen),
       pending := b.pending, status := b.status, noticedThrough := b.noticedThrough)
  }

  /** A wake turn that failed: kept and closed once a tool has run, put back as it was before then. */
  function FailWake(c: Conversation, b: Before, toolsRan: bool): Conversation {
    if toolsRan then c.(status := Idle)
    else
      c.(messages := Truncate(c.messages, b.messages), handles := Truncate(c.handles, b.handles),
         frozen := Truncate(c.frozen, b.frozen), status := b.status, pending := None,
         noticedThrough := b.noticedThrough, wokeThrough := b.wokeThrough)
  }

  function Recent(wakes: seq<nat>, now: nat, perMs: nat): seq<nat> {
    if wakes == [] then []
    else Recent(wakes[..|wakes| - 1], now, perMs) +
         (if now < wakes[|wakes| - 1] + perMs then [wakes[|wakes| - 1]] else [])
  }

  /** The last `count` of a list, as `slice(-count)` takes them; `slice(-0)` takes all. */
  function Last(s: seq<nat>, count: nat): seq<nat> {
    if count == 0 || |s| <= count then s else s[|s| - count..]
  }

  datatype WakeCheck = NothingNew | Limited(conv: Conversation) | Woken(conv: Conversation)

  const WOKEN := "[The user has not said anything. The notifications above arrived on their own.]"

  function WakeUp(cfg: Config, c: Conversation, u: Unread, now: nat): WakeCheck {
    if u.wake <= c.wokeThrough then NothingNew
    else
      var recent := Recent(c.wakes, now, cfg.wakePerMs);
      if |recent| >= cfg.wakeCount then Limited(c.(wokeThrough := u.wake, wakes := recent))
      else Woken(Take(c, u, WOKEN).(wokeThrough := u.wake, wakes := Last(recent + [now], cfg.wakeCount),
        wakeTurns := c.wakeTurns + 1))
  }

  function Digits(n: nat): string { (if n < 10 then "" else Digits(n / 10)) + ["0123456789"[n % 10]] }

  /** What the model hears of an outside revision, before the new surface's digest. */
  function UpdateText(text: string, was: Handle, next: Handle): string {
    (if text == "" then "" else text + " ")
    + Digits(was) + " was replaced by " + Digits(next) + "; its earlier digest is out of date. Now: "
  }

  function UpdateNotice(text: string, wake: bool, was: Handle, next: Handle): Notice {
    Notice("revision", Some(UpdateText(text, was, next)), wake, Some(next), Some(was))
  }

  /** A revision from outside any turn, as it takes effect: its notice is owed from here on. */
  function ReviseOutside(c: Conversation, was: Handle, next: Handle, n: Notice): Conversation {
    var s := Supersede(c, was, next);
    s.(pending := match c.pending case Some(p) => (if p.handle == was then Some(p.(handle := next)) else c.pending)
      case None => None,
       announcing := Some(n), outside := c.outside + [n])
  }
}
