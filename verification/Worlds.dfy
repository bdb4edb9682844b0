/** Any number of requests on one conversation, interleaved at every point where they meet the store. */
module Worlds {
  import opened History
  import opened Conversations
  import opened Requests

  /**
   * The stored row with its lease, the payloads and notices beside it, and the requests under way, by
   * lease token. `starts` is when each wake turn committed, oldest first: a history variable.
   */
  datatype World = World(
    now: nat, row: Conversation, leaseUntil: Option<nat>, token: Token,
    payloads: map<Handle, Payload>, nextHandle: Handle, log: seq<Notice>,
    holders: map<Token, Holder>, starts: seq<nat>)

  const NEW_WORLD := World(0, NEW_CONVERSATION, None, 0, map[], 0, [], map[], [])

  /** `Lose` is data loss: nothing in the code deletes a payload the history still references. */
  datatype Event =
    | Tick(ms: nat)
    | Notify(name: string, model: Option<string>, wake: bool, beside: Option<Handle>)
    | Load(kind: Kind)
    | Crash(token: Token)
    | Sweep(olderThanMs: nat)
    | Lose(handle: Handle)
    | Act(token: Token, action: Action)

  function EnvOf(w: World, token: Token): Env { Env(w.now, w.log, w.payloads, w.nextHandle, token == w.token) }

  function Entry(cfg: Config, kind: Kind, row: Conversation): Pc {
    if kind.Start? && (!cfg.hasInit || row.messages != []) then Release else Announce
  }

  function NewHolder(cfg: Config, w: World, kind: Kind): Holder {
    Holder(kind, w.token + 1, w.now + cfg.leaseMs, w.row, w.row, w.row, Snapshot(w.row), false, Entry(cfg, kind, w.row))
  }

  /** `loadConversation`: a live lease turns the request away; otherwise it gets the row and a token of its own. */
  function LoadRow(cfg: Config, w: World, kind: Kind): World {
    if w.leaseUntil.Some? && w.leaseUntil.value > w.now then w
    else
      w.(token := w.token + 1, leaseUntil := Some(w.now + cfg.leaseMs),
        holders := w.holders[w.token + 1 := NewHolder(cfg, w, kind)])
  }

  /** What `sweepOrphans` deletes: unreferenced, and written under a lease since issued to someone else. */
  function Orphans(w: World, olderThanMs: nat): set<Handle> {
    set h | h in w.payloads && w.payloads[h].createdAt + olderThanMs < w.now && w.payloads[h].token != w.token
      && h !in w.row.handles
  }

  function Effected(w: World, h: Holder, e: Effect): World {
    match e
    case Nothing => w
    case Saved(c, release) => w.(row := c, leaseUntil := if release then None else Some(h.leaseUntil))
    case Logged(n) => w.(log := w.log + [n])
    case Stored(p) => w.(payloads := w.payloads[w.nextHandle := p], nextHandle := w.nextHandle + 1)
  }

  function Acted(cfg: Config, w: World, token: Token, a: Action): World
    requires token in w.holders
  {
    var h := w.holders[token];
    var o := Step(cfg, EnvOf(w, token), h, a);
    var after := Effected(w, h, o.effect);
    after.(holders := match o.holder case Some(n) => w.holders[token := n] case None => w.holders - {token},
           starts := if h.pc.SaveWake? && a.Go? && token == w.token then w.starts + [h.pc.at] else w.starts)
  }

  function Next(cfg: Config, w: World, e: Event): World {
    match e
    case Tick(ms) => w.(now := w.now + ms)
    case Notify(name, model, wake, beside) => w.(log := w.log + [Notice(name, model, wake, beside, None)])
    case Load(kind) => LoadRow(cfg, w, kind)
    case Crash(token) => w.(holders := w.holders - {token})
    case Sweep(olderThanMs) => w.(payloads := w.payloads - Orphans(w, olderThanMs))
    case Lose(handle) => w.(payloads := w.payloads - {handle})
    case Act(token, a) => if token in w.holders then Acted(cfg, w, token, a) else w
  }

  /** The world after a run. */
  function Run(cfg: Config, es: seq<Event>): World {
    if es == [] then NEW_WORLD else Next(cfg, Run(cfg, es[..|es| - 1]), es[|es| - 1])
  }

  /** What holds of every request under way. */
  ghost predicate Everyone(w: World, p: Holder -> bool) { forall t | t in w.holders :: p(w.holders[t]) }

  lemma NextEveryone(cfg: Config, w: World, e: Event, p: Holder -> bool)
    requires Everyone(w, p)
    requires e.Load? ==> p(NewHolder(cfg, w, e.kind))
    requires e.Act? && e.token in w.holders ==>
               var o := Step(cfg, EnvOf(w, e.token), w.holders[e.token], e.action).holder; o.Some? ==> p(o.value)
    ensures Everyone(Next(cfg, w, e), p)
  {}
}
