/** The store in place does what the runs assume: a conversation it keeps changes as the world of its requests does. */
module Serving {
  import opened History
  import opened Conversations
  import opened Requests
  import opened Worlds
  import S = Stores

  /**
   * The store keeps this conversation as the world has it. It numbers its tokens from zero, the world from one; a store
   * that keeps other conversations too only skips numbers here.
   */
  ghost predicate Mirrors(store: S.MemoryStore, id: nat, w: World)
    reads store
  {
    && store.Valid()
    && store.tokenSeq == w.token && store.handleSeq == w.nextHandle
    && (if id in store.conversations
        then w.token > 0 && store.conversations[id] == S.Stored(w.row, w.leaseUntil, w.token - 1)
        else store.convSeq == id && w.token == 0 && w.row == NEW_CONVERSATION && w.leaseUntil.None?)
    && SamePayloads(store.payloads, id, w.payloads)
    && SameLog(store.LogOf(id), w.log)
  }

  predicate SamePayloads(kept: map<Handle, S.PayloadRecord>, id: nat, payloads: map<Handle, Payload>) {
    kept.Keys == payloads.Keys && forall h | h in kept :: kept[h] == S.PayloadRecord(id, payloads[h])
  }

  predicate SameLog(kept: seq<S.NoticeRecord>, log: seq<Notice>) {
    |kept| == |log| && forall i | 0 <= i < |kept| :: kept[i].notice == log[i] && kept[i].number == i + 1
  }

  /** A load is the world's: refused while a lease lives, and otherwise under the next token. */
  method Load(store: S.MemoryStore, id: nat, cfg: Config, w: World, kind: Kind) returns (loaded: bool)
    requires Mirrors(store, id, w) && store.leaseMs == cfg.leaseMs
    modifies store
    ensures Mirrors(store, id, LoadRow(cfg, w, kind))
    ensures loaded <==> LoadRow(cfg, w, kind) != w
  {
    var r := store.Load(if id in store.conversations then Some(id) else None, w.now);
    loaded := r.Loaded?;
    assert loaded ==> LoadRow(cfg, w, kind).token == w.token + 1;
  }

  /** A save lands exactly for the request whose token is current, as the world's does. */
  method Save(store: S.MemoryStore, id: nat, w: World, h: Holder, release: bool) returns (live: bool)
    requires Mirrors(store, id, w) && 0 < h.token <= w.token
    modifies store
    ensures live <==> EnvOf(w, h.token).live
    ensures Mirrors(store, id, if live then Effected(w, h, Saved(h.copy, release)) else w)
  {
    var r := store.Save(id, Some(h.token - 1), h.copy, if release then None else Some(h.leaseUntil));
    live := r.Done?;
  }

  /** So does a payload, which gets the world's next handle. */
  method PutPayload(store: S.MemoryStore, id: nat, w: World, h: Holder, p: Payload) returns (handle: Option<Handle>)
    requires Mirrors(store, id, w) && 0 < h.token <= w.token
    modifies store
    ensures handle == if EnvOf(w, h.token).live then Some(w.nextHandle) else None
    ensures Mirrors(store, id, if handle.Some? then Effected(w, h, Effect.Stored(p)) else w)
  {
    var r := store.PutPayload(id, Some(h.token - 1), p);
    handle := if r.Done? then Some(r.value) else None;
  }

  /** A notice lands whoever holds the turn. */
  method PutNotice(store: S.MemoryStore, id: nat, w: World, h: Holder, n: Notice) returns (landed: bool)
    requires Mirrors(store, id, w) && w.token > 0
    modifies store
    ensures landed && Mirrors(store, id, Effected(w, h, Logged(n)))
  {
    var r := store.PutNotice(id, n, w.now);
    landed := r.Some?;
  }

  /** What a request reads of the log is the world's. */
  method GetNotices(store: S.MemoryStore, id: nat, w: World, after: nat) returns (list: seq<S.NoticeRecord>)
    requires Mirrors(store, id, w) && w.token > 0
    ensures |list| == if |w.log| <= after then 0 else |w.log| - after
    ensures forall i | 0 <= i < |list| :: list[i].number == after + i + 1 && list[i].notice == w.log[after + i]
  {
    var r := store.GetNotices(id, after, None);
    list := r.value;
    var kept := store.LogOf(id);
    S.PastDrops(kept, after, if after < |kept| then after else |kept|);
  }

  /** And so is what it reads of its surfaces' payloads. */
  method GetPayload(store: S.MemoryStore, id: nat, w: World, handle: Handle) returns (p: Option<Payload>)
    requires Mirrors(store, id, w)
    ensures p == if handle in w.payloads then Some(w.payloads[handle]) else None
  {
    var r := store.GetPayload(handle, id);
    p := if r.Some? then Some(r.value.payload) else None;
  }
}
