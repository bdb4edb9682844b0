/** A request's private copy of its conversation, edited in place between its awaits. */
module Drafts {
  import opened History
  import opened Conversations
  import opened Requests

  datatype Record = Record(handle: Handle, payload: Payload)

  /** A notice as `getNotices` returns it, with its number. */
  datatype Numbered = Numbered(number: nat, notice: Notice)

  /** `records` are the payloads found for the handles, each as stored, in any order. */
  ghost predicate Found(records: seq<Record>, handles: seq<Handle>, payloads: map<Handle, Payload>) {
    && (forall r | r in records :: r.handle in handles && r.handle in payloads && payloads[r.handle] == r.payload)
    && (forall h | h in handles && h in payloads :: Record(h, payloads[h]) in records)
  }

  /** `list` is the log past `after`. */
  ghost predicate Reads(list: seq<Numbered>, log: seq<Notice>, after: nat) {
    && |list| == (if |log| <= after then 0 else |log| - after)
    && (forall i | 0 <= i < |list| :: list[i] == Numbered(after + i + 1, log[after + i]))
  }

  /** When the surface that closed a conversation went out of date: unknown for lost data, or a window known nowhere. */
  datatype Closing = Unknown | At(expiredAt: nat, window: nat)

  /** When a payload no revision replaced goes out of date; None when it never does. */
  function ExpiresAt(cfg: Config, p: Payload): Option<Closing> {
    match Strictest(p.window, Declared(cfg, p.component))
    case None => Some(Unknown)
    case Some(Never) => None
    case Some(Ms(ms)) => Some(At(p.createdAt + ms, ms))
  }

  /** It is the sooner of the windows known for it that decides. */
  lemma LateIsPast(cfg: Config, p: Payload, now: nat)
    ensures OutOfDate(cfg, p, now) <==>
            ExpiresAt(cfg, p).Some? && (ExpiresAt(cfg, p).value.At? ==> ExpiresAt(cfg, p).value.expiredAt <= now)
  {
    LateIff(cfg, p, now);
  }

  lemma ExpiresSoonest(cfg: Config, p: Payload)
    ensures ExpiresAt(cfg, p) == Some(Unknown) <==> p.window.None? && p.component !in cfg.windows
    ensures (exists ms :: HeldTo(cfg, p, Ms(ms))) ==> ExpiresAt(cfg, p).Some? && ExpiresAt(cfg, p).value.At?
    ensures forall x | ExpiresAt(cfg, p) == Some(x) && x.At? ::
              && HeldTo(cfg, p, Ms(x.window)) && x.expiredAt == p.createdAt + x.window
              && forall ms | HeldTo(cfg, p, Ms(ms)) :: x.window <= ms
  {}

  /** The surfaces in `records` that close the conversation. */
  ghost predicate ClosedBy(cfg: Config, c: Conversation, r: Record, now: nat) {
    r.handle !in c.superseded && OutOfDate(cfg, r.payload, now)
  }

  ghost predicate AnyCloses(cfg: Config, c: Conversation, records: seq<Record>, now: nat) {
    exists r | r in records :: ClosedBy(cfg, c, r, now)
  }

  lemma OneMoreCloses(cfg: Config, c: Conversation, records: seq<Record>, r: Record, now: nat)
    ensures AnyCloses(cfg, c, records + [r], now) <==> AnyCloses(cfg, c, records, now) || ClosedBy(cfg, c, r, now)
  {
    assert r in records + [r];
    if x :| x in records && ClosedBy(cfg, c, x, now) { assert x in records + [r]; }
  }

  /** A window known for an unrevised surface ran out then, and none known for any ran out sooner. */
  ghost predicate FirstOutOfDate(cfg: Config, c: Conversation, payloads: map<Handle, Payload>, now: nat,
    first: Closing)
    requires first.At?
  {
    && first.expiredAt <= now
    && (exists h | h in c.handles && h in payloads && h !in c.superseded ::
          HeldTo(cfg, payloads[h], Ms(first.window)) && first.expiredAt == payloads[h].createdAt + first.window)
    && (forall h, ms | h in c.handles && h in payloads && h !in c.superseded && HeldTo(cfg, payloads[h], Ms(ms)) ::
          first.expiredAt <= payloads[h].createdAt + ms)
  }

  lemma FirstIs(cfg: Config, c: Conversation, records: seq<Record>, payloads: map<Handle, Payload>, now: nat,
    first: Closing)
    requires Found(records, c.handles, payloads) && IsFirst(cfg, c, records, now, first) && first.At?
    ensures FirstOutOfDate(cfg, c, payloads, now, first)
  {
    var r :| r in records && ClosedBy(cfg, c, r, now) && ExpiresAt(cfg, r.payload) == Some(first);
    LateIsPast(cfg, r.payload, now);
    ExpiresSoonest(cfg, r.payload);
    assert r.handle in c.handles && payloads[r.handle] == r.payload;
    forall h, ms | h in c.handles && h in payloads && h !in c.superseded && HeldTo(cfg, payloads[h], Ms(ms))
      ensures first.expiredAt <= payloads[h].createdAt + ms
    {
      var x := Record(h, payloads[h]);
      assert x in records;
      LateIsPast(cfg, x.payload, now);
      ExpiresSoonest(cfg, x.payload);
      assert ClosedBy(cfg, c, x, now) ==> first.expiredAt <= ExpiresAt(cfg, x.payload).value.expiredAt;
    }
  }

  /** `first` went out of date no later than any of the records that closed the conversation. */
  ghost predicate IsFirst(cfg: Config, c: Conversation, records: seq<Record>, now: nat, first: Closing) {
    first.At? ==>
      && (exists r | r in records :: ClosedBy(cfg, c, r, now) && ExpiresAt(cfg, r.payload) == Some(first))
      && (forall r | r in records && ClosedBy(cfg, c, r, now) && ExpiresAt(cfg, r.payload).value.At? ::
            first.expiredAt <= ExpiresAt(cfg, r.payload).value.expiredAt)
  }

  /** A closing record of no known window, which none before it closes ahead of. */
  ghost predicate UnknownFirst(cfg: Config, c: Conversation, records: seq<Record>, now: nat) {
    exists i | 0 <= i < |records| :: UnknownAt(cfg, c, records, now, i)
  }

  ghost predicate UnknownAt(cfg: Config, c: Conversation, records: seq<Record>, now: nat, i: int) {
    && 0 <= i < |records| && records[i].handle !in c.superseded
    && records[i].payload.window.None? && records[i].payload.component !in cfg.windows
    && forall j | 0 <= j < i :: !ClosedBy(cfg, c, records[j], now)
  }

  lemma UnknownNext(cfg: Config, c: Conversation, records: seq<Record>, r: Record, now: nat)
    ensures UnknownFirst(cfg, c, records + [r], now) <==>
            UnknownFirst(cfg, c, records, now) ||
            (!AnyCloses(cfg, c, records, now) && UnknownAt(cfg, c, records + [r], now, |records|))
  {
    if i :| 0 <= i < |records + [r]| && UnknownAt(cfg, c, records + [r], now, i) {
      if i < |records| {
        forall j | 0 <= j < i ensures !ClosedBy(cfg, c, records[j], now) {
          assert !ClosedBy(cfg, c, (records + [r])[j], now);
        }
        assert UnknownAt(cfg, c, records, now, i);
      } else {
        forall x | x in records ensures !ClosedBy(cfg, c, x, now) {
          var j :| 0 <= j < |records| && records[j] == x;
          assert (records + [r])[j] == x;
        }
      }
    }
    if i :| 0 <= i < |records| && UnknownAt(cfg, c, records, now, i) {
      forall j | 0 <= j < i ensures !ClosedBy(cfg, c, (records + [r])[j], now) {
        assert !ClosedBy(cfg, c, records[j], now);
      }
      assert UnknownAt(cfg, c, records + [r], now, i);
    }
  }

  predicate Sooner(a: Closing, b: Closing) { a.At? && b.At? && a.expiredAt < b.expiredAt }

  /** What closed the conversation, of the records read so far and a handle that may have none. */
  ghost predicate FirstOf(cfg: Config, c: Conversation, records: seq<Record>, now: nat, missing: bool,
    first: Option<Closing>) {
    && (first.Some? <==> missing || AnyCloses(cfg, c, records, now))
    && (first == Some(Unknown) <==> missing || UnknownFirst(cfg, c, records, now))
    && (first.Some? ==> IsFirst(cfg, c, records, now, first.value))
  }

  ghost function FirstWith(cfg: Config, c: Conversation, r: Record, now: nat, first: Option<Closing>): Option<Closing> {
    if ClosedBy(cfg, c, r, now) && (first.None? || Sooner(ExpiresAt(cfg, r.payload).value, first.value))
      then ExpiresAt(cfg, r.payload) else first
  }

  lemma FirstNext(cfg: Config, c: Conversation, records: seq<Record>, r: Record, now: nat, missing: bool,
    first: Option<Closing>)
    requires FirstOf(cfg, c, records, now, missing, first)
    ensures FirstOf(cfg, c, records + [r], now, missing, FirstWith(cfg, c, r, now, first))
  {
    OneMoreCloses(cfg, c, records, r, now);
    UnknownNext(cfg, c, records, r, now);
    LateIsPast(cfg, r.payload, now);
    ExpiresSoonest(cfg, r.payload);
    var next := FirstWith(cfg, c, r, now, first);
    if next.Some? && next.value.At? {
      assert r in records + [r];
      forall x | x in records + [r] && ClosedBy(cfg, c, x, now) && ExpiresAt(cfg, x.payload).value.At?
        ensures next.value.expiredAt <= ExpiresAt(cfg, x.payload).value.expiredAt
      {
        if x != r { assert x in records; }
      }
      if next == first {
        var x :| x in records && ClosedBy(cfg, c, x, now) && ExpiresAt(cfg, x.payload) == first;
        assert x in records + [r];
      }
    }
  }

  lemma MissingIsLost(records: seq<Record>, handles: seq<Handle>, payloads: map<Handle, Payload>)
    requires Found(records, handles, payloads)
    ensures (exists h | h in handles :: forall r | r in records :: r.handle != h) <==>
            exists h | h in handles :: h !in payloads
  {
    if h :| h in handles && h !in payloads { assert forall r | r in records :: r.handle != h; }
    if h :| h in handles && forall r | r in records :: r.handle != h {
      if h in payloads { assert Record(h, payloads[h]) in records; }
    }
  }

  /** What the records found say of the conversation's surfaces. */
  lemma ExpiredByRecords(cfg: Config, c: Conversation, records: seq<Record>, payloads: map<Handle, Payload>, now: nat)
    requires Found(records, c.handles, payloads)
    ensures Expired(cfg, c, payloads, now) <==>
            (exists h | h in c.handles :: h !in payloads) || AnyCloses(cfg, c, records, now)
  {
    ExpiredIff(cfg, c, payloads, now);
    if h :| h in c.handles && h !in c.superseded && h in payloads && OutOfDate(cfg, payloads[h], now) {
      assert Record(h, payloads[h]) in records && ClosedBy(cfg, c, Record(h, payloads[h]), now);
    }
  }

  lemma {:induction false} LastWakeDrops(log: seq<Notice>, after: nat, i: nat)
    requires after <= i <= |log| && (i > after ==> log[i - 1].wake) && (forall k | i <= k < |log| :: !log[k].wake)
    ensures LastWake(log, after) == if i > after then i else 0
  {
    if |log| > i && |log| > after { LastWakeDrops(log[..|log| - 1], after, i); }
  }

  lemma LastWakeFound(list: seq<Numbered>, log: seq<Notice>, after: nat, i: nat)
    requires Reads(list, log, after) && list != [] && i <= |list|
    requires (i > 0 ==> list[i - 1].notice.wake) && forall k | i <= k < |list| :: !list[k].notice.wake
    ensures LastWake(log, after) == if i > 0 then list[i - 1].number else 0
  {
    forall k: nat | after + i <= k < |log| ensures !log[k].wake { assert list[k - after].notice == log[k]; }
    LastWakeDrops(log, after, after + i);
  }

  lemma {:induction false} RecentNext(wakes: seq<nat>, i: nat, now: nat, perMs: nat)
    requires i < |wakes|
    ensures Recent(wakes[..i + 1], now, perMs) == Recent(wakes[..i], now, perMs) + if now < wakes[i] + perMs
            then [wakes[i]] else []
  {
    assert wakes[..i + 1][..i] == wakes[..i];
  }

  datatype WakeOutcome = Unmoved | AtLimit | Woke

  /**
   * How a click's save went. A lost lease ends the request; after any other failure the route still saves, to let the
   * lease go.
   */
  datatype SaveOutcome = Landed | LeaseLost | SaveFailed

  /** The payloads found for the handles, in their order. */
  function RecordsOf(handles: seq<Handle>, payloads: map<Handle, Payload>): seq<Record> {
    if handles == [] then []
    else
      var h := handles[|handles| - 1];
      RecordsOf(handles[..|handles| - 1], payloads) + if h in payloads then [Record(h, payloads[h])] else []
  }

  lemma {:induction false} RecordsFound(handles: seq<Handle>, payloads: map<Handle, Payload>)
    ensures Found(RecordsOf(handles, payloads), handles, payloads)
  {
    if handles != [] {
      var front, h := handles[..|handles| - 1], handles[|handles| - 1];
      RecordsFound(front, payloads);
      assert handles == front + [h];
    }
  }

  class Draft {
    var status: Status
    var messages: seq<Message>
    var handles: seq<Handle>
    var frozen: seq<Handle>
    var superseded: map<Handle, Handle>
    var pending: Option<Pending>
    var noticedThrough: nat
    var wakes: seq<nat>
    var wokeThrough: nat
    var wakeTurns: nat
    var announcing: Option<Notice>
    ghost var outside: seq<Notice>

    ghost function View(): Conversation
      reads this
    {
      Conversation(status, messages, handles, frozen, superseded, pending, noticedThrough, wakes, wokeThrough,
        wakeTurns, announcing, outside)
    }

    constructor (c: Conversation)
      ensures View() == c
    {
      status, messages, handles, frozen := c.status, c.messages, c.handles, c.frozen;
      superseded, pending, noticedThrough := c.superseded, c.pending, c.noticedThrough;
      wakes, wokeThrough, wakeTurns, announcing := c.wakes, c.wokeThrough, c.wakeTurns, c.announcing;
      outside := c.outside;
    }

    // ── reading ──────────────────────────────────────────────────────

    /** The latest revision of a surface, walked one link at a time. */
    method Current(handle: Handle) returns (at: Handle)
      ensures at == CurrentHandle(View(), handle)
    {
      at := handle;
      var seen: set<Handle> := {};
      while at in superseded && at !in seen
        invariant Follow(superseded, at, seen) == Follow(superseded, handle, {})
        decreases superseded.Keys - seen
      {
        seen, at := seen + {at}, superseded[at];
      }
    }

    /** Refused once any surface closes the conversation, and told by the one that went out of date first. */
    method ClosedAt(cfg: Config, records: seq<Record>, now: nat, ghost payloads: map<Handle, Payload>)
      returns (first: Option<Closing>)
      requires Found(records, handles, payloads)
      ensures first.Some? <==> exists h | h in handles ::
                h !in payloads || (h !in superseded && OutOfDate(cfg, payloads[h], now))
      ensures first.Some? && first.value.At? ==> FirstOutOfDate(cfg, View(), payloads, now, first.value)
      ensures first == Some(Unknown) <==>
              (exists h | h in handles :: h !in payloads) || UnknownFirst(cfg, View(), records, now)
      ensures first.Some? <==> Expired(cfg, View(), payloads, now)
    {
      var missing := AnyMissing(records);
      MissingIsLost(records, handles, payloads);
      ExpiredByRecords(cfg, View(), records, payloads, now);
      ExpiredIff(cfg, View(), payloads, now);
      first := if missing then Some(Unknown) else None;
      var i := 0;
      while i < |records|
        invariant i <= |records|
        invariant FirstOf(cfg, View(), records[..i], now, missing, first)
      {
        assert records[..i + 1] == records[..i] + [records[i]];
        var next := Weigh(cfg, records[i], now, first);
        FirstNext(cfg, View(), records[..i], records[i], now, missing, first);
        first := next;
        i := i + 1;
      }
      assert records[..|records|] == records;
      if first.Some? && first.value.At? { FirstIs(cfg, View(), records, payloads, now, first.value); }
    }

    /** The payloads of its surfaces that the store still has. */
    method Payloads(payloads: map<Handle, Payload>) returns (records: seq<Record>)
      ensures Found(records, handles, payloads)
    {
      records := [];
      var i := 0;
      while i < |handles|
        invariant i <= |handles| && records == RecordsOf(handles[..i], payloads)
      {
        assert handles[..i + 1][..i] == handles[..i];
        if handles[i] in payloads { records := records + [Record(handles[i], payloads[handles[i]])]; }
        i := i + 1;
      }
      assert handles[..|handles|] == handles;
      RecordsFound(handles, payloads);
    }

    method Weigh(cfg: Config, r: Record, now: nat, first: Option<Closing>) returns (next: Option<Closing>)
      ensures next == FirstWith(cfg, View(), r, now, first)
    {
      next := first;
      LateIsPast(cfg, r.payload, now);
      if r.handle in superseded { return; }
      var expires := ExpiresAt(cfg, r.payload);
      if expires.None? || (expires.value.At? && expires.value.expiredAt > now) { return; }
      if first.None? || Sooner(expires.value, first.value) { next := expires; }
    }

    /** A handle no record was found for. */
    method AnyMissing(records: seq<Record>) returns (missing: bool)
      ensures missing <==> exists h | h in handles :: forall r | r in records :: r.handle != h
    {
      missing := false;
      var found: set<Handle> := {};
      var i := 0;
      while i < |records|
        invariant i <= |records|
        invariant forall h :: h in found <==> exists r | r in records[..i] :: r.handle == h
      {
        assert records[..i + 1] == records[..i] + [records[i]];
        found := found + {records[i].handle};
        i := i + 1;
      }
      assert records[..|records|] == records;
      i := 0;
      while i < |handles|
        invariant i <= |handles|
        invariant missing <==> exists h | h in handles[..i] :: h !in found
      {
        assert handles[..i + 1] == handles[..i] + [handles[i]];
        if handles[i] !in found { missing := true; }
        i := i + 1;
      }
      assert handles[..|handles|] == handles;
    }

    /** The notices not taken in yet, as blocks for the message about to be recorded. */
    method Unread(cfg: Config, list: seq<Numbered>, ghost log: seq<Notice>) returns (u: Unread)
      requires Reads(list, log, noticedThrough)
      ensures !cfg.sendsNotices || |log| <= noticedThrough ==> u == Conversations.Unread([], noticedThrough, 0)
      ensures cfg.sendsNotices && |log| > noticedThrough ==>
                && u.through == |log| && Tells(u.blocks, log, noticedThrough, |log|)
                && NewestWake(log, noticedThrough, u.wake)
      ensures u == UnreadNotices(cfg, View(), log)
    {
      var blocks: seq<Block> := [];
      LogBlocksTell(log, noticedThrough, |log|);
      LastWakeIs(log, noticedThrough);
      if !cfg.sendsNotices || list == [] { return Conversations.Unread([], noticedThrough, 0); }
      var i := 0;
      while i < |list|
        invariant i <= |list| && blocks == LogBlocks(log, noticedThrough, noticedThrough + i)
      {
        var n := list[i].notice;
        if n.model.Some? {
          blocks := blocks + [NoticeText(list[i].number, (if n.revises.None? then "[App notification: " + n.name + "] "
            else "[UI update] ") + n.model.value)];
        }
        i := i + 1;
      }
      while i > 0 && !list[i - 1].notice.wake
        invariant i <= |list| && forall k | i <= k < |list| :: !list[k].notice.wake
      {
        i := i - 1;
      }
      LastWakeFound(list, log, noticedThrough, i);
      u := Conversations.Unread(blocks, list[|list| - 1].number, if i > 0 then list[i - 1].number else 0);
    }

    /** The update notice still owed, or None when there is none, or it was appended before a save that failed. */
    method Owed(list: seq<Numbered>, ghost log: seq<Notice>) returns (owed: Option<Notice>)
      requires Reads(list, log, noticedThrough)
      ensures owed == if announcing.Some? && exists i | noticedThrough <= i < |log| ::
              Announces(log[i], announcing.value) then None else announcing
    {
      owed := announcing;
      if announcing.None? { return; }
      var i := 0;
      while i < |list|
        invariant i <= |list| && owed == announcing
        invariant forall k | noticedThrough <= k < noticedThrough + i :: !Announces(log[k], announcing.value)
      {
        if Announces(list[i].notice, announcing.value) { return None; }
        i := i + 1;
      }
    }

    // ── recording ────────────────────────────────────────────────────

    /** The user typed while a question waited: every call of that reply gets its result. */
    method Close(text: string)
      modifies this
      ensures View() == CloseOut(old(View()), text)
    {
      if status.Awaiting? && pending.Some? {
        var p := pending.value;
        frozen := frozen + [p.handle];
        messages := messages + [Message(User, Blocks(p.results + [ToolResult(p.toolUseId, NotSelected(text))]))];
        pending := None;
      }
    }

    method Add(blocks: seq<Block>)
      modifies this
      ensures View() == Say(old(View()), blocks)
    {
      messages := messages + [Message(User, Blocks(blocks))];
    }

    method Tell(u: Unread, text: string)
      modifies this
      ensures View() == Conversations.Take(old(View()), u, text)
    {
      messages := messages + [Message(User, Blocks(u.blocks + [Text(text)]))];
      noticedThrough := u.through;
    }

    /**
     * A click is recorded and saved, or leaves the copy exactly as it was; only a save that landed lets the model run.
     */
    method Click(handle: Handle, said: string, u: Unread, save: SaveOutcome) returns (committed: bool)
      modifies this
      ensures committed <==> save.Landed?
      ensures View() == if committed then RecordClick(old(View()), handle, said, u) else old(View())
    {
      var beforeMessages, beforeFrozen, waiting := |messages|, |frozen|, pending;
      var beforeStatus, beforeThrough := status, noticedThrough;
      if pending.Some? {
        var p := pending.value;
        frozen := frozen + [handle];
        messages := messages + [Message(User, Blocks(p.results + [ToolResult(p.toolUseId, said)] + u.blocks))];
        pending, status := None, Idle;
      } else {
        messages := messages + [Message(User, Blocks(u.blocks + [Text(said)]))];
      }
      noticedThrough := u.through;
      assert View() == RecordClick(old(View()), handle, said, u);
      committed := save.Landed?;
      if !committed {
        messages, frozen := messages[..beforeMessages], frozen[..beforeFrozen];
        pending, status, noticedThrough := waiting, beforeStatus, beforeThrough;
      }
    }

    /** Whether the unread wake notices start a turn, and what it records before it runs. */
    method Wake(cfg: Config, u: Unread, now: nat) returns (outcome: WakeOutcome, before: Before)
      modifies this
      ensures match WakeUp(cfg, old(View()), u, now)
              case NothingNew => outcome.Unmoved? && View() == old(View())
              case Limited(l) => outcome.AtLimit? && View() == l
              case Woken(w) => outcome.Woke? && View() == w && before == Snapshot(old(View()))
    {
      before := Before(|messages|, |handles|, |frozen|, status, pending, noticedThrough, wokeThrough);
      if u.wake <= wokeThrough { return Unmoved, before; }
      var recent := StillCounted(cfg, now);
      wokeThrough := u.wake;
      if |recent| >= cfg.wakeCount {
        wakes := recent;
        return AtLimit, before;
      }
      var counted := recent + [now];
      wakes := Last(counted, cfg.wakeCount);
      messages := messages + [Message(User, Blocks(u.blocks + [Text(WOKEN)]))];
      noticedThrough, wakeTurns := u.through, wakeTurns + 1;
      outcome := Woke;
    }

    /** The wake turns that still count toward the limit. */
    method StillCounted(cfg: Config, now: nat) returns (recent: seq<nat>)
      ensures recent == Recent(wakes, now, cfg.wakePerMs)
    {
      recent := [];
      var i := 0;
      while i < |wakes|
        invariant i <= |wakes| && recent == Recent(wakes[..i], now, cfg.wakePerMs)
      {
        RecentNext(wakes, i, now, cfg.wakePerMs);
        if now < wakes[i] + cfg.wakePerMs { recent := recent + [wakes[i]]; }
        i := i + 1;
      }
      assert wakes[..|wakes|] == wakes;
    }

    /** A wake turn threw: closed once a tool has run, put back as it was before then. */
    method WakeFailed(before: Before, toolsRan: bool)
      modifies this
      ensures View() == FailWake(old(View()), before, toolsRan)
    {
      if toolsRan {
        status := Idle;
      } else {
        messages, handles, frozen := Truncate(messages, before.messages), Truncate(handles, before.handles),
          Truncate(frozen, before.frozen);
        status, pending := before.status, None;
        noticedThrough, wokeThrough := before.noticedThrough, before.wokeThrough;
      }
    }

    /** Init succeeded: only now does it reach the history, with the message it answers. */
    method Begun(content: seq<Block>, through: nat, call: Block)
      modifies this
      ensures View() == old(View()).(messages := old(messages)
              + [Message(User, Blocks(content)), Message(Assistant, Blocks([call]))], noticedThrough := through)
    {
      messages := messages + [Message(User, Blocks(content))];
      noticedThrough := through;
      messages := messages + [Message(Assistant, Blocks([call]))];
    }

    /** The reply's question waits, at its latest revision, and the other calls' results are held. */
    method ParkOn(q: Parked, results: seq<Block>)
      modifies this
      ensures View() == Park(old(View()), q, results)
    {
      var handle := Current(q.handle);
      status, pending := Awaiting, Some(Pending(q.toolUseId, handle, results));
    }

    method Attach(handle: Handle)
      modifies this
      ensures View() == Conversations.Attach(old(View()), handle)
    {
      handles := handles + [handle];
    }

    method Retire(handle: Handle)
      modifies this
      ensures View() == Freeze(old(View()), handle)
    {
      frozen := frozen + [handle];
    }

    method Revise(was: Handle, next: Handle)
      modifies this
      ensures View() == Supersede(old(View()), was, next)
    {
      handles := handles + [next];
      superseded := superseded[was := next];
    }

    /** A revision from outside any turn takes effect, and its notice is owed. */
    method ReviseHeld(handle: Handle, next: Handle, text: string, wake: bool) returns (replaced: Handle)
      modifies this
      ensures replaced == CurrentHandle(old(View()), handle)
      ensures View() == ReviseOutside(old(View()), replaced, next, UpdateNotice(text, wake, replaced, next))
    {
      replaced := Current(handle);
      handles := handles + [next];
      superseded := superseded[replaced := next];
      if pending.Some? && pending.value.handle == replaced { pending := Some(pending.value.(handle := next)); }
      var notice := UpdateNotice(text, wake, replaced, next);
      announcing := Some(notice);
      outside := outside + [notice];
    }
  }
}
