/** The in-memory store in place: conversations under lease, payloads, and numbered notices. */
module Stores {
  import opened History
  import opened Conversations

  datatype Stored = Stored(conversation: Conversation, leaseUntil: Option<nat>, leaseToken: Token)

  datatype PayloadRecord = PayloadRecord(conversationId: nat, payload: Payload)

  datatype NoticeRecord = NoticeRecord(number: nat, notice: Notice, createdAt: nat)

  datatype Loaded = Busy | Loaded(id: nat, stored: Stored)

  /** A stale lease, or no conversation, is the one refusal of every fenced write. */
  datatype Written<T> = Stale | Done(value: T)

  // ── reading notices ────────────────────────────────────────────────

  /** Numbered from one, with no gap. */
  predicate Numbered(list: seq<NoticeRecord>) { forall i | 0 <= i < |list| :: list[i].number == i + 1 }

  /** The notices past `after`. */
  function Past(list: seq<NoticeRecord>, after: int): seq<NoticeRecord> {
    if list == [] then []
    else Past(list[..|list| - 1], after) + if list[|list| - 1].number > after then [list[|list| - 1]] else []
  }

  function UpTo<T>(s: seq<T>, limit: Option<nat>): seq<T> {
    if limit.Some? && limit.value < |s| then s[..limit.value] else s
  }

  lemma {:induction false} PastNone(list: seq<NoticeRecord>, after: int)
    requires forall i | 0 <= i < |list| :: list[i].number <= after
    ensures Past(list, after) == []
  {
    if list != [] { PastNone(list[..|list| - 1], after); }
  }

  lemma PastPush(front: seq<NoticeRecord>, last: NoticeRecord, after: int)
    ensures Past(front + [last], after) == Past(front, after) + if last.number > after then [last] else []
  {
    assert (front + [last])[..|front|] == front;
  }

  lemma {:induction false} PastDrops(list: seq<NoticeRecord>, after: int, lo: nat)
    requires lo <= |list|
    requires forall i | 0 <= i < lo :: list[i].number <= after
    requires forall i | lo <= i < |list| :: list[i].number > after
    ensures Past(list, after) == list[lo..]
  {
    if lo == |list| {
      PastNone(list, after);
    } else {
      var front, last := list[..|list| - 1], list[|list| - 1];
      assert list == front + [last] && list[lo..] == front[lo..] + [last];
      PastDrops(front, after, lo);
      PastPush(front, last, after);
    }
  }

  /** The halving search finds where the notices past `after` begin, and so reads what a filter would. */
  method FindPast(list: seq<NoticeRecord>, after: int) returns (lo: nat)
    requires Numbered(list)
    ensures lo <= |list| && list[lo..] == Past(list, after)
  {
    lo := 0;
    var hi := |list|;
    while lo < hi
      invariant lo <= hi <= |list|
      invariant (forall i | 0 <= i < lo :: list[i].number <= after)
                && forall i | hi <= i < |list| :: list[i].number > after
    {
      var mid := (lo + hi) / 2;
      if list[mid].number > after { hi := mid; } else { lo := mid + 1; }
    }
    PastDrops(list, after, lo);
  }

  // ── the store ──────────────────────────────────────────────────────

  /** Those of the handles stored for this conversation, in the order asked. */
  function Scoped(payloads: map<Handle, PayloadRecord>, handles: seq<Handle>, id: nat): seq<PayloadRecord> {
    if handles == [] then []
    else
      var h := handles[|handles| - 1];
      Scoped(payloads, handles[..|handles| - 1], id) + if h in payloads
        && payloads[h].conversationId == id then [payloads[h]] else []
  }

  /** Each record is one of this conversation's, of a handle asked for; and each such handle's record is there. */
  predicate ScopedTo(r: seq<PayloadRecord>, payloads: map<Handle, PayloadRecord>, handles: seq<Handle>, id: nat) {
    && (forall x | x in r :: x.conversationId == id && exists h | h in handles && h in payloads :: payloads[h] == x)
    && (forall h | h in handles && h in payloads && payloads[h].conversationId == id :: payloads[h] in r)
  }

  lemma {:induction false} ScopedIs(payloads: map<Handle, PayloadRecord>, handles: seq<Handle>, id: nat)
    ensures ScopedTo(Scoped(payloads, handles, id), payloads, handles, id)
    ensures (forall h | h in handles :: h in payloads && payloads[h].conversationId == id) ==>
              |Scoped(payloads, handles, id)| == |handles| &&
              forall i | 0 <= i < |handles| :: Scoped(payloads, handles, id)[i] == payloads[handles[i]]
  {
    if handles != [] {
      var front, h := handles[..|handles| - 1], handles[|handles| - 1];
      ScopedIs(payloads, front, id);
      assert handles == front + [h];
    }
  }

  class MemoryStore {
    const leaseMs: nat
    var conversations: map<nat, Stored>
    var payloads: map<Handle, PayloadRecord>
    var notices: map<nat, seq<NoticeRecord>>
    var convSeq: nat
    var handleSeq: nat
    var tokenSeq: nat

    /** What was issued is in the past, each token to one conversation at most, and each log is numbered. */
    ghost predicate Valid()
      reads this
    {
      && leaseMs > 0
      && (forall id | id in conversations :: id < convSeq && conversations[id].leaseToken < tokenSeq)
      && (forall a, b | a in conversations && b in conversations && a != b ::
         conversations[a].leaseToken != conversations[b].leaseToken)
      && (forall h | h in payloads :: h < handleSeq && payloads[h].conversationId in conversations)
      && (forall id | id in notices :: id in conversations && Numbered(notices[id]))
    }

    constructor (leaseMs: nat)
      requires leaseMs > 0
      ensures Valid() && conversations == map[] && payloads == map[] && notices == map[] && this.leaseMs == leaseMs
    {
      this.leaseMs := leaseMs;
      conversations, payloads, notices, convSeq, handleSeq, tokenSeq := map[], map[], map[], 0, 0, 0;
    }

    ghost function LogOf(id: nat): seq<NoticeRecord>
      reads this
    {
      if id in notices then notices[id] else []
    }

    /** A lease on it lives. */
    predicate Held(id: nat, now: nat)
      reads this
    {
      id in conversations && conversations[id].leaseUntil.Some? && conversations[id].leaseUntil.value > now
    }

    predicate Fenced(id: nat, token: Option<Token>)
      reads this
    {
      id in conversations && token == Some(conversations[id].leaseToken)
    }

    /** A live lease turns the load away; otherwise it gets the row as it stands, under a token never issued before. */
    method Load(id: Option<nat>, now: nat) returns (r: Loaded)
      requires Valid()
      modifies this`conversations, this`convSeq, this`tokenSeq
      ensures Valid()
      ensures r.Busy? <==> id.Some? && old(Held(id.value, now))
      ensures r.Busy? ==> conversations == old(conversations) && convSeq == old(convSeq) && tokenSeq == old(tokenSeq)
      ensures r.Loaded? ==>
                && conversations == old(conversations)[r.id := r.stored]
                && r.stored.leaseUntil == Some(now + leaseMs)
                && r.stored.leaseToken == old(tokenSeq) == tokenSeq - 1
      ensures r.Loaded? && id.Some? && id.value in old(conversations) ==>
                && r.id == id.value && convSeq == old(convSeq)
                && r.stored.conversation == old(conversations)[id.value].conversation
      ensures r.Loaded? && !(id.Some? && id.value in old(conversations)) ==>
                && r.id == old(convSeq) == convSeq - 1 && r.id !in old(conversations)
                && r.stored.conversation == NEW_CONVERSATION
    {
      if id.Some? && id.value in conversations {
        var stored := conversations[id.value];
        if stored.leaseUntil.Some? && stored.leaseUntil.value > now { return Busy; }
        stored := stored.(leaseUntil := Some(now + leaseMs), leaseToken := tokenSeq);
        tokenSeq := tokenSeq + 1;
        conversations := conversations[id.value := stored];
        return Loaded(id.value, stored);
      }
      var stored := Stored(NEW_CONVERSATION, Some(now + leaseMs), tokenSeq);
      var next := convSeq;
      tokenSeq, convSeq := tokenSeq + 1, convSeq + 1;
      conversations := conversations[next := stored];
      r := Loaded(next, stored);
    }

    /** A compare-and-set on the token: a superseded holder changes nothing. */
    method Save(id: nat, token: Option<Token>, conversation: Conversation, leaseUntil: Option<nat>)
      returns (r: Written<()>)
      requires Valid()
      modifies this`conversations
      ensures Valid()
      ensures r.Done? <==> old(Fenced(id, token))
      ensures conversations == if r.Done? then old(conversations)[id := Stored(conversation, leaseUntil, token.value)]
              else old(conversations)
    {
      if !Fenced(id, token) { return Stale; }
      conversations := conversations[id := Stored(conversation, leaseUntil, token.value)];
      r := Done(());
    }

    /** So is a payload, which gets a handle never issued before. */
    method PutPayload(id: nat, token: Option<Token>, payload: Payload) returns (r: Written<Handle>)
      requires Valid()
      modifies this`payloads, this`handleSeq
      ensures Valid()
      ensures r.Done? <==> Fenced(id, token)
      ensures r.Stale? ==> payloads == old(payloads) && handleSeq == old(handleSeq)
      ensures r.Done? ==>
                && r.value !in old(payloads) && r.value == old(handleSeq) == handleSeq - 1
                && payloads == old(payloads)[r.value := PayloadRecord(id, payload)]
    {
      if !Fenced(id, token) { return Stale; }
      payloads := payloads[handleSeq := PayloadRecord(id, payload)];
      r := Done(handleSeq);
      handleSeq := handleSeq + 1;
    }

    /** Scoped: a handle from another conversation does not resolve. */
    method GetPayload(h: Handle, id: nat) returns (r: Option<PayloadRecord>)
      ensures r.Some? <==> h in payloads && payloads[h].conversationId == id
      ensures r.Some? ==> r.value == payloads[h]
    {
      if h !in payloads || payloads[h].conversationId != id { return None; }
      r := Some(payloads[h]);
    }

    method GetPayloads(handles: seq<Handle>, id: nat) returns (r: seq<PayloadRecord>)
      ensures r == Scoped(payloads, handles, id)
      ensures ScopedTo(r, payloads, handles, id)
    {
      r := [];
      var i := 0;
      while i < |handles|
        invariant i <= |handles| && r == Scoped(payloads, handles[..i], id)
      {
        assert handles[..i + 1][..i] == handles[..i];
        var h := handles[i];
        if h in payloads && payloads[h].conversationId == id { r := r + [payloads[h]]; }
        i := i + 1;
      }
      assert handles[..|handles|] == handles;
      ScopedIs(payloads, handles, id);
    }

    /** Unfenced: a notice lands whoever holds the turn, with the next number. */
    method PutNotice(id: nat, notice: Notice, now: nat) returns (r: Option<NoticeRecord>)
      requires Valid()
      modifies this`notices
      ensures Valid()
      ensures r.Some? <==> id in conversations
      ensures r.None? ==> notices == old(notices)
      ensures r.Some? ==>
                && r.value == NoticeRecord(|old(LogOf(id))| + 1, notice, now)
                && notices == old(notices)[id := old(LogOf(id)) + [r.value]]
    {
      if id !in conversations { return None; }
      var list := if id in notices then notices[id] else [];
      var last := if list == [] then 0 else list[|list| - 1].number;
      assert last == |list|;
      var stored := NoticeRecord(last + 1, notice, now);
      assert Numbered(list + [stored]);
      notices := notices[id := list + [stored]];
      r := Some(stored);
    }

    method GetNotices(id: nat, after: int, limit: Option<nat>) returns (r: Option<seq<NoticeRecord>>)
      requires Valid()
      ensures r.Some? <==> id in conversations
      ensures r.Some? ==> r.value == UpTo(Past(LogOf(id), after), limit)
    {
      if id !in conversations { return None; }
      var list := if id in notices then notices[id] else [];
      var lo := FindPast(list, after);
      var n := |list| - lo;
      var hi := if limit.Some? && limit.value < n then lo + limit.value else |list|;
      assert list[lo..hi] == UpTo(list[lo..], limit);
      r := Some(list[lo..hi]);
    }
  }
}
