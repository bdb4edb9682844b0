/** Surface identity: handles, their revisions, and the questions asked on them. */
module Surfaces {
  import opened History
  import opened Conversations

  predicate Distinct(s: seq<Handle>) { s == [] || (Distinct(s[..|s| - 1]) && s[|s| - 1] !in s[..|s| - 1]) }

  /** A surface that can still be revised or answered. */
  predicate Open(c: Conversation, h: Handle) { h in c.handles && h !in c.frozen && h !in c.superseded }

  /** An issued handle this conversation does not know yet. */
  predicate Unknown(n: Handle, c: Conversation, h: Handle) { h < n && h !in c.handles && h !in c.superseded }

  /** Revisions lead to later-issued handles, and from a surface of this conversation to another. */
  predicate Links(n: Handle, superseded: map<Handle, Handle>, handles: seq<Handle>) {
    forall k | k in superseded :: k < superseded[k] < n && (k in handles ==> superseded[k] in handles)
  }

  /** `n` is the next handle to be issued. */
  predicate Linked(n: Handle, c: Conversation) {
    && Distinct(c.handles) && Distinct(c.frozen)
    && (forall h | h in c.handles :: h < n)
    && Links(n, c.superseded, c.handles)
    && (forall f | f in c.frozen :: f in c.handles && f !in c.superseded)
    && (c.pending.Some? ==> Open(c, c.pending.value.handle))
  }

  lemma DistinctPush(s: seq<Handle>, h: Handle)
    requires Distinct(s) && h !in s
    ensures Distinct(s + [h])
  {
    assert (s + [h])[..|s|] == s;
  }

  lemma LinkedMonotone(n: Handle, m: Handle, c: Conversation)
    requires Linked(n, c) && n <= m
    ensures Linked(m, c)
  {}

  lemma LinkedAttach(n: Handle, c: Conversation, h: Handle)
    requires Linked(n, c) && Unknown(n, c, h)
    ensures Linked(n, Attach(c, h))
  {
    DistinctPush(c.handles, h);
  }

  lemma LinkedSupersede(n: Handle, c: Conversation, was: Handle, h: Handle)
    requires Linked(n, c) && Unknown(n, c, h) && Open(c, was) && was < h
    requires c.pending.Some? ==> c.pending.value.handle != was
    ensures Linked(n, Supersede(c, was, h))
  {
    DistinctPush(c.handles, h);
  }

  lemma LinkedFreeze(n: Handle, c: Conversation, h: Handle)
    requires Linked(n, c.(pending := None)) && Open(c, h)
    ensures Linked(n, Freeze(c, h).(pending := None))
  {
    DistinctPush(c.frozen, h);
  }

  /**
   * With links that only lead on, the walk never needs its guard: it stops only at an unrevised handle, in the
   * conversation.
   */
  lemma {:induction false} FollowEnds(n: Handle, c: Conversation, at: Handle, seen: set<Handle>)
    requires Links(n, c.superseded, c.handles) && at in c.handles
    requires forall s | s in seen :: s < at
    ensures var e := Follow(c.superseded, at, seen); e !in c.superseded && e in c.handles && e >= at
    decreases c.superseded.Keys - seen
  {
    if at in c.superseded { FollowEnds(n, c, c.superseded[at], seen + {at}); }
  }

  lemma {:induction false} FollowUnguarded(n: Handle, c: Conversation, at: Handle, seen: set<Handle>, more: set<Handle>)
    requires Links(n, c.superseded, c.handles)
    requires (forall s | s in seen :: s < at) && forall s | s in more :: s < at
    ensures Follow(c.superseded, at, seen) == Follow(c.superseded, at, more)
    decreases c.superseded.Keys - seen
  {
    if at in c.superseded { FollowUnguarded(n, c, c.superseded[at], seen + {at}, more + {at}); }
  }

  /** A revision of the latest moves every walk that ended there one step on, and no other. */
  lemma {:induction false} FollowSupersede(n: Handle, c: Conversation, was: Handle, next: Handle, at: Handle,
    seen: set<Handle>)
    requires Links(n, c.superseded, c.handles) && was !in c.superseded && next !in c.superseded && was < next
    requires forall s | s in seen :: s < at
    ensures Follow(c.superseded[was := next], at, seen) ==
            if Follow(c.superseded, at, seen) == was then next else Follow(c.superseded, at, seen)
    decreases c.superseded.Keys - seen
  {
    if at in c.superseded { FollowSupersede(n, c, was, next, c.superseded[at], seen + {at}); }
  }
}
