/**
 * The in-memory credential store in place: compare-and-set rows, their refresh leases, and the connect flows on their
 * way.
 */
module Credentials {
  import opened History
  import R = Renewals

  datatype Flow = Flow(state: string, value: nat, expiresAt: nat)

  /** The most flows kept: past it, the oldest goes. */
  const MEMORY_FLOWS := 10000

  predicate DistinctStates(flows: seq<Flow>) { forall i, j | 0 <= i < j < |flows| :: flows[i].state != flows[j].state }

  /** Without those at the front that are past their time, or past the most kept. */
  function Pruned(flows: seq<Flow>, now: nat): seq<Flow> {
    if flows == [] || (flows[0].expiresAt > now && |flows| < MEMORY_FLOWS) then flows else Pruned(flows[1..], now)
  }

  /** What is pruned is the oldest, and no more of it than has expired or is over the most kept. */
  lemma {:induction false} PrunedIsOldest(flows: seq<Flow>, now: nat) returns (k: nat)
    ensures k <= |flows| && Pruned(flows, now) == flows[k..] && |flows[k..]| < MEMORY_FLOWS
    ensures forall i | 0 <= i < k :: flows[i].expiresAt <= now || |flows| - i >= MEMORY_FLOWS
    ensures k < |flows| ==> flows[k].expiresAt > now
  {
    if flows == [] || (flows[0].expiresAt > now && |flows| < MEMORY_FLOWS) {
      k := 0;
    } else {
      var j := PrunedIsOldest(flows[1..], now);
      k := j + 1;
      assert flows[1..][j..] == flows[k..];
      forall i | 0 <= i < k ensures flows[i].expiresAt <= now || |flows| - i >= MEMORY_FLOWS {
        if i > 0 { assert flows[i] == flows[1..][i - 1]; }
      }
    }
  }

  /** A flow set: in its own place if it is there, and newest if not. */
  function Set(flows: seq<Flow>, f: Flow): seq<Flow> {
    if flows == [] then [f]
    else if flows[0].state == f.state then [f] + flows[1..]
    else [flows[0]] + Set(flows[1..], f)
  }

  function Unset(flows: seq<Flow>, state: string): seq<Flow> {
    if flows == [] then [] else (if flows[0].state == state then [] else [flows[0]]) + Unset(flows[1..], state)
  }

  lemma {:induction false} SetAt(flows: seq<Flow>, at: nat, f: Flow)
    requires at <= |flows| && (at < |flows| ==> flows[at].state == f.state)
    requires forall k | 0 <= k < at :: flows[k].state != f.state
    ensures Set(flows, f) == if at < |flows| then flows[at := f] else flows + [f]
  {
    if at > 0 {
      SetAt(flows[1..], at - 1, f);
      assert flows == [flows[0]] + flows[1..];
    }
  }

  lemma {:induction false} UnsetNone(flows: seq<Flow>, state: string)
    requires forall k | 0 <= k < |flows| :: flows[k].state != state
    ensures Unset(flows, state) == flows
  {
    if flows != [] {
      UnsetNone(flows[1..], state);
      assert flows == [flows[0]] + flows[1..];
    }
  }

  lemma {:induction false} UnsetAt(flows: seq<Flow>, at: nat)
    requires DistinctStates(flows) && at < |flows|
    ensures Unset(flows, flows[at].state) == flows[..at] + flows[at + 1..]
  {
    if at == 0 {
      UnsetNone(flows[1..], flows[0].state);
      assert flows[..0] == [];
    } else {
      UnsetAt(flows[1..], at - 1);
      assert flows[1..][at - 1] == flows[at] && flows[..at] == [flows[0]] + flows[1..][..at - 1];
      assert flows[1..][at..] == flows[at + 1..];
    }
  }

  class CredentialStore {
    var credentials: map<(string, string), nat>
    var leases: map<(string, string), R.Lease>
    var flows: seq<Flow>

    ghost predicate Valid()
      reads this
    {
      leases.Keys <= credentials.Keys && DistinctStates(flows) && |flows| <= MEMORY_FLOWS
    }

    /** One user's row for one server, as a refresh sees it. */
    static ghost function Row(credentials: map<(string, string), nat>, leases: map<(string, string), R.Lease>,
      at: (string, string), now: nat): R.Vault {
      R.NEW_VAULT.(now := now, value := if at in credentials then Some(credentials[at]) else None,
                  lease := if at in leases then Some(leases[at]) else None)
    }

    /** The same row, whatever else. */
    static ghost predicate SameRow(a: R.Vault, b: R.Vault) { a.value == b.value && a.lease == b.lease }

    constructor ()
      ensures Valid() && credentials == map[] && leases == map[] && flows == []
    {
      credentials, leases, flows := map[], map[], [];
    }

    /** A compare-and-set, which ends the row's lease. */
    method Put(user: string, server: string, value: nat, previous: Option<nat>) returns (written: bool)
      requires Valid()
      modifies this`credentials, this`leases
      ensures Valid()
      ensures written == (Row(old(credentials), old(leases), (user, server), 0).value == previous)
      ensures forall now: nat ::
              SameRow(Row(credentials, leases, (user, server), now),
              R.Put(Row(old(credentials), old(leases), (user, server), now), value, previous))
      ensures forall at: (string, string), now: nat | at != (user, server) ::
              Row(credentials, leases, at, now) == Row(old(credentials), old(leases), at, now)
    {
      var at := (user, server);
      var held := if at in credentials then Some(credentials[at]) else None;
      if held != previous { return false; }
      credentials, leases := credentials[at := value], leases - {at};
      written := true;
    }

    /** With `previous`, only if the row still holds it. */
    method Delete(user: string, server: string, previous: Option<nat>)
      requires Valid()
      modifies this`credentials, this`leases
      ensures Valid()
      ensures forall now: nat ::
              SameRow(Row(credentials, leases, (user, server), now),
              R.Delete(Row(old(credentials), old(leases), (user, server), now), previous))
      ensures forall at: (string, string), now: nat | at != (user, server) ::
              Row(credentials, leases, at, now) == Row(old(credentials), old(leases), at, now)
    {
      var at := (user, server);
      if at !in credentials || (previous.Some? && credentials[at] != previous.value) { return; }
      credentials, leases := credentials - {at}, leases - {at};
    }

    /** All of a user's credentials, and their leases. */
    method DeleteAll(user: string)
      requires Valid()
      modifies this`credentials, this`leases
      ensures Valid()
      ensures forall at: (string, string), now: nat | at.0 == user ::
              Row(credentials, leases, at, now).value.None? && Row(credentials, leases, at, now).lease.None?
      ensures forall at: (string, string), now: nat | at.0 != user ::
              Row(credentials, leases, at, now) == Row(old(credentials), old(leases), at, now)
    {
      credentials := map at: (string, string) | at in credentials && at.0 != user :: credentials[at];
      leases := map at: (string, string) | at in leases && at.0 != user :: leases[at];
    }

    /** The refresh lease, if the row still holds `previous` and no lease but the holder's is held. */
    method Lease(user: string, server: string, previous: nat, holder: nat, ms: nat, now: nat) returns (granted: bool)
      requires Valid()
      modifies this`leases
      ensures Valid()
      ensures granted == R.Grants(Row(old(credentials), old(leases), (user, server), now), previous, holder)
      ensures SameRow(Row(credentials, leases, (user, server), now),
              R.TakeLease(Row(old(credentials), old(leases), (user, server), now), previous, holder, ms))
      ensures forall at: (string, string), t: nat | at != (user, server) ::
              Row(credentials, leases, at, t) == Row(old(credentials), old(leases), at, t)
    {
      var at := (user, server);
      if at !in credentials || credentials[at] != previous { return false; }
      if at in leases && leases[at].until > now && leases[at].holder != holder { return false; }
      leases := leases[at := R.Lease(holder, now + ms)];
      granted := true;
    }

    method IndexOf(state: string) returns (i: nat)
      ensures i <= |flows| && (i < |flows| ==> flows[i].state == state)
              && forall k | 0 <= k < i :: flows[k].state != state
    {
      i := 0;
      while i < |flows| && flows[i].state != state
        invariant i <= |flows| && forall k | 0 <= k < i :: flows[k].state != state
      {
        i := i + 1;
      }
    }

    /** The oldest go first: past their time, or past the most kept. */
    method PutFlow(state: string, value: nat, expiresAt: nat, now: nat)
      requires Valid()
      modifies this`flows
      ensures Valid()
      ensures flows == Set(Pruned(old(flows), now), Flow(state, value, expiresAt))
      ensures Flow(state, value, expiresAt) in flows
      ensures forall f | f in flows && f.state != state :: f in Pruned(old(flows), now)
      ensures forall f | f in Pruned(old(flows), now) && f.state != state :: f in flows
    {
      while flows != [] && !(flows[0].expiresAt > now && |flows| < MEMORY_FLOWS)
        invariant Pruned(flows, now) == Pruned(old(flows), now) && DistinctStates(flows) && |flows| <= MEMORY_FLOWS
        decreases |flows|
      {
        flows := flows[1..];
      }
      assert flows == Pruned(old(flows), now);
      ghost var kept := flows;
      var at := IndexOf(state);
      SetAt(flows, at, Flow(state, value, expiresAt));
      if at < |flows| {
        flows := flows[at := Flow(state, value, expiresAt)];
        assert flows[at] in flows;
        forall f | f in kept && f.state != state ensures f in flows {
          var j :| 0 <= j < |kept| && kept[j] == f;
          assert flows[j] == f;
        }
      } else {
        flows := flows + [Flow(state, value, expiresAt)];
      }
    }

    /** Removes and returns a flow, once: nothing when there is none, or it has expired. */
    method TakeFlow(state: string, now: nat) returns (r: Option<nat>)
      requires Valid()
      modifies this`flows
      ensures Valid()
      ensures flows == Unset(old(flows), state)
      ensures forall f | f in flows :: f.state != state && f in old(flows)
      ensures forall f | f in old(flows) && f.state != state :: f in flows
      ensures r.Some? <==> exists f | f in old(flows) :: f.state == state && f.expiresAt > now
      ensures r.Some? ==> exists f | f in old(flows) :: f.state == state && f.value == r.value
    {
      var at := IndexOf(state);
      if at == |flows| {
        UnsetNone(flows, state);
        return None;
      }
      UnsetAt(flows, at);
      var flow := flows[at];
      r := if flow.expiresAt > now then Some(flow.value) else None;
      assert flow in flows;
      Dropped(flows, at);
      flows := flows[..at] + flows[at + 1..];
    }
  }

  lemma Dropped(flows: seq<Flow>, at: nat)
    requires DistinctStates(flows) && at < |flows|
    ensures var left := flows[..at] + flows[at + 1..];
            && DistinctStates(left)
            && (forall f :: f in left <==> f in flows && f.state != flows[at].state)
            && (forall f | f in flows && f.state == flows[at].state :: f == flows[at])
  {
    var left := flows[..at] + flows[at + 1..];
    forall f | f in flows && f.state != flows[at].state ensures f in left {
      var j :| 0 <= j < |flows| && flows[j] == f;
      assert f == if j < at then left[j] else left[j - 1];
    }
  }
}
