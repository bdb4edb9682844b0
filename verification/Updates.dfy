/** Revisions asked for from outside any turn: one write at a time for each queue, and calls made meanwhile merged. */
module Updates {
  import opened History
  import opened Conversations

  datatype Call = Call(conv: nat, handle: Handle, props: string, model: Option<string>, wake: bool)

  /** Which queue a call joins: the surface's first handle, where this process knows it. */
  datatype Key = Key(conv: nat, first: Handle)

  /** A write: what the last of its callers asked for, and a wake if any of them asked. */
  datatype Job = Job(props: string, model: Option<string>, wake: bool, waiters: seq<nat>)

  datatype Loop = Loop(key: Key, write: nat, job: Job, next: Option<Job>)

  datatype Written = Written(replaced: Handle, latest: Handle)

  datatype Write = Write(key: Key, job: Job)

  datatype Settled = Settled(call: nat, write: nat, outcome: Option<Written>)

  datatype Names = Names(of: map<nat, map<Handle, Handle>>, order: seq<nat>)

  /**
   * One process. Calls, writes and loops are numbered as they start. `calls`, `keys`, `writes`, `ended` and
   * `settled` are history variables: every call with the queue it joined, every write, how each ended, and every
   * answer given.
   */
  datatype Updater = Updater(
    names: Names, updating: map<Key, nat>, loops: map<nat, Loop>, made: nat,
    calls: seq<Call>, keys: seq<Key>, writes: seq<Write>, ended: map<nat, Option<Written>>, settled: seq<Settled>)

  const NEW_UPDATER := Updater(Names(map[], []), map[], map[], 0, [], [], [], map[], [])

  datatype Event = Ask(call: Call) | Finish(loop: nat, outcome: Option<Written>)

  const NAMES_KEPT := 10_000

  function KeyOf(names: Names, conv: nat, handle: Handle): Key {
    Key(conv, if conv in names.of && handle in names.of[conv] then names.of[conv][handle] else handle)
  }

  function Without(order: seq<nat>, conv: nat): seq<nat> {
    if order == [] then [] else Without(order[..|order| - 1], conv) + if order[|order| - 1] == conv then []
      else [order[|order| - 1]]
  }

  /** A surface went from `w.replaced` to `w.latest`: only its first handle and its latest are kept. */
  function Name(names: Names, key: Key, w: Written): Names {
    var known := if key.conv in names.of then names.of[key.conv] else map[];
    var kept := if w.replaced != key.first then known - {w.replaced} else known;
    var order := Without(names.order, key.conv) + [key.conv];
    var of := names.of[key.conv := kept[key.first := key.first][w.latest := key.first]];
    if |order| > NAMES_KEPT then Names(of - {order[0]}, order[1..]) else Names(of, order)
  }

  function Answers(waiters: seq<nat>, write: nat, outcome: Option<Written>): seq<Settled> {
    if waiters == [] then []
    else Answers(waiters[..|waiters| - 1], write, outcome) + [Settled(waiters[|waiters| - 1], write, outcome)]
  }

  /** A call behind those already waiting: its props are the ones written, for all of them. */
  function Merge(behind: Option<Job>, call: Call, n: nat): Job {
    match behind
    case Some(b) => Job(call.props, call.model, call.wake || b.wake, b.waiters + [n])
    case None => Job(call.props, call.model, call.wake, [n])
  }

  /** A call meets a write of its queue under way, and waits behind it. */
  function Joined(s: Updater, call: Call, l: nat): Updater
    requires l in s.loops
  {
    s.(calls := s.calls + [call], keys := s.keys + [s.loops[l].key],
      loops := s.loops[l := s.loops[l].(next := Some(Merge(s.loops[l].next, call, |s.calls|)))])
  }

  /** A call finds its queue idle, and starts a loop for it. */
  function Started(s: Updater, call: Call, key: Key): Updater {
    var job := Merge(None, call, |s.calls|);
    s.(calls := s.calls + [call], keys := s.keys + [key], updating := s.updating[key := s.made], made := s.made + 1,
       loops := s.loops[s.made := Loop(key, |s.writes|, job, None)], writes := s.writes + [Write(key, job)])
  }

  function Asked(s: Updater, call: Call): Updater {
    var key := KeyOf(s.names, call.conv, call.handle);
    if key in s.updating && s.updating[key] in s.loops then Joined(s, call, s.updating[key]) else Started(s, call, key)
  }

  /** A loop's write has ended: its callers are all told the same. */
  function Told(s: Updater, l: nat, outcome: Option<Written>): Updater
    requires l in s.loops
  {
    var loop := s.loops[l];
    s.(names := if outcome.Some? then Name(s.names, loop.key, outcome.value) else s.names,
       ended := s.ended[loop.write := outcome],
       settled := s.settled + Answers(loop.job.waiters, loop.write, outcome))
  }

  /** What waited behind a write goes next. */
  function GoesOn(s: Updater, l: nat): Updater
    requires l in s.loops && s.loops[l].next.Some?
  {
    var key, job := s.loops[l].key, s.loops[l].next.value;
    s.(loops := s.loops[l := Loop(key, |s.writes|, job, None)], writes := s.writes + [Write(key, job)])
  }

  function Stops(s: Updater, l: nat): Updater
    requires l in s.loops
  {
    s.(loops := s.loops - {l}, updating := s.updating - {s.loops[l].key})
  }

  function Finished(s: Updater, l: nat, outcome: Option<Written>): Updater {
    if l !in s.loops then s
    else if s.loops[l].next.Some? then GoesOn(Told(s, l, outcome), l)
    else Stops(Told(s, l, outcome), l)
  }

  function Next(s: Updater, e: Event): Updater {
    match e
    case Ask(call) => Asked(s, call)
    case Finish(l, outcome) => Finished(s, l, outcome)
  }

  function Run(es: seq<Event>): Updater {
    if es == [] then NEW_UPDATER else Next(Run(es[..|es| - 1]), es[|es| - 1])
  }

  // ── invariants ─────────────────────────────────────────────────────

  /** A loop and its queue name each other, so a queue has one loop. */
  ghost predicate Single(s: Updater) {
    && (forall k | k in s.updating :: s.updating[k] in s.loops && s.loops[s.updating[k]].key == k)
    && (forall l | l in s.loops :: l < s.made && s.loops[l].key in s.updating && s.updating[s.loops[l].key] == l)
  }

  /** A job's callers, in the order they called, all on its queue; the last gave what it writes. */
  ghost predicate Fair(s: Updater, key: Key, job: Job) {
    && |s.keys| == |s.calls| && job.waiters != []
    && (forall i | 0 <= i < |job.waiters| :: job.waiters[i] < |s.calls| && s.keys[job.waiters[i]] == key)
    && (forall i, j | 0 <= i < j < |job.waiters| :: job.waiters[i] < job.waiters[j])
    && job.props == s.calls[job.waiters[|job.waiters| - 1]].props
       && job.model == s.calls[job.waiters[|job.waiters| - 1]].model
    && (job.wake <==> exists i :: 0 <= i < |job.waiters| && s.calls[job.waiters[i]].wake)
  }

  /** Every job of a loop, and every write made, is fair, and a loop's write is on record. */
  ghost predicate AllFair(s: Updater) {
    && |s.keys| == |s.calls|
    && (forall w | 0 <= w < |s.writes| :: Fair(s, s.writes[w].key, s.writes[w].job))
    && (forall l | l in s.loops ::
       s.loops[l].write < |s.writes| && s.writes[s.loops[l].write] == Write(s.loops[l].key, s.loops[l].job))
    && (forall l | l in s.loops && s.loops[l].next.Some? :: Fair(s, s.loops[l].key, s.loops[l].next.value))
  }

  /** Each call is in one write, or waits behind one: never in two. */
  ghost predicate Apart(s: Updater) {
    && (forall v, w, i | 0 <= v < w < |s.writes| && i in s.writes[v].job.waiters :: i !in s.writes[w].job.waiters)
    && (forall l, v, i | l in s.loops && s.loops[l].next.Some? && 0 <= v < |s.writes|
       && i in s.loops[l].next.value.waiters ::
          i !in s.writes[v].job.waiters)
  }

  ghost predicate InWrite(s: Updater, i: nat, w: nat) { w < |s.writes| && i in s.writes[w].job.waiters }

  ghost predicate Behind(s: Updater, i: nat, l: nat) {
    l in s.loops && s.loops[l].next.Some? && i in s.loops[l].next.value.waiters
  }

  ghost predicate Placed(s: Updater, i: nat) { (exists w: nat :: InWrite(s, i, w)) || exists l: nat :: Behind(s, i, l) }

  ghost predicate Reached(s: Updater) { forall i: nat | i < |s.calls| :: Placed(s, i) }

  /** The writes that have not ended are the loops' own. */
  ghost predicate Ends(s: Updater) {
    && (forall w | w in s.ended :: w < |s.writes|)
    && (forall l | l in s.loops :: s.loops[l].write !in s.ended)
    && (forall w: nat | w < |s.writes| && w !in s.ended ::
          s.writes[w].key in s.updating && s.updating[s.writes[w].key] in s.loops
            && s.loops[s.updating[s.writes[w].key]].write == w)
  }

  /** The answers given are those of the writes that ended, one to each of their callers. */
  ghost predicate Answered(s: Updater) {
    && AnswersTrue(s)
    && (forall w, i: nat | w in s.ended && InWrite(s, i, w) :: Settled(i, w, s.ended[w]) in s.settled)
    && (forall a, b | 0 <= a < b < |s.settled| :: s.settled[a].call != s.settled[b].call)
  }

  ghost predicate AnswersTrue(s: Updater) {
    forall x | x in s.settled :: x.write in s.ended && s.ended[x.write] == x.outcome && InWrite(s, x.call, x.write)
  }

  function LastOf(job: Job): nat { if job.waiters == [] then 0 else job.waiters[|job.waiters| - 1] }

  function Newest(loop: Loop): nat { LastOf(if loop.next.Some? then loop.next.value else loop.job) }

  /** No write of the queue came after this one. */
  ghost predicate LastWrite(s: Updater, k: Key, w: nat) {
    w < |s.writes| && s.writes[w].key == k && forall v | w < v < |s.writes| :: s.writes[v].key != k
  }

  /** The last call on each queue is the last of what its loop has yet to answer. */
  ghost predicate LoopLast(s: Updater, l: nat, i: nat) {
    l in s.loops && i < |s.keys| && s.keys[i] == s.loops[l].key ==> i <= Newest(s.loops[l])
  }

  /** Once the queue is idle, it is the last its last write answered. */
  ghost predicate IdleLast(s: Updater, k: Key, w: nat, i: nat) {
    k !in s.updating && LastWrite(s, k, w) && i < |s.keys| && s.keys[i] == k ==> i <= LastOf(s.writes[w].job)
  }

  ghost predicate LoopWrite(s: Updater, l: nat) { l in s.loops ==> LastWrite(s, s.loops[l].key, s.loops[l].write) }

  ghost predicate Latest(s: Updater) {
    && |s.keys| == |s.calls|
    && (forall l: nat, i: nat :: LoopLast(s, l, i))
    && (forall l: nat :: LoopWrite(s, l))
    && (forall k, w: nat, i: nat :: IdleLast(s, k, w, i))
  }

  // ── each step ──────────────────────────────────────────────────────

  lemma SingleNext(s: Updater, e: Event)
    requires Single(s)
    ensures Single(Next(s, e))
  {}

  /** A job stays fair as calls come in. */
  lemma FairStays(s: Updater, t: Updater, key: Key, job: Job)
    requires Fair(s, key, job) && |t.keys| == |t.calls| && s.calls <= t.calls && s.keys <= t.keys
    ensures Fair(t, key, job)
  {
    forall i | 0 <= i < |job.waiters| ensures t.calls[job.waiters[i]] == s.calls[job.waiters[i]]
      && t.keys[job.waiters[i]] == s.keys[job.waiters[i]] {}
  }

  lemma MergeFair(s: Updater, t: Updater, key: Key, behind: Option<Job>, call: Call)
    requires |s.keys| == |s.calls| && (behind.Some? ==> Fair(s, key, behind.value))
    requires t.calls == s.calls + [call] && t.keys == s.keys + [key]
    ensures Fair(t, key, Merge(behind, call, |s.calls|))
  {
    assert t.calls[|s.calls|] == call && t.keys[|s.calls|] == key;
    if behind.Some? {
      FairStays(s, t, key, behind.value);
      JoinsFair(t, key, behind.value, call, |s.calls|);
    } else {
      var job := Merge(None, call, |s.calls|);
      assert job.waiters[0] == |s.calls|;
    }
  }

  lemma JoinsFair(t: Updater, key: Key, b: Job, call: Call, n: nat)
    requires Fair(t, key, b) && n < |t.calls| && t.calls[n] == call && t.keys[n] == key
             && forall i | 0 <= i < |b.waiters| :: b.waiters[i] < n
    ensures Fair(t, key, Merge(Some(b), call, n))
  {
    var job := Merge(Some(b), call, n);
    assert forall i | 0 <= i < |b.waiters| :: job.waiters[i] == b.waiters[i];
    assert job.waiters[|b.waiters|] == n;
    if b.wake {
      var i :| 0 <= i < |b.waiters| && t.calls[b.waiters[i]].wake;
      assert t.calls[job.waiters[i]].wake;
    }
    if call.wake { assert t.calls[job.waiters[|b.waiters|]].wake; }
  }

  lemma JoinedFair(s: Updater, call: Call, l: nat)
    requires AllFair(s) && l in s.loops
    ensures AllFair(Joined(s, call, l))
  {
    var t := Joined(s, call, l);
    forall key, job | Fair(s, key, job) ensures Fair(t, key, job) { FairStays(s, t, key, job); }
    MergeFair(s, t, s.loops[l].key, s.loops[l].next, call);
  }

  lemma StartedFair(s: Updater, call: Call, key: Key)
    requires AllFair(s)
    ensures AllFair(Started(s, call, key))
  {
    var t := Started(s, call, key);
    forall key, job | Fair(s, key, job) ensures Fair(t, key, job) { FairStays(s, t, key, job); }
    MergeFair(s, t, key, None, call);
  }

  lemma GoesOnFair(s: Updater, l: nat)
    requires AllFair(s) && l in s.loops && s.loops[l].next.Some?
    ensures AllFair(GoesOn(s, l))
  {
    var t := GoesOn(s, l);
    forall key, job | Fair(s, key, job) ensures Fair(t, key, job) { FairStays(s, t, key, job); }
  }

  lemma StopsFair(s: Updater, l: nat)
    requires AllFair(s) && l in s.loops
    ensures AllFair(Stops(s, l))
  {
    var t := Stops(s, l);
    forall key, job | Fair(s, key, job) ensures Fair(t, key, job) { FairStays(s, t, key, job); }
  }

  lemma ToldFair(s: Updater, l: nat, outcome: Option<Written>)
    requires AllFair(s) && l in s.loops
    ensures AllFair(Told(s, l, outcome))
  {
    var t := Told(s, l, outcome);
    forall key, job | Fair(s, key, job) ensures Fair(t, key, job) { FairStays(s, t, key, job); }
  }

  lemma FinishedFair(s: Updater, l: nat, outcome: Option<Written>)
    requires AllFair(s) && l in s.loops
    ensures AllFair(Finished(s, l, outcome))
  {
    ToldFair(s, l, outcome);
    if s.loops[l].next.Some? { GoesOnFair(Told(s, l, outcome), l); } else { StopsFair(Told(s, l, outcome), l); }
  }

  lemma FairNext(s: Updater, e: Event)
    requires AllFair(s) && Single(s)
    ensures AllFair(Next(s, e))
  {
    match e
    case Finish(l, outcome) => if l in s.loops { FinishedFair(s, l, outcome); }
    case Ask(call) =>
      var key := KeyOf(s.names, call.conv, call.handle);
      if key in s.updating { JoinedFair(s, call, s.updating[key]); } else { StartedFair(s, call, key); }
  }

  /** No call is in a job before it is made. */
  lemma FairBounds(s: Updater, key: Key, job: Job, i: nat)
    requires Fair(s, key, job) && i in job.waiters
    ensures i < |s.calls| && s.keys[i] == key && i <= LastOf(job)
  {
    var k :| 0 <= k < |job.waiters| && job.waiters[k] == i;
    if k < |job.waiters| - 1 { assert job.waiters[k] < job.waiters[|job.waiters| - 1]; }
  }

  // ── apart ──────────────────────────────────────────────────────────

  lemma JoinedApart(s: Updater, call: Call, l: nat)
    requires AllFair(s) && Apart(s) && l in s.loops
    ensures Apart(Joined(s, call, l))
  {
    forall v, i | 0 <= v < |s.writes| && i in s.writes[v].job.waiters ensures i < |s.calls| {
      FairBounds(s, s.writes[v].key, s.writes[v].job, i);
    }
  }

  lemma StartedApart(s: Updater, call: Call, key: Key)
    requires AllFair(s) && Apart(s)
    ensures Apart(Started(s, call, key))
  {
    forall v, i | 0 <= v < |s.writes| && i in s.writes[v].job.waiters ensures i < |s.calls| {
      FairBounds(s, s.writes[v].key, s.writes[v].job, i);
    }
    forall m, i | m in s.loops && s.loops[m].next.Some? && i in s.loops[m].next.value.waiters ensures i < |s.calls| {
      FairBounds(s, s.loops[m].key, s.loops[m].next.value, i);
    }
  }

  /** What waits behind one loop does not wait behind another: their queues differ. */
  lemma BehindOne(s: Updater, i: nat, l: nat, m: nat)
    requires AllFair(s) && Single(s) && Behind(s, i, l) && Behind(s, i, m)
    ensures l == m
  {
    FairBounds(s, s.loops[l].key, s.loops[l].next.value, i);
    FairBounds(s, s.loops[m].key, s.loops[m].next.value, i);
  }

  lemma GoesOnApart(s: Updater, l: nat)
    requires AllFair(s) && Single(s) && Apart(s) && l in s.loops && s.loops[l].next.Some?
    ensures Apart(GoesOn(s, l))
  {
    forall m, i: nat | m in s.loops && m != l && Behind(s, i, m) ensures !Behind(s, i, l) {
      if Behind(s, i, l) { BehindOne(s, i, l, m); }
    }
    var t := GoesOn(s, l);
    forall m, v, i | m in t.loops && t.loops[m].next.Some? && 0 <= v < |t.writes| && i in t.loops[m].next.value.waiters
      ensures i !in t.writes[v].job.waiters
    {
      assert m != l && Behind(s, i, m);
    }
  }

  lemma ApartNext(s: Updater, e: Event)
    requires AllFair(s) && Single(s) && Apart(s)
    ensures Apart(Next(s, e))
  {
    match e
    case Finish(l, outcome) =>
      if l in s.loops {
        ToldFair(s, l, outcome);
        if s.loops[l].next.Some? { GoesOnApart(Told(s, l, outcome), l); }
      }
    case Ask(call) =>
      var key := KeyOf(s.names, call.conv, call.handle);
      if key in s.updating { JoinedApart(s, call, s.updating[key]); } else { StartedApart(s, call, key); }
  }

  // ── reached ────────────────────────────────────────────────────────

  /** A call keeps its place, or goes from behind a loop into the write it makes next. */
  lemma PlacedNext(s: Updater, e: Event, i: nat)
    requires Placed(s, i) && Single(s)
    ensures Placed(Next(s, e), i)
  {
    var t := Next(s, e);
    if w: nat :| InWrite(s, i, w) {
      assert InWrite(t, i, w);
    } else {
      var l: nat :| Behind(s, i, l);
      if Behind(t, i, l) {} else { assert InWrite(t, i, |s.writes|); }
    }
  }

  lemma ReachedNext(s: Updater, e: Event)
    requires Reached(s) && Single(s)
    ensures Reached(Next(s, e))
  {
    var t := Next(s, e);
    forall i: nat | i < |t.calls| ensures Placed(t, i) {
      if i < |s.calls| {
        PlacedNext(s, e, i);
      } else {
        var key := KeyOf(s.names, e.call.conv, e.call.handle);
        if key in s.updating { assert Behind(t, i, s.updating[key]); } else { assert InWrite(t, i, |s.writes|); }
      }
    }
  }

  // ── ends ───────────────────────────────────────────────────────────

  lemma AskedEnds(s: Updater, call: Call)
    requires Ends(s) && Single(s)
    ensures Ends(Asked(s, call))
  {
    var t := Asked(s, call);
    forall w: nat | w < |t.writes| && w !in t.ended
      ensures t.writes[w].key in t.updating && t.updating[t.writes[w].key] in t.loops
              && t.loops[t.updating[t.writes[w].key]].write == w
    {
      if w < |s.writes| { assert t.writes[w] == s.writes[w]; }
    }
  }

  /** Another loop has another queue, and so another write. */
  lemma OtherWrite(s: Updater, l: nat, m: nat)
    requires Single(s) && AllFair(s) && l in s.loops && m in s.loops && m != l
    ensures s.loops[m].key != s.loops[l].key && s.loops[m].write != s.loops[l].write
  {}

  lemma GoesOnEnds(s: Updater, l: nat, outcome: Option<Written>)
    requires Ends(s) && Single(s) && l in s.loops && s.loops[l].next.Some? && OwnWrite(s, l)
    ensures Ends(GoesOn(Told(s, l, outcome), l))
  {
    var key, job, n := s.loops[l].key, s.loops[l].next.value, |s.writes|;
    var loops, ended := s.loops[l := Loop(key, n, job, None)], s.ended[s.loops[l].write := outcome];
    var writes := s.writes + [Write(key, job)];
    assert forall m | m in loops :: loops[m].write !in ended;
    forall w: nat | w < |writes| && w !in ended
      ensures writes[w].key in s.updating && s.updating[writes[w].key] in loops
              && loops[s.updating[writes[w].key]].write == w
    {
      if w < n { StillRuns(s, l, w); }
    }
    EndsAs(GoesOn(Told(s, l, outcome), l), writes, loops, s.updating, ended);
  }

  /** No other loop makes this one's write. */
  ghost predicate OwnWrite(s: Updater, l: nat)
    requires l in s.loops
  {
    && s.loops[l].write < |s.writes| && s.writes[s.loops[l].write].key == s.loops[l].key
    && forall m | m in s.loops && m != l ::
         s.loops[m].write != s.loops[l].write < |s.writes| && s.loops[m].key != s.loops[l].key
  }

  lemma OtherWrites(s: Updater, l: nat)
    requires Single(s) && AllFair(s) && l in s.loops
    ensures OwnWrite(s, l)
  {
    forall m | m in s.loops && m != l ensures s.loops[m].write != s.loops[l].write && s.loops[m].key != s.loops[l].key {
      OtherWrite(s, l, m);
    }
  }

  lemma StopsEnds(s: Updater, l: nat, outcome: Option<Written>)
    requires Ends(s) && Single(s) && l in s.loops && OwnWrite(s, l)
    ensures Ends(Stops(Told(s, l, outcome), l))
  {
    var loops, updating, ended := s.loops - {l}, s.updating - {s.loops[l].key}, s.ended[s.loops[l].write := outcome];
    assert forall m | m in loops :: loops[m].write !in ended;
    forall w: nat | w < |s.writes| && w !in ended
      ensures s.writes[w].key in updating && updating[s.writes[w].key] in loops
              && loops[updating[s.writes[w].key]].write == w
    {
      StillRuns(s, l, w);
    }
    EndsAs(Stops(Told(s, l, outcome), l), s.writes, loops, updating, ended);
  }

  lemma EndsAs(t: Updater, writes: seq<Write>, loops: map<nat, Loop>, updating: map<Key, nat>,
    ended: map<nat, Option<Written>>)
    requires t.writes == writes && t.loops == loops && t.updating == updating && t.ended == ended
    requires forall w | w in ended :: w < |writes|
    requires forall m | m in loops :: loops[m].write !in ended
    requires forall w: nat | w < |writes| && w !in ended ::
               writes[w].key in updating && updating[writes[w].key] in loops
               && loops[updating[writes[w].key]].write == w
    ensures Ends(t)
  {}

  lemma StillRuns(s: Updater, l: nat, w: nat)
    requires Ends(s) && Single(s) && l in s.loops && w < |s.writes| && w !in s.ended && w != s.loops[l].write
    ensures var k := s.writes[w].key;
            && k in s.updating && s.updating[k] in s.loops && s.loops[s.updating[k]].write == w
            && s.updating[k] != l && k != s.loops[l].key
  {}

  lemma EndsNext(s: Updater, e: Event)
    requires Ends(s) && Single(s) && AllFair(s)
    ensures Ends(Next(s, e))
  {
    match e
    case Ask(call) => AskedEnds(s, call);
    case Finish(l, outcome) =>
      if l in s.loops {
        OtherWrites(s, l);
        if s.loops[l].next.Some? { GoesOnEnds(s, l, outcome); } else { StopsEnds(s, l, outcome); }
      }
  }

  // ── answered ───────────────────────────────────────────────────────

  lemma {:induction false} AnswersAre(waiters: seq<nat>, write: nat, outcome: Option<Written>)
    ensures |Answers(waiters, write, outcome)| == |waiters|
    ensures forall k | 0 <= k < |waiters| :: Answers(waiters, write, outcome)[k] == Settled(waiters[k], write, outcome)
  {
    if waiters != [] { AnswersAre(waiters[..|waiters| - 1], write, outcome); }
  }

  /** `t` is `s` with the write `w` ended. */
  ghost predicate Settles(s: Updater, t: Updater, w: nat, outcome: Option<Written>) {
    && w < |s.writes| && w !in s.ended && s.writes <= t.writes
    && t.ended == s.ended[w := outcome]
    && t.settled == s.settled + Answers(s.writes[w].job.waiters, w, outcome)
    && (forall v | v in s.ended :: v < |s.writes|)
  }

  lemma SettlesTrue(s: Updater, t: Updater, w: nat, outcome: Option<Written>)
    requires Settles(s, t, w, outcome) && AnswersTrue(s)
    ensures AnswersTrue(t)
  {
    AnswersAre(s.writes[w].job.waiters, w, outcome);
    var more := Answers(s.writes[w].job.waiters, w, outcome);
    forall x | x in t.settled ensures x.write in t.ended && t.ended[x.write] == x.outcome
      && InWrite(t, x.call, x.write) {
      if x in s.settled { assert InWrite(s, x.call, x.write); } else { assert x in more; }
    }
  }

  lemma SettlesAll(s: Updater, t: Updater, w: nat, outcome: Option<Written>, v: nat, i: nat)
    requires Settles(s, t, w, outcome) && v in t.ended && InWrite(t, i, v)
    requires v in s.ended ==> Settled(i, v, s.ended[v]) in s.settled
    ensures Settled(i, v, t.ended[v]) in t.settled
  {
    AnswersAre(s.writes[w].job.waiters, w, outcome);
    var more := Answers(s.writes[w].job.waiters, w, outcome);
    if v == w {
      var k :| 0 <= k < |s.writes[w].job.waiters| && s.writes[w].job.waiters[k] == i;
      assert more[k] in more;
    }
  }

  lemma SettlesOnce(s: Updater, t: Updater, w: nat, outcome: Option<Written>)
    requires Settles(s, t, w, outcome) && Answered(s) && Apart(s) && Fair(s, s.writes[w].key, s.writes[w].job)
    ensures forall a, b | 0 <= a < b < |t.settled| :: t.settled[a].call != t.settled[b].call
  {
    AnswersAre(s.writes[w].job.waiters, w, outcome);
    forall a, b | 0 <= a < b < |t.settled| ensures t.settled[a].call != t.settled[b].call {
      if a < |s.settled| <= b {
        var x := t.settled[a];
        assert x in s.settled;
        assert InWrite(s, x.call, x.write) && x.write != w;
        assert t.settled[b].call in s.writes[w].job.waiters;
      }
    }
  }

  lemma FinishedSettles(s: Updater, l: nat, outcome: Option<Written>)
    requires Ends(s) && AllFair(s) && l in s.loops
    ensures Settles(s, Finished(s, l, outcome), s.loops[l].write, outcome)
  {}

  lemma AnsweredNext(s: Updater, e: Event)
    requires Answered(s) && Ends(s) && Apart(s) && AllFair(s)
    ensures Answered(Next(s, e))
  {
    var t := Next(s, e);
    if e.Finish? && e.loop in s.loops {
      var w := s.loops[e.loop].write;
      FinishedSettles(s, e.loop, e.outcome);
      SettlesTrue(s, t, w, e.outcome);
      SettlesOnce(s, t, w, e.outcome);
      forall v, i: nat | v in t.ended && InWrite(t, i, v) ensures Settled(i, v, t.ended[v]) in t.settled {
        if v in s.ended { assert InWrite(s, i, v); }
        SettlesAll(s, t, w, e.outcome, v, i);
      }
    } else {
      AskedAnswered(s, t);
    }
  }

  lemma AskedAnswered(s: Updater, t: Updater)
    requires Answered(s) && Ends(s) && s.writes <= t.writes && t.ended == s.ended && t.settled == s.settled
    ensures Answered(t)
  {
    forall x | x in t.settled ensures x.write in t.ended && t.ended[x.write] == x.outcome
      && InWrite(t, x.call, x.write) {
      assert InWrite(s, x.call, x.write);
    }
    forall v, i: nat | v in t.ended && InWrite(t, i, v) ensures Settled(i, v, t.ended[v]) in t.settled {
      assert InWrite(s, i, v);
    }
  }

  // ── latest ─────────────────────────────────────────────────────────

  lemma JoinedLatest(s: Updater, call: Call, l: nat)
    requires Latest(s) && Single(s) && l in s.loops
    ensures Latest(Joined(s, call, l))
  {
    var t := Joined(s, call, l);
    forall m: nat, i: nat ensures LoopLast(t, m, i) {
      if m in t.loops && i == |s.keys| && m != l { assert s.loops[m].key != s.loops[l].key; }
      assert LoopLast(s, m, i);
    }
    forall m: nat ensures LoopWrite(t, m) { assert LoopWrite(s, m); }
    forall k, w: nat, i: nat ensures IdleLast(t, k, w, i) { assert IdleLast(s, k, w, i); }
  }

  lemma StartedLatest(s: Updater, call: Call, key: Key)
    requires Latest(s) && Single(s) && key !in s.updating
    ensures Latest(Started(s, call, key))
  {
    var t := Started(s, call, key);
    forall m: nat, i: nat ensures LoopLast(t, m, i) { StartedLoopLast(s, call, key, m, i); }
    forall m: nat ensures LoopWrite(t, m) {
      assert LoopWrite(s, m);
      WrittenLast(s, t, key, s.made, m);
    }
    forall k, w: nat, i: nat ensures IdleLast(t, k, w, i) {
      assert IdleLast(s, k, w, i);
      if k != key { NotWritten(s, t, key, k, w); }
    }
  }

  lemma StartedLoopLast(s: Updater, call: Call, key: Key, m: nat, i: nat)
    requires LoopLast(s, m, i) && Single(s) && key !in s.updating && |s.keys| == |s.calls|
    ensures LoopLast(Started(s, call, key), m, i)
  {}

  /** `t` has made one more write, on the queue `key`. */
  ghost predicate Wrote(s: Updater, t: Updater, key: Key) {
    |t.writes| == |s.writes| + 1 && s.writes <= t.writes && t.writes[|s.writes|].key == key
  }

  /** A write on one queue is the last there, and leaves the last on every other. */
  lemma WrittenLast(s: Updater, t: Updater, key: Key, l: nat, m: nat)
    requires Wrote(s, t, key) && LoopWrite(s, m)
    requires m == l ==> m in t.loops && t.loops[m].key == key && t.loops[m].write == |s.writes|
    requires m != l && m in t.loops ==> m in s.loops && t.loops[m] == s.loops[m] && s.loops[m].key != key
    ensures LoopWrite(t, m)
  {}

  lemma NotWritten(s: Updater, t: Updater, key: Key, k: Key, w: nat)
    requires Wrote(s, t, key) && k != key
    ensures LastWrite(t, k, w) <==> LastWrite(s, k, w)
  {
    if LastWrite(t, k, w) {
      forall v | w < v < |s.writes| ensures s.writes[v].key != k { assert t.writes[v] == s.writes[v]; }
    }
  }

  lemma GoesOnLatest(s: Updater, l: nat)
    requires Latest(s) && Single(s) && l in s.loops && s.loops[l].next.Some?
    ensures Latest(GoesOn(s, l))
  {
    var t, key := GoesOn(s, l), s.loops[l].key;
    forall m: nat, i: nat ensures LoopLast(t, m, i) { assert LoopLast(s, m, i); }
    forall m: nat ensures LoopWrite(t, m) {
      assert LoopWrite(s, m);
      if m != l && m in s.loops { assert s.loops[m].key != key; }
      WrittenLast(s, t, key, l, m);
    }
    forall k, w: nat, i: nat ensures IdleLast(t, k, w, i) {
      assert IdleLast(s, k, w, i);
      if k != key { NotWritten(s, t, key, k, w); }
    }
  }

  lemma StopsLatest(s: Updater, l: nat)
    requires Latest(s) && Single(s) && AllFair(s) && l in s.loops && s.loops[l].next.None?
    ensures Latest(Stops(s, l))
  {
    var t := Stops(s, l);
    forall m: nat, i: nat ensures LoopLast(t, m, i) { assert LoopLast(s, m, i); }
    forall m: nat ensures LoopWrite(t, m) { assert LoopWrite(s, m); }
    forall k, w: nat, i: nat ensures IdleLast(t, k, w, i) {
      assert IdleLast(s, k, w, i);
      assert LoopLast(s, l, i) && LoopWrite(s, l);
      if k == s.loops[l].key { OneLast(s, k, w, s.loops[l].write); }
    }
  }

  lemma OneLast(s: Updater, k: Key, v: nat, w: nat)
    requires LastWrite(s, k, w)
    ensures LastWrite(s, k, v) ==> v == w
  {}

  lemma ToldLatest(s: Updater, l: nat, outcome: Option<Written>)
    requires Latest(s) && l in s.loops
    ensures Latest(Told(s, l, outcome))
  {
    var t := Told(s, l, outcome);
    forall m: nat, i: nat ensures LoopLast(t, m, i) { assert LoopLast(s, m, i); }
    forall m: nat ensures LoopWrite(t, m) { assert LoopWrite(s, m); }
    forall k, w: nat, i: nat ensures IdleLast(t, k, w, i) { assert IdleLast(s, k, w, i); }
  }

  lemma LatestNext(s: Updater, e: Event)
    requires Latest(s) && Single(s) && AllFair(s)
    ensures Latest(Next(s, e))
  {
    match e
    case Finish(l, outcome) =>
      if l in s.loops {
        ToldLatest(s, l, outcome);
        ToldFair(s, l, outcome);
        if s.loops[l].next.Some? { GoesOnLatest(Told(s, l, outcome), l); } else { StopsLatest(Told(s, l, outcome), l); }
      }
    case Ask(call) =>
      var key := KeyOf(s.names, call.conv, call.handle);
      if key in s.updating { JoinedLatest(s, call, s.updating[key]); } else { StartedLatest(s, call, key); }
  }

  // ── every run ──────────────────────────────────────────────────────

  ghost predicate Inv(s: Updater) {
    Single(s) && AllFair(s) && Apart(s) && Reached(s) && Ends(s) && Answered(s) && Latest(s)
  }

  lemma InvNext(s: Updater, e: Event)
    requires Inv(s)
    ensures Inv(Next(s, e))
  {
    SingleNext(s, e);
    FairNext(s, e);
    ApartNext(s, e);
    ReachedNext(s, e);
    EndsNext(s, e);
    AnsweredNext(s, e);
    LatestNext(s, e);
  }

  lemma {:induction false} Always(es: seq<Event>)
    ensures Inv(Run(es))
  {
    if es != [] {
      Always(es[..|es| - 1]);
      InvNext(Run(es[..|es| - 1]), es[|es| - 1]);
    }
  }

  /** Writes never overlap: of the writes still under way, no two are of one queue. */
  lemma {:induction false} WritesNeverOverlap(es: seq<Event>, v: nat, w: nat)
    requires var s := Run(es); v < w < |s.writes| && v !in s.ended && w !in s.ended
    ensures Run(es).writes[v].key != Run(es).writes[w].key
  {
    Always(es);
  }

  /** Call `i` has its one answer, at `k`. */
  ghost predicate HasAnswer(s: Updater, i: nat, k: nat) {
    k < |s.settled| && s.settled[k].call == i && forall m | 0 <= m < |s.settled| && s.settled[m].call == i :: m == k
  }

  /** A call's write is under way, or it waits behind its queue's. */
  ghost predicate Unsettled(s: Updater, i: nat) {
    i < |s.keys| && s.keys[i] in s.updating && s.updating[s.keys[i]] in s.loops &&
    var loop := s.loops[s.updating[s.keys[i]]];
    i in loop.job.waiters || (loop.next.Some? && i in loop.next.value.waiters)
  }

  /** Each call has exactly one answer, or waits for it in its own queue: never both. */
  lemma {:induction false} SettledExactlyOnce(es: seq<Event>, i: nat)
    requires i < |Run(es).calls|
    ensures Unsettled(Run(es), i) || exists k: nat :: HasAnswer(Run(es), i, k)
    ensures Unsettled(Run(es), i) ==> forall x | x in Run(es).settled :: x.call != i
  {
    var s := Run(es);
    Always(es);
    assert Placed(s, i);
    if w: nat :| InWrite(s, i, w) && w in s.ended {
      var k :| 0 <= k < |s.settled| && s.settled[k] == Settled(i, w, s.ended[w]);
      assert HasAnswer(s, i, k);
      NotUnsettled(s, i, w);
    } else {
      if w: nat :| InWrite(s, i, w) { FairBounds(s, s.writes[w].key, s.writes[w].job, i); }
      if l: nat :| Behind(s, i, l) { FairBounds(s, s.loops[l].key, s.loops[l].next.value, i); }
      forall x | x in s.settled ensures x.call != i { assert InWrite(s, x.call, x.write); }
    }
  }

  lemma NotUnsettled(s: Updater, i: nat, w: nat)
    requires Single(s) && AllFair(s) && Apart(s) && Ends(s) && InWrite(s, i, w) && w in s.ended
    ensures !Unsettled(s, i)
  {}

  /**
   * The answer a call gets is its own write's, or a later call's on the same queue: the props written are that call's,
   * the newest of all the write answers, and it wakes the model exactly if one of those calls asked to.
   */
  lemma {:induction false} AnswerIsOwnOrLater(es: seq<Event>, x: Settled)
    requires x in Run(es).settled
    ensures var s := Run(es);
            x.call < |s.calls| && InWrite(s, x.call, x.write) && x.write in s.ended && s.ended[x.write] == x.outcome
    ensures var s, job := Run(es), Run(es).writes[x.write].job;
            && x.call <= LastOf(job) < |s.calls| == |s.keys| && s.keys[LastOf(job)] == s.keys[x.call] ==
               s.writes[x.write].key
            && job.props == s.calls[LastOf(job)].props && job.model == s.calls[LastOf(job)].model
            && (forall i | 0 <= i < |job.waiters| :: job.waiters[i] < |s.calls|)
            && (job.wake <==> exists i :: 0 <= i < |job.waiters| && s.calls[job.waiters[i]].wake)
  {
    var s := Run(es);
    Always(es);
    assert InWrite(s, x.call, x.write);
    var job := s.writes[x.write].job;
    assert Fair(s, s.writes[x.write].key, job);
    FairBounds(s, s.writes[x.write].key, job, x.call);
    FairBounds(s, s.writes[x.write].key, job, LastOf(job));
    var k :| 0 <= k < |job.waiters| && job.waiters[k] == x.call;
  }

  /** Once a queue is idle, its last write is of its last call's props. */
  lemma {:induction false} LastPropsLastWritten(es: seq<Event>, k: Key, w: nat, i: nat)
    requires var s := Run(es);
             k !in s.updating && LastWrite(s, k, w) && i < |s.calls| && |s.keys| == |s.calls| && s.keys[i] == k
    requires forall j | i < j < |Run(es).keys| :: Run(es).keys[j] != k
    ensures LastOf(Run(es).writes[w].job) == i && Run(es).writes[w].job.props == Run(es).calls[i].props
            && Run(es).writes[w].job.model == Run(es).calls[i].model
  {
    var s := Run(es);
    Always(es);
    var job := s.writes[w].job;
    assert Fair(s, k, job) && IdleLast(s, k, w, i);
    LastIsLast(s, k, job, i);
  }

  lemma LastIsLast(s: Updater, k: Key, job: Job, i: nat)
    requires Fair(s, k, job) && i <= LastOf(job) && forall j | i < j < |s.keys| :: s.keys[j] != k
    ensures LastOf(job) == i < |s.calls| && job.props == s.calls[i].props && job.model == s.calls[i].model
  {}

  lemma Drained(s: Updater, l: nat, a: Option<Written>, b: Option<Written>)
    requires Single(s) && l in s.loops
    ensures var t := Finished(Finished(s, l, a), l, b);
            t.calls == s.calls && t.keys == s.keys && s.loops[l].key !in t.updating
  {}

  /**
   * With no more calls, a queue is idle after the write under way and the one behind it, and every call on it is
   * answered.
   */
  lemma {:induction false} QueuesDrain(es: seq<Event>, l: nat, a: Option<Written>, b: Option<Written>)
    requires l in Run(es).loops
    ensures var s := Run(es); var t := Run(es + [Finish(l, a)] + [Finish(l, b)]);
            && t.calls == s.calls && t.keys == s.keys && s.loops[l].key !in t.updating
            && forall i: nat | i < |t.keys| && t.keys[i] == s.loops[l].key :: exists k: nat :: HasAnswer(t, i, k)
  {
    var s, t := Run(es), Run(es + [Finish(l, a)] + [Finish(l, b)]);
    Always(es);
    Drained(s, l, a, b);
    var once := es + [Finish(l, a)];
    assert once[..|es|] == es && (once + [Finish(l, b)])[..|once|] == once;
    assert Run(once) == Finished(s, l, a) && t == Finished(Run(once), l, b);
    forall i: nat | i < |t.keys| && t.keys[i] == s.loops[l].key ensures exists k: nat :: HasAnswer(t, i, k) {
      Always(once + [Finish(l, b)]);
      SettledExactlyOnce(once + [Finish(l, b)], i);
    }
  }

  // ── one write for each surface ─────────────────────────────────────

  /** No two loops are of one surface: `of` says which surface each handle is of. */
  ghost predicate OneEach(s: Updater, of: Handle -> nat) {
    forall l, m | l in s.loops && m in s.loops && OfOne(s.loops[l].key, s.loops[m].key, of) :: l == m
  }

  predicate OfOne(k: Key, j: Key, of: Handle -> nat) { k.conv == j.conv && of(k.first) == of(j.first) }

  /** Of the writes under way, no two are of one surface. */
  ghost predicate OneWrite(s: Updater, of: Handle -> nat) {
    forall v: nat, w: nat | v < w < |s.writes| && v !in s.ended && w !in s.ended ::
      !OfOne(s.writes[v].key, s.writes[w].key, of)
  }

  lemma OneWriteIff(s: Updater, of: Handle -> nat)
    requires Single(s) && AllFair(s) && Ends(s)
    ensures OneWrite(s, of) <==> OneEach(s, of)
  {
    if OneWrite(s, of) {
      forall l, m | l in s.loops && m in s.loops && OfOne(s.loops[l].key, s.loops[m].key, of) ensures l == m {
        if l != m { OtherWrite(s, l, m); }
        var v, w := s.loops[l].write, s.loops[m].write;
        assert v < |s.writes| && w < |s.writes| && v !in s.ended && w !in s.ended;
      }
    }
    if OneEach(s, of) {
      forall v: nat, w: nat | v < w < |s.writes| && v !in s.ended && w !in s.ended
        ensures !OfOne(s.writes[v].key, s.writes[w].key, of)
      {
        LoopOf(s, v);
        LoopOf(s, w);
      }
    }
  }

  /** A write under way is its queue's loop's. */
  lemma LoopOf(s: Updater, w: nat)
    requires Single(s) && Ends(s) && w < |s.writes| && w !in s.ended
    ensures var k := s.writes[w].key;
            k in s.updating && s.updating[k] in s.loops && s.loops[s.updating[k]].write == w
              && s.loops[s.updating[k]].key == k
  {}

  /** Names lead only within a surface. */
  ghost predicate NamesWithin(names: Names, of: Handle -> nat) {
    forall c, h | c in names.of && h in names.of[c] :: of(names.of[c][h]) == of(h)
  }

  /** A write replaces a handle of its surface by another. */
  predicate Within(s: Updater, e: Event, of: Handle -> nat) {
    e.Finish? && e.loop in s.loops && e.outcome.Some? ==>
      of(e.outcome.value.replaced) == of(e.outcome.value.latest) == of(s.loops[e.loop].key.first)
  }

  /** A call on a surface that has a write under way joins another queue than that write's. */
  predicate Splits(s: Updater, e: Event, of: Handle -> nat) {
    e.Ask? &&
    exists l | l in s.loops ::
      OfOne(s.loops[l].key, Key(e.call.conv, e.call.handle), of)
      && s.loops[l].key != KeyOf(s.names, e.call.conv, e.call.handle)
  }

  lemma NameWithin(names: Names, key: Key, w: Written, of: Handle -> nat)
    requires NamesWithin(names, of) && of(w.latest) == of(key.first)
    ensures NamesWithin(Name(names, key, w), of)
  {}

  lemma NextWithin(s: Updater, e: Event, of: Handle -> nat)
    requires NamesWithin(s.names, of) && Within(s, e, of)
    ensures NamesWithin(Next(s, e).names, of)
  {
    if e.Finish? && e.loop in s.loops && e.outcome.Some? {
      NameWithin(s.names, s.loops[e.loop].key, e.outcome.value, of);
    }
  }

  lemma AskOneEach(s: Updater, call: Call, of: Handle -> nat)
    requires Single(s) && OneEach(s, of) && NamesWithin(s.names, of)
    ensures OneEach(Asked(s, call), of) <==> !Splits(s, Ask(call), of)
  {
    var key, t := KeyOf(s.names, call.conv, call.handle), Asked(s, call);
    assert OfOne(key, Key(call.conv, call.handle), of);
    if key in s.updating {
      JoinOneEach(s, call, of);
    } else {
      StartOneEach(s, call, key, of);
    }
  }

  lemma JoinOneEach(s: Updater, call: Call, of: Handle -> nat)
    requires Single(s) && OneEach(s, of) && NamesWithin(s.names, of)
    requires KeyOf(s.names, call.conv, call.handle) in s.updating
    ensures OneEach(Asked(s, call), of) && !Splits(s, Ask(call), of)
  {
    var l := s.updating[KeyOf(s.names, call.conv, call.handle)];
    assert forall m | m in Asked(s, call).loops :: m in s.loops && Asked(s, call).loops[m].key == s.loops[m].key;
    forall m | m in s.loops && OfOne(s.loops[m].key, Key(call.conv, call.handle), of) ensures m == l {
      assert OfOne(s.loops[m].key, s.loops[l].key, of);
    }
  }

  lemma StartOneEach(s: Updater, call: Call, key: Key, of: Handle -> nat)
    requires Single(s) && OneEach(s, of) && key !in s.updating && OfOne(key, Key(call.conv, call.handle), of)
    requires key == KeyOf(s.names, call.conv, call.handle)
    ensures OneEach(Started(s, call, key), of) <==> !Splits(s, Ask(call), of)
  {
    var t := Started(s, call, key);
    assert t.loops[s.made].key == key && s.made !in s.loops;
    if Splits(s, Ask(call), of) {
      var l :| l in s.loops && OfOne(s.loops[l].key, Key(call.conv, call.handle), of);
      assert t.loops[l] == s.loops[l] && OfOne(t.loops[l].key, t.loops[s.made].key, of);
    } else {
      assert forall k | k in s.loops :: s.loops[k].key in s.updating && s.loops[k].key != key;
      assert forall k | k in s.loops :: !OfOne(s.loops[k].key, key, of);
      forall l, m | l in t.loops && m in t.loops && OfOne(t.loops[l].key, t.loops[m].key, of) ensures l == m {
        if l != s.made && m != s.made { assert OfOne(s.loops[l].key, s.loops[m].key, of); }
      }
    }
  }

  lemma FinishOneEach(s: Updater, l: nat, outcome: Option<Written>, of: Handle -> nat)
    requires OneEach(s, of)
    ensures OneEach(Finished(s, l, outcome), of)
  {
    var t := Finished(s, l, outcome);
    forall j, m | j in t.loops && m in t.loops && OfOne(t.loops[j].key, t.loops[m].key, of) ensures j == m {
      assert j in s.loops && m in s.loops && t.loops[j].key == s.loops[j].key && t.loops[m].key == s.loops[m].key;
    }
  }

  /** A step keeps one loop for each surface if and only if it is not such a call. */
  lemma {:induction false} OneEachIff(s: Updater, e: Event, of: Handle -> nat)
    requires Single(s) && OneEach(s, of) && NamesWithin(s.names, of) && Within(s, e, of)
    ensures OneEach(Next(s, e), of) <==> !Splits(s, e, of)
  {
    match e
    case Ask(call) => AskOneEach(s, call, of);
    case Finish(l, outcome) => FinishOneEach(s, l, outcome, of);
  }

  ghost predicate AllWithin(es: seq<Event>, of: Handle -> nat) {
    es == [] || (AllWithin(es[..|es| - 1], of) && Within(Run(es[..|es| - 1]), es[|es| - 1], of))
  }

  ghost predicate NoneSplits(es: seq<Event>, of: Handle -> nat) {
    es == [] || (NoneSplits(es[..|es| - 1], of) && !Splits(Run(es[..|es| - 1]), es[|es| - 1], of))
  }

  /** At every moment of the run. */
  ghost predicate AlwaysOneWrite(es: seq<Event>, of: Handle -> nat) {
    OneWrite(Run(es), of) && (es == [] || AlwaysOneWrite(es[..|es| - 1], of))
  }

  lemma {:induction false} AllNamesWithin(es: seq<Event>, of: Handle -> nat)
    requires AllWithin(es, of)
    ensures NamesWithin(Run(es).names, of)
  {
    if es != [] {
      AllNamesWithin(es[..|es| - 1], of);
      NextWithin(Run(es[..|es| - 1]), es[|es| - 1], of);
    }
  }

  /**
   * One write per surface is in flight at every moment of a run if and only if no call in it meets a write of its
   * surface under another key than its own.
   */
  lemma {:induction false} OneWritePerSurfaceIff(es: seq<Event>, of: Handle -> nat)
    requires AllWithin(es, of)
    ensures AlwaysOneWrite(es, of) <==> NoneSplits(es, of)
  {
    Always(es);
    OneWriteIff(Run(es), of);
    if es != [] {
      var front := es[..|es| - 1];
      OneWritePerSurfaceIff(front, of);
      Always(front);
      OneWriteIff(Run(front), of);
      AllNamesWithin(front, of);
      if OneWrite(Run(front), of) {
        OneEachIff(Run(front), es[|es| - 1], of);
      } else {
        NeverAgain(front, of);
      }
    }
  }

  lemma NeverAgain(es: seq<Event>, of: Handle -> nat)
    requires !OneWrite(Run(es), of)
    ensures !AlwaysOneWrite(es, of)
  {}

  // ── which handles the names record ─────────────────────────────────

  /** A write that landed: the queue it was of, and what it replaced by what. */
  datatype Lesson = Lesson(key: Key, written: Written)

  ghost function Lessons(es: seq<Event>): seq<Lesson> {
    if es == [] then []
    else Lessons(es[..|es| - 1]) + Taught(Run(es[..|es| - 1]), es[|es| - 1])
  }

  function Taught(s: Updater, e: Event): seq<Lesson> {
    if e.Finish? && e.loop in s.loops && e.outcome.Some? then [Lesson(s.loops[e.loop].key, e.outcome.value)] else []
  }

  /** The queue the last write to speak of a handle left it: none, where that write replaced it. */
  function LastSays(ls: seq<Lesson>, conv: nat, h: Handle): Option<Handle> {
    if ls == [] then None
    else
      var x := ls[|ls| - 1];
      if x.key.conv == conv && (h == x.written.latest || h == x.key.first) then Some(x.key.first)
      else if x.key.conv == conv && h == x.written.replaced then None
      else LastSays(ls[..|ls| - 1], conv, h)
  }

  function Convs(ls: seq<Lesson>): set<nat> { set i | 0 <= i < |ls| :: ls[i].key.conv }

  function Found(names: Names, conv: nat, h: Handle): Option<Handle> {
    if conv in names.of && h in names.of[conv] then Some(names.of[conv][h]) else None
  }

  predicate Distinct(order: seq<nat>) { forall i, j | 0 <= i < j < |order| :: order[i] != order[j] }

  function Among(order: seq<nat>): set<nat> { set i | 0 <= i < |order| :: order[i] }

  lemma {:induction false} WithoutIt(order: seq<nat>, conv: nat)
    requires Distinct(order)
    ensures var left := Without(order, conv); Distinct(left) && Among(left) == Among(order) - {conv}
  {
    if order != [] {
      var front, last := order[..|order| - 1], order[|order| - 1];
      assert order == front + [last];
      WithoutIt(front, conv);
      AmongPush(front, last);
      assert last !in Among(front);
      if last != conv {
        AmongPush(Without(front, conv), last);
      } else {
        assert Without(order, conv) == Without(front, conv);
        assert Among(order) - {conv} == Among(front);
      }
    }
  }

  lemma AmongPush(order: seq<nat>, c: nat)
    ensures Among(order + [c]) == Among(order) + {c}
    ensures Distinct(order) && c !in Among(order) ==> Distinct(order + [c])
  {
    assert forall x :: x in Among(order + [c]) <==> x in Among(order) + {c} by {
      forall x | x in Among(order) ensures x in Among(order + [c]) {
        var i :| 0 <= i < |order| && order[i] == x;
        assert (order + [c])[i] == x;
      }
      assert (order + [c])[|order|] == c;
    }
  }

  lemma {:induction false} DistinctSize(order: seq<nat>)
    requires Distinct(order)
    ensures |Among(order)| == |order|
  {
    if order != [] {
      var front, last := order[..|order| - 1], order[|order| - 1];
      assert order == front + [last];
      DistinctSize(front);
      AmongPush(front, last);
      assert last !in Among(front);
    }
  }

  /** The conversations named are of those revised, and all of them while no more are revised than are kept. */
  ghost predicate Kept(names: Names, ls: seq<Lesson>) {
    && Distinct(names.order) && Among(names.order) == names.of.Keys <= Convs(ls)
    && (|Convs(ls)| <= NAMES_KEPT ==> names.of.Keys == Convs(ls))
  }

  /** What is found of a handle was said of it last, and is found while no conversation has been let go. */
  predicate Recorded(names: Names, ls: seq<Lesson>, c: nat, h: Handle) {
    && (Found(names, c, h).Some? ==> Found(names, c, h) == LastSays(ls, c, h))
    && (|Convs(ls)| <= NAMES_KEPT ==> Found(names, c, h) == LastSays(ls, c, h))
  }

  ghost predicate Records(names: Names, ls: seq<Lesson>) { Kept(names, ls) && forall c, h :: Recorded(names, ls, c, h) }

  lemma ConvsPush(ls: seq<Lesson>, x: Lesson)
    ensures Convs(ls + [x]) == Convs(ls) + {x.key.conv} && |Convs(ls)| <= |Convs(ls + [x])|
  {
    assert forall c :: c in Convs(ls + [x]) <==> c in Convs(ls) + {x.key.conv} by {
      forall c | c in Convs(ls) ensures c in Convs(ls + [x]) {
        var i :| 0 <= i < |ls| && ls[i].key.conv == c;
        assert (ls + [x])[i].key.conv == c;
      }
      assert (ls + [x])[|ls|] == x;
    }
    Smaller(Convs(ls), Convs(ls + [x]));
  }

  lemma Smaller(a: set<nat>, b: set<nat>)
    requires a <= b
    ensures |a| <= |b|
  {
    assert b == a + (b - a);
  }

  /** The names before any is let go. */
  function Named(names: Names, x: Lesson): map<nat, map<Handle, Handle>> {
    var known := if x.key.conv in names.of then names.of[x.key.conv] else map[];
    var kept := if x.written.replaced != x.key.first then known - {x.written.replaced} else known;
    names.of[x.key.conv := kept[x.key.first := x.key.first][x.written.latest := x.key.first]]
  }

  function Reordered(names: Names, conv: nat): seq<nat> { Without(names.order, conv) + [conv] }

  lemma NameFinds(names: Names, x: Lesson, c: nat, h: Handle)
    ensures var of, order := Named(names, x), Reordered(names, x.key.conv);
            Found(Name(names, x.key, x.written), c, h) ==
            if |order| > NAMES_KEPT && c == order[0] then None else Found(Names(of, order), c, h)
  {}

  lemma NamedSays(names: Names, ls: seq<Lesson>, x: Lesson, c: nat, h: Handle)
    ensures var found := Found(Names(Named(names, x), []), c, h);
            && (Found(names, c, h) == LastSays(ls, c, h) ==> found == LastSays(ls + [x], c, h))
            && (Found(names, c, h).None? && found.Some? ==> found == LastSays(ls + [x], c, h))
  {
    assert (ls + [x])[..|ls|] == ls;
  }

  lemma Reorders(names: Names, conv: nat)
    requires Distinct(names.order)
    ensures var order := Reordered(names, conv);
            Distinct(order) && Among(order) == Among(names.order) + {conv} && |order| == |Among(order)|
  {
    WithoutIt(names.order, conv);
    AmongPush(Without(names.order, conv), conv);
    DistinctSize(Reordered(names, conv));
  }

  lemma NameKept(names: Names, ls: seq<Lesson>, x: Lesson)
    requires Kept(names, ls)
    ensures Kept(Name(names, x.key, x.written), ls + [x])
    ensures |Reordered(names, x.key.conv)| <= |Convs(ls + [x])|
  {
    var order := Reordered(names, x.key.conv);
    ConvsPush(ls, x);
    Reorders(names, x.key.conv);
    Smaller(Among(order), Convs(ls + [x]));
    Renamed(names, x);
    if |order| > NAMES_KEPT { LetsGo(order); }
    KeptAs(names.of.Keys, names.order, Name(names, x.key, x.written), order, ls, x);
  }

  lemma KeptAs(known: set<nat>, before: seq<nat>, next: Names, order: seq<nat>, ls: seq<Lesson>, x: Lesson)
    requires Among(before) == known <= Convs(ls) && (|Convs(ls)| <= NAMES_KEPT ==> known == Convs(ls))
    requires Distinct(order) && Among(order) == known + {x.key.conv} && |order| <= |Convs(ls + [x])|
    requires Convs(ls + [x]) == Convs(ls) + {x.key.conv} && |Convs(ls)| <= |Convs(ls + [x])|
    requires next.order == (if |order| > NAMES_KEPT then order[1..] else order)
    requires next.of.Keys == known + {x.key.conv} - if |order| > NAMES_KEPT then {order[0]} else {}
    requires |order| > NAMES_KEPT ==> Distinct(order[1..]) && Among(order[1..]) == Among(order) - {order[0]}
    ensures Kept(next, ls + [x])
  {}

  lemma Renamed(names: Names, x: Lesson)
    ensures var order, next := Reordered(names, x.key.conv), Name(names, x.key, x.written);
            && next.order == (if |order| > NAMES_KEPT then order[1..] else order)
            && next.of.Keys == names.of.Keys + {x.key.conv} - if |order| > NAMES_KEPT then {order[0]} else {}
  {}

  lemma NameRecords(names: Names, ls: seq<Lesson>, x: Lesson)
    requires Records(names, ls)
    ensures Records(Name(names, x.key, x.written), ls + [x])
  {
    var next := Name(names, x.key, x.written);
    NameKept(names, ls, x);
    ConvsPush(ls, x);
    forall c, h ensures Recorded(next, ls + [x], c, h) {
      assert Recorded(names, ls, c, h);
      NameRecorded(names, ls, x, c, h);
    }
  }

  lemma NameRecorded(names: Names, ls: seq<Lesson>, x: Lesson, c: nat, h: Handle)
    requires Recorded(names, ls, c, h) && |Reordered(names, x.key.conv)| <= |Convs(ls + [x])|
             && |Convs(ls)| <= |Convs(ls + [x])|
    ensures Recorded(Name(names, x.key, x.written), ls + [x], c, h)
  {
    NameFinds(names, x, c, h);
    NamedSays(names, ls, x, c, h);
  }

  lemma LetsGo(order: seq<nat>)
    requires Distinct(order) && order != []
    ensures Distinct(order[1..]) && Among(order[1..]) == Among(order) - {order[0]}
  {
    forall c | c in Among(order) - {order[0]} ensures c in Among(order[1..]) {
      var i :| 0 <= i < |order| && order[i] == c;
      assert order[1..][i - 1] == c;
    }
    forall c | c in Among(order[1..]) ensures c in Among(order) - {order[0]} {
      var i :| 0 <= i < |order[1..]| && order[1..][i] == c;
      assert order[i + 1] == c;
    }
  }

  lemma NextNames(s: Updater, e: Event)
    ensures Next(s, e).names == if Taught(s, e) == [] then s.names
            else Name(s.names, Taught(s, e)[0].key, Taught(s, e)[0].written)
  {}

  lemma NextRecords(s: Updater, e: Event, names: Names, ls: seq<Lesson>)
    requires Records(s.names, ls) && names == Next(s, e).names
    ensures Records(names, ls + Taught(s, e))
  {
    NextNames(s, e);
    if Taught(s, e) == [] { assert ls + [] == ls; } else { NameRecords(s.names, ls, Taught(s, e)[0]); }
  }

  lemma {:induction false} AllRecords(es: seq<Event>)
    ensures Records(Run(es).names, Lessons(es))
  {
    if es == [] {
      NoRecords();
    } else {
      AllRecords(es[..|es| - 1]);
      NextRecords(Run(es[..|es| - 1]), es[|es| - 1], Run(es).names, Lessons(es[..|es| - 1]));
    }
  }

  lemma NoRecords()
    ensures Records(Names(map[], []), [])
  {
    assert Convs([]) == {} == Among([]);
  }

  /**
   * Which queue a call joins, in every run that has revised surfaces of no more conversations than are kept: that of
   * the last write that wrote its handle, or went by it as first; and one of its own where no write did, or the last
   * to speak of the handle replaced it.
   */
  lemma {:induction false} JoinsIff(es: seq<Event>, conv: nat, h: Handle, first: Handle)
    requires |Convs(Lessons(es))| <= NAMES_KEPT
    ensures KeyOf(Run(es).names, conv, h) == Key(conv, first) <==>
            match LastSays(Lessons(es), conv, h) case Some(f) => f == first case None => h == first
  {
    AllRecords(es);
    assert Recorded(Run(es).names, Lessons(es), conv, h);
  }

  // ── runs in which one surface has two writes in flight ─────────────

  const FIRST := Call(0, 0, "", None, false)

  function OneSurface(h: Handle): nat { 0 }

  /** A call alone on its queue is written and answered, and leaves the names it learns. */
  lemma Alone(s: Updater, call: Call, w: Written)
    requires KeyOf(s.names, call.conv, call.handle) !in s.updating
    ensures var key := KeyOf(s.names, call.conv, call.handle); var t := Finished(Asked(s, call), s.made, Some(w));
            && t.names == Name(s.names, key, w) && t.updating == s.updating - {key} && t.made == s.made + 1
            && |t.writes| == |s.writes| + 1 && t.ended == s.ended[|s.writes| := Some(w)]
  {}

  lemma FirstNames()
    ensures Name(Names(map[], []), Key(0, 0), Written(0, 1)) == Names(map[0 := map[0 := 0, 1 := 0]], [0])
  {}

  lemma TwoNames()
    ensures Name(Names(map[0 := map[0 := 0, 1 := 0]], [0]), Key(0, 0), Written(1, 2)) ==
            Names(map[0 := map[0 := 0, 2 := 0]], [0])
  {
    assert [0][..0] == [];
    assert Without([0], 0) == [];
    var inner := (map[0 := 0, 1 := 0] - {1})[0 := 0][2 := 0];
    assert inner == map[0 := 0, 2 := 0];
    assert map[0 := map[0 := 0, 1 := 0]][0 := inner] == map[0 := inner];
  }

  lemma ThreeNames()
    ensures Name(Names(map[0 := map[0 := 0, 2 := 0]], [0]), Key(0, 1), Written(2, 3)) ==
            Names(map[0 := map[0 := 0, 1 := 1, 3 := 1]], [0])
  {
    assert [0][..0] == [];
    assert Without([0], 0) == [];
    var inner := (map[0 := 0, 2 := 0] - {2})[1 := 1][3 := 1];
    assert inner == map[0 := 0, 1 := 1, 3 := 1];
    assert map[0 := map[0 := 0, 2 := 0]][0 := inner] == map[0 := inner];
  }

  /** Two calls in a row on an idle process whose names do not lead to one key. */
  lemma BothStart(s: Updater, a: Handle, b: Handle)
    requires s.updating == map[] && KeyOf(s.names, 0, a) != KeyOf(s.names, 0, b)
    requires forall w | w in s.ended :: w < |s.writes|
    ensures !OneWrite(Asked(Asked(s, FIRST.(handle := a)), FIRST.(handle := b)), OneSurface)
  {
    var t := Asked(Asked(s, FIRST.(handle := a)), FIRST.(handle := b));
    var v := |s.writes|;
    assert v < v + 1 < |t.writes| && v !in t.ended && v + 1 !in t.ended;
    assert OfOne(t.writes[v].key, t.writes[v + 1].key, OneSurface);
  }

  function Twice(): Updater {
    Finished(Asked(Finished(Asked(NEW_UPDATER, FIRST), 0, Some(Written(0, 1))), FIRST), 1, Some(Written(1, 2)))
  }

  lemma AfterTwice()
    ensures Twice().names == Names(map[0 := map[0 := 0, 2 := 0]], [0]) && Twice().updating == map[] && Twice().made == 2
    ensures |Twice().writes| == 2 && Twice().ended == map[0 := Some(Written(0, 1)), 1 := Some(Written(1, 2))]
  {
    var one := Finished(Asked(NEW_UPDATER, FIRST), 0, Some(Written(0, 1)));
    Alone(NEW_UPDATER, FIRST, Written(0, 1));
    FirstNames();
    Alone(one, FIRST, Written(1, 2));
    TwoNames();
  }

  /** A surface revised twice, 0 to 1 to 2: its first handle and the one in between join two queues. */
  lemma {:induction false} InBetween()
    ensures Twice().ended == map[0 := Some(Written(0, 1)), 1 := Some(Written(1, 2))]
    ensures !OneWrite(Asked(Asked(Twice(), FIRST), FIRST.(handle := 1)), OneSurface)
  {
    AfterTwice();
    InBetweenOf(Twice());
  }

  lemma InBetweenOf(s: Updater)
    requires s.names == Names(map[0 := map[0 := 0, 2 := 0]], [0]) && s.updating == map[] && |s.writes| == 2
             && s.ended.Keys == {0, 1}
    ensures !OneWrite(Asked(Asked(s, FIRST), FIRST.(handle := 1)), OneSurface)
  {
    BothStart(s, 0, 1);
  }

  /** And once more, by the handle in between, 2 to 3: its first handle and its latest join two queues too. */
  lemma {:induction false} FirstAndLatest()
    ensures var s := Finished(Asked(Twice(), FIRST.(handle := 1)), 2, Some(Written(2, 3)));
            && 2 in s.ended && s.ended[2] == Some(Written(2, 3))
            && !OneWrite(Asked(Asked(s, FIRST), FIRST.(handle := 3)), OneSurface)
  {
    AfterTwice();
    LatestOf(Twice());
  }

  lemma LatestOf(s: Updater)
    requires s.names == Names(map[0 := map[0 := 0, 2 := 0]], [0]) && s.updating == map[] && s.made == 2
    requires |s.writes| == 2 && s.ended.Keys == {0, 1}
    ensures var t := Finished(Asked(s, FIRST.(handle := 1)), 2, Some(Written(2, 3)));
            && 2 in t.ended && t.ended[2] == Some(Written(2, 3))
            && !OneWrite(Asked(Asked(t, FIRST), FIRST.(handle := 3)), OneSurface)
  {
    Alone(s, FIRST.(handle := 1), Written(2, 3));
    ThreeNames();
    BothStart(Finished(Asked(s, FIRST.(handle := 1)), 2, Some(Written(2, 3))), 0, 3);
  }

  /**
   * And so do any two handles in a process that has revised the surface itself never: a turn, or another process, did.
   */
  lemma {:induction false} FreshProcess()
    ensures !OneWrite(Asked(Asked(NEW_UPDATER, FIRST), FIRST.(handle := 1)), OneSurface)
  {
    BothStart(NEW_UPDATER, 0, 1);
  }

  // ── in place ───────────────────────────────────────────────────────

  lemma Grows(es: seq<Event>, e: Event)
    ensures Single(Run(es)) && Run(es + [e]) == Next(Run(es), e)
  {
    Always(es);
    assert (es + [e])[..|es|] == es;
  }

  /**
   * One process's queues. A loop stands for the task that makes a queue's writes, one after another, and keeps what
   * waits behind.
   */
  class UpdateQueues {
    var names: Names
    var updating: map<Key, nat>
    var loops: map<nat, Loop>
    var made: nat
    var settled: seq<Settled>
    ghost var calls: seq<Call>
    ghost var keys: seq<Key>
    ghost var writes: seq<Write>
    ghost var ended: map<nat, Option<Written>>
    ghost var events: seq<Event>
    var asked: nat
    var begun: nat

    ghost function View(): Updater
      reads this
    {
      Updater(names, updating, loops, made, calls, keys, writes, ended, settled)
    }

    /** It is where its events led, and so all that holds after every run holds of it. */
    ghost predicate Valid()
      reads this
    {
      View() == Run(events) && asked == |calls| && begun == |writes|
    }

    constructor ()
      ensures Valid() && events == []
    {
      names, updating, loops, made, settled := Names(map[], []), map[], map[], 0, [];
      calls, keys, writes, ended := [], [], [], map[];
      asked, begun, events := 0, 0, [];
    }

    /** A call waits behind its queue's write, in the place of any already waiting, or starts the queue. */
    method Ask(call: Call)
      requires Valid()
      modifies this
      ensures Valid() && events == old(events) + [Event.Ask(call)]
    {
      Grows(events, Event.Ask(call));
      var key := KeyOf(names, call.conv, call.handle);
      if key in updating { Wait(call, updating[key]); } else { Start(call, key); }
      events := events + [Event.Ask(call)];
    }

    method Wait(call: Call, l: nat)
      requires l in loops && asked == |calls|
      modifies this`calls, this`keys, this`loops, this`asked
      ensures View() == Joined(old(View()), call, l) && asked == |calls|
    {
      var loop := loops[l];
      var waiters := if loop.next.Some? then loop.next.value.waiters + [asked] else [asked];
      var wake := call.wake || (loop.next.Some? && loop.next.value.wake);
      loops := loops[l := loop.(next := Some(Job(call.props, call.model, wake, waiters)))];
      calls, keys, asked := calls + [call], keys + [loop.key], asked + 1;
    }

    method Start(call: Call, key: Key)
      requires asked == |calls| && begun == |writes|
      modifies this`calls, this`keys, this`loops, this`asked, this`updating, this`made, this`writes, this`begun
      ensures View() == Started(old(View()), call, key) && asked == |calls| && begun == |writes|
    {
      var job := Job(call.props, call.model, call.wake, [asked]);
      updating := updating[key := made];
      loops, made := loops[made := Loop(key, begun, job, None)], made + 1;
      writes, begun := writes + [Write(key, job)], begun + 1;
      calls, keys, asked := calls + [call], keys + [key], asked + 1;
    }

    /** A write ended: each of its callers is told, and the loop goes on to what waits behind it, or stops. */
    method Finish(l: nat, outcome: Option<Written>)
      requires Valid() && l in loops
      modifies this
      ensures Valid() && events == old(events) + [Event.Finish(l, outcome)]
    {
      Grows(events, Event.Finish(l, outcome));
      Tell(l, outcome);
      if loops[l].next.Some? { GoOn(l); } else { Stop(l); }
      events := events + [Event.Finish(l, outcome)];
    }

    method Tell(l: nat, outcome: Option<Written>)
      requires l in loops
      modifies this`names, this`ended, this`settled
      ensures View() == Told(old(View()), l, outcome)
    {
      var loop := loops[l];
      var i := 0;
      while i < |loop.job.waiters|
        invariant i <= |loop.job.waiters| && settled == old(settled)
                  + Answers(loop.job.waiters[..i], loop.write, outcome)
        modifies this`settled
      {
        assert loop.job.waiters[..i + 1][..i] == loop.job.waiters[..i];
        settled := settled + [Settled(loop.job.waiters[i], loop.write, outcome)];
        i := i + 1;
      }
      assert loop.job.waiters[..|loop.job.waiters|] == loop.job.waiters;
      if outcome.Some? { names := Name(names, loop.key, outcome.value); }
      ended := ended[loop.write := outcome];
    }

    method GoOn(l: nat)
      requires l in loops && loops[l].next.Some? && begun == |writes|
      modifies this`loops, this`writes, this`begun
      ensures View() == GoesOn(old(View()), l) && begun == |writes|
    {
      var loop := loops[l];
      loops := loops[l := Loop(loop.key, begun, loop.next.value, None)];
      writes, begun := writes + [Write(loop.key, loop.next.value)], begun + 1;
    }

    method Stop(l: nat)
      requires l in loops
      modifies this`loops, this`updating
      ensures View() == Stops(old(View()), l)
    {
      var key := loops[l].key;
      loops, updating := loops - {l}, updating - {key};
    }
  }
}
