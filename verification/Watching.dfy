/** Wake turns heard from several processes: which frames go out, and what a stream that joins is sent. */
module Watching {
  import opened History
  import opened Transcripts
  import opened Rejoining
  import opened WakeTurns

  /** A frame with the turn it is from, and the turn's number in the conversation. */
  datatype Heard = Heard(frame: Frame, turn: nat, number: Option<nat>)

  datatype Ended = Ended(number: nat, shown: seq<Frame>)

  const ENDED_TURNS_KEPT := 5

  /** `sent` is everything passed on, and `since` where the turn now live began: history variables. */
  datatype Watch = Watch(
    current: Option<nat>, currentNumber: Option<nat>, newest: nat, live: bool, shown: seq<Frame>, ended: seq<Ended>,
    sent: seq<Heard>, since: nat)

  const NEW_WATCH := Watch(None, None, 0, false, [], [], [], 0)

  predicate Streams(f: Frame) { f == StatusIs("streaming") }

  function LastEnded(ended: seq<Ended>): seq<Ended> {
    if |ended| <= ENDED_TURNS_KEPT then ended else ended[|ended| - ENDED_TURNS_KEPT..]
  }

  /** A turn takes over with a number at least as high as any seen. */
  function TakeOver(w: Watch, h: Heard): Watch {
    w.(current := Some(h.turn), currentNumber := h.number, newest := if h.number.Some? then h.number.value
      else w.newest,
       live := true, shown := [], since := |w.sent|)
  }

  function PassOn(w: Watch, h: Heard): Watch {
    var shown := Remember(w.shown, h.frame);
    var sent := w.sent + [h];
    if h.frame.Released? then
      w.(ended := if w.currentNumber.Some? then LastEnded(w.ended + [Ended(w.currentNumber.value, shown)]) else w.ended,
         current := None, live := false, shown := [], sent := sent, since := |sent|)
    else w.(shown := shown, sent := sent)
  }

  function Deliver(w: Watch, h: Heard): Watch {
    if w.current == Some(h.turn) then PassOn(w, h)
    else if !Streams(h.frame) || (h.number.Some? && h.number.value < w.newest) then w
    else PassOn(TakeOver(w, h), h)
  }

  function DeliverAll(hs: seq<Heard>): Watch {
    if hs == [] then NEW_WATCH else Deliver(DeliverAll(hs[..|hs| - 1]), hs[|hs| - 1])
  }

  // ── the order frames go out in ─────────────────────────────────────

  /** Each frame passed on starts a turn's segment, or goes on with the segment before it. */
  predicate InSegment(sent: seq<Heard>, i: nat)
    requires i < |sent|
  {
    Streams(sent[i].frame) || (i > 0 && sent[i - 1].turn == sent[i].turn && !sent[i - 1].frame.Released?)
  }

  predicate Segmented(sent: seq<Heard>) { forall i | 0 <= i < |sent| :: InSegment(sent, i) }

  /** `i` is where a turn's segment starts. */
  predicate StartsSegment(sent: seq<Heard>, i: nat)
    requires i < |sent|
  {
    i == 0 || sent[i - 1].turn != sent[i].turn || sent[i - 1].frame.Released?
  }

  function FramesOf(sent: seq<Heard>): seq<Frame> { seq(|sent|, i requires 0 <= i < |sent| => sent[i].frame) }

  ghost predicate Valid(w: Watch) {
    && Segmented(w.sent)
    && w.since <= |w.sent|
    && w.live == w.current.Some?
    && (w.current.Some? ==>
       w.since < |w.sent| && (forall i | w.since <= i < |w.sent| ::
       w.sent[i].turn == w.current.value && !w.sent[i].frame.Released?))
    && (w.current.None? ==> w.since == |w.sent| && (w.sent != [] ==> w.sent[|w.sent| - 1].frame.Released?))
    && (w.since > 0 && w.current.Some? ==> StartsSegment(w.sent, w.since))
    && w.shown == Shown(FramesOf(w.sent[w.since..]))
  }

  lemma FramesPush(sent: seq<Heard>, since: nat, h: Heard)
    requires since <= |sent|
    ensures FramesOf((sent + [h])[since..]) == FramesOf(sent[since..]) + [h.frame]
  {
    assert (sent + [h])[since..] == sent[since..] + [h];
  }

  lemma ShownPush(fs: seq<Frame>, f: Frame)
    ensures Shown(fs + [f]) == Remember(Shown(fs), f)
  {
    assert (fs + [f])[..|fs|] == fs;
  }

  lemma SegmentedPush(sent: seq<Heard>, h: Heard)
    requires Segmented(sent)
             && (Streams(h.frame)
             || (sent != [] && sent[|sent| - 1].turn == h.turn && !sent[|sent| - 1].frame.Released?))
    ensures Segmented(sent + [h])
  {
    forall i | 0 <= i < |sent + [h]| ensures InSegment(sent + [h], i) {
      if i < |sent| { assert InSegment(sent, i); }
    }
  }

  lemma PassOnValid(w: Watch, h: Heard)
    requires Valid(w) && w.current == Some(h.turn)
    ensures Valid(PassOn(w, h))
  {
    SegmentedPush(w.sent, h);
    FramesPush(w.sent, w.since, h);
    ShownPush(FramesOf(w.sent[w.since..]), h.frame);
    assert (w.sent + [h])[|w.sent| + 1..] == [];
    assert FramesOf([]) == [];
  }

  lemma TakeOverValid(w: Watch, h: Heard)
    requires Valid(w) && w.current != Some(h.turn) && Streams(h.frame)
    ensures Valid(PassOn(TakeOver(w, h), h))
  {
    var v := PassOn(TakeOver(w, h), h);
    SegmentedPush(w.sent, h);
    assert v.sent[v.since..] == [h];
    assert FramesOf([h]) == [] + [h.frame];
    ShownPush([], h.frame);
  }

  lemma {:induction false} DeliverAllValid(hs: seq<Heard>)
    ensures Valid(DeliverAll(hs))
  {
    if hs != [] {
      var w, h := DeliverAll(hs[..|hs| - 1]), hs[|hs| - 1];
      DeliverAllValid(hs[..|hs| - 1]);
      if w.current == Some(h.turn) { PassOnValid(w, h); }
      else if Streams(h.frame) && !(h.number.Some? && h.number.value < w.newest) { TakeOverValid(w, h); }
    }
  }

  /**
   * However frames of turns from different processes interleave, those passed on form contiguous segments, each
   * one turn's and opened by that turn's start; and a stream that joins is sent exactly what the segment under way
   * means.
   */
  lemma {:induction false} TurnsAreContiguous(hs: seq<Heard>)
    ensures var w := DeliverAll(hs);
            && (forall i | 0 <= i < |w.sent| && StartsSegment(w.sent, i) :: Streams(w.sent[i].frame))
            && (w.live ==>
                  && w.since < |w.sent| && StartsSegment(w.sent, w.since)
                  && (forall i | w.since < i < |w.sent| :: !StartsSegment(w.sent, i))
                  && w.shown == Shown(FramesOf(w.sent[w.since..])))
  {
    DeliverAllValid(hs);
    var w := DeliverAll(hs);
    forall i | 0 <= i < |w.sent| && StartsSegment(w.sent, i) ensures Streams(w.sent[i].frame) {
      assert InSegment(w.sent, i);
    }
  }

  // ── numbers ────────────────────────────────────────────────────────

  /** A turn's frames all come with its number. */
  predicate Numbered(hs: seq<Heard>) {
    forall i, j | 0 <= i < |hs| && 0 <= j < |hs| && hs[i].turn == hs[j].turn :: hs[i].number == hs[j].number
  }

  predicate AtMost(number: Option<nat>, n: nat) { number.Some? ==> number.value <= n }

  ghost predicate NumbersKept(hs: seq<Heard>, w: Watch) {
    && (forall i | 0 <= i < |w.sent| :: AtMost(w.sent[i].number, w.newest))
    && (forall i, j | 0 <= i < j < |w.sent| && w.sent[i].number.Some?
       && w.sent[j].number.Some? :: w.sent[i].number.value <= w.sent[j].number.value)
    && (w.current.Some? ==>
       (w.currentNumber.Some? ==> w.currentNumber.value == w.newest)
       && exists k :: 0 <= k < |hs| && hs[k].turn == w.current.value && hs[k].number == w.currentNumber)
  }

  lemma NumbersMore(hs: seq<Heard>, h: Heard, w: Watch)
    requires NumbersKept(hs, w)
    ensures NumbersKept(hs + [h], w)
  {
    if w.current.Some? {
      var k :| 0 <= k < |hs| && hs[k].turn == w.current.value && hs[k].number == w.currentNumber;
      assert (hs + [h])[k] == hs[k];
    }
  }

  lemma NumbersPassOn(hs: seq<Heard>, w: Watch, h: Heard)
    requires NumbersKept(hs, w) && w.current == Some(h.turn) && h.number == w.currentNumber
    ensures NumbersKept(hs, PassOn(w, h))
  {}

  lemma NumbersTakeOver(hs: seq<Heard>, w: Watch, h: Heard)
    requires NumbersKept(hs, w) && h in hs && !(h.number.Some? && h.number.value < w.newest)
    ensures NumbersKept(hs, TakeOver(w, h))
  {}

  lemma NumbersNext(hs: seq<Heard>, w: Watch, h: Heard)
    requires NumbersKept(hs, w) && Numbered(hs + [h])
    ensures NumbersKept(hs + [h], Deliver(w, h))
  {
    var more := hs + [h];
    NumbersMore(hs, h, w);
    if w.current == Some(h.turn) {
      var k :| 0 <= k < |hs| && hs[k].turn == w.current.value && hs[k].number == w.currentNumber;
      assert more[k] == hs[k] && more[|hs|] == h;
      NumbersPassOn(more, w, h);
    } else if Streams(h.frame) && !(h.number.Some? && h.number.value < w.newest) {
      assert more[|hs|] == h;
      NumbersTakeOver(more, w, h);
      NumbersPassOn(more, TakeOver(w, h), h);
    }
  }

  lemma {:induction false} NumbersAlong(hs: seq<Heard>)
    requires Numbered(hs)
    ensures NumbersKept(hs, DeliverAll(hs))
  {
    if hs != [] {
      var front := hs[..|hs| - 1];
      assert hs == front + [hs[|hs| - 1]];
      NumbersAlong(front);
      NumbersNext(front, DeliverAll(front), hs[|hs| - 1]);
    }
  }

  /** Once a turn has started, nothing from a lower-numbered one goes out. */
  lemma {:induction false} NoOlderTurn(hs: seq<Heard>, i: nat, j: nat)
    requires Numbered(hs)
    requires var sent := DeliverAll(hs).sent;
             i < j < |sent| && sent[i].number.Some? && sent[j].number.Some?
    ensures var sent := DeliverAll(hs).sent; sent[i].number.value <= sent[j].number.value
  {
    NumbersAlong(hs);
  }

  // ── a turn is heard to its end ─────────────────────────────────────

  /** Some turn's start, with this number, has been heard. */
  predicate NumberStarted(hs: seq<Heard>, n: nat) {
    exists k | 0 <= k < |hs| :: Streams(hs[k].frame) && hs[k].number == Some(n)
  }

  /** No turn with a higher number has started. */
  predicate NoneHigher(hs: seq<Heard>, number: Option<nat>) {
    number.Some? ==> forall k | 0 <= k < |hs| && Streams(hs[k].frame) && hs[k].number.Some? ::
                       hs[k].number.value <= number.value
  }

  predicate TurnStarted(hs: seq<Heard>, turn: nat) {
    exists k | 0 <= k < |hs| :: Streams(hs[k].frame) && hs[k].turn == turn
  }

  ghost predicate OnlyStarted(hs: seq<Heard>, w: Watch) {
    && (w.newest == 0 || NumberStarted(hs, w.newest))
    && (w.current.Some? ==> TurnStarted(hs, w.current.value))
  }

  lemma StartedOn(hs: seq<Heard>, h: Heard)
    ensures forall n | NumberStarted(hs, n) :: NumberStarted(hs + [h], n)
    ensures forall turn | TurnStarted(hs, turn) :: TurnStarted(hs + [h], turn)
    ensures Streams(h.frame) ==>
              TurnStarted(hs + [h], h.turn) && (h.number.Some? ==> NumberStarted(hs + [h], h.number.value))
  {
    var more := hs + [h];
    assert more[|hs|] == h && forall k | 0 <= k < |hs| :: more[k] == hs[k];
  }

  lemma {:induction false} RunOnlyStarted(hs: seq<Heard>)
    ensures OnlyStarted(hs, DeliverAll(hs))
  {
    if hs != [] {
      var front, h := hs[..|hs| - 1], hs[|hs| - 1];
      assert hs == front + [h];
      RunOnlyStarted(front);
      StartedOn(front, h);
    }
  }

  /** The frames of one turn. */
  function OfTurn(hs: seq<Heard>, turn: nat): seq<Heard> {
    if hs == [] then []
    else
      var h := hs[|hs| - 1];
      OfTurn(hs[..|hs| - 1], turn) + if h.turn == turn then [h] else []
  }

  /** It ends the turn, or starts another with no lower number. */
  predicate Cuts(h: Heard, turn: nat, number: Option<nat>) {
    if h.turn == turn then h.frame.Released?
    else Streams(h.frame) && !(number.Some? && h.number.Some? && h.number.value < number.value)
  }

  predicate Uncut(hs: seq<Heard>, turn: nat, number: Option<nat>) { forall h | h in hs :: !Cuts(h, turn, number) }

  lemma DeliverThen(hs: seq<Heard>, h: Heard)
    ensures DeliverAll(hs + [h]) == Deliver(DeliverAll(hs), h)
  {
    assert (hs + [h])[..|hs|] == hs;
  }

  /** Taking over, a turn is the one under way, from its start on. */
  ghost predicate UnderWay(w: Watch, v: Watch, turn: nat, number: Option<nat>, heard: seq<Heard>) {
    && v.current == Some(turn) && v.currentNumber == number && (number.Some? ==> v.newest == number.value)
    && v.sent == w.sent + heard && v.since == |w.sent| && v.ended == w.ended
  }

  lemma TurnBegins(front: seq<Heard>, h: Heard)
    requires Streams(h.frame) && !TurnStarted(front, h.turn)
    requires NoneHigher(front, h.number)
    ensures UnderWay(DeliverAll(front), DeliverAll(front + [h]), h.turn, h.number, [h])
  {
    RunOnlyStarted(front);
    DeliverThen(front, h);
  }

  lemma GoesOn(w: Watch, v: Watch, turn: nat, number: Option<nat>, heard: seq<Heard>, h: Heard)
    requires UnderWay(w, v, turn, number, heard) && !Cuts(h, turn, number)
    ensures UnderWay(w, Deliver(v, h), turn, number, heard + if h.turn == turn then [h] else [])
  {
    assert heard + [] == heard;
  }

  lemma {:induction false} TurnGoesOn(front: seq<Heard>, h: Heard, rest: seq<Heard>)
    requires Streams(h.frame) && !TurnStarted(front, h.turn) && Uncut(rest, h.turn, h.number)
    requires NoneHigher(front, h.number)
    ensures UnderWay(DeliverAll(front), DeliverAll(front + [h] + rest), h.turn, h.number, [h] + OfTurn(rest, h.turn))
  {
    if rest == [] {
      TurnBegins(front, h);
      assert front + [h] + rest == front + [h] && [h] + OfTurn(rest, h.turn) == [h];
    } else {
      var before, last := rest[..|rest| - 1], rest[|rest| - 1];
      assert last in rest && forall x | x in before :: x in rest;
      TurnGoesOn(front, h, before);
      assert front + [h] + rest == front + [h] + before + [last];
      DeliverThen(front + [h] + before, last);
      var heard := [h] + OfTurn(before, h.turn);
      GoesOn(DeliverAll(front), DeliverAll(front + [h] + before), h.turn, h.number, heard, last);
      assert heard + (if last.turn == h.turn then [last] else []) == [h] + OfTurn(rest, h.turn);
    }
  }

  /**
   * From a turn's start, if its number is no lower than any started, exactly its frames are passed on, each of them
   * and in order, until its end or the start of a turn with no lower number.
   */
  lemma {:induction false} TurnIsHeard(front: seq<Heard>, h: Heard, rest: seq<Heard>)
    requires Streams(h.frame) && !TurnStarted(front, h.turn) && Uncut(rest, h.turn, h.number)
    requires NoneHigher(front, h.number)
    ensures var w := DeliverAll(front + [h] + rest);
            w.sent == DeliverAll(front).sent + [h] + OfTurn(rest, h.turn)
            && w.live && w.shown == Shown([h.frame] + FramesOf(OfTurn(rest, h.turn)))
  {
    TurnGoesOn(front, h, rest);
    DeliverAllValid(front + [h] + rest);
    SentSince(DeliverAll(front).sent, h, OfTurn(rest, h.turn));
  }

  lemma SentSince(sent: seq<Heard>, h: Heard, more: seq<Heard>)
    ensures var all := sent + ([h] + more);
            all == sent + [h] + more && FramesOf(all[|sent|..]) == [h.frame] + FramesOf(more)
  {
    assert (sent + ([h] + more))[|sent|..] == [h] + more;
    assert FramesOf([h] + more) == [h.frame] + FramesOf(more);
  }

  /**
   * Its end is passed on too, and a numbered turn is kept whole for a poll that missed it: the last of at most five.
   */
  lemma {:induction false} TurnIsKept(front: seq<Heard>, h: Heard, rest: seq<Heard>, end: Heard)
    requires Streams(h.frame) && !TurnStarted(front, h.turn) && Uncut(rest, h.turn, h.number)
    requires NoneHigher(front, h.number)
    requires end.turn == h.turn && end.frame.Released?
    ensures var v, w := DeliverAll(front), DeliverAll(front + [h] + rest + [end]);
            && w.sent == v.sent + [h] + OfTurn(rest, h.turn) + [end] && !w.live
            && (h.number.None? ==> w.ended == v.ended)
            && (h.number.Some? ==>
                  && w.ended != []
                  && w.ended[|w.ended| - 1] ==
                     Ended(h.number.value, Shown([h.frame] + FramesOf(OfTurn(rest, h.turn)) + [end.frame]))
                  && w.ended[..|w.ended| - 1] == if |v.ended| < 5 then v.ended else v.ended[|v.ended| - 4..])
  {
    TurnGoesOn(front, h, rest);
    TurnIsHeard(front, h, rest);
    DeliverThen(front + [h] + rest, end);
    ShownPush([h.frame] + FramesOf(OfTurn(rest, h.turn)), end.frame);
    var v, w := DeliverAll(front), DeliverAll(front + [h] + rest + [end]);
    if h.number.Some? {
      LastFive(v.ended, Ended(h.number.value, Shown([h.frame] + FramesOf(OfTurn(rest, h.turn)) + [end.frame])));
    }
  }

  lemma LastFive(ended: seq<Ended>, e: Ended)
    ensures var kept := LastEnded(ended + [e]);
            && kept != [] && kept[|kept| - 1] == e
            && kept[..|kept| - 1] == if |ended| < 5 then ended else ended[|ended| - 4..]
  {}

  // ── in place ───────────────────────────────────────────────────────

  lemma {:induction false} StartOfIs(s: seq<Frame>, id: string, i: nat)
    requires i <= |s| && (forall k | 0 <= k < i :: !(s[k].Starts? && s[k].id == id))
             && (i < |s| ==> s[i].Starts? && s[i].id == id)
    ensures StartOf(s, id) == i
  {
    if i > 0 { StartOfIs(s[1..], id, i - 1); }
  }

  lemma {:induction false} OpenOfIs(s: seq<Frame>, h: nat, i: nat)
    requires i <= |s| && (forall k | 0 <= k < i :: !(s[k].Opens? && s[k].handle == h))
             && (i < |s| ==> s[i].Opens? && s[i].handle == h)
    ensures OpenOf(s, h) == i
  {
    if i > 0 { OpenOfIs(s[1..], h, i - 1); }
  }

  lemma WithoutAt(s: seq<Frame>, i: nat, h: nat)
    requires i < |s|
    ensures WithoutProps(s[i..], h) == (if s[i].Props? && s[i].handle == h then [] else [s[i]])
            + WithoutProps(s[i + 1..], h)
  {
    assert s[i..] == [s[i]] + s[i + 1..];
  }

  /** The frame before those gone through goes, or stays. */
  lemma SplicedAt(s: seq<Frame>, i: nat, h: nat)
    requires i < |s|
    ensures var t := s[..i + 1] + WithoutProps(s[i + 1..], h);
            && i < |t| && t[i] == s[i]
            && (if s[i].Props? && s[i].handle == h then t[..i] + t[i + 1..] else t)
               == s[..i] + WithoutProps(s[i..], h)
  {
    WithoutAt(s, i, h);
    Spliced(s[..i], s[i], WithoutProps(s[i + 1..], h));
    assert s[..i + 1] == s[..i] + [s[i]];
  }

  lemma Spliced(a: seq<Frame>, f: Frame, b: seq<Frame>)
    ensures var t := a + [f] + b;
            |a| < |t| && t[|a|] == f && t[..|a|] + t[|a| + 1..] == a + b && t == a + ([f] + b) && a + ([] + b) == a + b
  {}

  class Watchers {
    var current: Option<nat>
    var currentNumber: Option<nat>
    var newest: nat
    var live: bool
    var shown: seq<Frame>
    var ended: seq<Ended>
    ghost var sent: seq<Heard>
    ghost var since: nat

    ghost function View(): Watch
      reads this
    {
      Watch(current, currentNumber, newest, live, shown, ended, sent, since)
    }

    constructor ()
      ensures View() == NEW_WATCH
    {
      current, currentNumber, newest, live, shown, ended := None, None, 0, false, [], [];
      sent, since := [], 0;
    }

    method FindStart(id: string) returns (i: nat)
      ensures i == StartOf(shown, id)
    {
      i := 0;
      while i < |shown| && !(shown[i].Starts? && shown[i].id == id)
        invariant i <= |shown| && forall k | 0 <= k < i :: !(shown[k].Starts? && shown[k].id == id)
      {
        i := i + 1;
      }
      StartOfIs(shown, id, i);
    }

    method FindOpen(h: nat) returns (i: nat)
      ensures i == OpenOf(shown, h)
    {
      i := 0;
      while i < |shown| && !(shown[i].Opens? && shown[i].handle == h)
        invariant i <= |shown| && forall k | 0 <= k < i :: !(shown[k].Opens? && shown[k].handle == h)
      {
        i := i + 1;
      }
      OpenOfIs(shown, h, i);
    }

    /** Splice out the old props, from the end. */
    method DropProps(h: nat)
      modifies this`shown
      ensures shown == WithoutProps(old(shown), h)
    {
      ghost var was := shown;
      var i := |shown|;
      assert was[i..] == [];
      while i > 0
        invariant i <= |shown| && shown == was[..i] + WithoutProps(was[i..], h) && i <= |was|
      {
        i := i - 1;
        SplicedAt(was, i, h);
        if shown[i].Props? && shown[i].handle == h { shown := shown[..i] + shown[i + 1..]; }
      }
      assert was[0..] == was;
    }

    /** Fold a frame into what the turn has shown so far. */
    method Fold(f: Frame)
      modifies this`shown
      ensures shown == Remember(old(shown), f)
    {
      if f.Delta? || f.Updates? || f.Progresses? {
        var i := FindStart(f.id);
        if i < |shown| { shown := shown[i := shown[i].(body := Edited(shown[i].body, f))]; }
      } else if f.Opens? && f.revises.Some? {
        var i := FindOpen(f.revises.value);
        if i < |shown| {
          var before := shown[i];
          var earlier := before.also + match before.revises case Some(r) => [r] case None => [];
          shown := shown[i := f.(toolId := before.toolId, also := if earlier == [] then f.also else earlier)];
          DropProps(f.revises.value);
        } else {
          shown := shown + [f];
        }
      } else {
        shown := shown + [f];
      }
    }

    /** Hear a frame: is it passed on? */
    method Hear(f: Frame, turn: nat, number: Option<nat>) returns (passed: bool)
      modifies this
      ensures View() == Deliver(old(View()), Heard(f, turn, number))
      ensures passed == (sent != old(sent))
    {
      if f == StatusIs("streaming") {
        if current != Some(turn) {
          if number.Some? && number.value < newest { return false; }
          current, currentNumber := Some(turn), number;
          if number.Some? { newest := number.value; }
          live, shown, since := true, [], |sent|;
        }
      } else if current != Some(turn) {
        return false;
      }
      Fold(f);
      sent := sent + [Heard(f, turn, number)];
      if f.Released? {
        if currentNumber.Some? { ended := LastEnded(ended + [Ended(currentNumber.value, shown)]); }
        current, live, shown, since := None, false, [], |sent|;
      }
      passed := true;
    }
  }
}
