/** A message over NOTIFY: split into bounded pieces, and put back together from whatever arrives. */
module Chunking {
  import opened History
  import opened Base64

  const PIECE := 7000
  const MAX_PIECES := 10000
  const MAX_PUBLISH_BYTES := PIECE * MAX_PIECES * 3 / 4

  /** One NOTIFY: the conversation, the message, and which piece of how many. */
  datatype Datagram = Datagram(conversation: nat, id: nat, index: int, count: int, piece: string)

  // ── publishing ─────────────────────────────────────────────────────

  function CountOf(length: nat): nat { if length == 0 then 1 else (length + PIECE - 1) / PIECE }

  function PieceOf(encoded: string, i: nat): string {
    var from, to := i * PIECE, (i + 1) * PIECE;
    if |encoded| <= from then "" else if |encoded| <= to then encoded[from..] else encoded[from..to]
  }

  /** The pieces `publish` sends; None for a message too long to publish. */
  function Published(conversation: nat, id: nat, bytes: seq<Byte>): Option<seq<Datagram>> {
    if |bytes| > MAX_PUBLISH_BYTES then None
    else
      var encoded := Encode(bytes);
      var count := CountOf(|encoded|);
      Some(seq(count, i requires 0 <= i < count => Datagram(conversation, id, i, count, PieceOf(encoded, i))))
  }

  /** The limit on a message is exactly the limit on its pieces. */
  lemma LimitIsTight(bytes: seq<Byte>)
    ensures |bytes| <= MAX_PUBLISH_BYTES <==> CountOf(|Encode(bytes)|) <= MAX_PIECES
  {}

  /** Whatever is published fits: its pieces are few and small enough, and ASCII. */
  lemma PiecesFit(conversation: nat, id: nat, bytes: seq<Byte>)
    requires Published(conversation, id, bytes).Some?
    ensures var ps := Published(conversation, id, bytes).value;
            1 <= |ps| <= MAX_PIECES && forall i | 0 <= i < |ps| ::
              |ps[i].piece| <= PIECE && ps[i].index == i && ps[i].count == |ps|
  {
    LimitIsTight(bytes);
  }

  function Joined(pieces: seq<string>): string {
    if pieces == [] then "" else Joined(pieces[..|pieces| - 1]) + pieces[|pieces| - 1]
  }

  function Cut(encoded: string, k: nat): seq<string> { seq(k, i requires 0 <= i < k => PieceOf(encoded, i)) }

  lemma {:induction false} CutJoins(encoded: string, k: nat)
    ensures Joined(Cut(encoded, k)) == if k * PIECE <= |encoded| then encoded[..k * PIECE] else encoded
  {
    if k > 0 {
      assert Cut(encoded, k)[..k - 1] == Cut(encoded, k - 1);
      CutJoins(encoded, k - 1);
    }
  }

  /** Together the pieces are the encoding. */
  lemma PiecesJoin(encoded: string)
    ensures Joined(Cut(encoded, CountOf(|encoded|))) == encoded
  {
    CutJoins(encoded, CountOf(|encoded|));
  }

  // ── hearing ────────────────────────────────────────────────────────

  datatype Entry = Entry(pieces: seq<Option<string>>, got: nat)

  /** `heard` is every message put back together, with the id its pieces came under: a history variable. */
  datatype Heard = Heard(id: nat, conversation: nat, bytes: seq<Byte>)

  datatype Ear = Ear(hearing: set<nat>, partial: map<nat, Entry>, heard: seq<Heard>)

  function NewEntry(n: nat): Entry { Entry(seq(n, _ => None), 0) }

  /** An array's join: what was never set is nothing. */
  function TextOf(pieces: seq<Option<string>>): string {
    if pieces == [] then ""
    else TextOf(pieces[..|pieces| - 1]) + match pieces[|pieces| - 1] case Some(p) => p case None => ""
  }

  predicate HoldsTogether(d: Datagram) { 1 <= d.count <= MAX_PIECES && 0 <= d.index < d.count }

  function EntryFor(e: Ear, d: Datagram): Entry
    requires HoldsTogether(d)
  {
    if d.id in e.partial then e.partial[d.id] else NewEntry(d.count)
  }

  function Filled(entry: Entry, i: nat, piece: string): Entry
    requires i < |entry.pieces|
  {
    Entry(entry.pieces[i := Some(piece)], if entry.pieces[i].None? then entry.got + 1 else entry.got)
  }

  function OnTurn(e: Ear, d: Datagram): Ear {
    if d.conversation !in e.hearing || !HoldsTogether(d) || |EntryFor(e, d).pieces| != d.count then e
    else
      var entry := Filled(EntryFor(e, d), d.index, d.piece);
      if entry.got < d.count then e.(partial := e.partial[d.id := entry])
      else
        match Decode(TextOf(entry.pieces))
        case None => e.(partial := e.partial - {d.id})
        case Some(bytes) => e.(partial := e.partial - {d.id}, heard := e.heard + [Heard(d.id, d.conversation, bytes)])
  }

  function OnTurns(e: Ear, ds: seq<Datagram>): Ear {
    if ds == [] then e else OnTurn(OnTurns(e, ds[..|ds| - 1]), ds[|ds| - 1])
  }

  /** What reaches an ear: a piece, or the time by which a message's first piece should have been joined by the rest. */
  datatype Arrival = Piece(datagram: Datagram) | Expiry(id: nat)

  function Hears(e: Ear, x: Arrival): Ear {
    match x
    case Piece(d) => OnTurn(e, d)
    case Expiry(id) => e.(partial := e.partial - {id})
  }

  function HearsAll(e: Ear, xs: seq<Arrival>): Ear {
    if xs == [] then e else Hears(HearsAll(e, xs[..|xs| - 1]), xs[|xs| - 1])
  }

  // ── one message among others ───────────────────────────────────────

  function Own(xs: seq<Arrival>, id: nat): seq<Datagram> {
    if xs == [] then []
    else
      var x := xs[|xs| - 1];
      Own(xs[..|xs| - 1], id) + if x.Piece? && x.datagram.id == id then [x.datagram] else []
  }

  function HeardAs(heard: seq<Heard>, id: nat): seq<Heard> {
    if heard == [] then [] else HeardAs(heard[..|heard| - 1], id) + if heard[|heard| - 1].id == id
      then [heard[|heard| - 1]] else []
  }

  /** What an ear holds of one message. */
  ghost predicate Alike(e: Ear, f: Ear, id: nat) {
    && e.hearing == f.hearing && (id in e.partial <==> id in f.partial)
       && (id in e.partial ==> e.partial[id] == f.partial[id])
    && HeardAs(e.heard, id) == HeardAs(f.heard, id)
  }

  lemma HeardPush(heard: seq<Heard>, h: Heard, id: nat)
    ensures HeardAs(heard + [h], id) == HeardAs(heard, id) + if h.id == id then [h] else []
  {
    assert (heard + [h])[..|heard|] == heard;
  }

  lemma OtherMessage(e: Ear, d: Datagram, id: nat)
    requires d.id != id
    ensures Alike(OnTurn(e, d), e, id)
  {
    var f := OnTurn(e, d);
    assert f.hearing == e.hearing && (id in f.partial <==> id in e.partial)
           && (id in e.partial ==> f.partial[id] == e.partial[id]);
    if f.heard != e.heard { HeardPush(e.heard, f.heard[|e.heard|], id); }
  }

  lemma SameMessage(e: Ear, f: Ear, d: Datagram)
    requires Alike(e, f, d.id)
    ensures Alike(OnTurn(e, d), OnTurn(f, d), d.id)
  {
    if OnTurn(e, d).heard != e.heard {
      HeardPush(e.heard, OnTurn(e, d).heard[|e.heard|], d.id);
      HeardPush(f.heard, OnTurn(f, d).heard[|f.heard|], d.id);
    }
  }

  lemma OtherExpiry(e: Ear, id: nat, other: nat)
    requires other != id
    ensures Alike(Hears(e, Expiry(other)), e, id)
  {}

  lemma OwnPush(front: seq<Arrival>, x: Arrival, id: nat)
    ensures Own(front + [x], id) == Own(front, id) + if x.Piece? && x.datagram.id == id then [x.datagram] else []
  {
    assert (front + [x])[..|front|] == front;
  }

  lemma OnTurnsPush(e: Ear, ds: seq<Datagram>, d: Datagram)
    ensures OnTurns(e, ds + [d]) == OnTurn(OnTurns(e, ds), d)
  {
    assert (ds + [d])[..|ds|] == ds;
  }

  lemma AlikeTrans(e: Ear, f: Ear, g: Ear, id: nat)
    requires Alike(e, f, id) && Alike(f, g, id)
    ensures Alike(e, g, id)
  {}

  lemma NextOwn(e: Ear, f: Ear, own: seq<Datagram>, x: Arrival, id: nat)
    requires Alike(f, OnTurns(e, own), id) && x != Expiry(id)
    ensures Alike(Hears(f, x), OnTurns(e, own + if x.Piece? && x.datagram.id == id then [x.datagram] else []), id)
  {
    if x.Piece? && x.datagram.id == id {
      OnTurnsPush(e, own, x.datagram);
      SameMessage(f, OnTurns(e, own), x.datagram);
    } else {
      assert own + [] == own;
      if x.Piece? { OtherMessage(f, x.datagram, id); } else { OtherExpiry(f, id, x.id); }
      AlikeTrans(Hears(f, x), f, OnTurns(e, own), id);
    }
  }

  /** What arrives of other messages in between changes nothing, nor that they expire. */
  lemma {:induction false} OnlyOwn(e: Ear, xs: seq<Arrival>, id: nat)
    requires Expiry(id) !in xs
    ensures Alike(HearsAll(e, xs), OnTurns(e, Own(xs, id)), id)
  {
    if xs != [] {
      var front, x := xs[..|xs| - 1], xs[|xs| - 1];
      assert xs == front + [x];
      OnlyOwn(e, front, id);
      OwnPush(front, x, id);
      NextOwn(e, HearsAll(e, front), Own(front, id), x, id);
    }
  }

  // ── put back together ──────────────────────────────────────────────

  /** The numbers below `n`. */
  function Upto(n: nat): (s: set<nat>)
    ensures |s| == n && forall i: nat :: i in s <==> i < n
  {
    if n == 0 then {} else Upto(n - 1) + {n - 1}
  }

  lemma SubsetSize(a: set<nat>, b: set<nat>)
    requires a <= b
    ensures |a| <= |b| && (|a| == |b| ==> a == b)
  {
    assert b == a + (b - a);
    assert |b| == |a| + |b - a|;
  }

  /** The pieces of the message that have arrived are all there, and no others. */
  ghost predicate Rebuilding(e: Ear, conversation: nat, id: nat, parts: seq<string>, arrived: set<nat>) {
    && conversation in e.hearing && arrived < Upto(|parts|)
    && (arrived == {} ==> id !in e.partial)
    && (arrived != {} ==>
          && id in e.partial && e.partial[id].got == |arrived| && |e.partial[id].pieces| == |parts|
          && forall i: nat | i < |parts| :: e.partial[id].pieces[i] == if i in arrived then Some(parts[i]) else None)
  }

  lemma {:induction false} TextJoins(pieces: seq<Option<string>>, parts: seq<string>)
    requires |pieces| == |parts| && forall i | 0 <= i < |parts| :: pieces[i] == Some(parts[i])
    ensures TextOf(pieces) == Joined(parts)
  {
    if parts != [] { TextJoins(pieces[..|pieces| - 1], parts[..|parts| - 1]); }
  }

  lemma EntryOf(e: Ear, conversation: nat, id: nat, parts: seq<string>, arrived: set<nat>, d: Datagram)
    requires Rebuilding(e, conversation, id, parts, arrived) && HoldsTogether(d) && d.id == id && d.count == |parts|
    ensures var entry := EntryFor(e, d);
            entry.got == |arrived| && |entry.pieces| == |parts|
            && forall i: nat | i < |parts| :: entry.pieces[i] == if i in arrived then Some(parts[i]) else None
  {}

  /** A piece that is not the last to come. */
  lemma NextPiece(e: Ear, conversation: nat, id: nat, parts: seq<string>, arrived: set<nat>, i: nat)
    requires Rebuilding(e, conversation, id, parts, arrived) && i < |parts| <= MAX_PIECES && i !in arrived
             && arrived + {i} < Upto(|parts|)
    ensures var f := OnTurn(e, Datagram(conversation, id, i, |parts|, parts[i]));
            Rebuilding(f, conversation, id, parts, arrived + {i}) && f.heard == e.heard
  {
    var d := Datagram(conversation, id, i, |parts|, parts[i]);
    EntryOf(e, conversation, id, parts, arrived, d);
    SubsetSize(arrived + {i}, Upto(|parts|));
    assert |arrived + {i}| != |Upto(|parts|)|;
    FilledIs(EntryFor(e, d), parts, arrived, i);
    assert OnTurn(e, d) == e.(partial := e.partial[id := Filled(EntryFor(e, d), i, parts[i])]);
  }

  lemma FilledIs(entry: Entry, parts: seq<string>, arrived: set<nat>, i: nat)
    requires entry.got == |arrived| && |entry.pieces| == |parts| && i < |parts| && i !in arrived
    requires forall j: nat | j < |parts| :: entry.pieces[j] == if j in arrived then Some(parts[j]) else None
    ensures var filled := Filled(entry, i, parts[i]);
            && filled.got == |arrived + {i}| && |filled.pieces| == |parts|
            && forall j: nat | j < |parts| :: filled.pieces[j] == if j in arrived + {i} then Some(parts[j]) else None
  {}

  /** The last piece to come. */
  lemma LastPiece(e: Ear, conversation: nat, id: nat, parts: seq<string>, arrived: set<nat>, i: nat, bytes: seq<Byte>)
    requires Rebuilding(e, conversation, id, parts, arrived) && i < |parts| <= MAX_PIECES && i !in arrived
             && arrived + {i} == Upto(|parts|)
    requires Decode(Joined(parts)) == Some(bytes)
    ensures var f := OnTurn(e, Datagram(conversation, id, i, |parts|, parts[i]));
            id !in f.partial && f.heard == e.heard + [Heard(id, conversation, bytes)]
  {
    var d := Datagram(conversation, id, i, |parts|, parts[i]);
    EntryOf(e, conversation, id, parts, arrived, d);
    var pieces := EntryFor(e, d).pieces[i := Some(parts[i])];
    forall j | 0 <= j < |parts| ensures pieces[j] == Some(parts[j]) { assert j in Upto(|parts|); }
    TextJoins(pieces, parts);
  }

  // ── any order, among anything else ─────────────────────────────────

  /** The indices of the first `k`. */
  function Arrived(own: seq<Datagram>, k: nat): set<nat>
    requires k <= |own| && forall d | d in own :: d.index >= 0
  {
    if k == 0 then {} else Arrived(own, k - 1) + {own[k - 1].index}
  }

  /** The pieces of one message, each once, in any order. */
  ghost predicate Shuffled(own: seq<Datagram>, ps: seq<Datagram>) { multiset(own) == multiset(ps) }

  lemma ShuffledIs(own: seq<Datagram>, ps: seq<Datagram>)
    requires Shuffled(own, ps) && forall i | 0 <= i < |ps| :: ps[i].index == i
    ensures |own| == |ps|
    ensures forall k | 0 <= k < |own| :: 0 <= own[k].index < |ps| && own[k] == ps[own[k].index]
    ensures forall j, k | 0 <= j < k < |own| :: own[j].index != own[k].index
  {
    assert |multiset(own)| == |own| && |multiset(ps)| == |ps|;
    forall k | 0 <= k < |own| ensures 0 <= own[k].index < |ps| && own[k] == ps[own[k].index] {
      assert own[k] in multiset(ps);
      var i :| 0 <= i < |ps| && ps[i] == own[k];
    }
    forall j, k | 0 <= j < k < |own| ensures own[j].index != own[k].index {
      if own[j].index == own[k].index { TwiceIn(own, j, k); OnceIn(ps, own[j].index); }
    }
  }

  lemma TwiceIn(own: seq<Datagram>, j: nat, k: nat)
    requires j < k < |own| && own[j] == own[k]
    ensures multiset(own)[own[j]] >= 2
  {
    assert own == own[..j] + [own[j]] + own[j + 1..k] + [own[k]] + own[k + 1..];
  }

  lemma OnceIn(ps: seq<Datagram>, i: nat)
    requires i < |ps| && forall k | 0 <= k < |ps| :: ps[k].index == k
    ensures multiset(ps)[ps[i]] == 1
  {
    assert ps == ps[..i] + [ps[i]] + ps[i + 1..];
    assert ps[i] !in ps[..i] && ps[i] !in ps[i + 1..];
  }

  /** No index comes twice. */
  ghost predicate Separate(own: seq<Datagram>) { forall i, j | 0 <= i < j < |own| :: own[i].index != own[j].index }

  lemma {:induction false} ArrivedSize(own: seq<Datagram>, k: nat, n: nat)
    requires k <= |own| && (forall d | d in own :: 0 <= d.index < n)
             && Separate(own)
    ensures |Arrived(own, k)| == k && Arrived(own, k) <= Upto(n)
    ensures forall j | k <= j < |own| :: own[j].index !in Arrived(own, k)
  {
    if k > 0 {
      ArrivedSize(own, k - 1, n);
      assert own[k - 1].index in Upto(n);
    }
  }

  /** The message's own arrivals: each one of its pieces, and each piece once. */
  ghost predicate PiecesOf(own: seq<Datagram>, conversation: nat, id: nat, parts: seq<string>) {
    && 0 < |parts| == |own| <= MAX_PIECES
    && (forall i | 0 <= i < |own| ::
       0 <= own[i].index < |parts| && own[i] == Datagram(conversation, id, own[i].index, |parts|, parts[own[i].index]))
    && Separate(own)
  }

  /** After the first `k` of them, all but the last. */
  ghost predicate RebuildingAt(e: Ear, conversation: nat, id: nat, parts: seq<string>, own: seq<Datagram>, k: nat)
    requires k <= |own| && PiecesOf(own, conversation, id, parts)
  {
    var f := OnTurns(e, own[..k]); Rebuilding(f, conversation, id, parts, Arrived(own, k)) && f.heard == e.heard
  }

  lemma OnTurnsNext(e: Ear, own: seq<Datagram>, k: nat)
    requires k < |own|
    ensures OnTurns(e, own[..k + 1]) == OnTurn(OnTurns(e, own[..k]), own[k])
  {
    assert own[..k + 1][..k] == own[..k];
  }

  lemma ArrivedNext(own: seq<Datagram>, k: nat, n: nat)
    requires k < |own| && (forall d | d in own :: 0 <= d.index < n)
             && Separate(own)
    ensures own[k].index !in Arrived(own, k) && Arrived(own, k + 1) == Arrived(own, k) + {own[k].index}
    ensures k + 1 < n ==> Arrived(own, k + 1) < Upto(n)
    ensures k + 1 == n ==> Arrived(own, k + 1) == Upto(n)
  {
    ArrivedSize(own, k, n);
    ArrivedSize(own, k + 1, n);
    SubsetSize(Arrived(own, k + 1), Upto(n));
    if k + 1 < n {
      assert |Arrived(own, k + 1)| != |Upto(n)|;
      assert Arrived(own, k + 1) != Upto(n);
    }
  }

  lemma RebuildingNext(e: Ear, conversation: nat, id: nat, parts: seq<string>, own: seq<Datagram>, k: nat)
    requires PiecesOf(own, conversation, id, parts) && k + 1 < |own| && RebuildingAt(e, conversation, id, parts, own, k)
    ensures RebuildingAt(e, conversation, id, parts, own, k + 1)
  {
    OnTurnsNext(e, own, k);
    ArrivedNext(own, k, |parts|);
    NextPiece(OnTurns(e, own[..k]), conversation, id, parts, Arrived(own, k), own[k].index);
  }

  lemma {:induction false} RebuildsUpTo(e: Ear, conversation: nat, id: nat, parts: seq<string>, own: seq<Datagram>,
    k: nat)
    requires PiecesOf(own, conversation, id, parts) && k < |own| && conversation in e.hearing && id !in e.partial
    ensures RebuildingAt(e, conversation, id, parts, own, k)
  {
    if k == 0 {
      RebuildingFirst(e, conversation, id, parts, own);
    } else {
      RebuildsUpTo(e, conversation, id, parts, own, k - 1);
      RebuildingNext(e, conversation, id, parts, own, k - 1);
    }
  }

  lemma RebuildingFirst(e: Ear, conversation: nat, id: nat, parts: seq<string>, own: seq<Datagram>)
    requires PiecesOf(own, conversation, id, parts) && conversation in e.hearing && id !in e.partial
    ensures RebuildingAt(e, conversation, id, parts, own, 0)
  {
    assert own[..0] == [] && Arrived(own, 0) == {};
    assert 0 in Upto(|parts|);
  }

  lemma RebuiltAfter(e: Ear, conversation: nat, id: nat, parts: seq<string>, own: seq<Datagram>, bytes: seq<Byte>)
    requires conversation in e.hearing && id !in e.partial && PiecesOf(own, conversation, id, parts)
             && Decode(Joined(parts)) == Some(bytes)
    ensures var f := OnTurns(e, own); id !in f.partial && f.heard == e.heard + [Heard(id, conversation, bytes)]
  {
    var k := |own| - 1;
    RebuildsUpTo(e, conversation, id, parts, own, k);
    ArrivedNext(own, k, |parts|);
    OnTurnsNext(e, own, k);
    assert own[..k + 1] == own;
    LastPiece(OnTurns(e, own[..k]), conversation, id, parts, Arrived(own, k), own[k].index, bytes);
  }

  lemma OwnAre(own: seq<Datagram>, conversation: nat, id: nat, bytes: seq<Byte>)
    requires Published(conversation, id, bytes).Some? && Shuffled(own, Published(conversation, id, bytes).value)
    ensures var parts := Cut(Encode(bytes), CountOf(|Encode(bytes)|));
            PiecesOf(own, conversation, id, parts) && Decode(Joined(parts)) == Some(bytes)
  {
    PiecesFit(conversation, id, bytes);
    PiecesJoin(Encode(bytes));
    RoundTrip(bytes);
    ShuffledIs(own, Published(conversation, id, bytes).value);
  }

  /**
   * Whatever is published is put back together exactly, once, by whoever is hearing, in whatever order its pieces
   * come, and whatever else arrives or expires between them, so long as it does not itself expire first.
   */
  lemma {:induction false} HeardExactlyOnce(e: Ear, xs: seq<Arrival>, conversation: nat, id: nat, bytes: seq<Byte>)
    requires conversation in e.hearing && id !in e.partial && Expiry(id) !in xs
    requires Published(conversation, id, bytes).Some?
             && Shuffled(Own(xs, id), Published(conversation, id, bytes).value)
    ensures var f := HearsAll(e, xs);
            id !in f.partial && HeardAs(f.heard, id) == HeardAs(e.heard, id) + [Heard(id, conversation, bytes)]
  {
    OwnAre(Own(xs, id), conversation, id, bytes);
    RebuiltAfter(e, conversation, id, Cut(Encode(bytes), CountOf(|Encode(bytes)|)), Own(xs, id), bytes);
    OnlyOwn(e, xs, id);
    HeardPush(e.heard, Heard(id, conversation, bytes), id);
  }

  // ── in place ───────────────────────────────────────────────────────

  class Listening {
    var hearing: set<nat>
    var partial: map<nat, Entry>
    var heard: seq<Heard>

    ghost function View(): Ear
      reads this
    {
      Ear(hearing, partial, heard)
    }

    constructor ()
      ensures View() == Ear({}, map[], [])
    {
      hearing, partial, heard := {}, map[], [];
    }

    /** The array's join. */
    method JoinAll(pieces: seq<Option<string>>) returns (text: string)
      ensures text == TextOf(pieces)
    {
      text := "";
      var i := 0;
      while i < |pieces|
        invariant i <= |pieces| && text == TextOf(pieces[..i])
      {
        assert pieces[..i + 1][..i] == pieces[..i];
        if pieces[i].Some? { text := text + pieces[i].value; }
        i := i + 1;
      }
      assert pieces[..|pieces|] == pieces;
    }

    /** A piece arrives: one that does not hold together is dropped. */
    method Receive(d: Datagram)
      modifies this`partial, this`heard
      ensures View() == Hears(old(View()), Piece(d))
    {
      if d.conversation !in hearing { return; }
      if d.count < 1 || d.count > MAX_PIECES || d.index < 0 || d.index >= d.count { return; }
      var entry := if d.id in partial then partial[d.id] else NewEntry(d.count);
      if |entry.pieces| != d.count { return; }
      var got := if entry.pieces[d.index].None? then entry.got + 1 else entry.got;
      entry := Entry(entry.pieces[d.index := Some(d.piece)], got);
      if got < d.count {
        partial := partial[d.id := entry];
        return;
      }
      partial := partial - {d.id};
      var text := JoinAll(entry.pieces);
      match Decode(text)
      case None =>
      case Some(bytes) => heard := heard + [Heard(d.id, d.conversation, bytes)];
    }

    /** A message whose other pieces never came is given up on. */
    method Expire(id: nat)
      modifies this`partial
      ensures View() == Hears(old(View()), Expiry(id))
    {
      partial := partial - {id};
    }
  }
}
