/** Transcript order: notices stay beside the surface they name, in the order they were sent, whatever arrives when. */
module TranscriptOrder {
  import opened History
  import opened Conversations
  import opened Orders
  import opened Transcripts

  /** Those of `s` that name the surface now at `h`. */
  function Of(s: seq<Item>, links: map<Handle, Handle>, h: Handle): seq<Item> {
    if s == [] then []
    else
      (if Naming(s[0]) && Current(links, s[0].note.names.value) == h then [s[0]] else []) + Of(s[1..], links, h)
  }

  ghost predicate Ascending(notices: seq<Note>) {
    forall i, j | 0 <= i < j < |notices| :: notices[i].number < notices[j].number
  }

  /** The transcript and the records agree: one block each, and every notice sent has one. */
  ghost predicate Consistent(c: Client) {
    && Once(c.order)
    && (forall h :: U(h) in c.order <==> h in c.surfaces)
    && c.rows.Keys == c.surfaces.Keys
    && (forall id :: B(id) in c.order <==> id in c.bodies)
    && (forall n :: N(n) in c.order <==> n in c.notices)
    && Ascending(c.notices)
    && Upward(c.replacedBy)
  }

  /**
   * The notices naming any revision of a shown surface follow its block, all of them, in order, with only naming ones
   * between.
   */
  ghost predicate InOrder(c: Client) {
    forall h | h in c.surfaces :: Of(Beside(c.order, h), c.replacedBy, h) == Named(c.notices, c.replacedBy, h)
  }

  /** A revision is issued later than every handle it revises. */
  predicate Issues(f: Frame) { f.Opens? ==> forall k | k in Family(f) :: k <= f.handle }

  // ── filters ────────────────────────────────────────────────────────

  lemma {:induction false} OfConcat(a: seq<Item>, b: seq<Item>, links: map<Handle, Handle>, h: Handle)
    ensures Of(a + b, links, h) == Of(a, links, h) + Of(b, links, h)
  {
    if a == [] {
      assert a + b == b;
    } else {
      assert (a + b)[1..] == a[1..] + b;
      OfConcat(a[1..], b, links, h);
    }
  }

  lemma {:induction false} OfNone(s: seq<Item>, links: map<Handle, Handle>, h: Handle)
    requires forall x | x in s && Naming(x) :: Current(links, x.note.names.value) != h
    ensures Of(s, links, h) == []
  {
    if s != [] { assert s[0] in s; OfNone(s[1..], links, h); }
  }

  lemma {:induction false} OfAll(s: seq<Item>, links: map<Handle, Handle>, h: Handle)
    requires forall x | x in s :: Naming(x) && Current(links, x.note.names.value) == h
    ensures Of(s, links, h) == s
  {
    if s != [] { assert s[0] in s; OfAll(s[1..], links, h); }
  }

  /** Taking out what names another surface. */
  lemma {:induction false} OfRemove(s: seq<Item>, gone: set<Item>, links: map<Handle, Handle>, h: Handle)
    requires forall x | x in gone :: Naming(x) && Current(links, x.note.names.value) != h
    ensures Of(Remove(s, gone), links, h) == Of(s, links, h)
  {
    if s != [] {
      assert s == [s[0]] + s[1..];
      RemoveHead(s[0], s[1..], gone);
      OfRemove(s[1..], gone, links, h);
      if s[0] !in gone { assert ([s[0]] + Remove(s[1..], gone))[1..] == Remove(s[1..], gone); }
    }
  }

  /** When what leads to `h` by `more` led there by `links`. */
  lemma {:induction false} OfAgain(s: seq<Item>, links: map<Handle, Handle>, more: map<Handle, Handle>, h: Handle)
    requires forall k | Current(more, k) == h :: Current(links, k) == h
    ensures Of(s, more, h) == Of(Of(s, links, h), more, h)
  {
    if s != [] {
      OfAgain(s[1..], links, more, h);
      OfConcat(if Naming(s[0]) && Current(links, s[0].note.names.value) == h then [s[0]]
        else [], Of(s[1..], links, h), more, h);
    }
  }

  lemma {:induction false} NamedAgain(notices: seq<Note>, links: map<Handle, Handle>, more: map<Handle, Handle>,
    h: Handle)
    requires forall k | Current(more, k) == h :: Current(links, k) == h
    ensures Named(notices, more, h) == Of(Named(notices, links, h), more, h)
  {
    if notices != [] {
      var n := notices[|notices| - 1];
      NamedAgain(notices[..|notices| - 1], links, more, h);
      OfConcat(Named(notices[..|notices| - 1], links, h), if n.names.Some?
        && Current(links, n.names.value) == h then [N(n)] else [], more, h);
    }
  }

  lemma {:induction false} NamedIn(notices: seq<Note>, links: map<Handle, Handle>, h: Handle)
    ensures forall x | x in Named(notices, links, h) ::
            Naming(x) && x.note in notices && Current(links, x.note.names.value) == h
    ensures forall n | n in notices && n.names.Some? && Current(links, n.names.value) == h ::
            N(n) in Named(notices, links, h)
  {
    if notices != [] {
      NamedIn(notices[..|notices| - 1], links, h);
      assert notices == notices[..|notices| - 1] + [notices[|notices| - 1]];
    }
  }

  lemma {:induction false} NamedOnce(notices: seq<Note>, links: map<Handle, Handle>, h: Handle)
    requires Ascending(notices)
    ensures Once(Named(notices, links, h))
  {
    if notices != [] {
      var front, n := notices[..|notices| - 1], notices[|notices| - 1];
      NamedOnce(front, links, h);
      NamedIn(front, links, h);
      assert n !in front;
      assert N(n) !in multiset(Named(front, links, h));
    }
  }

  lemma NamedPush(notices: seq<Note>, n: Note, links: map<Handle, Handle>, h: Handle)
    ensures Named(notices + [n], links, h) == Named(notices, links, h) + if n.names.Some?
            && Current(links, n.names.value) == h then [N(n)] else []
  {
    assert (notices + [n])[..|notices|] == notices;
  }

  // ── revisions ──────────────────────────────────────────────────────

  lemma CurrentStops(links: map<Handle, Handle>, h: Handle)
    requires h !in links
    ensures Current(links, h) == h
  {}

  /** After a revision, a handle leads to it, or to where it led before. */
  lemma {:induction false} CurrentRelinked(links: map<Handle, Handle>, family: seq<Handle>, h: Handle, k: Handle)
    requires Upward(links) && h !in links && forall f | f in family :: f <= h
    ensures var now := Current(Relinked(links, family, h), k); now == h || now == Current(links, k)
    decreases From(links, k)
  {
    var more := Relinked(links, family, h);
    if k in family && k != h {
      CurrentStops(more, h);
    } else if k in links {
      assert From(links, links[k]) <= From(links, k) && k in From(links, k) && k !in From(links, links[k]);
      CurrentRelinked(links, family, h, links[k]);
    }
  }

  lemma {:induction false} CurrentFixed(links: map<Handle, Handle>, k: Handle)
    requires Upward(links)
    ensures Current(links, k) !in links
    decreases From(links, k)
  {
    if k in links {
      assert From(links, links[k]) <= From(links, k) && k in From(links, k) && k !in From(links, links[k]);
      CurrentFixed(links, links[k]);
    }
  }

  // ── a notice arrives ───────────────────────────────────────────────

  lemma AscendingPush(notices: seq<Note>, n: Note)
    requires Ascending(notices) && n.number > LastNumber(notices)
    ensures Ascending(notices + [n]) && n !in notices
  {}

  lemma InsertedCounts(c: Client, n: Note, x: Item)
    requires Consistent(c) && N(n) !in c.order
    ensures multiset(Inserted(c, n))[x] == multiset(c.order)[x] + if x == N(n) then 1 else 0
  {
    if n.names.Some? {
      var now := Current(c.replacedBy, n.names.value);
      if U(now) in c.order { WeaveCounts(c.order, now, [N(n)], []); }
    }
  }

  lemma NoticeConsistent(c: Client, n: Note)
    requires Consistent(c)
    ensures Consistent(ApplyNotice(c, n))
  {
    if n.number > LastNumber(c.notices) {
      AscendingPush(c.notices, n);
      var d := ApplyNotice(c, n);
      forall x ensures multiset(d.order)[x] == multiset(c.order)[x] + if x == N(n) then 1 else 0 {
        InsertedCounts(c, n, x);
      }
      SameMembers(c.order, d.order, N(n));
    }
  }

  lemma SameMembers(s: seq<Item>, t: seq<Item>, y: Item)
    requires forall x :: multiset(t)[x] == multiset(s)[x] + if x == y then 1 else 0
    ensures forall x :: x in t <==> x in s || x == y
  {
    forall x ensures x in t <==> x in s || x == y {
      assert x in t <==> x in multiset(t);
      assert x in s <==> x in multiset(s);
    }
  }

  lemma InsertedInOrder(c: Client, n: Note, h: Handle)
    requires Consistent(c) && h in c.surfaces && Of(Beside(c.order, h), c.replacedBy, h) ==
             Named(c.notices, c.replacedBy, h)
    ensures Of(Beside(Inserted(c, n), h), c.replacedBy, h) == Named(c.notices + [n], c.replacedBy, h)
  {
    NamedPush(c.notices, n, c.replacedBy, h);
    var besides := Beside(c.order, h);
    OfPush(besides, N(n), c.replacedBy, h);
    if n.names.Some? && U(Current(c.replacedBy, n.names.value)) in c.order {
      var now := Current(c.replacedBy, n.names.value);
      BesidePlaced(c.order, now, N(n), h);
      assert Beside(Inserted(c, n), h) == if now == h then besides + [N(n)] else besides;
    } else {
      BesidePush(c.order, N(n), h);
      assert Beside(Inserted(c, n), h) == besides || (Naming(N(n)) && Beside(Inserted(c, n), h) == besides + [N(n)]);
    }
  }

  lemma OfPush(s: seq<Item>, x: Item, links: map<Handle, Handle>, h: Handle)
    ensures Of(s + [x], links, h) == Of(s, links, h) + if Naming(x)
            && Current(links, x.note.names.value) == h then [x] else []
  {
    OfConcat(s, [x], links, h);
    assert [x][1..] == [];
  }

  lemma NoticeInOrder(c: Client, n: Note)
    requires Consistent(c) && InOrder(c)
    ensures InOrder(ApplyNotice(c, n))
  {
    if n.number > LastNumber(c.notices) {
      forall h | h in c.surfaces ensures Of(Beside(Inserted(c, n), h), c.replacedBy, h) ==
        Named(c.notices + [n], c.replacedBy, h) {
        InsertedInOrder(c, n, h);
      }
    }
  }

  // ── a surface opens ────────────────────────────────────────────────

  /** Before the notices move. */
  function Opening(c: Client, f: Frame): Client
    requires f.Opens?
  {
    Seated(c, f).(replacedBy := Relinked(c.replacedBy, Family(f), f.handle))
  }

  lemma RelinkedUpward(links: map<Handle, Handle>, family: seq<Handle>, h: Handle)
    requires Upward(links) && forall k | k in family :: k <= h
    ensures Upward(Relinked(links, family, h)) && (h !in links ==> h !in Relinked(links, family, h))
  {}

  lemma SeatedCounts(c: Client, f: Frame, x: Item)
    requires Consistent(c) && f.Opens? && f.handle !in c.surfaces
    ensures var known := FirstKnown(c.surfaces, Family(f));
            multiset(Seated(c, f).order)[x] ==
            if x == U(f.handle) then 1 else if known.Some? && x == U(known.value) then 0 else multiset(c.order)[x]
  {
    var known := FirstKnown(c.surfaces, Family(f));
    assert U(f.handle) !in c.order;
    if known.Some? {
      assert U(known.value) in multiset(c.order);
      assert multiset(c.order)[U(known.value)] <= 1;
      RenameCounts(c.order, known.value, f.handle, x);
    }
  }

  lemma SeatedConsistent(c: Client, f: Frame)
    requires Consistent(c) && f.Opens? && f.handle !in c.surfaces && f.handle !in c.replacedBy && Issues(f)
    ensures Consistent(Opening(c, f))
  {
    var d := Opening(c, f);
    RelinkedUpward(c.replacedBy, Family(f), f.handle);
    forall x ensures multiset(d.order)[x] <= 1 && (x in d.order <==> SeatedHas(c, f, x)) { SeatedMembers(c, f, x); }
    assert Once(d.order);
    assert d.rows.Keys == d.surfaces.Keys;
    assert forall h :: U(h) in d.order <==> h in d.surfaces;
  }

  predicate SeatedHas(c: Client, f: Frame, x: Item)
    requires f.Opens?
  {
    var known := FirstKnown(c.surfaces, Family(f));
    x == U(f.handle) || (x in c.order && (known.Some? ==> x != U(known.value)))
  }

  lemma SeatedMembers(c: Client, f: Frame, x: Item)
    requires Consistent(c) && f.Opens? && f.handle !in c.surfaces
    ensures multiset(Seated(c, f).order)[x] <= 1 && (x in Seated(c, f).order <==> SeatedHas(c, f, x))
  {
    SeatedCounts(c, f, x);
    InCounts(c.order, x);
    InCounts(Seated(c, f).order, x);
    assert multiset(c.order)[x] <= 1;
  }

  lemma MovedConsistent(c: Client, h: Handle)
    requires Consistent(c) && h in c.surfaces
    ensures var ns := Named(c.notices, c.replacedBy, h);
            Consistent(c.(order := MoveUnder(c.order, h, ns))) && multiset(MoveUnder(c.order, h, ns)) ==
              multiset(c.order)
  {
    var ns := Named(c.notices, c.replacedBy, h);
    NamedIn(c.notices, c.replacedBy, h);
    NamedOnce(c.notices, c.replacedBy, h);
    MoveKeeps(c.order, h, ns);
    var moved := MoveUnder(c.order, h, ns);
    forall x ensures x in moved <==> x in c.order {
      assert x in moved <==> x in multiset(moved);
      assert x in c.order <==> x in multiset(c.order);
    }
  }

  lemma OpenConsistent(c: Client, f: Frame)
    requires Consistent(c) && f.Opens? && Issues(f)
    ensures Consistent(ApplyOpen(c, f))
  {
    if f.handle !in c.surfaces && f.handle !in c.replacedBy {
      SeatedConsistent(c, f);
      MovedConsistent(Opening(c, f), f.handle);
    }
  }

  lemma RemovedOf(s: seq<Item>, gone: set<Item>, links: map<Handle, Handle>, h: Handle)
    requires forall x | x in s && Naming(x) && Current(links, x.note.names.value) == h :: x in gone
    ensures Of(Remove(s, gone), links, h) == []
  {
    var left := Remove(s, gone);
    forall x | x in left && Naming(x) ensures Current(links, x.note.names.value) != h {
      RemoveCounts(s, gone, x);
      assert x in multiset(left);
      assert x in multiset(s);
    }
    OfNone(left, links, h);
  }

  /** After the move, the surface's own notices are all beside it, in order. */
  lemma MovedOwn(c: Client, h: Handle)
    requires Consistent(c) && h in c.surfaces
    ensures var ns := Named(c.notices, c.replacedBy, h); Of(Beside(MoveUnder(c.order, h, ns), h), c.replacedBy, h) == ns
  {
    var ns := Named(c.notices, c.replacedBy, h);
    var gone := Members(ns);
    NamedIn(c.notices, c.replacedBy, h);
    BesideMoved(c.order, h, ns, h);
    BesideIn(c.order, h);
    RemovedOf(Beside(c.order, h), gone, c.replacedBy, h);
    OfAll(ns, c.replacedBy, h);
    OfConcat(Remove(Beside(c.order, h), gone), ns, c.replacedBy, h);
  }

  /** And every other surface keeps its own. */
  lemma MovedOther(c: Client, h: Handle, k: Handle)
    requires Consistent(c) && h in c.surfaces && k in c.surfaces && k != h
    ensures var ns := Named(c.notices, c.replacedBy, h);
            Of(Beside(MoveUnder(c.order, h, ns), k), c.replacedBy, k) == Of(Beside(c.order, k), c.replacedBy, k)
  {
    var ns := Named(c.notices, c.replacedBy, h);
    NamedIn(c.notices, c.replacedBy, h);
    var gone := Members(ns);
    BesideMoved(c.order, h, ns, k);
    assert Beside(MoveUnder(c.order, h, ns), k) == Remove(Beside(c.order, k), gone);
    forall x | x in gone ensures Naming(x) && Current(c.replacedBy, x.note.names.value) != k { assert x in ns; }
    OfRemove(Beside(c.order, k), gone, c.replacedBy, k);
  }

  /** Seating a surface, and the links that come with it, leave every other surface's notices in order. */
  lemma SeatedOther(c: Client, f: Frame, k: Handle)
    requires Consistent(c) && InOrder(c) && f.Opens? && f.handle !in c.surfaces && f.handle !in c.replacedBy
             && Issues(f)
    requires k in Opening(c, f).surfaces && k != f.handle
    ensures var d := Opening(c, f); Of(Beside(d.order, k), d.replacedBy, k) == Named(d.notices, d.replacedBy, k)
  {
    var d := Opening(c, f);
    var known := FirstKnown(c.surfaces, Family(f));
    assert U(f.handle) !in c.order && U(k) in c.order;
    if known.Some? { BesideRename(c.order, known.value, f.handle, k); } else { BesidePush(c.order, U(f.handle), k); }
    forall j | Current(d.replacedBy, j) == k ensures Current(c.replacedBy, j) == k {
      CurrentRelinked(c.replacedBy, Family(f), f.handle, j);
    }
    OfAgain(Beside(c.order, k), c.replacedBy, d.replacedBy, k);
    NamedAgain(c.notices, c.replacedBy, d.replacedBy, k);
  }

  lemma OpenInOrder(c: Client, f: Frame)
    requires Consistent(c) && InOrder(c) && f.Opens? && Issues(f)
    ensures InOrder(ApplyOpen(c, f))
  {
    if f.handle !in c.surfaces && f.handle !in c.replacedBy {
      var d, e := Opening(c, f), ApplyOpen(c, f);
      SeatedConsistent(c, f);
      forall k | k in e.surfaces ensures Of(Beside(e.order, k), e.replacedBy, k) == Named(e.notices, e.replacedBy, k) {
        if k == f.handle {
          MovedOwn(d, k);
        } else {
          MovedOther(d, f.handle, k);
          SeatedOther(c, f, k);
        }
      }
    }
  }

  // ── over whole streams ─────────────────────────────────────────────

  lemma StartKeeps(c: Client, id: string, body: Body)
    requires Consistent(c) && InOrder(c)
    ensures Consistent(ApplyStart(c, id, body)) && InOrder(ApplyStart(c, id, body))
  {
    if id !in c.bodies {
      var d := ApplyStart(c, id, body);
      forall x ensures multiset(d.order)[x] == multiset(c.order)[x] + if x == B(id) then 1 else 0 {}
      SameMembers(c.order, d.order, B(id));
      assert B(id) !in multiset(c.order);
      forall h | h in c.surfaces ensures Beside(d.order, h) == Beside(c.order, h) { BesidePush(c.order, B(id), h); }
    }
  }

  lemma ApplyKeeps(c: Client, f: Frame)
    requires Consistent(c) && InOrder(c) && Issues(f)
    ensures Consistent(Apply(c, f)) && InOrder(Apply(c, f))
  {
    if f.Arrives? {
      NoticeConsistent(c, f.note);
      NoticeInOrder(c, f.note);
    } else if f.Starts? {
      StartKeeps(c, f.id, f.body);
    } else if f.Opens? {
      OpenConsistent(c, f);
      OpenInOrder(c, f);
    } else {
      OthersKeep(c, f);
    }
  }

  lemma OthersKeep(c: Client, f: Frame)
    requires Consistent(c) && InOrder(c) && !f.Arrives? && !f.Starts? && !f.Opens?
    ensures Consistent(Apply(c, f)) && InOrder(Apply(c, f))
  {}

  /**
   * Transcript order, in every state a browser can reach, whatever the streams send in whatever order: every
   * block is shown once and every notice sent has its block; and the notices naming any revision of a shown
   * surface follow its block, in the order they were sent, with only naming notices between.
   */
  lemma {:induction false} TranscriptStaysInOrder(fs: seq<Frame>)
    requires forall f | f in fs :: Issues(f)
    ensures Consistent(ApplyAll(NEW_CLIENT, fs)) && InOrder(ApplyAll(NEW_CLIENT, fs))
  {
    if fs != [] {
      TranscriptStaysInOrder(fs[..|fs| - 1]);
      ApplyKeeps(ApplyAll(NEW_CLIENT, fs[..|fs| - 1]), fs[|fs| - 1]);
    }
  }
}
