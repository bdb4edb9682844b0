/** A revision folded into the surface it revises means what the two mean in turn, whatever came between. */
module Merging {
  import opened History
  import opened Conversations
  import opened Orders
  import opened Transcripts
  import opened TranscriptOrder
  import opened Rejoining

  // ── orders ─────────────────────────────────────────────────────────

  predicate Within(a: seq<Item>, b: seq<Item>) { forall x | x in a :: x in b }

  predicate Apart(a: seq<Item>, b: seq<Item>) { forall x | x in a :: x !in b }

  lemma RenameMove(s: seq<Item>, b: Handle, notes: seq<Item>, was: Handle, next: Handle)
    requires U(next) !in s && was != next && AllNaming(notes) && b != next
    ensures Rename(MoveUnder(s, b, notes), was, next) == MoveUnder(Rename(s, was, next), if b == was then next
            else b, notes)
  {
    var gone := Members(notes);
    var r := Remove(s, gone);
    RemoveCounts(s, gone, U(next));
    InCounts(s, U(next));
    InCounts(r, U(next));
    RenameWeave(r, map[b := notes], [], was, next);
    RenameRemove(s, was, next, gone);
    assert RenameKey(map[b := notes], was, next) == map[if b == was then next else b := notes];
  }

  /** A move, then a move of all that and more, is the second. */
  lemma MoveTwice(s: seq<Item>, h: Handle, some: seq<Item>, all: seq<Item>)
    requires AllNaming(some) && AllNaming(all) && Within(some, all)
    ensures MoveUnder(MoveUnder(s, h, some), h, all) == MoveUnder(s, h, all)
  {
    var a, b := Members(some), Members(all);
    RemoveWeave(Remove(s, a), map[h := some], [], b);
    RemoveTwice(s, a, b);
    assert a + b == b;
    RemoveAll(some, b);
    assert RemoveEach(map[h := some], b) == map[h := []];
    WeaveNothing(Remove(s, b), map[h := []]);
  }

  lemma MovesTogether(s: seq<Item>, a: Handle, na: seq<Item>, b: Handle, nb: seq<Item>)
    requires AllNaming(na) && AllNaming(nb) && Apart(na, nb) && a != b
    ensures MoveUnder(MoveUnder(s, a, na), b, nb) == Weave(Remove(s, Members(na) + Members(nb)), map[a := na, b := nb],
            [])
  {
    var ga, gb := Members(na), Members(nb);
    RemoveWeave(Remove(s, ga), map[a := na], [], gb);
    RemoveTwice(s, ga, gb);
    RemoveNone(na, gb);
    assert RemoveEach(map[a := na], gb) == map[a := na];
    WeaveTwice(Remove(s, ga + gb), map[a := na], [], map[b := nb], []);
    assert map[a := na] + map[b := nb] == map[a := na, b := nb];
  }

  /** Moves under different surfaces, in either order. */
  lemma MoveSwap(s: seq<Item>, a: Handle, na: seq<Item>, b: Handle, nb: seq<Item>)
    requires AllNaming(na) && AllNaming(nb) && Apart(na, nb) && a != b
    ensures MoveUnder(MoveUnder(s, a, na), b, nb) == MoveUnder(MoveUnder(s, b, nb), a, na)
  {
    MovesTogether(s, a, na, b, nb);
    MovesTogether(s, b, nb, a, na);
    assert Members(na) + Members(nb) == Members(nb) + Members(na);
    assert map[a := na, b := nb] == map[b := nb, a := na];
  }

  lemma MovePush(s: seq<Item>, a: Handle, notes: seq<Item>, x: Item)
    requires !Naming(x) && x != U(a) && AllNaming(notes)
    ensures MoveUnder(s + [x], a, notes) == MoveUnder(s, a, notes) + [x]
  {
    var gone := Members(notes);
    RemoveConcat(s, [x], gone);
    RemoveHead(x, [], gone);
    assert [x] + [] == [x];
    WeavePush(Remove(s, gone), x, map[a := notes], []);
  }

  lemma RenamePush(s: seq<Item>, was: Handle, next: Handle, x: Item)
    ensures Rename(s + [x], was, next) == Rename(s, was, next) + [if x == U(was) then U(next) else x]
  {
    RenameOne(x, was, next);
    RenameConcat(s, [x], was, next);
  }

  lemma RenameOne(x: Item, was: Handle, next: Handle)
    ensures Rename([x], was, next) == [if x == U(was) then U(next) else x]
  {
    assert [x][1..] == [];
  }

  // ── opening, then revising ─────────────────────────────────────────

  /** At most one of the family is shown. */
  ghost predicate Lone(surfaces: map<Handle, Surface>, family: seq<Handle>) {
    forall j, k | j in family && k in family && j in surfaces && k in surfaces :: j == k
  }

  /** `f` revises what `g` opened, and nothing else is known of it. */
  ghost predicate Revises(c: Client, g: Frame, f: Frame) {
    && g.Opens? && f.Opens? && f.revises == Some(g.handle) && f.also == [] && g.handle < f.handle
    && f.handle !in c.surfaces && f.handle !in c.replacedBy && f.handle !in Family(g)
  }

  lemma StandingFamily(g: Frame, f: Frame)
    requires g.Opens? && f.Opens? && f.revises == Some(g.handle) && f.also == []
    ensures forall k :: k in Family(Standing(g, f)) <==> k == g.handle || k in Family(g)
    ensures Family(Standing(g, f))[0] == g.handle
  {}

  lemma MergedLinks(links: map<Handle, Handle>, g: Frame, f: Frame)
    requires g.Opens? && f.Opens? && f.revises == Some(g.handle) && f.also == [] && g.handle < f.handle
    requires Upward(links) && g.handle !in links && f.handle !in links && f.handle !in Family(g)
             && g.handle !in Family(g)
    requires ClosedUnder(links, Family(g)) && forall k | k in Family(g) :: k < g.handle
    ensures var once := Relinked(links, Family(Standing(g, f)), f.handle);
            var twice := Relinked(Relinked(links, Family(g), g.handle), Family(f), f.handle);
            Upward(once) && Upward(twice) && SameLinks(once, twice)
    ensures forall k :: Current(Relinked(links, Family(g), g.handle), k) == g.handle ==>
              Current(Relinked(Relinked(links, Family(g), g.handle), Family(f), f.handle), k) == f.handle
  {
    var m := Relinked(links, Family(g), g.handle);
    StandingFamily(g, f);
    RelinkedUpward(links, Family(g), g.handle);
    RelinkedUpward(m, Family(f), f.handle);
    RelinkedUpward(links, Family(Standing(g, f)), f.handle);
    CurrentStops(links, g.handle);
    CurrentStops(m, g.handle);
    forall k
      ensures Current(Relinked(links, Family(Standing(g, f)), f.handle), k) ==
              Current(Relinked(m, Family(f), f.handle), k)
      ensures Current(m, k) == g.handle ==> Current(Relinked(m, Family(f), f.handle), k) == f.handle
    {
      RelinkedExact(links, Family(Standing(g, f)), f.handle, k);
      RelinkedExact(links, Family(g), g.handle, k);
      RelinkedExact(m, Family(f), f.handle, k);
    }
  }

  lemma StandingKnown(surfaces: map<Handle, Surface>, g: Frame, f: Frame)
    requires g.Opens? && f.Opens? && f.revises == Some(g.handle) && f.also == [] && g.handle !in surfaces
             && Lone(surfaces, Family(g))
    ensures FirstKnown(surfaces, Family(Standing(g, f))) == FirstKnown(surfaces, Family(g))
  {
    StandingFamily(g, f);
  }

  lemma RevisesKnown(surfaces: map<Handle, Surface>, g: Handle, f: Frame)
    requires f.Opens? && f.revises == Some(g) && g in surfaces
    ensures FirstKnown(surfaces, Family(f)) == Some(g)
  {}

  lemma TakenBack<V>(m: map<Handle, V>, h: Handle, v: V)
    requires h !in m
    ensures m[h := v] - {h} == m
  {}

  /** A surface another took over, and a third from it. */
  lemma TakenOverTwice(c: Client, g: Frame, f: Frame, was: Handle)
    requires Consistent(c) && Revises(c, g, f) && g.handle !in c.surfaces
             && FirstKnown(c.surfaces, Family(g)) == Some(was)
    ensures var twice := Seated(Seated(c, g), f);
            && twice.surfaces == (c.surfaces - {was})[f.handle := Revised(c.surfaces[was], f)]
            && twice.rows == (c.rows - {was})[f.handle := c.rows[was]]
            && twice.order == Rename(c.order, was, f.handle) == Rename(Seated(c, g).order, g.handle, f.handle)
  {
    RevisesKnown(Seated(c, g).surfaces, g.handle, f);
    assert U(g.handle) !in c.order;
    RenameTwice(c.order, was, g.handle, f.handle);
    TakenBack(c.surfaces - {was}, g.handle, Revised(c.surfaces[was], g));
    TakenBack(c.rows - {was}, g.handle, c.rows[was]);
  }

  /** A surface of its own, and one that took it over. */
  lemma NewTwice(c: Client, g: Frame, f: Frame)
    requires Consistent(c) && Revises(c, g, f) && g.handle !in c.surfaces && FirstKnown(c.surfaces, Family(g)) == None
    ensures var twice := Seated(Seated(c, g), f);
            && twice.surfaces == c.surfaces[f.handle := Revised(Surface(g.shape, "live", None, None, false), f)]
            && twice.rows == c.rows[f.handle := g.toolId]
            && twice.order == c.order + [U(f.handle)] == Rename(Seated(c, g).order, g.handle, f.handle)
  {
    RevisesKnown(Seated(c, g).surfaces, g.handle, f);
    assert U(g.handle) !in c.order;
    RenamePush(c.order, g.handle, f.handle, U(g.handle));
    RenameNone(c.order, g.handle, f.handle);
    TakenBack(c.surfaces, g.handle, Surface(g.shape, "live", None, None, false));
    TakenBack(c.rows, g.handle, g.toolId);
  }

  /** Where a surface sits after it opens and is revised at once. */
  lemma SeatedTwice(c: Client, g: Frame, f: Frame)
    requires Consistent(c) && Revises(c, g, f) && g.handle !in c.surfaces && Lone(c.surfaces, Family(g))
             && g.shape.mode == f.shape.mode
    ensures var once, twice := Seated(c, Standing(g, f)), Seated(Seated(c, g), f);
            && once.rows == twice.rows && once.order == twice.order
            && once.surfaces.Keys == twice.surfaces.Keys
            && forall h | h in once.surfaces :: Alike(h == f.handle, once.surfaces[h], twice.surfaces[h])
    ensures Seated(Seated(c, g), f).order == Rename(Seated(c, g).order, g.handle, f.handle)
  {
    StandingKnown(c.surfaces, g, f);
    match FirstKnown(c.surfaces, Family(g))
    case Some(was) => TakenOverTwice(c, g, f, was);
    case None => NewTwice(c, g, f);
  }

  /** A notice move commutes with a rename, and a later move of more takes an earlier one back. */
  lemma MergedOrder(s: seq<Item>, a: Handle, na: seq<Item>, b: Handle, nb: seq<Item>)
    requires U(b) !in s && a != b && AllNaming(na) && AllNaming(nb) && Within(na, nb)
    ensures MoveUnder(Rename(MoveUnder(s, a, na), a, b), b, nb) == MoveUnder(Rename(s, a, b), b, nb)
  {
    RenameMove(s, a, na, a, b);
    MoveTwice(Rename(s, a, b), b, na, nb);
  }

  lemma OpenedIs(c: Client, f: Frame)
    requires f.Opens? && f.handle !in c.surfaces && f.handle !in c.replacedBy
    ensures var d := Seated(c, f);
            var links := Relinked(c.replacedBy, Family(f), f.handle);
            ApplyOpen(c, f) == d.(replacedBy := links,
              order := MoveUnder(d.order, f.handle, Named(c.notices, links, f.handle)))
  {}

  lemma NamedWithin(notices: seq<Note>, a: map<Handle, Handle>, h: Handle, b: map<Handle, Handle>, k: Handle)
    requires forall j :: Current(a, j) == h ==> Current(b, j) == k
    ensures Within(Named(notices, a, h), Named(notices, b, k)) && AllNaming(Named(notices, a, h))
            && AllNaming(Named(notices, b, k))
  {
    NamedIn(notices, a, h);
    NamedIn(notices, b, k);
  }

  lemma OpenedTwiceMoves(c: Client, g: Frame, f: Frame)
    requires Consistent(c) && Revises(c, g, f) && g.handle !in c.surfaces && FitsIn(c, g)
    ensures var m := Relinked(c.replacedBy, Family(g), g.handle);
            var some, all := Named(c.notices, m, g.handle),
              Named(c.notices, Relinked(m, Family(f), f.handle), f.handle);
            Apply(Apply(c, g), f).order ==
            MoveUnder(Rename(MoveUnder(Seated(c, g).order, g.handle, some), g.handle, f.handle), f.handle, all)
  {
    OpenedIs(c, g);
    RelinkedUpward(c.replacedBy, Family(g), g.handle);
    RevisedMoves(Apply(c, g), g, f);
  }

  lemma RevisedMoves(d: Client, g: Frame, f: Frame)
    requires g.Opens? && f.Opens? && f.handle !in d.surfaces && f.handle !in d.replacedBy && g.handle in d.surfaces
             && f.revises == Some(g.handle) && f.also == []
    ensures Apply(d, f).order ==
            MoveUnder(Rename(d.order, g.handle, f.handle), f.handle,
              Named(d.notices, Relinked(d.replacedBy, Family(f), f.handle), f.handle))
  {
    OpenedIs(d, f);
    RevisesKnown(d.surfaces, g.handle, f);
  }

  /** The order a surface that opens and is revised at once leaves. */
  lemma OpenedTwiceOrder(c: Client, g: Frame, f: Frame)
    requires Consistent(c) && Revises(c, g, f) && g.handle !in c.surfaces && Lone(c.surfaces, Family(g))
             && g.shape.mode == f.shape.mode
    requires FitsIn(c, g)
    ensures var twice := Relinked(Relinked(c.replacedBy, Family(g), g.handle), Family(f), f.handle);
            Apply(Apply(c, g), f).order ==
              MoveUnder(Seated(c, Standing(g, f)).order, f.handle, Named(c.notices, twice, f.handle))
  {
    var m := Relinked(c.replacedBy, Family(g), g.handle);
    var twice := Relinked(m, Family(f), f.handle);
    OpenedTwiceMoves(c, g, f);
    SeatedTwice(c, g, f);
    MergedLinks(c.replacedBy, g, f);
    NamedWithin(c.notices, m, g.handle, twice, f.handle);
    SeatedHasNot(c, g, f.handle);
    MergedOrder(Seated(c, g).order, g.handle, Named(c.notices, m, g.handle), f.handle,
      Named(c.notices, twice, f.handle));
  }

  lemma SeatedKeeps(c: Client, f: Frame)
    requires f.Opens?
    ensures var d := Seated(c, f);
            d.bodies == c.bodies && d.notices == c.notices && d.status == c.status && d.context == c.context
              && d.replacedBy == c.replacedBy
  {}

  /** What an opening leaves alone, and where it seats. */
  lemma OpenedLeaves(c: Client, f: Frame)
    requires f.Opens? && f.handle !in c.surfaces && f.handle !in c.replacedBy
    ensures var d := Apply(c, f);
            d.surfaces == Seated(c, f).surfaces && d.rows == Seated(c, f).rows
            && d.replacedBy == Relinked(c.replacedBy, Family(f), f.handle)
            && d.bodies == c.bodies && d.notices == c.notices && d.status == c.status && d.context == c.context
  {
    OpenedIs(c, f);
    SeatedKeeps(c, f);
  }

  lemma OpenedTwice(c: Client, g: Frame, f: Frame)
    requires Consistent(c) && Revises(c, g, f) && g.handle !in c.surfaces && FitsIn(c, g)
    ensures var d, e := Apply(Apply(c, g), f), Seated(Seated(c, g), f);
            d.surfaces == e.surfaces && d.rows == e.rows
            && d.replacedBy == Relinked(Relinked(c.replacedBy, Family(g), g.handle), Family(f), f.handle)
            && d.bodies == c.bodies && d.notices == c.notices && d.status == c.status && d.context == c.context
  {
    var e := Apply(c, g);
    OpenedLeaves(c, g);
    RelinkedUpward(c.replacedBy, Family(g), g.handle);
    OpenedLeaves(e, f);
    SeatedAlike(Seated(c, g), e, f);
  }

  lemma SeatedAlike(c: Client, d: Client, f: Frame)
    requires f.Opens? && c.surfaces == d.surfaces && c.rows == d.rows
    ensures Seated(c, f).surfaces == Seated(d, f).surfaces && Seated(c, f).rows == Seated(d, f).rows
  {}

  /** A surface that opens and is revised at once, folded. */
  lemma MergeNew(c: Client, g: Frame, f: Frame)
    requires Consistent(c) && Revises(c, g, f) && g.handle !in c.surfaces && Lone(c.surfaces, Family(g))
             && g.shape.mode == f.shape.mode
    requires FitsIn(c, g)
    ensures Same({f.handle}, Apply(c, Standing(g, f)), Apply(Apply(c, g), f))
  {
    var once := Relinked(c.replacedBy, Family(Standing(g, f)), f.handle);
    var twice := Relinked(Relinked(c.replacedBy, Family(g), g.handle), Family(f), f.handle);
    MergedLinks(c.replacedBy, g, f);
    SeatedTwice(c, g, f);
    NamedSame(c.notices, once, twice, f.handle);
    OpenedOnce(c, g, f);
    OpenedTwice(c, g, f);
    OpenedTwiceOrder(c, g, f);
  }

  lemma OpenedOnce(c: Client, g: Frame, f: Frame)
    requires g.Opens? && Revises(c, g, f)
    ensures var x := Standing(g, f);
            var d, e, once := Apply(c, x), Seated(c, x), Relinked(c.replacedBy, Family(x), f.handle);
            d.surfaces == e.surfaces && d.rows == e.rows && d.replacedBy == once
            && d.order == MoveUnder(e.order, f.handle, Named(c.notices, once, f.handle))
            && d.bodies == c.bodies && d.notices == c.notices && d.status == c.status && d.context == c.context
  {
    var x := Standing(g, f);
    OpensNew(c, x);
  }

  lemma OpensNew(c: Client, x: Frame)
    requires x.Opens? && x.handle !in c.surfaces && x.handle !in c.replacedBy
    ensures var d, e, once := Apply(c, x), Seated(c, x), Relinked(c.replacedBy, Family(x), x.handle);
            d.surfaces == e.surfaces && d.rows == e.rows && d.replacedBy == once
            && d.order == MoveUnder(e.order, x.handle, Named(c.notices, once, x.handle))
            && d.bodies == c.bodies && d.notices == c.notices && d.status == c.status && d.context == c.context
  {
    OpenedIs(c, x);
    SeatedKeeps(c, x);
  }

  lemma SeatedHasNot(c: Client, g: Frame, k: Handle)
    requires Consistent(c) && g.Opens? && g.handle !in c.surfaces && k !in c.surfaces && k != g.handle
    ensures U(k) !in Seated(c, g).order
  {
    SeatedMembers(c, g, U(k));
  }

  lemma MergedLinksKnown(links: map<Handle, Handle>, g: Frame, f: Frame)
    requires g.Opens? && f.Opens? && f.revises == Some(g.handle) && f.also == [] && g.handle < f.handle
    requires Upward(links) && g.handle !in links && f.handle !in links && f.handle !in Family(g)
    requires forall k | k in Family(g) :: k < g.handle && Current(links, k) == g.handle
    ensures var once, twice := Relinked(links, Family(Standing(g, f)), f.handle), Relinked(links, Family(f), f.handle);
            Upward(once) && Upward(twice) && SameLinks(once, twice)
  {
    var once, twice := Relinked(links, Family(Standing(g, f)), f.handle), Relinked(links, Family(f), f.handle);
    StandingFamily(g, f);
    CurrentStops(links, g.handle);
    RelinkedUpward(links, Family(f), f.handle);
    RelinkedUpward(links, Family(Standing(g, f)), f.handle);
    forall k ensures Current(once, k) == Current(twice, k) {
      RelinkedExact(links, Family(Standing(g, f)), f.handle, k);
      RelinkedExact(links, Family(f), f.handle, k);
      CurrentFixed(links, k);
      CurrentStops(links, Current(links, k));
    }
  }

  /** The same, for a browser that already shows the surface as it opened. */
  lemma MergeKnown(c: Client, g: Frame, f: Frame)
    requires Upward(c.replacedBy) && Revises(c, g, f) && g.handle in c.surfaces && g.handle !in c.replacedBy
    requires forall k | k in Family(g) :: k < g.handle && Current(c.replacedBy, k) == g.handle
    ensures Same({f.handle}, Apply(c, Standing(g, f)), Apply(Apply(c, g), f))
  {
    StandingFamily(g, f);
    MergedLinksKnown(c.replacedBy, g, f);
    var once, twice := Relinked(c.replacedBy, Family(Standing(g, f)), f.handle),
      Relinked(c.replacedBy, Family(f), f.handle);
    NamedSame(c.notices, once, twice, f.handle);
    OpenedIs(c, f);
    OpenedIs(c, Standing(g, f));
  }
}
