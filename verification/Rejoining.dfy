/** What a server keeps of a wake turn for a browser that joins part way, and what it means. */
module Rejoining {
  import opened History
  import opened Conversations
  import opened Orders
  import opened Transcripts
  import opened TranscriptOrder

  // ── what is kept ───────────────────────────────────────────────────

  /** Where the block started, or the length. */
  function StartOf(shown: seq<Frame>, id: string): (i: nat)
    ensures i <= |shown| && (i < |shown| ==> shown[i].Starts? && shown[i].id == id)
  {
    if shown == [] || (shown[0].Starts? && shown[0].id == id) then 0 else 1 + StartOf(shown[1..], id)
  }

  /** Where the surface opened, or the length. */
  function OpenOf(shown: seq<Frame>, h: Handle): (i: nat)
    ensures i <= |shown| && (i < |shown| ==> shown[i].Opens? && shown[i].handle == h)
  {
    if shown == [] || (shown[0].Opens? && shown[0].handle == h) then 0 else 1 + OpenOf(shown[1..], h)
  }

  function WithoutProps(shown: seq<Frame>, h: Handle): seq<Frame> {
    if shown == [] then []
      else (if shown[0].Props? && shown[0].handle == h then [] else [shown[0]]) + WithoutProps(shown[1..], h)
  }

  function FoldEdit(shown: seq<Frame>, id: string, f: Frame): seq<Frame> {
    var i := StartOf(shown, id);
    if i < |shown| then shown[i := shown[i].(body := Edited(shown[i].body, f))] else shown
  }

  /** Every handle the surface had before the one it replaces. */
  function Earlier(before: Frame): seq<Handle>
    requires before.Opens?
  {
    before.also + match before.revises case Some(r) => [r] case None => []
  }

  /** A revision, where the surface it revises opened. */
  function Standing(before: Frame, f: Frame): Frame
    requires before.Opens? && f.Opens?
  {
    f.(toolId := before.toolId, also := if Earlier(before) == [] then f.also else Earlier(before))
  }

  function FoldOpen(shown: seq<Frame>, f: Frame): seq<Frame>
    requires f.Opens?
  {
    match f.revises
    case None => shown + [f]
    case Some(r) =>
      var i := OpenOf(shown, r);
      if i == |shown| then shown + [f] else WithoutProps(shown[i := Standing(shown[i], f)], r)
  }

  /** Fold a wake turn's frame into what it has shown so far. */
  function Remember(shown: seq<Frame>, f: Frame): seq<Frame> {
    match f
    case Delta(id, _) => FoldEdit(shown, id, f)
    case Updates(id, _, _) => FoldEdit(shown, id, f)
    case Progresses(id, _) => FoldEdit(shown, id, f)
    case Opens(_, _, _, _, _) => FoldOpen(shown, f)
    case _ => shown + [f]
  }

  function Shown(fs: seq<Frame>): seq<Frame> {
    if fs == [] then [] else Remember(Shown(fs[..|fs| - 1]), fs[|fs| - 1])
  }

  // ── when two browsers show the same ────────────────────────────────

  /** Up to what a surface still awaiting its props shows meanwhile. */
  predicate Alike(awaiting: bool, s: Surface, t: Surface) {
    s == t || (awaiting && s.(props := None, revising := false) == t.(props := None, revising := false))
  }

  /** The same transcript, surfaces and revisions; those in `w` await their props. */
  ghost predicate Same(w: set<Handle>, x: Client, y: Client) {
    && x.order == y.order && x.bodies == y.bodies && x.rows == y.rows && x.notices == y.notices
    && x.status == y.status && x.context == y.context
    && x.surfaces.Keys == y.surfaces.Keys
    && (forall h | h in x.surfaces :: Alike(h in w, x.surfaces[h], y.surfaces[h]))
    && Upward(x.replacedBy) && Upward(y.replacedBy)
    && SameLinks(x.replacedBy, y.replacedBy)
  }

  ghost predicate SameLinks(a: map<Handle, Handle>, b: map<Handle, Handle>) {
    forall k :: Current(a, k) == Current(b, k)
  }

  lemma SameTrans(v: set<Handle>, w: set<Handle>, x: Client, y: Client, z: Client)
    requires Same(v, x, y) && Same(w, y, z)
    ensures Same(v + w, x, z)
  {}

  // ── links ──────────────────────────────────────────────────────────

  /** Each of the family leads to one of it. */
  ghost predicate ClosedUnder(links: map<Handle, Handle>, family: seq<Handle>) {
    forall k | k in family :: Current(links, k) in family
  }

  /** After a revision, whatever led to the family leads to it. */
  lemma {:induction false} RelinkedExact(links: map<Handle, Handle>, family: seq<Handle>, h: Handle, k: Handle)
    requires Upward(links) && h !in links && h !in family && ClosedUnder(links, family)
             && forall f | f in family :: f < h
    ensures Current(Relinked(links, family, h), k) == if Current(links, k) in family then h else Current(links, k)
    decreases From(links, k)
  {
    var more := Relinked(links, family, h);
    if k in family {
      CurrentStops(more, h);
    } else if k in links {
      assert From(links, links[k]) <= From(links, k) && k in From(links, k) && k !in From(links, links[k]);
      RelinkedExact(links, family, h, links[k]);
    }
  }

  lemma RelinkedSame(a: map<Handle, Handle>, b: map<Handle, Handle>, family: seq<Handle>, h: Handle)
    requires Upward(a) && Upward(b) && SameLinks(a, b) && h !in a && ClosedUnder(a, family) && h !in family
             && forall f | f in family :: f < h
    ensures SameLinks(Relinked(a, family, h), Relinked(b, family, h)) && h !in b
  {
    CurrentFixed(b, h);
    forall k ensures Current(Relinked(a, family, h), k) == Current(Relinked(b, family, h), k) {
      RelinkedExact(a, family, h, k);
      RelinkedExact(b, family, h, k);
    }
  }

  lemma {:induction false} NamedSame(notices: seq<Note>, a: map<Handle, Handle>, b: map<Handle, Handle>, h: Handle)
    requires forall k :: Current(a, k) == h <==> Current(b, k) == h
    ensures Named(notices, a, h) == Named(notices, b, h)
  {
    if notices != [] { NamedSame(notices[..|notices| - 1], a, b, h); }
  }

  lemma InLinks(a: map<Handle, Handle>, b: map<Handle, Handle>, h: Handle)
    requires Upward(a) && Upward(b) && SameLinks(a, b)
    ensures h in a <==> h in b
  {
    CurrentFixed(a, h);
    CurrentFixed(b, h);
  }

  // ── the same frame, to two browsers that show the same ─────────────

  /** A surface opens where it is shown already, or is unknown and its family leads nowhere else. */
  ghost predicate FitsIn(c: Client, f: Frame) {
    f.Opens? && f.handle !in c.surfaces ==>
      && f.handle !in c.replacedBy && f.handle !in Family(f)
      && (forall k | k in Family(f) :: k < f.handle)
      && ClosedUnder(c.replacedBy, Family(f))
  }

  lemma {:induction false} KnownSame(s: map<Handle, Surface>, t: map<Handle, Surface>, family: seq<Handle>)
    requires s.Keys == t.Keys
    ensures FirstKnown(s, family) == FirstKnown(t, family)
  {
    if family != [] { KnownSame(s, t, family[1..]); }
  }

  lemma RevisedAlike(w: bool, s: Surface, t: Surface, f: Frame)
    requires Alike(w, s, t) && f.Opens?
    ensures Alike(w, Revised(s, f), Revised(t, f))
  {}

  /** Which surfaces may still differ, once one opens. */
  function TakenOver(w: set<Handle>, c: Client, f: Frame): set<Handle>
    requires f.Opens?
  {
    match FirstKnown(c.surfaces, Family(f))
    case Some(was) => if was in w then w + {f.handle} else w - {f.handle}
    case None => w - {f.handle}
  }

  lemma SeatedSame(w: set<Handle>, x: Client, y: Client, f: Frame)
    requires Same(w, x, y) && f.Opens?
    ensures Same(TakenOver(w, x, f), Seated(x, f), Seated(y, f))
  {
    KnownSame(x.surfaces, y.surfaces, Family(f));
    match FirstKnown(x.surfaces, Family(f))
    case None =>
    case Some(was) => ReseatedSame(w, x, y, f, was);
  }

  /** What surfaces they show, they show alike. */
  ghost predicate SurfacesAlike(w: set<Handle>, a: map<Handle, Surface>, b: map<Handle, Surface>) {
    a.Keys == b.Keys && forall h | h in a :: Alike(h in w, a[h], b[h])
  }

  lemma ReseatedSame(w: set<Handle>, x: Client, y: Client, f: Frame, was: Handle)
    requires Same(w, x, y) && f.Opens? && FirstKnown(x.surfaces, Family(f)) == FirstKnown(y.surfaces, Family(f)) ==
             Some(was)
    ensures Same(TakenOver(w, x, f), Seated(x, f), Seated(y, f))
  {
    RevisedAlike(was in w, x.surfaces[was], y.surfaces[was], f);
    ReseatedAlike(w, x.surfaces, y.surfaces, f, was);
  }

  lemma ReseatedAlike(w: set<Handle>, a: map<Handle, Surface>, b: map<Handle, Surface>, f: Frame, was: Handle)
    requires SurfacesAlike(w, a, b) && f.Opens? && was in a && Alike(was in w, Revised(a[was], f), Revised(b[was], f))
    ensures SurfacesAlike(if was in w then w + {f.handle} else w - {f.handle},
            (a - {was})[f.handle := Revised(a[was], f)], (b - {was})[f.handle := Revised(b[was], f)])
  {}

  /** Which surfaces may still differ, after a frame. */
  function Awaits(w: set<Handle>, c: Client, f: Frame): set<Handle> {
    if f.Props? then w - {f.handle} else if f.Opens? && f.handle !in c.surfaces then TakenOver(w, c, f) else w
  }

  lemma OpenSame(w: set<Handle>, x: Client, y: Client, f: Frame)
    requires Same(w, x, y) && f.Opens? && FitsIn(x, f)
    ensures Same(Awaits(w, x, f), ApplyOpen(x, f), ApplyOpen(y, f))
  {
    InLinks(x.replacedBy, y.replacedBy, f.handle);
    if f.handle !in x.surfaces {
      SeatedSame(w, x, y, f);
      RelinkedSame(x.replacedBy, y.replacedBy, Family(f), f.handle);
      RelinkedUpward(x.replacedBy, Family(f), f.handle);
      RelinkedUpward(y.replacedBy, Family(f), f.handle);
      NamedSame(x.notices, Relinked(x.replacedBy, Family(f), f.handle), Relinked(y.replacedBy, Family(f), f.handle),
        f.handle);
    }
  }

  lemma ApplySame(w: set<Handle>, x: Client, y: Client, f: Frame)
    requires Same(w, x, y) && FitsIn(x, f) && !f.Arrives?
    ensures Same(Awaits(w, x, f), Apply(x, f), Apply(y, f))
  {
    if f.Opens? {
      OpenSame(w, x, y, f);
    } else if f.Props? || f.Stands? {
      SurfaceSame(w, x, y, f);
    } else {
      BlockSame(w, x, y, f);
    }
  }

  lemma SurfaceSame(w: set<Handle>, x: Client, y: Client, f: Frame)
    requires Same(w, x, y) && (f.Props? || f.Stands?)
    ensures Same(Awaits(w, x, f), Apply(x, f), Apply(y, f))
  {
    if f.Props? { PropsSame(w, x, y, f); }
  }

  lemma PropsSame(w: set<Handle>, x: Client, y: Client, f: Frame)
    requires Same(w, x, y) && f.Props?
    ensures Same(Awaits(w, x, f), Apply(x, f), Apply(y, f))
  {}

  lemma BlockSame(w: set<Handle>, x: Client, y: Client, f: Frame)
    requires Same(w, x, y) && !f.Arrives? && !f.Opens? && !f.Props? && !f.Stands?
    ensures Same(w, Apply(x, f), Apply(y, f))
  {
    if f.Starts? { StartSame(w, x, y, f.id, f.body); }
    else if f.Delta? || f.Updates? || f.Progresses? { EditSame(w, x, y, f.id, f); }
    else { StatusSame(w, x, y, f); }
  }

  lemma StartSame(w: set<Handle>, x: Client, y: Client, id: string, body: Body)
    requires Same(w, x, y)
    ensures Same(w, ApplyStart(x, id, body), ApplyStart(y, id, body))
  {}

  lemma EditSame(w: set<Handle>, x: Client, y: Client, id: string, f: Frame)
    requires Same(w, x, y)
    ensures Same(w, ApplyEdit(x, id, f), ApplyEdit(y, id, f))
  {}

  lemma StatusSame(w: set<Handle>, x: Client, y: Client, f: Frame)
    requires Same(w, x, y) && (f.StatusIs? || f.ContextIs? || f.Released?)
    ensures Same(w, Apply(x, f), Apply(y, f))
  {}
}
