/** A revision of one surface and any frame about anything else mean the same in either order. */
module Commuting {
  import opened History
  import opened Conversations
  import opened Orders
  import opened Transcripts
  import opened TranscriptOrder
  import opened Rejoining
  import opened Merging

  /** A revision of a shown surface, and nothing else is known of it. */
  ghost predicate Renews(c: Client, g: Handle, f: Frame) {
    && Upward(c.replacedBy) && f.Opens? && f.revises == Some(g) && f.also == [] && g < f.handle
    && g in c.surfaces && g !in c.replacedBy
    && f.handle !in c.surfaces && f.handle !in c.replacedBy && U(f.handle) !in c.order
  }

  lemma RenewedIs(c: Client, g: Handle, f: Frame)
    requires Renews(c, g, f)
    ensures var d, links := Apply(c, f), Relinked(c.replacedBy, Family(f), f.handle);
            && d.surfaces == (c.surfaces - {g})[f.handle := Revised(c.surfaces[g], f)]
            && d.rows == (if g in c.rows then (c.rows - {g})[f.handle := c.rows[g]] else c.rows)
            && d.replacedBy == links && Upward(links)
            && d.order == MoveUnder(Rename(c.order, g, f.handle), f.handle, Named(c.notices, links, f.handle))
            && d.bodies == c.bodies && d.notices == c.notices && d.status == c.status && d.context == c.context
    ensures forall k :: Current(Relinked(c.replacedBy, Family(f), f.handle), k) == if Current(c.replacedBy, k) == g
            then f.handle else Current(c.replacedBy, k)
  {
    RevisesKnown(c.surfaces, g, f);
    OpenedIs(c, f);
    RelinkedUpward(c.replacedBy, Family(f), f.handle);
    CurrentStops(c.replacedBy, g);
    forall k ensures Current(Relinked(c.replacedBy, Family(f), f.handle), k) == if Current(c.replacedBy, k) == g
      then f.handle else Current(c.replacedBy, k) {
      RelinkedExact(c.replacedBy, Family(f), f.handle, k);
    }
  }

  // ── blocks ─────────────────────────────────────────────────────────

  lemma StartCommutes(c: Client, g: Handle, f: Frame, id: string, body: Body)
    requires Renews(c, g, f)
    ensures Apply(Apply(c, f), Starts(id, body)) == Apply(Apply(c, Starts(id, body)), f)
  {
    RenewedIs(c, g, f);
    var d := Apply(c, Starts(id, body));
    RenewedIs(d, g, f);
    if id !in c.bodies {
      var ns := Named(c.notices, Relinked(c.replacedBy, Family(f), f.handle), f.handle);
      NamedIn(c.notices, Relinked(c.replacedBy, Family(f), f.handle), f.handle);
      RenamePush(c.order, g, f.handle, B(id));
      MovePush(Rename(c.order, g, f.handle), f.handle, ns, B(id));
    }
  }

  /** A frame about another surface, or none. */
  predicate Elsewhere(f: Frame, a: Handle, b: Handle) {
    match f
    case Arrives(_) => false
    case Props(h, _) => h != a && h != b
    case Stands(h, _, _) => h != a && h != b
    case Opens(h, _, _, _, _) => h != a && h != b && a !in Family(f) && b !in Family(f)
    case _ => true
  }

  lemma PutSwaps<V>(m: map<Handle, V>, g: Handle, n: Handle, r: V, h: Handle, v: V)
    requires h != g && h != n
    ensures (m - {g})[n := r][h := v] == (m[h := v] - {g})[n := r]
  {}

  /** A surface's new record, after its props or its answer. */
  function Put(s: Surface, f: Frame): Surface
    requires f.Props? || f.Stands?
  {
    if f.Props? then s.(props := Some(f.props), revising := false) else s.(state := f.state, selection := f.selection)
  }

  lemma PutIs(c: Client, f: Frame)
    requires (f.Props? || f.Stands?) && f.handle in c.surfaces
    ensures Apply(c, f) == c.(surfaces := c.surfaces[f.handle := Put(c.surfaces[f.handle], f)])
  {}

  lemma SurfaceCommutes(c: Client, g: Handle, f: Frame, x: Frame)
    requires Renews(c, g, f) && (x.Props? || x.Stands?) && Elsewhere(x, g, f.handle)
    ensures Apply(Apply(c, f), x) == Apply(Apply(c, x), f)
  {
    RenewedIs(c, g, f);
    if x.handle in c.surfaces {
      PutIs(c, x);
      RenewedIs(Apply(c, x), g, f);
      PutIs(Apply(c, f), x);
      PutSwaps(c.surfaces, g, f.handle, Revised(c.surfaces[g], f), x.handle, Put(c.surfaces[x.handle], x));
    }
  }

  lemma PlainCommutes(c: Client, g: Handle, f: Frame, x: Frame)
    requires Renews(c, g, f) && (x.Delta? || x.Updates? || x.Progresses? || x.StatusIs? || x.ContextIs? || x.Released?)
    ensures Apply(Apply(c, f), x) == Apply(Apply(c, x), f)
  {
    if x.Delta? || x.Updates? || x.Progresses? { EditCommutes(c, g, f, x.id, x); }
    else { StatusCommutes(c, g, f, x); }
  }

  lemma EditCommutes(c: Client, g: Handle, f: Frame, id: string, x: Frame)
    requires Renews(c, g, f)
    ensures ApplyEdit(Apply(c, f), id, x) == Apply(ApplyEdit(c, id, x), f)
  {
    RenewedIs(c, g, f);
    RenewedIs(ApplyEdit(c, id, x), g, f);
  }

  lemma StatusCommutes(c: Client, g: Handle, f: Frame, x: Frame)
    requires f.Opens? && (x.StatusIs? || x.ContextIs? || x.Released?)
    ensures Apply(Apply(c, f), x) == Apply(Apply(c, x), f)
  {
    match x
    case StatusIs(status) => StatusIsCommutes(c, f, status);
    case ContextIs(context) => ContextIsCommutes(c, f, context);
    case Released =>
  }

  lemma StatusIsCommutes(c: Client, f: Frame, status: string)
    requires f.Opens?
    ensures Apply(Apply(c, f), StatusIs(status)) == Apply(Apply(c, StatusIs(status)), f)
  {
    var d := Apply(c, StatusIs(status));
    assert d == c.(status := status);
    OpenKeepsStatus(c, f, status);
    assert Apply(d, f) == ApplyOpen(d, f);
  }

  lemma ContextIsCommutes(c: Client, f: Frame, context: string)
    requires f.Opens?
    ensures Apply(Apply(c, f), ContextIs(context)) == Apply(Apply(c, ContextIs(context)), f)
  {
    var d := Apply(c, ContextIs(context));
    assert d == c.(context := context);
    OpenKeepsContext(c, f, context);
    assert Apply(d, f) == ApplyOpen(d, f);
  }

  lemma OpenKeepsStatus(c: Client, f: Frame, status: string)
    requires f.Opens?
    ensures ApplyOpen(c.(status := status), f) == ApplyOpen(c, f).(status := status)
  {
    SeatKeepsStatus(c, f, status);
  }

  lemma SeatKeepsStatus(c: Client, f: Frame, status: string)
    requires f.Opens?
    ensures Seated(c.(status := status), f) == Seated(c, f).(status := status)
  {}

  lemma OpenKeepsContext(c: Client, f: Frame, context: string)
    requires f.Opens?
    ensures ApplyOpen(c.(context := context), f) == ApplyOpen(c, f).(context := context)
  {
    SeatKeepsContext(c, f, context);
  }

  lemma SeatKeepsContext(c: Client, f: Frame, context: string)
    requires f.Opens?
    ensures Seated(c.(context := context), f) == Seated(c, f).(context := context)
  {}

  /** The props of what is about to be revised do not matter: the revision brings its own. */
  lemma PropsForgotten(c: Client, g: Handle, f: Frame, props: string)
    requires Renews(c, g, f)
    ensures Same({f.handle}, Apply(c, f), Apply(Apply(c, Props(g, props)), f))
  {
    RenewedIs(c, g, f);
    RenewedIs(Apply(c, Props(g, props)), g, f);
  }

  // ── other surfaces ─────────────────────────────────────────────────

  lemma KnownUnchanged(s: map<Handle, Surface>, t: map<Handle, Surface>, family: seq<Handle>)
    requires forall k | k in family :: k in s <==> k in t
    ensures FirstKnown(s, family) == FirstKnown(t, family)
  {}

  /** `x` opens, about another surface than the one `f` revises; neither is known yet. */
  ghost predicate TwoOpens(links: map<Handle, Handle>, g: Handle, f: Frame, x: Frame) {
    && Upward(links) && f.Opens? && x.Opens? && f.revises == Some(g) && f.also == [] && g < f.handle
    && g !in links && f.handle !in links && x.handle !in links && Elsewhere(x, g, f.handle) && x.handle !in Family(x)
    && ClosedUnder(links, Family(x)) && forall k | k in Family(x) :: k < x.handle
  }

  /** Where a handle leads after both, from where it led before. */
  function AfterBoth(now: Handle, g: Handle, f: Frame, x: Frame): Handle
    requires f.Opens? && x.Opens?
  {
    if now in Family(x) then x.handle else if now == g then f.handle else now
  }

  lemma LinksRevisedFirst(links: map<Handle, Handle>, g: Handle, f: Frame, x: Frame, k: Handle)
    requires TwoOpens(links, g, f, x)
    ensures var m := Relinked(links, Family(f), f.handle);
            Upward(m) && x.handle !in m && ClosedUnder(m, Family(x)) && Upward(Relinked(m, Family(x), x.handle))
            && Current(m, k) == (if Current(links, k) == g then f.handle else Current(links, k))
            && Current(Relinked(m, Family(x), x.handle), k) == AfterBoth(Current(links, k), g, f, x)
  {
    var m := Relinked(links, Family(f), f.handle);
    RelinkedUpward(links, Family(f), f.handle);
    RelinkedUpward(m, Family(x), x.handle);
    CurrentStops(links, g);
    forall j | j in Family(x) ensures Current(m, j) in Family(x) { RelinkedExact(links, Family(f), f.handle, j); }
    RelinkedExact(links, Family(f), f.handle, k);
    RelinkedExact(m, Family(x), x.handle, k);
  }

  lemma LinksRevisedLast(links: map<Handle, Handle>, g: Handle, f: Frame, x: Frame, k: Handle)
    requires TwoOpens(links, g, f, x)
    ensures var n := Relinked(links, Family(x), x.handle);
            Upward(n) && Upward(Relinked(n, Family(f), f.handle))
            && Current(n, k) == (if Current(links, k) in Family(x) then x.handle else Current(links, k))
            && Current(Relinked(n, Family(f), f.handle), k) == AfterBoth(Current(links, k), g, f, x)
  {
    var n := Relinked(links, Family(x), x.handle);
    RelinkedUpward(links, Family(x), x.handle);
    RelinkedUpward(n, Family(f), f.handle);
    CurrentStops(n, g);
    RelinkedExact(links, Family(x), x.handle, k);
    RelinkedExact(n, Family(f), f.handle, k);
  }

  /** Both orders lead every handle the same way, and each surface's notices are the same. */
  lemma LinksCommute(notices: seq<Note>, links: map<Handle, Handle>, g: Handle, f: Frame, x: Frame)
    requires TwoOpens(links, g, f, x)
    ensures var m, n := Relinked(links, Family(f), f.handle), Relinked(links, Family(x), x.handle);
            var a, b := Relinked(m, Family(x), x.handle), Relinked(n, Family(f), f.handle);
            && Upward(a) && Upward(b) && SameLinks(a, b)
            && Named(notices, m, f.handle) == Named(notices, b, f.handle)
            && Named(notices, n, x.handle) == Named(notices, a, x.handle)
            && Apart(Named(notices, b, f.handle), Named(notices, a, x.handle))
            && AllNaming(Named(notices, b, f.handle)) && AllNaming(Named(notices, a, x.handle))
  {
    var m, n := Relinked(links, Family(f), f.handle), Relinked(links, Family(x), x.handle);
    var a, b := Relinked(m, Family(x), x.handle), Relinked(n, Family(f), f.handle);
    LinksRevisedFirst(links, g, f, x, 0);
    LinksRevisedLast(links, g, f, x, 0);
    forall k
      ensures Current(a, k) == Current(b, k)
      ensures Current(m, k) == f.handle <==> Current(b, k) == f.handle
      ensures Current(n, k) == x.handle <==> Current(a, k) == x.handle
    {
      LinksRevisedFirst(links, g, f, x, k);
      LinksRevisedLast(links, g, f, x, k);
    }
    NamedSame(notices, m, b, f.handle);
    NamedSame(notices, n, a, x.handle);
    NamedIn(notices, b, f.handle);
    NamedIn(notices, a, x.handle);
  }

  lemma TakesOver<V>(m: map<Handle, V>, g: Handle, n: Handle, r: V, o: Handle, h: Handle, v: V)
    requires o != g && o != n && h != g && h != n
    ensures ((m - {g})[n := r] - {o})[h := v] == ((m - {o})[h := v] - {g})[n := r]
  {}

  /** Seating another surface, before or after. */
  lemma SeatCommutes(c: Client, d: Client, g: Handle, f: Frame, x: Frame)
    requires Consistent(c) && Renews(c, g, f) && x.Opens? && Elsewhere(x, g, f.handle) && x.handle !in c.surfaces
    requires d.surfaces == (c.surfaces - {g})[f.handle := Revised(c.surfaces[g], f)]
             && d.rows == (c.rows - {g})[f.handle := c.rows[g]]
    ensures FirstKnown(d.surfaces, Family(x)) == FirstKnown(c.surfaces, Family(x))
    ensures Seated(d, x).surfaces == (Seated(c, x).surfaces - {g})[f.handle := Revised(c.surfaces[g], f)]
    ensures Seated(d, x).rows == (Seated(c, x).rows - {g})[f.handle := c.rows[g]]
  {
    KnownUnchanged(d.surfaces, c.surfaces, Family(x));
    match FirstKnown(c.surfaces, Family(x))
    case Some(o) =>
      TakesOver(c.surfaces, g, f.handle, Revised(c.surfaces[g], f), o, x.handle, Revised(c.surfaces[o], x));
      TakesOver(c.rows, g, f.handle, c.rows[g], o, x.handle, c.rows[o]);
    case None =>
      PutSwaps(c.surfaces, g, f.handle, Revised(c.surfaces[g], f), x.handle,
        Surface(x.shape, "live", None, None, false));
      PutSwaps(c.rows, g, f.handle, c.rows[g], x.handle, x.toolId);
  }

  /** The order, with the surface taken over or added at the end. */
  function SeatOrder(s: seq<Item>, known: Option<Handle>, h: Handle): seq<Item> {
    match known case Some(was) => Rename(s, was, h) case None => s + [U(h)]
  }

  lemma SeatOrderMove(s: seq<Item>, known: Option<Handle>, h: Handle, b: Handle, notes: seq<Item>)
    requires U(h) !in s && AllNaming(notes) && b != h && known != Some(h) && known != Some(b)
    ensures SeatOrder(MoveUnder(s, b, notes), known, h) == MoveUnder(SeatOrder(s, known, h), b, notes)
  {
    match known
    case Some(was) => RenameMove(s, b, notes, was, h);
    case None => MovePush(s, b, notes, U(h));
  }

  lemma SeatOrderRename(s: seq<Item>, known: Option<Handle>, h: Handle, g: Handle, n: Handle)
    requires h != g && known != Some(g) && known != Some(n) && g != n && (known.Some? ==> h != g)
    ensures SeatOrder(Rename(s, g, n), known, h) == Rename(SeatOrder(s, known, h), g, n)
  {
    match known
    case Some(was) => RenameSwap(s, was, h, g, n);
    case None => RenamePush(s, g, n, U(h));
  }

  lemma OrderCommutes(s: seq<Item>, g: Handle, n: Handle, nn: seq<Item>, known: Option<Handle>, h: Handle,
    nh: seq<Item>)
    requires AllNaming(nn) && AllNaming(nh) && Apart(nn, nh) && g != n && h != g && h != n && known != Some(g)
             && known != Some(n) && known != Some(h)
    requires U(n) !in s && U(h) !in s
    ensures MoveUnder(SeatOrder(MoveUnder(Rename(s, g, n), n, nn), known, h), h, nh) ==
            MoveUnder(Rename(MoveUnder(SeatOrder(s, known, h), h, nh), g, n), n, nn)
  {
    RenameCounts(s, g, n, U(h));
    InCounts(s, U(h));
    InCounts(Rename(s, g, n), U(h));
    SeatOrderMove(Rename(s, g, n), known, h, n, nn);
    SeatOrderRename(s, known, h, g, n);
    SeatOrderHas(s, known, h, n);
    RenameMove(SeatOrder(s, known, h), h, nh, g, n);
    MoveSwap(SeatOrder(Rename(s, g, n), known, h), n, nn, h, nh);
  }

  lemma SeatOrderHas(s: seq<Item>, known: Option<Handle>, h: Handle, n: Handle)
    requires U(n) !in s && n != h && known != Some(h)
    ensures U(n) !in SeatOrder(s, known, h)
  {
    if known.Some? {
      RenameCounts(s, known.value, h, U(n));
      InCounts(s, U(n));
      InCounts(Rename(s, known.value, h), U(n));
    }
  }

  lemma OpenKeepsRenews(c: Client, g: Handle, f: Frame, x: Frame)
    requires Consistent(c) && Renews(c, g, f) && x.Opens? && Elsewhere(x, g, f.handle) && FitsIn(c, x)
    ensures Renews(Apply(c, x), g, f)
  {
    if x.handle !in c.surfaces { OpenConsistent(c, x); }
  }

  lemma RevisedThenOpened(c: Client, g: Handle, f: Frame, x: Frame)
    requires Consistent(c) && Renews(c, g, f) && TwoOpens(c.replacedBy, g, f, x) && x.handle !in c.surfaces
    ensures var known := FirstKnown(c.surfaces, Family(x));
            var m := Relinked(c.replacedBy, Family(f), f.handle);
            var a := Relinked(m, Family(x), x.handle);
            var d := Apply(Apply(c, f), x);
            && d.order == MoveUnder(SeatOrder(MoveUnder(Rename(c.order, g, f.handle), f.handle,
               Named(c.notices, m, f.handle)), known, x.handle), x.handle, Named(c.notices, a, x.handle))
            && d.replacedBy == a
            && d.surfaces == (Seated(c, x).surfaces - {g})[f.handle := Revised(c.surfaces[g], f)]
            && d.rows == (Seated(c, x).rows - {g})[f.handle := c.rows[g]]
            && d.bodies == c.bodies && d.notices == c.notices && d.status == c.status && d.context == c.context
  {
    RenewedIs(c, g, f);
    SeatCommutes(c, Apply(c, f), g, f, x);
    OpenedIs(Apply(c, f), x);
  }

  lemma OpenedThenRevised(c: Client, g: Handle, f: Frame, x: Frame)
    requires Consistent(c) && Renews(c, g, f) && TwoOpens(c.replacedBy, g, f, x) && x.handle !in c.surfaces
             && FitsIn(c, x)
    ensures var known := FirstKnown(c.surfaces, Family(x));
            var n := Relinked(c.replacedBy, Family(x), x.handle);
            var b := Relinked(n, Family(f), f.handle);
            var d := Apply(Apply(c, x), f);
            && d.order == MoveUnder(Rename(MoveUnder(SeatOrder(c.order, known, x.handle), x.handle,
               Named(c.notices, n, x.handle)), g, f.handle), f.handle, Named(c.notices, b, f.handle))
            && d.replacedBy == b
            && d.surfaces == (Seated(c, x).surfaces - {g})[f.handle := Revised(Seated(c, x).surfaces[g], f)]
            && d.rows == (Seated(c, x).rows - {g})[f.handle := Seated(c, x).rows[g]]
            && d.bodies == c.bodies && d.notices == c.notices && d.status == c.status && d.context == c.context
  {
    OpenedIs(c, x);
    OpenKeepsRenews(c, g, f, x);
    RenewedIs(Apply(c, x), g, f);
  }

  lemma SeatedElsewhere(c: Client, g: Handle, f: Frame, x: Frame)
    requires Consistent(c) && g in c.surfaces && f.Opens? && x.Opens? && Elsewhere(x, g, f.handle)
    ensures g in Seated(c, x).surfaces && Seated(c, x).surfaces[g] == c.surfaces[g] && g in Seated(c, x).rows
            && Seated(c, x).rows[g] == c.rows[g]
  {}

  lemma OpenCommutes(c: Client, g: Handle, f: Frame, x: Frame)
    requires Consistent(c) && Renews(c, g, f) && x.Opens? && Elsewhere(x, g, f.handle) && FitsIn(c, x)
             && x.handle !in c.surfaces
    ensures Same({}, Apply(Apply(c, f), x), Apply(Apply(c, x), f))
  {
    var n := Relinked(c.replacedBy, Family(x), x.handle);
    var b := Relinked(n, Family(f), f.handle);
    LinksCommute(c.notices, c.replacedBy, g, f, x);
    RevisedThenOpened(c, g, f, x);
    OpenedThenRevised(c, g, f, x);
    SeatedElsewhere(c, g, f, x);
    assert U(x.handle) !in c.order;
    OrderCommutes(c.order, g, f.handle, Named(c.notices, b, f.handle), FirstKnown(c.surfaces, Family(x)), x.handle,
      Named(c.notices, n, x.handle));
  }

  lemma SameSelf(c: Client)
    requires Upward(c.replacedBy)
    ensures Same({}, c, c)
  {}

  /** A revision of one surface commutes with any frame about anything else. */
  lemma RevisionCommutes(c: Client, g: Handle, f: Frame, x: Frame)
    requires Consistent(c) && Renews(c, g, f) && Elsewhere(x, g, f.handle) && FitsIn(c, x)
    ensures Same({}, Apply(Apply(c, f), x), Apply(Apply(c, x), f))
  {
    if x.Opens? && x.handle !in c.surfaces {
      OpenCommutes(c, g, f, x);
    } else {
      RevisionCommutesExactly(c, g, f, x);
      RenewedIs(c, g, f);
      SameSelf(Apply(Apply(c, x), f));
    }
  }

  lemma RevisionCommutesExactly(c: Client, g: Handle, f: Frame, x: Frame)
    requires Consistent(c) && Renews(c, g, f) && Elsewhere(x, g, f.handle) && FitsIn(c, x)
             && (x.Opens? ==> x.handle in c.surfaces)
    ensures Apply(Apply(c, f), x) == Apply(Apply(c, x), f) && Upward(Apply(Apply(c, x), f).replacedBy)
  {
    if x.Opens? { RenewedIs(c, g, f); } else { NotOpenedCommutes(c, g, f, x); }
  }

  lemma NotOpenedCommutes(c: Client, g: Handle, f: Frame, x: Frame)
    requires Consistent(c) && Renews(c, g, f) && Elsewhere(x, g, f.handle) && FitsIn(c, x) && !x.Opens?
    ensures Apply(Apply(c, f), x) == Apply(Apply(c, x), f) && Upward(Apply(Apply(c, x), f).replacedBy)
  {
    if x.Starts? { StartCommutes(c, g, f, x.id, x.body); }
    else if x.Props? || x.Stands? { SurfaceCommutes(c, g, f, x); }
    else { PlainCommutes(c, g, f, x); }
    RenewedIs(Apply(c, x), g, f);
  }
}
