/** Catching up: applying what is kept of a wake turn, after any part of it, means applying all of it. */
module CatchUp {
  import opened History
  import opened Conversations
  import opened Orders
  import opened Transcripts
  import opened TranscriptOrder
  import opened Rejoining
  import opened Merging
  import opened Commuting
  import opened WakeTurns

  // ── a browser that may be sent what is kept ────────────────────────

  /** The browser shows the surface as it is now; or it knows nothing of it but, perhaps, one it revises. */
  ghost predicate Placed(c: Client, g: Frame) {
    g.Opens? ==>
      && g.handle !in c.replacedBy
      && (forall k | k in Family(g) :: k < g.handle)
      && if g.handle in c.surfaces then forall k | k in Family(g) :: Current(c.replacedBy, k) == g.handle
         else ClosedUnder(c.replacedBy, Family(g)) && Lone(c.surfaces, Family(g))
  }

  /** The block as kept says everything the browser has of it. */
  predicate Full(c: Client, g: Frame) { g.Starts? && g.id in c.bodies ==> Assigned(c.bodies[g.id], g.body) == g.body }

  ghost predicate Ready(c: Client, s: seq<Frame>) { forall g | g in s :: Placed(c, g) && Full(c, g) }

  /** Two frames about different blocks, or different surfaces. */
  ghost predicate Distinct2(x: Frame, g: Frame) {
    && !x.Arrives? && !x.Delta? && !x.Updates? && !x.Progresses?
    && (x.Opens? && g.Opens? ==> Unrelated(x, g) && x.handle !in Family(g) && g.handle !in Family(x))
    && (x.Starts? && g.Starts? ==> x.id != g.id)
  }

  lemma PlacedAfterOpen(c: Client, x: Frame, g: Frame)
    requires Upward(c.replacedBy) && x.Opens? && g.Opens? && x.handle !in c.surfaces && Placed(c, x) && Placed(c, g)
             && Distinct2(x, g)
    ensures Placed(Apply(c, x), g)
  {
    OpenedIs(c, x);
    var d := Apply(c, x);
    forall k ensures Current(d.replacedBy, k) == if Current(c.replacedBy, k) in Family(x) then x.handle
      else Current(c.replacedBy, k) {
      RelinkedExact(c.replacedBy, Family(x), x.handle, k);
    }
    assert g.handle in d.surfaces <==> g.handle in c.surfaces;
    assert forall k | k in Family(g) :: k in d.surfaces <==> k in c.surfaces;
  }

  lemma PlacedAfter(c: Client, x: Frame, g: Frame)
    requires Upward(c.replacedBy) && Placed(c, x) && Placed(c, g) && Full(c, g) && Distinct2(x, g)
    ensures Placed(Apply(c, x), g) && Full(Apply(c, x), g)
  {
    if x.Opens? && g.Opens? && x.handle !in c.surfaces { PlacedAfterOpen(c, x, g); }
  }

  /** Once it is applied, the browser shows it. */
  lemma PlacedSelf(c: Client, g: Frame)
    requires Upward(c.replacedBy) && Placed(c, g) && g.Opens?
    ensures Upward(Apply(c, g).replacedBy) && Placed(Apply(c, g), g) && g.handle in Apply(c, g).surfaces
  {
    if g.handle !in c.surfaces {
      OpenedIs(c, g);
      RelinkedUpward(c.replacedBy, Family(g), g.handle);
      forall k | k in Family(g) ensures Current(Apply(c, g).replacedBy, k) == g.handle {
        RelinkedExact(c.replacedBy, Family(g), g.handle, k);
      }
    }
  }

  ghost predicate Sound(c: Client) { Consistent(c) && InOrder(c) }

  lemma SoundAfter(c: Client, x: Frame)
    requires Sound(c) && Placed(c, x)
    ensures Sound(Apply(c, x))
  {
    ApplyKeeps(c, x);
  }

  lemma KeptDistinct(fs: seq<Frame>, s: seq<Frame>, i: nat, j: nat)
    requires Kept(fs, s) && i < |s| && j < |s| && i != j
    ensures Distinct2(s[i], s[j])
  {
    var x, g := s[i], s[j];
    assert x in s && g in s && TidyFrame(fs, x) && TidyFrame(fs, g);
    if x == g && (x.Starts? || x.Opens?) {
      TwiceIn(s, i, j);
    }
  }

  lemma TwiceIn(s: seq<Frame>, i: nat, j: nat)
    requires i < |s| && j < |s| && i != j && s[i] == s[j]
    ensures multiset(s)[s[i]] >= 2
  {
    var a, b := if i < j then i else j, if i < j then j else i;
    assert s == s[..a] + [s[a]] + s[a + 1..b] + [s[b]] + s[b + 1..];
  }

  /** Along the way, the browser is sound, and ready for every other frame. */
  lemma {:induction false} Walk(c: Client, fs: seq<Frame>, s: seq<Frame>, i: nat, j: nat)
    requires Sound(c) && Kept(fs, s) && Ready(c, s) && i <= |s| && j < |s|
    ensures var d := ApplyAll(c, s[..i]);
            Sound(d) && Placed(d, s[j]) && (i <= j ==> Full(d, s[j]))
              && (j < i && s[j].Opens? ==> s[j].handle in d.surfaces)
    decreases i
  {
    if i == 0 {
      assert s[j] in s;
    } else {
      assert s[..i][..i - 1] == s[..i - 1];
      Walk(c, fs, s, i - 1, i - 1);
      Walk(c, fs, s, i - 1, j);
      WalkNext(fs, s, i - 1, j, ApplyAll(c, s[..i - 1]));
    }
  }

  lemma WalkNext(fs: seq<Frame>, s: seq<Frame>, i: nat, j: nat, d: Client)
    requires Kept(fs, s) && i < |s| && j < |s| && Sound(d) && Placed(d, s[i]) && Placed(d, s[j])
    requires (i <= j ==> Full(d, s[j])) && (j < i && s[j].Opens? ==> s[j].handle in d.surfaces)
    ensures var e := Apply(d, s[i]);
            Sound(e) && Placed(e, s[j]) && (i < j ==> Full(e, s[j]))
              && (j <= i && s[j].Opens? ==> s[j].handle in e.surfaces)
  {
    SoundAfter(d, s[i]);
    if j != i { KeptDistinct(fs, s, i, j); }
    WalkOn(d, s[i], s[j], j < i, j == i);
  }

  lemma WalkOn(d: Client, x: Frame, g: Frame, seen: bool, now: bool)
    requires Sound(d) && Placed(d, x) && Placed(d, g) && (if now then x == g else Distinct2(x, g))
    requires (!seen ==> Full(d, g)) && (seen && g.Opens? ==> g.handle in d.surfaces)
    ensures var e := Apply(d, x);
            Placed(e, g) && (!seen && !now ==> Full(e, g)) && ((seen || now) && g.Opens? ==> g.handle in e.surfaces)
  {
    if now {
      if g.Opens? { PlacedSelf(d, g); }
    } else if seen {
      if x.Opens? && g.Opens? && x.handle !in d.surfaces { PlacedAfterOpen(d, x, g); }
    } else {
      PlacedAfter(d, x, g);
    }
  }

  /** A handle the browser has not heard of, and what is kept does not name. */
  ghost predicate Unheard(c: Client, h: Handle) { h !in c.surfaces && h !in c.replacedBy }

  predicate Unnamed(g: Frame, h: Handle) { g.Opens? ==> g.handle != h && h !in Family(g) }

  lemma {:induction false} StaysUnheard(c: Client, s: seq<Frame>, h: Handle)
    requires Unheard(c, h) && forall g | g in s :: Unnamed(g, h) && !g.Arrives?
    ensures Unheard(ApplyAll(c, s), h)
  {
    if s != [] {
      assert s[|s| - 1] in s;
      StaysUnheard(c, s[..|s| - 1], h);
    }
  }

  // ── a revision folded, frame by frame ──────────────────────────────

  /** `x` may come between the surface that opened as `h` and its revision `f`. */
  ghost predicate Between(c: Client, h: Handle, f: Frame, x: Frame)
    requires f.Opens?
  {
    && Consistent(c) && Renews(c, h, f)
    && ((x.Props? && x.handle == h)
       || (Elsewhere(x, h, f.handle) && FitsIn(c, x) && h !in (if x.Opens? then Family(x) else [])))
  }

  lemma FitsRevised(c: Client, h: Handle, f: Frame, x: Frame)
    requires Renews(c, h, f) && Elsewhere(x, h, f.handle) && FitsIn(c, x)
    ensures FitsIn(Apply(c, f), x)
  {
    RenewedIs(c, h, f);
  }

  lemma FitsSame(w: set<Handle>, y: Client, z: Client, x: Frame)
    requires Same(w, y, z) && FitsIn(z, x)
    ensures FitsIn(y, x)
  {
    if x.Opens? && x.handle !in z.surfaces { InLinks(y.replacedBy, z.replacedBy, x.handle); }
  }

  lemma SameChain(w: set<Handle>, x: Client, y: Client, z: Client)
    requires Same(w, x, y) && (Same({}, y, z) || Same(w, y, z))
    ensures Same(w, x, z)
  {}

  lemma PassesEarly(c: Client, y: Client, h: Handle, f: Frame, x: Frame)
    requires Renews(c, h, f) && Elsewhere(x, h, f.handle) && FitsIn(c, x) && Same({f.handle}, y, Apply(c, f))
    ensures Same({f.handle}, Apply(y, x), Apply(Apply(c, f), x))
  {
    FitsRevised(c, h, f, x);
    FitsSame({f.handle}, y, Apply(c, f), x);
    ApplySame({f.handle}, y, Apply(c, f), x);
    AwaitsStay(y, h, f, x);
    SameWider(Awaits({f.handle}, y, x), {f.handle}, Apply(y, x), Apply(Apply(c, f), x));
  }

  /** One frame later, a browser that applied the revision early still shows what one that applies it late will. */
  lemma RevisionPasses(c: Client, y: Client, h: Handle, f: Frame, x: Frame)
    requires f.Opens? && Between(c, h, f, x) && Same({f.handle}, y, Apply(c, f)) && !(x.Props? && x.handle == h)
    ensures Same({f.handle}, Apply(y, x), Apply(Apply(c, x), f))
  {
    PassesEarly(c, y, h, f, x);
    RevisionCommutes(c, h, f, x);
    SameChain({f.handle}, Apply(y, x), Apply(Apply(c, f), x), Apply(Apply(c, x), f));
  }

  /** And so do the props of the surface as it was. */
  lemma PropsPass(c: Client, y: Client, h: Handle, f: Frame, x: Frame)
    requires f.Opens? && Renews(c, h, f) && Same({f.handle}, y, Apply(c, f)) && x.Props? && x.handle == h
    ensures Same({f.handle}, y, Apply(Apply(c, x), f))
  {
    PropsForgotten(c, h, f, x.props);
    SameChain({f.handle}, y, Apply(c, f), Apply(Apply(c, x), f));
  }

  lemma AwaitsStay(y: Client, h: Handle, f: Frame, x: Frame)
    requires f.Opens? && Elsewhere(x, h, f.handle)
    ensures Awaits({f.handle}, y, x) <= {f.handle}
  {}

  lemma SameWider(v: set<Handle>, w: set<Handle>, x: Client, y: Client)
    requires Same(v, x, y) && forall h | h in v && h in x.surfaces :: h in w
    ensures Same(w, x, y)
  {}

  /** No props for the surface come before it opens. */
  lemma {:induction false} NoEarlyProps(s: seq<Frame>, i: nat, h: Handle)
    requires Sequenced(s, {}) && i <= |s| && i == OpenOf(s, h)
    ensures WithoutProps(s[..i], h) == s[..i]
  {
    NoneBefore(s, h);
    SequencedPrefix(s, i);
    NonePrefix(s[..i], h);
  }

  lemma {:induction false} NoneBefore(s: seq<Frame>, h: Handle)
    ensures forall g | g in s[..OpenOf(s, h)] :: !(g.Opens? && g.handle == h)
  {
    if s != [] && !(s[0].Opens? && s[0].handle == h) {
      NoneBefore(s[1..], h);
      assert s[..OpenOf(s, h)] == [s[0]] + s[1..][..OpenOf(s[1..], h)];
    }
  }

  lemma {:induction false} SequencedPrefix(s: seq<Frame>, i: nat)
    requires Sequenced(s, {}) && i <= |s|
    ensures Sequenced(s[..i], {})
  {
    if i < |s| {
      SequencedPrefix(s[..|s| - 1], i);
      assert s[..|s| - 1][..i] == s[..i];
    } else {
      assert s[..i] == s;
    }
  }

  lemma {:induction false} NonePrefix(s: seq<Frame>, h: Handle)
    requires Sequenced(s, {}) && forall g | g in s :: !(g.Opens? && g.handle == h)
    ensures WithoutProps(s, h) == s
  {
    if s != [] {
      var front, x := s[..|s| - 1], s[|s| - 1];
      assert s == front + [x];
      NonePrefix(front, h);
      WithoutPush(front, x, h);
      assert x.Props? && x.handle == h ==> OpenKept(front, h);
      assert x in s;
    }
  }

  lemma {:induction false} WithoutConcat(a: seq<Frame>, b: seq<Frame>, h: Handle)
    ensures WithoutProps(a + b, h) == WithoutProps(a, h) + WithoutProps(b, h)
  {
    if b == [] {
      assert a + b == a;
    } else {
      var front, x := b[..|b| - 1], b[|b| - 1];
      assert a + b == (a + front) + [x] && b == front + [x];
      WithoutConcat(a, front, h);
      WithoutPush(a + front, x, h);
      WithoutPush(front, x, h);
    }
  }

  lemma ReplacedSplits(s: seq<Frame>, i: nat, y: Frame)
    requires i < |s|
    ensures s[i := y] == s[..i] + [y] + s[i + 1..]
  {}

  lemma FoldAtSplits(s: seq<Frame>, i: nat, f: Frame)
    requires Sequenced(s, {}) && i < |s| && s[i].Opens? && f.Opens? && i == OpenOf(s, s[i].handle)
    ensures FoldAt(s, i, f) == s[..i] + [Standing(s[i], f)] + WithoutProps(s[i + 1..], s[i].handle)
  {
    var h, y := s[i].handle, Standing(s[i], f);
    ReplacedSplits(s, i, y);
    NoEarlyProps(s, i, h);
    WithoutConcat(s[..i] + [y], s[i + 1..], h);
    WithoutPush(s[..i], y, h);
  }

  // ── each frame folded means that frame ─────────────────────────────

  /** Where the browser is when the kept frame `k` comes. */
  function At(c: Client, s: seq<Frame>, k: nat): Client
    requires k <= |s|
  {
    ApplyAll(c, s[..k])
  }

  lemma AtNext(c: Client, s: seq<Frame>, k: nat)
    requires k < |s|
    ensures At(c, s, k + 1) == Apply(At(c, s, k), s[k])
  {
    assert s[..k + 1][..k] == s[..k];
  }

  /** A surface this turn may open, unknown to the browser and to what is kept. */
  ghost predicate Fresh(c: Client, fs: seq<Frame>, f: Frame) {
    f.Opens? && Unheard(c, f.handle) && f.handle !in OpenedIn(fs) && f.handle !in RevisedIn(fs)
  }

  lemma StaysFresh(c: Client, fs: seq<Frame>, s: seq<Frame>, f: Frame, k: nat)
    requires Kept(fs, s) && Fresh(c, fs, f) && k <= |s|
    ensures Unheard(At(c, s, k), f.handle)
  {
    forall g | g in s[..k] ensures Unnamed(g, f.handle) && !g.Arrives? { assert g in s && TidyFrame(fs, g); }
    StaysUnheard(c, s[..k], f.handle);
  }

  lemma RenewsAt(c: Client, fs: seq<Frame>, s: seq<Frame>, i: nat, f: Frame, k: nat)
    requires Sound(c) && Kept(fs, s) && Ready(c, s) && i < k <= |s| && s[i].Opens?
    requires Fresh(c, fs, f) && f.revises == Some(s[i].handle) && f.also == [] && s[i].handle < f.handle
    ensures Consistent(At(c, s, k)) && Renews(At(c, s, k), s[i].handle, f)
  {
    Walk(c, fs, s, k, i);
    StaysFresh(c, fs, s, f, k);
  }

  lemma BetweenAt(c: Client, fs: seq<Frame>, s: seq<Frame>, i: nat, f: Frame, k: nat)
    requires Sound(c) && Kept(fs, s) && Ready(c, s) && i < k < |s| && s[i].Opens?
    requires Fresh(c, fs, f) && f.revises == Some(s[i].handle) && f.also == [] && s[i].handle < f.handle
             && s[i].handle !in AnsweredIn(fs)
    ensures Between(At(c, s, k), s[i].handle, f, s[k])
  {
    RenewsAt(c, fs, s, i, f, k);
    Walk(c, fs, s, k, k);
    KeptDistinct(fs, s, i, k);
    assert s[i] in s && s[k] in s && TidyFrame(fs, s[i]) && TidyFrame(fs, s[k]);
  }

  /** `y`, after the frames `b`, shows what `d` does once it applies the revision. */
  ghost predicate Passing(y: Client, h: Handle, f: Frame, b: seq<Frame>, d: Client)
    requires f.Opens?
  {
    Same({f.handle}, ApplyAll(y, WithoutProps(b, h)), Apply(d, f))
  }

  lemma PassesOne(c: Client, y: Client, h: Handle, f: Frame, b: seq<Frame>, x: Frame)
    requires f.Opens? && Between(c, h, f, x) && Passing(y, h, f, b, c)
    ensures Passing(y, h, f, b + [x], Apply(c, x))
  {
    WithoutPush(b, x, h);
    if x.Props? && x.handle == h {
      assert WithoutProps(b + [x], h) == WithoutProps(b, h);
      PropsPass(c, ApplyAll(y, WithoutProps(b, h)), h, f, x);
    } else {
      ApplyThen(y, WithoutProps(b, h), x);
      RevisionPasses(c, ApplyAll(y, WithoutProps(b, h)), h, f, x);
    }
  }

  /**
   * A browser that applied the revision where its surface opened shows at the `k`th frame what one that applies it then
   * would.
   */
  ghost predicate Passed(c: Client, s: seq<Frame>, i: nat, f: Frame, y: Client, k: nat)
    requires i < k <= |s| && s[i].Opens? && f.Opens?
  {
    Passing(y, s[i].handle, f, s[i + 1..k], At(c, s, k))
  }

  lemma PassedOn(c: Client, s: seq<Frame>, i: nat, f: Frame, y: Client, k: nat)
    requires i < k < |s| && s[i].Opens? && f.Opens? && Between(At(c, s, k), s[i].handle, f, s[k])
             && Passed(c, s, i, f, y, k)
    ensures Passed(c, s, i, f, y, k + 1)
  {
    AtNext(c, s, k);
    SliceNext(s, i + 1, k);
    PassesOne(At(c, s, k), y, s[i].handle, f, s[i + 1..k], s[k]);
  }

  lemma SliceNext(s: seq<Frame>, i: nat, k: nat)
    requires i <= k < |s|
    ensures s[i..k + 1] == s[i..k] + [s[k]]
  {}

  /** Every frame after the opened one is about something else, or the props it had. */
  ghost predicate BetweenAll(c: Client, s: seq<Frame>, i: nat, f: Frame)
    requires i < |s| && s[i].Opens? && f.Opens?
  {
    forall k: nat | i < k < |s| :: Between(At(c, s, k), s[i].handle, f, s[k])
  }

  lemma AllBetween(c: Client, fs: seq<Frame>, s: seq<Frame>, i: nat, f: Frame)
    requires Sound(c) && Kept(fs, s) && Ready(c, s) && i < |s| && s[i].Opens?
    requires Fresh(c, fs, f) && f.revises == Some(s[i].handle) && f.also == [] && s[i].handle < f.handle
             && s[i].handle !in AnsweredIn(fs)
    ensures BetweenAll(c, s, i, f)
  {
    forall k: nat | i < k < |s| ensures Between(At(c, s, k), s[i].handle, f, s[k]) { BetweenAt(c, fs, s, i, f, k); }
  }

  lemma PassedFirst(c: Client, s: seq<Frame>, i: nat, f: Frame, y: Client)
    requires i < |s| && s[i].Opens? && f.Opens? && Same({f.handle}, y, Apply(At(c, s, i + 1), f))
    ensures Passed(c, s, i, f, y, i + 1)
  {
    assert s[i + 1..i + 1] == [];
    assert WithoutProps([], s[i].handle) == [];
  }

  lemma {:induction false} PassedUpTo(c: Client, s: seq<Frame>, i: nat, f: Frame, y: Client, k: nat)
    requires i < k <= |s| && s[i].Opens? && f.Opens? && BetweenAll(c, s, i, f) && Passed(c, s, i, f, y, i + 1)
    ensures Passed(c, s, i, f, y, k)
    decreases k
  {
    if k > i + 1 {
      PassedUpTo(c, s, i, f, y, k - 1);
      PassedOn(c, s, i, f, y, k - 1);
    }
  }

  lemma MergesAt(c0: Client, c: Client, fs: seq<Frame>, s: seq<Frame>, i: nat, f: Frame)
    requires Sound(c) && Kept(fs, s) && Ready(c, s) && i < |s| && s[i].Opens?
    requires Fresh(c, fs, f) && MaySend(c0, fs, f) && f.revises == Some(s[i].handle)
    ensures Same({f.handle}, Apply(At(c, s, i), Standing(s[i], f)), Apply(At(c, s, i + 1), f))
  {
    var u, g := At(c, s, i), s[i];
    Walk(c, fs, s, i, i);
    StaysFresh(c, fs, s, f, i);
    AtNext(c, s, i);
    assert g in s && TidyFrame(fs, g);
    var x :| x in fs && x.Opens? && x.handle == g.handle && x.shape == g.shape;
    if g.handle in u.surfaces { MergeKnown(u, g, f); } else { MergeNew(u, g, f); }
  }

  /** A revision folded where its surface opened means the revision, after all that came between. */
  lemma RevisionFolds(c0: Client, c: Client, fs: seq<Frame>, s: seq<Frame>, f: Frame)
    requires Sound(c) && Kept(fs, s) && Ready(c, s) && Fresh(c, fs, f) && MaySend(c0, fs, f)
    requires f.revises.Some? && OpenOf(s, f.revises.value) < |s|
    ensures Same({f.handle}, ApplyAll(c, Remember(s, f)), Apply(ApplyAll(c, s), f))
  {
    var i := OpenOf(s, f.revises.value);
    var y := Apply(At(c, s, i), Standing(s[i], f));
    FoldPasses(c0, c, fs, s, f, i, y);
    FoldedIs(c, s, f, i, y);
  }

  lemma FoldPasses(c0: Client, c: Client, fs: seq<Frame>, s: seq<Frame>, f: Frame, i: nat, y: Client)
    requires Sound(c) && Kept(fs, s) && Ready(c, s) && Fresh(c, fs, f) && MaySend(c0, fs, f)
    requires f.revises.Some? && i == OpenOf(s, f.revises.value) < |s| && y == Apply(At(c, s, i), Standing(s[i], f))
    ensures Passing(y, s[i].handle, f, s[i + 1..], ApplyAll(c, s))
  {
    MergesAt(c0, c, fs, s, i, f);
    PassedFirst(c, s, i, f, y);
    AllBetween(c, fs, s, i, f);
    PassedUpTo(c, s, i, f, y, |s|);
    PassedWhole(c, s, i, f, y);
  }

  lemma PassedWhole(c: Client, s: seq<Frame>, i: nat, f: Frame, y: Client)
    requires i < |s| && s[i].Opens? && f.Opens? && Passed(c, s, i, f, y, |s|)
    ensures Passing(y, s[i].handle, f, s[i + 1..], ApplyAll(c, s))
  {
    assert s[i + 1..|s|] == s[i + 1..] && s[..|s|] == s;
  }

  lemma FoldedIs(c: Client, s: seq<Frame>, f: Frame, i: nat, y: Client)
    requires Sequenced(s, {}) && f.Opens? && f.revises.Some? && i == OpenOf(s, f.revises.value) < |s|
    requires s[i].Opens? && s[i].handle == f.revises.value && y == Apply(At(c, s, i), Standing(s[i], f))
    requires Passing(y, s[i].handle, f, s[i + 1..], ApplyAll(c, s))
    ensures Same({f.handle}, ApplyAll(c, Remember(s, f)), Apply(ApplyAll(c, s), f))
  {
    FoldAtSplits(s, i, f);
    RemembersFold(s, i, f);
    FoldedAs(c, s[..i], Standing(s[i], f), s[i + 1..], s[i].handle, f, y, ApplyAll(c, s), Remember(s, f));
  }

  lemma RemembersFold(s: seq<Frame>, i: nat, f: Frame)
    requires f.Opens? && f.revises.Some? && i == OpenOf(s, f.revises.value) < |s| && s[i].Opens?
             && s[i].handle == f.revises.value
    ensures Remember(s, f) == FoldAt(s, i, f)
  {}

  lemma FoldedAs(c: Client, a: seq<Frame>, x: Frame, b: seq<Frame>, h: Handle, f: Frame, y: Client, z: Client,
    folded: seq<Frame>)
    requires f.Opens? && y == Apply(ApplyAll(c, a), x) && Passing(y, h, f, b, z)
    requires folded == a + [x] + WithoutProps(b, h)
    ensures Same({f.handle}, ApplyAll(c, folded), Apply(z, f))
  {
    ApplyAround(c, a, x, WithoutProps(b, h));
  }

  lemma ApplyAround(c: Client, a: seq<Frame>, x: Frame, b: seq<Frame>)
    ensures ApplyAll(c, a + [x] + b) == ApplyAll(Apply(ApplyAll(c, a), x), b)
  {
    ApplyThen(c, a, x);
    ApplyConcat(c, a + [x], b);
  }

  lemma SplitAround(c: Client, s: seq<Frame>, i: nat)
    requires i < |s|
    ensures ApplyAll(c, s) == ApplyAll(At(c, s, i + 1), s[i + 1..])
  {
    assert s == s[..i + 1] + s[i + 1..];
    ApplyConcat(c, s[..i + 1], s[i + 1..]);
  }

  // ── edits ──────────────────────────────────────────────────────────

  function WithBody(c: Client, id: string, body: Body): Client { c.(bodies := c.bodies[id := body]) }

  lemma BodyPasses(c: Client, id: string, body: Body, x: Frame)
    requires id in c.bodies && !x.Arrives? && !x.Delta? && !x.Updates? && !x.Progresses? && (x.Starts? ==> x.id != id)
    ensures Apply(WithBody(c, id, body), x) == WithBody(Apply(c, x), id, body)
    ensures id in Apply(c, x).bodies && Apply(c, x).bodies[id] == c.bodies[id]
  {
    if x.Starts? { StartPasses(c, id, body, x); }
    else if x.Opens? { OpenPasses(c, id, body, x); }
  }

  lemma OpenPasses(c: Client, id: string, body: Body, x: Frame)
    requires x.Opens?
    ensures ApplyOpen(WithBody(c, id, body), x) == WithBody(ApplyOpen(c, x), id, body)
            && ApplyOpen(c, x).bodies == c.bodies
  {
    if x.handle !in c.surfaces && x.handle !in c.replacedBy {
      SeatPasses(c, id, body, x);
      OpenedIs(c, x);
      OpenedIs(WithBody(c, id, body), x);
    }
  }

  lemma SeatPasses(c: Client, id: string, body: Body, x: Frame)
    requires x.Opens?
    ensures Seated(WithBody(c, id, body), x) == WithBody(Seated(c, x), id, body) && Seated(c, x).bodies == c.bodies
  {}

  lemma StartPasses(c: Client, id: string, body: Body, x: Frame)
    requires id in c.bodies && x.Starts? && x.id != id
    ensures Apply(WithBody(c, id, body), x) == WithBody(Apply(c, x), id, body)
  {
    var b := if x.id in c.bodies then Assigned(c.bodies[x.id], x.body) else x.body;
    assert c.bodies[id := body][x.id := b] == c.bodies[x.id := b][id := body];
  }

  lemma {:induction false} BodyPassesAll(c: Client, id: string, body: Body, b: seq<Frame>)
    requires id in c.bodies
    requires forall x | x in b ::
             !x.Arrives? && !x.Delta? && !x.Updates? && !x.Progresses? && (x.Starts? ==> x.id != id)
    ensures ApplyAll(WithBody(c, id, body), b) == WithBody(ApplyAll(c, b), id, body)
    ensures id in ApplyAll(c, b).bodies && ApplyAll(c, b).bodies[id] == c.bodies[id]
  {
    if b != [] {
      assert b[|b| - 1] in b;
      BodyPassesAll(c, id, body, b[..|b| - 1]);
      BodyPasses(ApplyAll(c, b[..|b| - 1]), id, body, b[|b| - 1]);
    }
  }

  lemma EditedFull(known: Body, body: Body, f: Frame)
    requires Assigned(known, body) == body
    ensures Assigned(known, Edited(body, f)) == Edited(body, f)
  {}

  lemma StartIs(c: Client, id: string, body: Body)
    requires id in c.bodies ==> Assigned(c.bodies[id], body) == body
    ensures Apply(c, Starts(id, body)) == WithBody(c, id, body).(order := if id in c.bodies then c.order
            else c.order + [B(id)])
  {}

  lemma EditedStart(c: Client, g: Frame, f: Frame)
    requires g.Starts? && Full(c, g) && (f.Delta? || f.Updates? || f.Progresses?) && f.id == g.id
    ensures var e := Edited(g.body, f);
            Apply(c, g.(body := e)) == WithBody(Apply(c, g), g.id, e) && g.id in Apply(c, g).bodies
              && Apply(c, g).bodies[g.id] == g.body
    ensures Full(c, g.(body := Edited(g.body, f)))
  {
    var e := Edited(g.body, f);
    if g.id in c.bodies { EditedFull(c.bodies[g.id], g.body, f); }
    StartIs(c, g.id, g.body);
    StartIs(c, g.id, e);
    assert c.bodies[g.id := g.body][g.id := e] == c.bodies[g.id := e];
  }

  /** An edit folded into the block it edits means the edit, after all that came between. */
  lemma EditFolds(c: Client, fs: seq<Frame>, s: seq<Frame>, f: Frame)
    requires Sound(c) && Kept(fs, s) && Ready(c, s) && (f.Delta? || f.Updates? || f.Progresses?)
             && StartOf(s, f.id) < |s|
    ensures ApplyAll(c, FoldEdit(s, f.id, f)) == Apply(ApplyAll(c, s), f)
  {
    var i := StartOf(s, f.id);
    var g, b := s[i], s[i + 1..];
    var y := g.(body := Edited(g.body, f));
    Walk(c, fs, s, i, i);
    AtNext(c, s, i);
    EditedStart(At(c, s, i), g, f);
    OthersAfter(fs, s, i);
    BodyPassesAll(At(c, s, i + 1), f.id, Edited(g.body, f), b);
    ReplacedSplits(s, i, y);
    ApplyAround(c, s[..i], y, b);
    SplitAround(c, s, i);
  }

  lemma OthersAfter(fs: seq<Frame>, s: seq<Frame>, i: nat)
    requires Kept(fs, s) && i < |s| && s[i].Starts?
    ensures forall x | x in s[i + 1..] ::
            !x.Arrives? && !x.Delta? && !x.Updates? && !x.Progresses? && (x.Starts? ==> x.id != s[i].id)
  {
    var b := s[i + 1..];
    forall x | x in b ensures !x.Arrives? && !x.Delta? && !x.Updates? && !x.Progresses?
      && (x.Starts? ==> x.id != s[i].id) {
      var k :| 0 <= k < |b| && b[k] == x;
      KeptDistinct(fs, s, i + 1 + k, i);
    }
  }

  // ── what the browser has applied is kept as it shows it ────────────

  predicate MirrorsFrame(c: Client, g: Frame) {
    match g
    case Starts(id, body) => id in c.bodies && c.bodies[id] == body
    case Opens(h, _, _, _, _) => h in c.surfaces
    case Props(h, props) => h in c.surfaces && c.surfaces[h].props == Some(props) && !c.surfaces[h].revising
    case Stands(h, state, selection) => h in c.surfaces && c.surfaces[h].state == state
      && c.surfaces[h].selection == selection
    case StatusIs(_) => true
    case ContextIs(_) => true
    case Released => true
    case _ => false
  }

  ghost predicate Mirrors(c: Client, s: seq<Frame>) { forall g | g in s :: MirrorsFrame(c, g) }

  function LastStatus(s: seq<Frame>, status: string): string {
    if s == [] then status else if s[|s| - 1].StatusIs? then s[|s| - 1].status else LastStatus(s[..|s| - 1], status)
  }

  function LastContext(s: seq<Frame>, context: string): string {
    if s == [] then context else if s[|s| - 1].ContextIs? then s[|s| - 1].context
      else LastContext(s[..|s| - 1], context)
  }

  /** Applied again, it changes only what a later status or context of its own puts back. */
  lemma {:induction false} Absorbs(c: Client, s: seq<Frame>)
    requires Mirrors(c, s)
    ensures ApplyAll(c, s) == c.(status := LastStatus(s, c.status), context := LastContext(s, c.context))
  {
    if s != [] {
      var g := s[|s| - 1];
      assert g in s;
      Absorbs(c, s[..|s| - 1]);
      AbsorbsOne(c, LastStatus(s[..|s| - 1], c.status), LastContext(s[..|s| - 1], c.context), g);
    }
  }

  lemma AssignSelf(body: Body)
    ensures Assigned(body, body) == body
  {}

  lemma AbsorbsOne(c: Client, status: string, context: string, g: Frame)
    requires MirrorsFrame(c, g)
    ensures Apply(c.(status := status, context := context), g) ==
            c.(status := if g.StatusIs? then g.status else status, context := if g.ContextIs? then g.context
              else context)
  {
    if g.Starts? {
      AssignSelf(g.body);
      assert c.bodies[g.id := g.body] == c.bodies;
    } else if g.Props? || g.Stands? {
      assert c.surfaces[g.handle := c.surfaces[g.handle]] == c.surfaces;
    }
  }
}
