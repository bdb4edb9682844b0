/** For every wake turn and every part of it a browser has applied, what is kept means what is left. */
module Replaying {
  import opened History
  import opened Conversations
  import opened Orders
  import opened Transcripts
  import opened TranscriptOrder
  import opened Rejoining
  import opened Merging
  import opened Commuting
  import opened WakeTurns
  import opened CatchUp

  /** No surface shown is one that was revised. */
  predicate Live(c: Client) { forall h | h in c.surfaces :: h !in c.replacedBy }

  /** What a browser `c` knows after the frames `fs`, as `d`. */
  ghost predicate Knows(c: Client, fs: seq<Frame>, d: Client) {
    && d.bodies.Keys == c.bodies.Keys + StartedIn(fs)
    && (forall h | h in d.surfaces :: h in c.surfaces || h in OpenedIn(fs))
    && (forall h | h in d.replacedBy :: h in c.replacedBy || h in RevisedIn(fs))
    && Live(d) && Sound(d)
  }

  lemma MaySendFits(c: Client, fs: seq<Frame>, d: Client, f: Frame)
    requires Knows(c, fs, d) && MaySend(c, fs, f)
    ensures FitsIn(d, f) && Issues(f) && (f.Opens? ==> Unheard(d, f.handle) && Fresh(d, fs, f))
  {
    if f.Opens? && f.revises.Some? { CurrentStops(d.replacedBy, f.revises.value); }
  }

  /** A surface a wake turn opens, and the one it revises. */
  lemma OpenedByTurn(c: Client, fs: seq<Frame>, d: Client, f: Frame)
    requires Knows(c, fs, d) && MaySend(c, fs, f) && f.Opens?
    ensures var e := Apply(d, f);
            && e.bodies == d.bodies && f.handle in e.surfaces
            && (forall h | h != f.handle :: h in e.surfaces <==> h in d.surfaces && f.revises != Some(h))
            && (forall h | h != f.handle && h in e.surfaces :: e.surfaces[h] == d.surfaces[h])
            && e.replacedBy == Relinked(d.replacedBy, Family(f), f.handle)
            && (forall h :: h in e.replacedBy <==> h in d.replacedBy || f.revises == Some(h))
  {
    MaySendFits(c, fs, d, f);
    OpenedIs(d, f);
    SeatedByTurn(d, f);
  }

  lemma SeatedByTurn(d: Client, f: Frame)
    requires f.Opens? && f.also == [] && f.handle !in d.surfaces
    ensures var e := Seated(d, f);
            && f.handle in e.surfaces
            && (forall h | h != f.handle :: h in e.surfaces <==> h in d.surfaces && f.revises != Some(h))
            && (forall h | h != f.handle && h in e.surfaces :: e.surfaces[h] == d.surfaces[h])
  {}

  lemma LedByTurn(c: Client, fs: seq<Frame>, d: Client, f: Frame, k: Handle)
    requires Knows(c, fs, d) && MaySend(c, fs, f) && f.Opens?
    ensures var now := Current(d.replacedBy, k);
            Current(Relinked(d.replacedBy, Family(f), f.handle), k) == if f.revises == Some(now) then f.handle else now
  {
    MaySendFits(c, fs, d, f);
    RelinkedExact(d.replacedBy, Family(f), f.handle, k);
  }

  lemma BodiesNext(c: Client, fs: seq<Frame>, d: Client, f: Frame)
    requires Knows(c, fs, d) && MaySend(c, fs, f)
    ensures Apply(d, f).bodies.Keys == d.bodies.Keys + if f.Starts? then {f.id} else {}
  {
    if f.Opens? { OpenedByTurn(c, fs, d, f); }
  }

  lemma SurfacesNext(c: Client, fs: seq<Frame>, d: Client, f: Frame)
    requires Knows(c, fs, d) && MaySend(c, fs, f)
    ensures var e := Apply(d, f);
            && (forall h | h in e.surfaces :: h in d.surfaces || (f.Opens? && h == f.handle))
            && (forall h | h in e.replacedBy :: h in d.replacedBy || (f.Opens? && f.revises == Some(h)))
            && Live(e)
  {
    if f.Opens? {
      MaySendFits(c, fs, d, f);
      OpenedByTurn(c, fs, d, f);
    } else if f.Props? || f.Stands? {
      assert Apply(d, f).surfaces.Keys == d.surfaces.Keys;
    }
  }

  lemma KnowsNext(c: Client, fs: seq<Frame>, d: Client, f: Frame)
    requires Knows(c, fs, d) && MaySend(c, fs, f)
    ensures Knows(c, fs + [f], Apply(d, f))
  {
    SoundNext(c, fs, d, f);
    BodiesNext(c, fs, d, f);
    SurfacesNext(c, fs, d, f);
    KnowsGrown(c, fs, d, f, Apply(d, f));
  }

  lemma KnowsGrown(c: Client, fs: seq<Frame>, d: Client, f: Frame, e: Client)
    requires Knows(c, fs, d) && Sound(e) && Live(e)
    requires e.bodies.Keys == d.bodies.Keys + if f.Starts? then {f.id} else {}
    requires forall h | h in e.surfaces :: h in d.surfaces || (f.Opens? && h == f.handle)
    requires forall h | h in e.replacedBy :: h in d.replacedBy || (f.Opens? && f.revises == Some(h))
    ensures Knows(c, fs + [f], e)
  {
    SetsGrow(fs, f);
  }

  /** A surface that was revised is shown no more, so long as a revision finds at most one of its family shown. */
  lemma StaysLive(c: Client, f: Frame)
    requires Live(c) && (f.Opens? ==> Lone(c.surfaces, Family(f)))
    ensures Live(Apply(c, f))
  {
    if f.Opens? && f.handle !in c.surfaces && f.handle !in c.replacedBy { OpenedIs(c, f); }
  }

  lemma SoundNext(c: Client, fs: seq<Frame>, d: Client, f: Frame)
    requires Knows(c, fs, d) && MaySend(c, fs, f)
    ensures Sound(Apply(d, f))
  {
    MaySendFits(c, fs, d, f);
    ApplyKeeps(d, f);
  }

  lemma {:induction false} KnowsAfter(c: Client, fs: seq<Frame>)
    requires Sound(c) && Live(c) && Turn(c, fs)
    ensures Knows(c, fs, ApplyAll(c, fs))
  {
    if fs != [] {
      KnowsAfter(c, fs[..|fs| - 1]);
      assert fs == fs[..|fs| - 1] + [fs[|fs| - 1]];
      KnowsNext(c, fs[..|fs| - 1], ApplyAll(c, fs[..|fs| - 1]), fs[|fs| - 1]);
    }
  }

  // ── the browser that has applied everything so far ─────────────────

  /** It mirrors what is kept, and shows each surface kept as the latest of its family. */
  ghost predicate Abreast(d: Client, s: seq<Frame>) {
    Mirrors(d, s) && forall g | g in s && g.Opens? :: Placed(d, g)
  }

  lemma RememberedEdit(fs: seq<Frame>, s: seq<Frame>, f: Frame, x: Frame)
    requires Kept(fs, s) && (f.Delta? || f.Updates? || f.Progresses?) && StartOf(s, f.id) < |s|
             && x in FoldEdit(s, f.id, f)
    ensures var g := s[StartOf(s, f.id)]; x == g.(body := Edited(g.body, f)) || (x in s && (x.Starts? ==> x.id != f.id))
  {
    var i := StartOf(s, f.id);
    var g := s[i];
    var y := g.(body := Edited(g.body, f));
    var j :| 0 <= j < |s| && s[i := y][j] == x;
    if j != i { KeptDistinct(fs, s, j, i); assert s[j] in s; }
  }

  lemma AbreastEdit(fs: seq<Frame>, s: seq<Frame>, d: Client, f: Frame)
    requires Kept(fs, s) && Abreast(d, s) && (f.Delta? || f.Updates? || f.Progresses?) && f.id in StartedIn(fs)
    ensures Abreast(Apply(d, f), Remember(s, f))
  {
    StartFound(s, f.id);
    assert StartKept(s, f.id);
    var g := s[StartOf(s, f.id)];
    assert g in s && MirrorsFrame(d, g);
    forall x | x in Remember(s, f) ensures MirrorsFrame(Apply(d, f), x) && (x.Opens? ==> Placed(Apply(d, f), x)) {
      RememberedEdit(fs, s, f, x);
      if x in s { assert MirrorsFrame(d, x); }
    }
  }

  /** What stays kept, once a surface opens: what is about neither it nor what it revises. */
  predicate Untouched(s: seq<Frame>, f: Frame, x: Frame)
    requires f.Opens?
  {
    x in s && (x.Opens? || x.Props? || x.Stands? ==> f.revises != Some(x.handle) && x.handle != f.handle)
  }

  lemma RememberedOpen(c: Client, fs: seq<Frame>, s: seq<Frame>, f: Frame, x: Frame)
    requires Kept(fs, s) && MaySend(c, fs, f) && f.Opens? && x in Remember(s, f)
    ensures || x == f
            || (f.revises.Some? && OpenOf(s, f.revises.value) < |s| && x == Standing(s[OpenOf(s, f.revises.value)], f))
            || Untouched(s, f, x)
  {
    if f.revises.Some? && OpenOf(s, f.revises.value) < |s| {
      RememberedRevision(c, fs, s, f, x);
    } else if x in s {
      if f.revises.Some? { NotShownNotKept(fs, s, f.revises.value); }
      assert TidyFrame(fs, x);
    }
  }

  lemma RememberedRevision(c: Client, fs: seq<Frame>, s: seq<Frame>, f: Frame, x: Frame)
    requires Kept(fs, s) && MaySend(c, fs, f) && f.Opens? && f.revises.Some? && OpenOf(s, f.revises.value) < |s|
    requires x in FoldAt(s, OpenOf(s, f.revises.value), f)
    ensures x == Standing(s[OpenOf(s, f.revises.value)], f) || Untouched(s, f, x)
  {
    var i := OpenOf(s, f.revises.value);
    RevisedHas(fs, s, i, f);
    if x in s {
      assert s[i] in s && TidyFrame(fs, x);
      if x.Opens? && x != s[i] { assert Unrelated(x, s[i]); }
    }
  }

  lemma AbreastOpen(c: Client, fs: seq<Frame>, s: seq<Frame>, d: Client, f: Frame)
    requires Kept(fs, s) && Abreast(d, s) && Knows(c, fs, d) && MaySend(c, fs, f) && f.Opens?
    ensures Abreast(Apply(d, f), Remember(s, f))
  {
    forall x | x in Remember(s, f) ensures MirrorsFrame(Apply(d, f), x) && (x.Opens? ==> Placed(Apply(d, f), x)) {
      RememberedOpen(c, fs, s, f, x);
      if Untouched(s, f, x) {
        AbreastUntouched(c, fs, s, d, f, x);
      } else if x == f {
        AbreastNew(c, fs, d, f);
      } else {
        AbreastRevised(c, fs, s, d, f, OpenOf(s, f.revises.value));
      }
    }
  }

  lemma AbreastUntouched(c: Client, fs: seq<Frame>, s: seq<Frame>, d: Client, f: Frame, x: Frame)
    requires Kept(fs, s) && Abreast(d, s) && Knows(c, fs, d) && MaySend(c, fs, f) && f.Opens? && Untouched(s, f, x)
    ensures MirrorsFrame(Apply(d, f), x) && (x.Opens? ==> Placed(Apply(d, f), x))
  {
    OpenedByTurn(c, fs, d, f);
    assert MirrorsFrame(d, x) && TidyFrame(fs, x);
    if x.Opens? {
      forall k | k in Family(x) ensures Current(Apply(d, f).replacedBy, k) == x.handle { LedByTurn(c, fs, d, f, k); }
    }
  }

  lemma AbreastNew(c: Client, fs: seq<Frame>, d: Client, f: Frame)
    requires Knows(c, fs, d) && MaySend(c, fs, f) && f.Opens?
    ensures MirrorsFrame(Apply(d, f), f) && Placed(Apply(d, f), f)
  {
    MaySendFits(c, fs, d, f);
    OpenedByTurn(c, fs, d, f);
    forall k | k in Family(f) ensures Current(Apply(d, f).replacedBy, k) == f.handle {
      CurrentStops(d.replacedBy, k);
      LedByTurn(c, fs, d, f, k);
    }
  }

  lemma AbreastRevised(c: Client, fs: seq<Frame>, s: seq<Frame>, d: Client, f: Frame, i: nat)
    requires Kept(fs, s) && Abreast(d, s) && Knows(c, fs, d) && MaySend(c, fs, f) && i < |s| && s[i].Opens?
    requires f.Opens? && f.revises == Some(s[i].handle)
    ensures MirrorsFrame(Apply(d, f), Standing(s[i], f)) && Placed(Apply(d, f), Standing(s[i], f))
  {
    var g := s[i];
    assert g in s && MirrorsFrame(d, g) && TidyFrame(fs, g);
    MaySendFits(c, fs, d, f);
    OpenedByTurn(c, fs, d, f);
    StandingFamily(g, f);
    CurrentStops(d.replacedBy, g.handle);
    forall k | k in Family(Standing(g, f)) ensures k < f.handle && Current(Apply(d, f).replacedBy, k) == f.handle {
      LedByTurn(c, fs, d, f, k);
    }
  }

  lemma KeptIsShown(fs: seq<Frame>, s: seq<Frame>, d: Client, h: Handle)
    requires Kept(fs, s) && Mirrors(d, s) && h in ShownIn(fs)
    ensures h in d.surfaces
  {
    assert OpenKept(s, h);
    var g :| g in s && g.Opens? && g.handle == h;
    assert MirrorsFrame(d, g);
  }

  lemma AbreastSurface(c: Client, fs: seq<Frame>, s: seq<Frame>, d: Client, f: Frame)
    requires Kept(fs, s) && Abreast(d, s) && MaySend(c, fs, f) && (f.Props? || f.Stands?)
    ensures Abreast(Apply(d, f), Remember(s, f))
  {
    KeptIsShown(fs, s, d, f.handle);
    PutIs(d, f);
    forall x | x in s ensures MirrorsFrame(Apply(d, f), x) && (x.Opens? ==> Placed(Apply(d, f), x)) {
      assert MirrorsFrame(d, x) && TidyFrame(fs, x);
      if x.Opens? { PlacedPut(d, f, x); }
    }
  }

  lemma PlacedPut(d: Client, f: Frame, x: Frame)
    requires Placed(d, x) && x.Opens? && (f.Props? || f.Stands?)
    ensures Placed(Apply(d, f), x)
  {}

  lemma AbreastOther(c: Client, fs: seq<Frame>, s: seq<Frame>, d: Client, f: Frame)
    requires Kept(fs, s) && Abreast(d, s) && Knows(c, fs, d) && MaySend(c, fs, f)
             && (f.Starts? || f.StatusIs? || f.ContextIs? || f.Released?)
    ensures Abreast(Apply(d, f), Remember(s, f))
  {
    forall x | x in s ensures MirrorsFrame(Apply(d, f), x) && (x.Opens? ==> Placed(Apply(d, f), x)) {
      assert MirrorsFrame(d, x) && TidyFrame(fs, x);
    }
  }

  lemma AbreastNext(c: Client, fs: seq<Frame>, s: seq<Frame>, d: Client, f: Frame)
    requires Kept(fs, s) && Abreast(d, s) && Knows(c, fs, d) && MaySend(c, fs, f)
    ensures Abreast(Apply(d, f), Remember(s, f))
  {
    if f.Delta? || f.Updates? || f.Progresses? { AbreastEdit(fs, s, d, f); }
    else if f.Opens? { AbreastOpen(c, fs, s, d, f); }
    else if f.Props? || f.Stands? { AbreastSurface(c, fs, s, d, f); }
    else { AbreastOther(c, fs, s, d, f); }
  }

  lemma {:induction false} StaysAbreast(c: Client, fs: seq<Frame>)
    requires Sound(c) && Live(c) && Turn(c, fs)
    ensures Abreast(ApplyAll(c, fs), Shown(fs))
  {
    if fs != [] {
      var front := fs[..|fs| - 1];
      StaysAbreast(c, front);
      KnowsAfter(c, front);
      ShownKept(c, front);
      AbreastNext(c, front, Shown(front), ApplyAll(c, front), fs[|fs| - 1]);
    }
  }

  lemma {:induction false} LastStatusEdit(s: seq<Frame>, i: nat, y: Frame, status: string, context: string)
    requires i < |s| && !y.StatusIs? && !s[i].StatusIs? && !y.ContextIs? && !s[i].ContextIs?
    ensures LastStatus(s[i := y], status) == LastStatus(s, status)
            && LastContext(s[i := y], context) == LastContext(s, context)
  {
    if i < |s| - 1 {
      assert s[i := y][..|s| - 1] == s[..|s| - 1][i := y];
      LastStatusEdit(s[..|s| - 1], i, y, status, context);
    } else {
      assert s[i := y][..|s| - 1] == s[..|s| - 1];
    }
  }

  lemma {:induction false} LastStatusWithout(s: seq<Frame>, h: Handle, status: string, context: string)
    ensures LastStatus(WithoutProps(s, h), status) == LastStatus(s, status)
            && LastContext(WithoutProps(s, h), context) == LastContext(s, context)
  {
    if s != [] {
      var front, x := s[..|s| - 1], s[|s| - 1];
      assert s == front + [x];
      WithoutPush(front, x, h);
      LastStatusWithout(front, h, status, context);
      if x.Props? && x.handle == h { assert WithoutProps(s, h) == WithoutProps(front, h); }
      else { LastPush(WithoutProps(front, h), x, status, context); }
    }
  }

  lemma LastPush(s: seq<Frame>, x: Frame, status: string, context: string)
    ensures LastStatus(s + [x], status) == if x.StatusIs? then x.status else LastStatus(s, status)
    ensures LastContext(s + [x], context) == if x.ContextIs? then x.context else LastContext(s, context)
  {
    assert (s + [x])[..|s|] == s;
  }

  lemma LastRemembered(s: seq<Frame>, f: Frame, status: string, context: string)
    ensures LastStatus(Remember(s, f), status) == if f.StatusIs? then f.status else LastStatus(s, status)
    ensures LastContext(Remember(s, f), context) == if f.ContextIs? then f.context else LastContext(s, context)
  {
    if f.Delta? || f.Updates? || f.Progresses? {
      var i := StartOf(s, f.id);
      if i < |s| { LastStatusEdit(s, i, s[i].(body := Edited(s[i].body, f)), status, context); }
    } else if f.Opens? && f.revises.Some? && OpenOf(s, f.revises.value) < |s| {
      var i := OpenOf(s, f.revises.value);
      LastStatusEdit(s, i, Standing(s[i], f), status, context);
      LastStatusWithout(s[i := Standing(s[i], f)], f.revises.value, status, context);
    } else {
      LastPush(s, f, status, context);
    }
  }

  lemma StatusAfter(d: Client, f: Frame)
    ensures Apply(d, f).status == if f.StatusIs? then f.status else d.status
    ensures Apply(d, f).context == if f.ContextIs? then f.context else d.context
  {}

  lemma {:induction false} StatusShown(c: Client, fs: seq<Frame>)
    ensures var d := ApplyAll(c, fs);
            LastStatus(Shown(fs), c.status) == d.status && LastContext(Shown(fs), c.context) == d.context
  {
    if fs != [] {
      StatusShown(c, fs[..|fs| - 1]);
      LastRemembered(Shown(fs[..|fs| - 1]), fs[|fs| - 1], c.status, c.context);
      StatusAfter(ApplyAll(c, fs[..|fs| - 1]), fs[|fs| - 1]);
    }
  }

  lemma {:induction false} LastTwice(s: seq<Frame>, status: string, context: string)
    ensures LastStatus(s, LastStatus(s, status)) == LastStatus(s, status)
            && LastContext(s, LastContext(s, context)) == LastContext(s, context)
  {
    if s != [] { LastTwice(s[..|s| - 1], status, context); }
  }

  /** A browser that has applied all of it is sent nothing new. */
  lemma NothingNew(c: Client, fs: seq<Frame>)
    requires Sound(c) && Live(c) && Turn(c, fs)
    ensures var d := ApplyAll(c, fs); Ready(d, Shown(fs)) && ApplyAll(d, Shown(fs)) == d
  {
    var d := ApplyAll(c, fs);
    StaysAbreast(c, fs);
    Absorbs(d, Shown(fs));
    StatusShown(c, fs);
    LastTwice(Shown(fs), c.status, c.context);
    forall g | g in Shown(fs) ensures Full(d, g) {
      assert MirrorsFrame(d, g);
      if g.Starts? { AssignSelf(g.body); }
    }
  }

  // ── and one that has applied a part ────────────────────────────────

  lemma ReadyEdit(fs: seq<Frame>, s: seq<Frame>, t: Client, f: Frame)
    requires Kept(fs, s) && Ready(t, s) && (f.Delta? || f.Updates? || f.Progresses?) && StartOf(s, f.id) < |s|
    ensures Ready(t, FoldEdit(s, f.id, f))
  {
    var g := s[StartOf(s, f.id)];
    assert g in s;
    forall x | x in FoldEdit(s, f.id, f) ensures Placed(t, x) && Full(t, x) {
      RememberedEdit(fs, s, f, x);
      if g.id in t.bodies { EditedFull(t.bodies[g.id], g.body, f); }
    }
  }

  lemma ReadyOpen(c: Client, fs: seq<Frame>, s: seq<Frame>, t: Client, f: Frame)
    requires Kept(fs, s) && Ready(t, s) && MaySend(c, fs, f) && f.Opens? && Fresh(t, fs, f) && Live(t)
             && Upward(t.replacedBy)
    requires f.revises.Some? ==> f.revises.value !in t.replacedBy
    ensures Ready(t, Remember(s, f))
  {
    forall x | x in Remember(s, f) ensures Placed(t, x) && Full(t, x) {
      RememberedOpen(c, fs, s, f, x);
      if !Untouched(s, f, x) {
        if f.revises.Some? { CurrentStops(t.replacedBy, f.revises.value); }
        if x != f { ReadyRevised(fs, s, t, f, OpenOf(s, f.revises.value)); }
      }
    }
  }

  lemma ReadyRevised(fs: seq<Frame>, s: seq<Frame>, t: Client, f: Frame, i: nat)
    requires Kept(fs, s) && Ready(t, s) && i < |s| && s[i].Opens? && Fresh(t, fs, f) && Live(t) && Upward(t.replacedBy)
    requires f.revises == Some(s[i].handle) && f.also == [] && s[i].handle < f.handle
    ensures Placed(t, Standing(s[i], f))
  {
    var g := s[i];
    assert g in s && TidyFrame(fs, g);
    StandingFamily(g, f);
    CurrentStops(t.replacedBy, g.handle);
  }

  /** Ready for what is kept, it stays ready as more is. */
  lemma ReadyNext(c: Client, fs: seq<Frame>, s: seq<Frame>, t: Client, f: Frame)
    requires Kept(fs, s) && Ready(t, s) && MaySend(c, fs, f) && Live(t) && Upward(t.replacedBy)
    requires (f.Opens? ==> Fresh(t, fs, f)) && (f.Opens? && f.revises.Some? ==> f.revises.value !in t.replacedBy)
             && (f.Starts? ==> f.id !in t.bodies)
    ensures Ready(t, Remember(s, f))
  {
    if f.Opens? {
      ReadyOpen(c, fs, s, t, f);
    } else if f.Delta? || f.Updates? || f.Progresses? {
      if StartOf(s, f.id) < |s| { ReadyEdit(fs, s, t, f); }
    }
  }

  /** What the frame just folded may leave awaiting its props. */
  function Opened(f: Frame): set<Handle> { if f.Opens? then {f.handle} else {} }

  /** Folding a frame means applying it. */
  lemma FoldingMeans(c: Client, fs: seq<Frame>, s: seq<Frame>, t: Client, f: Frame)
    requires Kept(fs, s) && Ready(t, s) && MaySend(c, fs, f) && Sound(t) && (f.Opens? ==> Fresh(t, fs, f))
    requires Upward(Apply(ApplyAll(t, s), f).replacedBy)
    ensures Same(Opened(f), ApplyAll(t, Remember(s, f)), Apply(ApplyAll(t, s), f))
  {
    if f.Opens? && f.revises.Some? && OpenOf(s, f.revises.value) < |s| {
      RevisionFolds(c, t, fs, s, f);
    } else if f.Delta? || f.Updates? || f.Progresses? {
      StartFound(s, f.id);
      assert StartKept(s, f.id);
      EditFolds(t, fs, s, f);
    } else {
      ApplyThen(t, s, f);
    }
  }

  lemma {:induction false} TurnPrefix(c: Client, fs: seq<Frame>, p: nat)
    requires Turn(c, fs) && p <= |fs|
    ensures Turn(c, fs[..p])
  {
    if p < |fs| {
      TurnPrefix(c, fs[..|fs| - 1], p);
      assert fs[..|fs| - 1][..p] == fs[..p];
    } else {
      assert fs[..p] == fs;
    }
  }

  lemma {:induction false} SetsPrefix(fs: seq<Frame>, p: nat)
    requires p <= |fs|
    ensures OpenedIn(fs[..p]) <= OpenedIn(fs) && RevisedIn(fs[..p]) <= RevisedIn(fs)
            && StartedIn(fs[..p]) <= StartedIn(fs)
  {
    if p < |fs| {
      SetsPrefix(fs[..|fs| - 1], p);
      assert fs[..|fs| - 1][..p] == fs[..p];
    } else {
      assert fs[..p] == fs;
    }
  }

  /** What a browser that has applied a part of the turn does not know of the next frame. */
  lemma PartKnows(c: Client, fs: seq<Frame>, p: nat, f: Frame)
    requires Sound(c) && Live(c) && Turn(c, fs) && p <= |fs| && MaySend(c, fs, f)
    ensures var t := ApplyAll(c, fs[..p]);
            && Sound(t) && Live(t) && (f.Opens? ==> Fresh(t, fs, f))
            && (f.Opens? && f.revises.Some? ==> f.revises.value !in t.replacedBy) && (f.Starts? ==> f.id !in t.bodies)
  {
    TurnPrefix(c, fs, p);
    KnowsAfter(c, fs[..p]);
    SetsPrefix(fs, p);
  }

  lemma {:induction false} PropsAfterOpens(c: Client, fs: seq<Frame>)
    requires Turn(c, fs)
    ensures PropsIn(fs) <= OpenedIn(fs)
  {
    if fs != [] { PropsAfterOpens(c, fs[..|fs| - 1]); }
  }

  /** Which surfaces still await their props, a frame later. */
  lemma AwaitingNext(c: Client, fs: seq<Frame>, d: Client, x: Client, f: Frame, h: Handle)
    requires Turn(c, fs) && MaySend(c, fs, f) && Knows(c, fs, d) && h in Apply(d, f).surfaces
    requires h in Opened(f) || h in Awaits(AwaitingIn(fs), x, f)
    ensures h in AwaitingIn(fs + [f])
  {
    SetsGrow(fs, f);
    PropsAfterOpens(c, fs);
    if f.Opens? {
      if h != f.handle { StillShown(c, fs, d, f, h); }
      assert h == f.handle || h in AwaitingIn(fs);
    } else {
      assert h in AwaitingIn(fs) && (f.Props? ==> h != f.handle);
    }
  }

  lemma StillShown(c: Client, fs: seq<Frame>, d: Client, f: Frame, h: Handle)
    requires MaySend(c, fs, f) && Knows(c, fs, d) && f.Opens? && h in Apply(d, f).surfaces && h != f.handle
    ensures f.revises != Some(h)
  {
    OpenedByTurn(c, fs, d, f);
  }

  /** One frame more, for a browser that was sent what was kept, and one that saw it all. */
  lemma StillSame(c: Client, fs: seq<Frame>, t: Client, f: Frame)
    requires Sound(c) && Live(c) && Turn(c, fs) && MaySend(c, fs, f) && Kept(fs, Shown(fs)) && Ready(t, Shown(fs))
             && Sound(t)
    requires f.Opens? ==> Fresh(t, fs, f)
    requires Same(AwaitingIn(fs), ApplyAll(t, Shown(fs)), ApplyAll(c, fs))
    ensures Same(AwaitingIn(fs + [f]), ApplyAll(t, Remember(Shown(fs), f)), Apply(ApplyAll(c, fs), f))
  {
    var r, l := ApplyAll(t, Shown(fs)), ApplyAll(c, fs);
    KnowsAfter(c, fs);
    MaySendFits(c, fs, l, f);
    assert !f.Arrives?;
    FitsSame(AwaitingIn(fs), r, l, f);
    ApplySame(AwaitingIn(fs), r, l, f);
    FoldingMeans(c, fs, Shown(fs), t, f);
    SameTrans(Opened(f), Awaits(AwaitingIn(fs), r, f), ApplyAll(t, Remember(Shown(fs), f)), Apply(r, f), Apply(l, f));
    NarrowAwaiting(c, fs, l, r, f, ApplyAll(t, Remember(Shown(fs), f)));
  }

  lemma NarrowAwaiting(c: Client, fs: seq<Frame>, l: Client, r: Client, f: Frame, x: Client)
    requires Turn(c, fs) && MaySend(c, fs, f) && Knows(c, fs, l)
    requires Same(Opened(f) + Awaits(AwaitingIn(fs), r, f), x, Apply(l, f))
    ensures Same(AwaitingIn(fs + [f]), x, Apply(l, f))
  {
    forall h | h in Opened(f) + Awaits(AwaitingIn(fs), r, f) && h in x.surfaces ensures h in AwaitingIn(fs + [f]) {
      AwaitingNext(c, fs, l, r, f, h);
    }
    SameWider(Opened(f) + Awaits(AwaitingIn(fs), r, f), AwaitingIn(fs + [f]), x, Apply(l, f));
  }

  /**
   * Catching up keeps meaning: for every wake turn, and every part of it a browser has applied, being sent what
   * the server kept of it leaves the browser showing what it would after all of it, up to the props of surfaces
   * that still await theirs.
   */
  lemma {:induction false} CatchingUp(c: Client, fs: seq<Frame>, p: nat)
    requires Sound(c) && Live(c) && Turn(c, fs) && p <= |fs|
    ensures Same(AwaitingIn(fs), ApplyAll(ApplyAll(c, fs[..p]), Shown(fs)), ApplyAll(c, fs))
    ensures Ready(ApplyAll(c, fs[..p]), Shown(fs))
    decreases |fs|
  {
    if p == |fs| {
      assert fs[..p] == fs;
      NothingNew(c, fs);
      KnowsAfter(c, fs);
      SameSelf(ApplyAll(c, fs));
      SameWider({}, AwaitingIn(fs), ApplyAll(c, fs), ApplyAll(c, fs));
    } else {
      var front, f := fs[..|fs| - 1], fs[|fs| - 1];
      assert fs == front + [f] && front[..p] == fs[..p];
      CatchingUp(c, front, p);
      ShownKept(c, front);
      PartKnows(c, front, p, f);
      StillSame(c, front, ApplyAll(c, fs[..p]), f);
      ReadyNext(c, front, Shown(front), ApplyAll(c, fs[..p]), f);
    }
  }

  /** And exactly so once every surface has its props. */
  lemma {:induction false} CaughtUp(c: Client, fs: seq<Frame>, p: nat)
    requires Sound(c) && Live(c) && Turn(c, fs) && p <= |fs| && AwaitingIn(fs) == {}
    ensures var x, y := ApplyAll(ApplyAll(c, fs[..p]), Shown(fs)), ApplyAll(c, fs);
            && x.(replacedBy := y.replacedBy) == y
            && forall h :: Current(x.replacedBy, h) == Current(y.replacedBy, h)
  {
    CatchingUp(c, fs, p);
    var x, y := ApplyAll(ApplyAll(c, fs[..p]), Shown(fs)), ApplyAll(c, fs);
    assert x.surfaces == y.surfaces;
  }

  // ── browsers that a stream can reach ───────────────────────────────

  /** `of` says which surface each handle is of. A browser shows one handle of each at most. */
  ghost predicate OneOfEach(c: Client, of: Handle -> nat) {
    forall g, h | g in c.surfaces && h in c.surfaces && of(g) == of(h) :: g == h
  }

  /**
   * A revision is of the surface it revises, and, where it is news, names the handle of it this browser still shows.
   */
  predicate Follows(c: Client, f: Frame, of: Handle -> nat) {
    f.Opens? ==>
      && (forall k | k in Family(f) :: k <= f.handle && of(k) == of(f.handle))
      && (f.handle !in c.surfaces && f.handle !in c.replacedBy ==>
            forall g | g in c.surfaces && of(g) == of(f.handle) :: g in Family(f))
  }

  /** Each surface's revisions come in order, from whatever streams; its original may come at any point. */
  ghost predicate Orderly(fs: seq<Frame>, of: Handle -> nat) {
    fs == [] || (Orderly(fs[..|fs| - 1], of) && Follows(ApplyAll(NEW_CLIENT, fs[..|fs| - 1]), fs[|fs| - 1], of))
  }

  lemma FollowsOne(c: Client, f: Frame, of: Handle -> nat)
    requires OneOfEach(c, of) && Follows(c, f, of) && f.Opens? && f.handle !in c.surfaces && f.handle !in c.replacedBy
    ensures OneOfEach(Apply(c, f), of)
  {
    OpenedIs(c, f);
    var e := Seated(c, f);
    assert forall h | h in c.surfaces && of(h) == of(f.handle) ::
           h in Family(f) && FirstKnown(c.surfaces, Family(f)) == Some(h);
    assert forall h | h in e.surfaces && h != f.handle :: h in c.surfaces && of(h) != of(f.handle);
  }

  lemma FollowsNext(c: Client, f: Frame, of: Handle -> nat)
    requires OneOfEach(c, of) && Live(c) && Follows(c, f, of)
    ensures OneOfEach(Apply(c, f), of) && Live(Apply(c, f)) && Issues(f)
  {
    if f.Opens? {
      if f.handle !in c.surfaces && f.handle !in c.replacedBy { FollowsOne(c, f, of); }
      assert Lone(c.surfaces, Family(f));
    }
    StaysLive(c, f);
  }

  lemma {:induction false} ReachedIsLive(fs: seq<Frame>, of: Handle -> nat)
    requires Orderly(fs, of)
    ensures OneOfEach(ApplyAll(NEW_CLIENT, fs), of) && Live(ApplyAll(NEW_CLIENT, fs)) && forall f | f in fs :: Issues(f)
  {
    if fs != [] {
      var front, f := fs[..|fs| - 1], fs[|fs| - 1];
      ReachedIsLive(front, of);
      FollowsNext(ApplyAll(NEW_CLIENT, front), f, of);
      assert fs == front + [f];
    }
  }

  /**
   * So every browser that any orderly stream reaches catches up with any wake turn, whatever part of it it has applied.
   */
  lemma {:induction false} ReachedCatchesUp(heard: seq<Frame>, of: Handle -> nat, fs: seq<Frame>, p: nat)
    requires Orderly(heard, of) && p <= |fs|
    requires var c := ApplyAll(NEW_CLIENT, heard); Turn(c, fs)
    ensures var c := ApplyAll(NEW_CLIENT, heard);
            && Same(AwaitingIn(fs), ApplyAll(ApplyAll(c, fs[..p]), Shown(fs)), ApplyAll(c, fs))
            && (AwaitingIn(fs) == {} ==>
                  var x, y := ApplyAll(ApplyAll(c, fs[..p]), Shown(fs)), ApplyAll(c, fs);
                  x.(replacedBy := y.replacedBy) == y && forall h ::
                    Current(x.replacedBy, h) == Current(y.replacedBy, h))
  {
    var c := ApplyAll(NEW_CLIENT, heard);
    ReachedIsLive(heard, of);
    TranscriptStaysInOrder(heard);
    CatchingUp(c, fs, p);
    if AwaitingIn(fs) == {} { CaughtUp(c, fs, p); }
  }
}
