/** The frames a wake turn sends, and what is kept of them. */
module WakeTurns {
  import opened History
  import opened Conversations
  import opened Orders
  import opened Transcripts
  import opened TranscriptOrder
  import opened Rejoining
  import opened Merging
  import opened Commuting

  // ── a wake turn's frames ───────────────────────────────────────────

  function OpenedIn(fs: seq<Frame>): set<Handle> {
    if fs == [] then {} else OpenedIn(fs[..|fs| - 1]) + if fs[|fs| - 1].Opens? then {fs[|fs| - 1].handle} else {}
  }

  function RevisedIn(fs: seq<Frame>): set<Handle> {
    if fs == [] then {}
    else
      RevisedIn(fs[..|fs| - 1]) + if fs[|fs| - 1].Opens? && fs[|fs| - 1].revises.Some?
        then {fs[|fs| - 1].revises.value} else {}
  }

  function StartedIn(fs: seq<Frame>): set<string> {
    if fs == [] then {} else StartedIn(fs[..|fs| - 1]) + if fs[|fs| - 1].Starts? then {fs[|fs| - 1].id} else {}
  }

  function AnsweredIn(fs: seq<Frame>): set<Handle> {
    if fs == [] then {} else AnsweredIn(fs[..|fs| - 1]) + if fs[|fs| - 1].Stands? then {fs[|fs| - 1].handle} else {}
  }

  function PropsIn(fs: seq<Frame>): set<Handle> {
    if fs == [] then {} else PropsIn(fs[..|fs| - 1]) + if fs[|fs| - 1].Props? then {fs[|fs| - 1].handle} else {}
  }

  /** Surfaces shown whose props have not come. */
  function AwaitingIn(fs: seq<Frame>): set<Handle> { OpenedIn(fs) - RevisedIn(fs) - PropsIn(fs) }

  function ShownIn(fs: seq<Frame>): set<Handle> { OpenedIn(fs) - RevisedIn(fs) }

  /**
   * A frame a wake turn may send next: its blocks and surfaces are new, to it and to the browser; what it edits
   * it started; and it revises a surface once, in its own mode, before its question is answered.
   */
  ghost predicate MaySend(c: Client, fs: seq<Frame>, f: Frame) {
    match f
    case Arrives(_) => false
    case Starts(id, _) => id !in c.bodies && id !in StartedIn(fs)
    case Delta(id, _) => id in StartedIn(fs)
    case Updates(id, _, _) => id in StartedIn(fs)
    case Progresses(id, _) => id in StartedIn(fs)
    case Opens(h, shape, _, revises, also) =>
      && also == []
      && h !in c.surfaces && h !in c.replacedBy && h !in OpenedIn(fs) && h !in RevisedIn(fs)
      && (revises.Some? ==>
            && revises.value < h && revises.value !in c.replacedBy && revises.value !in RevisedIn(fs)
               && revises.value !in AnsweredIn(fs)
            && (forall g | g in fs && g.Opens? && g.handle == revises.value :: g.shape.mode == shape.mode))
    case Props(h, _) => h in ShownIn(fs) && h !in PropsIn(fs)
    case Stands(h, _, _) => h in ShownIn(fs) && h !in AnsweredIn(fs)
    case _ => true
  }

  ghost predicate Turn(c: Client, fs: seq<Frame>) {
    fs == [] || (Turn(c, fs[..|fs| - 1]) && MaySend(c, fs[..|fs| - 1], fs[|fs| - 1]))
  }

  // ── what is kept is tidy ───────────────────────────────────────────

  ghost predicate TidyFrame(fs: seq<Frame>, g: Frame) {
    match g
    case Starts(id, _) => id in StartedIn(fs)
    case Opens(h, _, _, _, _) => h in ShownIn(fs) && (forall k | k in Family(g) :: k in RevisedIn(fs) && k < h)
    case Props(h, _) => h in ShownIn(fs) && h in PropsIn(fs)
    case Stands(h, _, _) => h in ShownIn(fs) && h in AnsweredIn(fs)
    case StatusIs(_) => true
    case ContextIs(_) => true
    case Released => true
    case _ => false
  }

  ghost predicate Unrelated(g: Frame, x: Frame)
    requires g.Opens? && x.Opens?
  {
    g.handle != x.handle && forall k | k in Family(g) :: k !in Family(x)
  }

  ghost predicate Tidy(fs: seq<Frame>, s: seq<Frame>) {
    && (forall g | g in s :: TidyFrame(fs, g))
    && (forall g, x | g in s && x in s && g.Opens? && x.Opens? && g != x :: Unrelated(g, x))
    && (forall g, x | g in s && x in s && g.Starts? && x.Starts? && g != x :: g.id != x.id)
    && (forall g | g in s && (g.Starts? || g.Opens?) :: multiset(s)[g] == 1)
  }

  lemma SetsGrow(fs: seq<Frame>, f: Frame)
    ensures OpenedIn(fs + [f]) == OpenedIn(fs) + if f.Opens? then {f.handle} else {}
    ensures RevisedIn(fs + [f]) == RevisedIn(fs) + if f.Opens? && f.revises.Some? then {f.revises.value} else {}
    ensures StartedIn(fs + [f]) == StartedIn(fs) + if f.Starts? then {f.id} else {}
    ensures AnsweredIn(fs + [f]) == AnsweredIn(fs) + if f.Stands? then {f.handle} else {}
    ensures PropsIn(fs + [f]) == PropsIn(fs) + if f.Props? then {f.handle} else {}
  {
    assert (fs + [f])[..|fs|] == fs;
  }

  lemma {:induction false} StartFound(s: seq<Frame>, id: string)
    ensures StartOf(s, id) == |s| ==> forall g | g in s :: !(g.Starts? && g.id == id)
  {
    if s != [] { StartFound(s[1..], id); }
  }

  lemma {:induction false} OpenFound(s: seq<Frame>, h: Handle)
    ensures OpenOf(s, h) == |s| ==> forall g | g in s :: !(g.Opens? && g.handle == h)
  {
    if s != [] { OpenFound(s[1..], h); }
  }

  lemma {:induction false} WithoutCounts(s: seq<Frame>, h: Handle, x: Frame)
    ensures multiset(WithoutProps(s, h))[x] == if x.Props? && x.handle == h then 0 else multiset(s)[x]
  {
    if s != [] {
      assert s == [s[0]] + s[1..];
      WithoutCounts(s[1..], h, x);
    }
  }

  lemma FrameIn(s: seq<Frame>, x: Frame)
    ensures x in s <==> multiset(s)[x] > 0
  {
    assert x in s <==> x in multiset(s);
  }

  lemma {:induction false} WithoutHas(s: seq<Frame>, h: Handle)
    ensures forall x :: x in WithoutProps(s, h) <==> x in s && !(x.Props? && x.handle == h)
  {
    forall x ensures x in WithoutProps(s, h) <==> x in s && !(x.Props? && x.handle == h) {
      WithoutCounts(s, h, x);
      FrameIn(s, x);
      FrameIn(WithoutProps(s, h), x);
    }
  }

  lemma TidyFrameGrows(c: Client, fs: seq<Frame>, f: Frame, g: Frame)
    requires TidyFrame(fs, g) && MaySend(c, fs, f)
             && (f.Opens? && f.revises.Some? && (g.Opens? || g.Props?) ==> g.handle != f.revises.value)
    ensures TidyFrame(fs + [f], g)
  {
    SetsGrow(fs, f);
  }

  lemma TidyPush(c: Client, fs: seq<Frame>, s: seq<Frame>, f: Frame)
    requires Tidy(fs, s) && MaySend(c, fs, f) && !f.Delta? && !f.Updates? && !f.Progresses?
    requires f.Opens? && f.revises.Some? ==> forall g | g in s && (g.Opens? || g.Props?) :: g.handle != f.revises.value
    ensures Tidy(fs + [f], s + [f])
  {
    forall g | g in s ensures TidyFrame(fs + [f], g) { TidyFrameGrows(c, fs, f, g); }
    TidyNew(c, fs, s, f);
  }

  lemma TidyNew(c: Client, fs: seq<Frame>, s: seq<Frame>, f: Frame)
    requires Tidy(fs, s) && MaySend(c, fs, f) && !f.Delta? && !f.Updates? && !f.Progresses?
    requires f.Opens? && f.revises.Some? ==> forall g | g in s && (g.Opens? || g.Props?) :: g.handle != f.revises.value
    ensures TidyFrame(fs + [f], f) && (f in s ==> !f.Starts? && !f.Opens?)
    ensures f.Opens? ==> forall g | g in s && g.Opens? :: Unrelated(g, f) && Unrelated(f, g)
    ensures f.Starts? ==> forall g | g in s && g.Starts? :: g.id != f.id
  {
    SetsGrow(fs, f);
    forall g | g in s ensures TidyFrame(fs, g) {}
  }

  /** A frame of the list, changed where it stands. */
  lemma ReplacedHas(s: seq<Frame>, i: nat, y: Frame)
    requires i < |s| && multiset(s)[s[i]] == 1 && y !in s
    ensures forall x :: x in s[i := y] <==> x == y || (x in s && x != s[i])
    ensures forall x :: multiset(s[i := y])[x] == if x == y then 1 else if x == s[i] then 0 else multiset(s)[x]
  {
    assert multiset(s[i := y]) == multiset(s)[s[i] := 0][y := 1];
    forall x ensures x in s[i := y] <==> x == y || (x in s && x != s[i]) { FrameIn(s[i := y], x); FrameIn(s, x); }
  }

  /** Every block started and every surface shown is kept. */
  ghost predicate Covering(fs: seq<Frame>, s: seq<Frame>) {
    && (forall id | id in StartedIn(fs) :: StartKept(s, id))
    && (forall h | h in ShownIn(fs) :: OpenKept(s, h))
  }

  ghost predicate StartKept(s: seq<Frame>, id: string) { exists g :: g in s && g.Starts? && g.id == id }

  ghost predicate OpenKept(s: seq<Frame>, h: Handle) { exists g :: g in s && g.Opens? && g.handle == h }

  lemma EditKeepsSets(fs: seq<Frame>, f: Frame)
    requires f.Delta? || f.Updates? || f.Progresses?
    ensures OpenedIn(fs + [f]) == OpenedIn(fs) && RevisedIn(fs + [f]) == RevisedIn(fs)
            && StartedIn(fs + [f]) == StartedIn(fs)
    ensures AnsweredIn(fs + [f]) == AnsweredIn(fs) && PropsIn(fs + [f]) == PropsIn(fs)
  {
    SetsGrow(fs, f);
  }

  lemma TidyEdit(c: Client, fs: seq<Frame>, s: seq<Frame>, id: string, f: Frame)
    requires Tidy(fs, s) && Covering(fs, s) && (f.Delta? || f.Updates? || f.Progresses?) && f.id == id
    ensures Tidy(fs + [f], FoldEdit(s, id, f)) && Covering(fs + [f], FoldEdit(s, id, f))
  {
    var i := StartOf(s, id);
    if i < |s| {
      var y := s[i].(body := Edited(s[i].body, f));
      if y == s[i] { assert s[i := y] == s; } else { TidyEditAt(fs, s, i, y); }
    }
    EditKeepsSets(fs, f);
    TidySets(fs, fs + [f], FoldEdit(s, id, f));
  }

  lemma TidySets(fs: seq<Frame>, gs: seq<Frame>, s: seq<Frame>)
    requires Tidy(fs, s) && Covering(fs, s)
    requires OpenedIn(gs) == OpenedIn(fs) && RevisedIn(gs) == RevisedIn(fs) && StartedIn(gs) == StartedIn(fs)
    requires AnsweredIn(gs) == AnsweredIn(fs) && PropsIn(gs) == PropsIn(fs)
    ensures Tidy(gs, s) && Covering(gs, s)
  {
    forall g | g in s ensures TidyFrame(gs, g) { assert TidyFrame(fs, g); }
  }

  lemma TidyEditAt(fs: seq<Frame>, s: seq<Frame>, i: nat, y: Frame)
    requires Tidy(fs, s) && Covering(fs, s) && i < |s| && s[i].Starts? && y.Starts? && y.id == s[i].id && y != s[i]
    ensures Tidy(fs, s[i := y]) && Covering(fs, s[i := y])
  {
    assert s[i] in s;
    ReplacedHas(s, i, y);
    forall id | id in StartedIn(fs) ensures StartKept(s[i := y], id) {
      var g :| g in s && g.Starts? && g.id == id;
      assert (if g == s[i] then y else g) in s[i := y];
    }
    forall h | h in ShownIn(fs) ensures OpenKept(s[i := y], h) {
      var g :| g in s && g.Opens? && g.handle == h;
      assert g in s[i := y];
    }
  }

  lemma CoveringPush(fs: seq<Frame>, s: seq<Frame>, f: Frame)
    requires Covering(fs, s)
    ensures Covering(fs + [f], s + [f])
  {
    SetsGrow(fs, f);
    forall id | id in StartedIn(fs + [f]) ensures StartKept(s + [f], id) {
      if id in StartedIn(fs) {
        var g :| g in s && g.Starts? && g.id == id;
        assert g in s + [f];
      } else {
        assert f in s + [f];
      }
    }
    forall h | h in ShownIn(fs + [f]) ensures OpenKept(s + [f], h) {
      if h in ShownIn(fs) {
        var g :| g in s && g.Opens? && g.handle == h;
        assert g in s + [f];
      } else {
        assert f in s + [f];
      }
    }
  }

  /** The frames kept after a revision of a surface this turn showed. */
  lemma RevisedHas(fs: seq<Frame>, s: seq<Frame>, i: nat, f: Frame)
    requires Tidy(fs, s) && i < |s| && s[i].Opens? && f.Opens? && f.revises == Some(s[i].handle)
             && f.handle !in ShownIn(fs)
    ensures var y := Standing(s[i], f);
            && y !in s
            && (forall x :: x in FoldAt(s, i, f) <==>
               x == y || (x in s && x != s[i] && !(x.Props? && x.handle == s[i].handle)))
            && (forall x | x in FoldAt(s, i, f) && (x.Starts? || x.Opens?) :: multiset(FoldAt(s, i, f))[x] == if x == y
               then 1 else multiset(s)[x])
  {
    var y := Standing(s[i], f);
    assert s[i] in s;
    ReplacedHas(s, i, y);
    WithoutHas(s[i := y], s[i].handle);
    forall x | x in FoldAt(s, i, f) && (x.Starts? || x.Opens?) ensures multiset(FoldAt(s, i, f))[x] == if x == y then 1
      else multiset(s)[x] {
      WithoutCounts(s[i := y], s[i].handle, x);
    }
  }

  function FoldAt(s: seq<Frame>, i: nat, f: Frame): seq<Frame>
    requires i < |s| && s[i].Opens? && f.Opens?
  {
    WithoutProps(s[i := Standing(s[i], f)], s[i].handle)
  }

  lemma TidyStanding(c: Client, fs: seq<Frame>, g: Frame, f: Frame)
    requires TidyFrame(fs, g) && g.Opens? && MaySend(c, fs, f) && f.Opens? && f.revises == Some(g.handle)
    ensures TidyFrame(fs + [f], Standing(g, f))
  {
    SetsGrow(fs, f);
    StandingFamily(g, f);
  }

  lemma TidyRevise(c: Client, fs: seq<Frame>, s: seq<Frame>, i: nat, f: Frame)
    requires Tidy(fs, s) && MaySend(c, fs, f) && i < |s| && s[i].Opens? && f.Opens? && f.revises == Some(s[i].handle)
    ensures Tidy(fs + [f], FoldAt(s, i, f))
  {
    var g, y, t := s[i], Standing(s[i], f), FoldAt(s, i, f);
    assert g in s;
    SetsGrow(fs, f);
    RevisedHas(fs, s, i, f);
    StandingFamily(g, f);
    TidyStanding(c, fs, g, f);
    forall x | x in t ensures TidyFrame(fs + [f], x) {
      if x != y {
        assert x in s;
        if x.Opens? { assert Unrelated(g, x); }
        TidyFrameGrows(c, fs, f, x);
      }
    }
    forall x, z | x in t && z in t && x.Opens? && z.Opens? && x != z ensures Unrelated(x, z) {
      TidyRelated(fs, s, g, f, x, z);
    }
  }

  lemma TidyRelated(fs: seq<Frame>, s: seq<Frame>, g: Frame, f: Frame, x: Frame, z: Frame)
    requires Tidy(fs, s) && g in s && g.Opens? && f.Opens? && f.revises == Some(g.handle) && f.also == []
    requires f.handle !in ShownIn(fs) && f.handle !in RevisedIn(fs)
    requires (x == Standing(g, f) || (x in s && x != g)) && (z == Standing(g, f) || (z in s && z != g)) && x.Opens?
             && z.Opens? && x != z
    ensures Unrelated(x, z)
  {
    StandingFamily(g, f);
    assert TidyFrame(fs, g);
    if x in s { assert TidyFrame(fs, x); if x != g { assert Unrelated(g, x); } }
    if z in s { assert TidyFrame(fs, z); if z != g { assert Unrelated(g, z); } }
  }

  lemma StaysAfterRevision(fs: seq<Frame>, s: seq<Frame>, i: nat, f: Frame, g: Frame)
    requires Tidy(fs, s) && i < |s| && s[i].Opens? && f.Opens? && f.revises == Some(s[i].handle)
             && f.handle !in ShownIn(fs)
    requires g == Standing(s[i], f) || (g in s && g != s[i] && !g.Props?)
    ensures g in FoldAt(s, i, f)
  {
    RevisedHas(fs, s, i, f);
  }

  lemma CoveringRevise(c: Client, fs: seq<Frame>, s: seq<Frame>, i: nat, f: Frame)
    requires Tidy(fs, s) && Covering(fs, s) && MaySend(c, fs, f) && i < |s| && s[i].Opens? && f.Opens?
             && f.revises == Some(s[i].handle)
    ensures Covering(fs + [f], FoldAt(s, i, f))
  {
    var t := FoldAt(s, i, f);
    SetsGrow(fs, f);
    forall id | id in StartedIn(fs + [f]) ensures StartKept(t, id) {
      assert StartKept(s, id);
      var g :| g in s && g.Starts? && g.id == id;
      StaysAfterRevision(fs, s, i, f, g);
    }
    forall h | h in ShownIn(fs + [f]) ensures OpenKept(t, h) {
      if h == f.handle {
        StaysAfterRevision(fs, s, i, f, Standing(s[i], f));
      } else {
        assert OpenKept(s, h);
        var g :| g in s && g.Opens? && g.handle == h;
        StaysAfterRevision(fs, s, i, f, g);
      }
    }
  }

  lemma TidyRemember(c: Client, fs: seq<Frame>, s: seq<Frame>, f: Frame)
    requires Tidy(fs, s) && Covering(fs, s) && MaySend(c, fs, f)
    ensures Tidy(fs + [f], Remember(s, f)) && Covering(fs + [f], Remember(s, f))
  {
    if f.Delta? || f.Updates? || f.Progresses? {
      TidyEdit(c, fs, s, f.id, f);
    } else if f.Opens? && f.revises.Some? && OpenOf(s, f.revises.value) < |s| {
      TidyRevise(c, fs, s, OpenOf(s, f.revises.value), f);
      CoveringRevise(c, fs, s, OpenOf(s, f.revises.value), f);
    } else {
      if f.Opens? && f.revises.Some? { NotShownNotKept(fs, s, f.revises.value); }
      TidyPush(c, fs, s, f);
      CoveringPush(fs, s, f);
    }
  }

  lemma NotShownNotKept(fs: seq<Frame>, s: seq<Frame>, h: Handle)
    requires Tidy(fs, s) && Covering(fs, s) && OpenOf(s, h) == |s|
    ensures forall g | g in s && (g.Opens? || g.Props?) :: g.handle != h
  {
    OpenFound(s, h);
    assert !OpenKept(s, h);
  }

  // ── props follow the surface they are for ──────────────────────────

  ghost predicate Sequenced(s: seq<Frame>, but: set<Handle>) {
    s == [] ||
    (var x := s[|s| - 1];
     Sequenced(s[..|s| - 1], but) && (x.Props? && x.handle !in but ==> OpenKept(s[..|s| - 1], x.handle)))
  }

  lemma SequencedPush(s: seq<Frame>, but: set<Handle>, x: Frame)
    requires Sequenced(s, but) && (x.Props? && x.handle !in but ==> OpenKept(s, x.handle))
    ensures Sequenced(s + [x], but)
  {
    assert (s + [x])[..|s|] == s;
  }

  lemma OpenKeptReplaced(s: seq<Frame>, i: nat, y: Frame, h: Handle)
    requires i < |s| && OpenKept(s, h)
    requires s[i].Opens? && s[i].handle == h ==> y.Opens? && y.handle == h
    ensures OpenKept(s[i := y], h)
  {
    var g :| g in s && g.Opens? && g.handle == h;
    var j :| 0 <= j < |s| && s[j] == g;
    assert s[i := y][j] in s[i := y];
  }

  lemma {:induction false} SequencedReplaced(s: seq<Frame>, i: nat, y: Frame, but: set<Handle>)
    requires Sequenced(s, {}) && i < |s| && !y.Props?
    requires s[i].Opens? ==> s[i].handle in but
    ensures Sequenced(s[i := y], but)
  {
    var front, x := s[..|s| - 1], s[|s| - 1];
    if i == |s| - 1 {
      assert s[i := y] == front + [y];
      SequencedLess(front, but);
      SequencedPush(front, but, y);
    } else {
      assert s[i := y] == front[i := y] + [x];
      SequencedReplaced(front, i, y, but);
      if x.Props? && x.handle !in but { OpenKeptReplaced(front, i, y, x.handle); }
      SequencedPush(front[i := y], but, x);
    }
  }

  lemma {:induction false} SequencedLess(s: seq<Frame>, but: set<Handle>)
    requires Sequenced(s, {})
    ensures Sequenced(s, but)
  {
    if s != [] { SequencedLess(s[..|s| - 1], but); }
  }

  lemma {:induction false} WithoutPush(s: seq<Frame>, x: Frame, h: Handle)
    ensures WithoutProps(s + [x], h) == WithoutProps(s, h) + if x.Props? && x.handle == h then [] else [x]
  {
    var last := if x.Props? && x.handle == h then [] else [x];
    if s == [] {
      assert s + [x] == [x] + [];
      WithoutHead(x, [], h);
    } else {
      assert s + [x] == [s[0]] + (s[1..] + [x]);
      WithoutHead(s[0], s[1..] + [x], h);
      WithoutPush(s[1..], x, h);
      var head := if s[0].Props? && s[0].handle == h then [] else [s[0]];
      assert head + (WithoutProps(s[1..], h) + last) == head + WithoutProps(s[1..], h) + last;
    }
  }

  lemma WithoutHead(x: Frame, s: seq<Frame>, h: Handle)
    ensures WithoutProps([x] + s, h) == (if x.Props? && x.handle == h then [] else [x]) + WithoutProps(s, h)
  {
    assert ([x] + s)[1..] == s;
  }

  lemma {:induction false} SequencedWithout(s: seq<Frame>, h: Handle)
    requires Sequenced(s, {h})
    ensures Sequenced(WithoutProps(s, h), {})
  {
    if s != [] {
      var front, x := s[..|s| - 1], s[|s| - 1];
      assert s == front + [x];
      WithoutPush(front, x, h);
      SequencedWithout(front, h);
      if x.Props? && x.handle != h {
        var g :| g in front && g.Opens? && g.handle == x.handle;
        WithoutHas(front, h);
        assert g in WithoutProps(front, h);
      }
      if x.Props? && x.handle == h { assert WithoutProps(s, h) == WithoutProps(front, h); }
      else { SequencedPush(WithoutProps(front, h), {}, x); }
    }
  }

  lemma SequencedRemember(c: Client, fs: seq<Frame>, s: seq<Frame>, f: Frame)
    requires Tidy(fs, s) && Covering(fs, s) && Sequenced(s, {}) && MaySend(c, fs, f)
    ensures Sequenced(Remember(s, f), {})
  {
    if f.Delta? || f.Updates? || f.Progresses? {
      var i := StartOf(s, f.id);
      if i < |s| { SequencedReplaced(s, i, s[i].(body := Edited(s[i].body, f)), {}); }
    } else if f.Opens? && f.revises.Some? && OpenOf(s, f.revises.value) < |s| {
      var i := OpenOf(s, f.revises.value);
      SequencedReplaced(s, i, Standing(s[i], f), {f.revises.value});
      SequencedWithout(s[i := Standing(s[i], f)], f.revises.value);
    } else {
      if f.Props? { assert OpenKept(s, f.handle); }
      SequencedPush(s, {}, f);
    }
  }

  /** Each surface is kept as it was last sent. */
  ghost predicate AsSent(fs: seq<Frame>, s: seq<Frame>) {
    forall g | g in s && g.Opens? :: exists x :: x in fs && x.Opens? && x.handle == g.handle && x.shape == g.shape
  }

  lemma AsSentRemember(fs: seq<Frame>, s: seq<Frame>, f: Frame)
    requires AsSent(fs, s)
    ensures AsSent(fs + [f], Remember(s, f))
  {
    forall g | g in Remember(s, f) && g.Opens? ensures exists x ::
      x in fs + [f] && x.Opens? && x.handle == g.handle && x.shape == g.shape {
      if g in s {
        var x :| x in fs && x.Opens? && x.handle == g.handle && x.shape == g.shape;
        assert x in fs + [f];
      } else {
        NewlyKept(s, f, g);
        assert f in fs + [f];
      }
    }
  }

  lemma NewlyKept(s: seq<Frame>, f: Frame, g: Frame)
    requires g in Remember(s, f) && g !in s && g.Opens?
    ensures f.Opens? && g.handle == f.handle && g.shape == f.shape
  {
    if f.Opens? && f.revises.Some? && OpenOf(s, f.revises.value) < |s| {
      WithoutHas(s[OpenOf(s, f.revises.value) := Standing(s[OpenOf(s, f.revises.value)], f)], f.revises.value);
    }
  }

  /** What is kept of a wake turn. */
  ghost predicate Kept(fs: seq<Frame>, s: seq<Frame>) {
    Tidy(fs, s) && Covering(fs, s) && Sequenced(s, {}) && AsSent(fs, s)
  }

  lemma KeptRemember(c: Client, fs: seq<Frame>, s: seq<Frame>, f: Frame)
    requires Kept(fs, s) && MaySend(c, fs, f)
    ensures Kept(fs + [f], Remember(s, f))
  {
    TidyRemember(c, fs, s, f);
    SequencedRemember(c, fs, s, f);
    AsSentRemember(fs, s, f);
  }

  lemma {:induction false} ShownKept(c: Client, fs: seq<Frame>)
    requires Turn(c, fs)
    ensures Kept(fs, Shown(fs))
  {
    if fs != [] {
      var front := fs[..|fs| - 1];
      assert front + [fs[|fs| - 1]] == fs;
      ShownKept(c, front);
      KeptRemember(c, front, Shown(front), fs[|fs| - 1]);
    }
  }
}
