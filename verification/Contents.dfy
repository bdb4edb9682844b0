/** What a stream's blocks and surfaces come to: streamed text whole and in order, each row and surface as last told. */
module Contents {
  import opened History
  import opened Conversations
  import opened Orders
  import opened Transcripts
  import opened Rejoining

  // ── what was sent ──────────────────────────────────────────────────

  /** The text streamed into a block, in the order sent. */
  function Said(fs: seq<Frame>, id: string): string {
    if fs == [] then ""
    else
      var f := fs[|fs| - 1];
      Said(fs[..|fs| - 1], id) + if f.Delta? && f.id == id then f.text else ""
  }

  /** The last of the updates of a tool's row. */
  function LastUpdate(fs: seq<Frame>, id: string): (r: Option<Frame>)
    ensures r.Some? ==> r.value.Updates?
  {
    if fs == [] then None
    else
      var f := fs[|fs| - 1];
      if f.Updates? && f.id == id then Some(f) else LastUpdate(fs[..|fs| - 1], id)
  }

  /** The last value sent of a field of a tool's progress. */
  function LastValue(fs: seq<Frame>, id: string, key: string): Option<string> {
    if fs == [] then None
    else
      var f := fs[|fs| - 1];
      if f.Progresses? && f.id == id && key in f.fields then Some(f.fields[key])
      else LastValue(fs[..|fs| - 1], id, key)
  }

  predicate StartsIn(fs: seq<Frame>, id: string) { exists f | f in fs :: f.Starts? && f.id == id }

  predicate ProgressIn(fs: seq<Frame>, id: string) { exists f | f in fs :: f.Progresses? && f.id == id }

  // ── what a block comes to ──────────────────────────────────────────

  /** A row with each field of its progress as it started, or as last sent. */
  ghost predicate ProgressIs(was: Option<map<string, string>>, fs: seq<Frame>, id: string,
    now: Option<map<string, string>>) {
    && (now.Some? <==> was.Some? || ProgressIn(fs, id))
    && (now.Some? ==> forall key ::
          (match LastValue(fs, id, key)
           case Some(v) => key in now.value && now.value[key] == v
           case None => (key in now.value <==> was.Some? && key in was.value)
                        && (key in now.value ==> now.value[key] == was.value[key])))
  }

  ghost predicate RowIs(name: string, status: string, outcome: Option<Outcome>, progress: Option<map<string, string>>,
    fs: seq<Frame>, id: string, now: Body) {
    && now.Call? && now.name == name
    && (match LastUpdate(fs, id)
        case Some(u) => now.status == u.status && now.outcome == Some(u.outcome)
        case None => now.status == status && now.outcome == outcome)
    && ProgressIs(progress, fs, id, now.progress)
  }

  ghost predicate ComesTo(start: Body, fs: seq<Frame>, id: string, now: Body) {
    match start
    case Prose(text) => now == Prose(text + Said(fs, id))
    case Call(name, status, outcome, progress) => RowIs(name, status, outcome, progress, fs, id, now)
  }

  predicate Edits(f: Frame, id: string) { (f.Delta? || f.Updates? || f.Progresses?) && f.id == id }

  lemma OneMore(fs: seq<Frame>, f: Frame)
    ensures (fs + [f])[..|fs|] == fs && forall g :: g in fs + [f] <==> g in fs || g == f
  {}

  lemma {:induction false} NoValue(fs: seq<Frame>, id: string, key: string)
    requires !ProgressIn(fs, id)
    ensures LastValue(fs, id, key) == None
  {
    if fs != [] {
      assert fs[|fs| - 1] in fs;
      forall f | f in fs[..|fs| - 1] ensures f in fs {}
      NoValue(fs[..|fs| - 1], id, key);
    }
  }

  lemma ProgressOn(was: Option<map<string, string>>, fs: seq<Frame>, id: string, now: Option<map<string, string>>,
    fields: map<string, string>)
    requires ProgressIs(was, fs, id, now)
    ensures ProgressIs(was, fs + [Progresses(id, fields)], id, Merged(now, fields))
  {
    OneMore(fs, Progresses(id, fields));
    assert Progresses(id, fields) in fs + [Progresses(id, fields)];
    forall key ensures now.None? ==> LastValue(fs, id, key) == None {
      if now.None? { NoValue(fs, id, key); }
    }
  }

  lemma ProgressPast(was: Option<map<string, string>>, fs: seq<Frame>, id: string, now: Option<map<string, string>>,
    f: Frame)
    requires ProgressIs(was, fs, id, now) && !(f.Progresses? && f.id == id)
    ensures ProgressIs(was, fs + [f], id, now)
  {
    OneMore(fs, f);
  }

  lemma EditOn(start: Body, fs: seq<Frame>, id: string, now: Body, f: Frame)
    requires ComesTo(start, fs, id, now) && Edits(f, id)
    ensures ComesTo(start, fs + [f], id, Edited(now, f))
  {
    OneMore(fs, f);
    if start.Call? {
      if f.Progresses? { ProgressOn(start.progress, fs, id, now.progress, f.fields); }
      else { ProgressPast(start.progress, fs, id, now.progress, f); }
    }
  }

  lemma EditPast(start: Body, fs: seq<Frame>, id: string, now: Body, f: Frame)
    requires ComesTo(start, fs, id, now) && !Edits(f, id)
    ensures ComesTo(start, fs + [f], id, now)
  {
    OneMore(fs, f);
    if start.Call? { ProgressPast(start.progress, fs, id, now.progress, f); }
  }

  /** What the frames that edit a block make of it, one by one. */
  function EditedBy(body: Body, fs: seq<Frame>, id: string): Body {
    if fs == [] then body
    else
      var f, now := fs[|fs| - 1], EditedBy(body, fs[..|fs| - 1], id);
      if Edits(f, id) then Edited(now, f) else now
  }

  lemma {:induction false} EditsComeTo(start: Body, fs: seq<Frame>, id: string)
    ensures ComesTo(start, fs, id, EditedBy(start, fs, id))
  {
    if fs == [] {
      assert !ProgressIn(fs, id);
    } else {
      var before, f := fs[..|fs| - 1], fs[|fs| - 1];
      assert fs == before + [f];
      EditsComeTo(start, before, id);
      if Edits(f, id) { EditOn(start, before, id, EditedBy(start, before, id), f); }
      else { EditPast(start, before, id, EditedBy(start, before, id), f); }
    }
  }

  // ── in a browser ───────────────────────────────────────────────────

  lemma OtherBlocks(c: Client, f: Frame, id: string)
    requires id in c.bodies && !Edits(f, id) && !(f.Starts? && f.id == id)
    ensures id in Apply(c, f).bodies && Apply(c, f).bodies[id] == c.bodies[id]
  {}

  lemma {:induction false} BlockComesTo(c: Client, id: string, fs: seq<Frame>)
    requires id in c.bodies && !StartsIn(fs, id)
    ensures id in ApplyAll(c, fs).bodies && ApplyAll(c, fs).bodies[id] == EditedBy(c.bodies[id], fs, id)
  {
    if fs != [] {
      var before, f := fs[..|fs| - 1], fs[|fs| - 1];
      assert fs == before + [f] && f in fs;
      forall g | g in before ensures g in fs {}
      BlockComesTo(c, id, before);
      if !Edits(f, id) { OtherBlocks(ApplyAll(c, before), f, id); }
    }
  }

  /** Whatever else the stream sends, a browser shows a block's text whole and in order. */
  lemma {:induction false} TextShown(c: Client, id: string, text: string, fs: seq<Frame>)
    requires !StartsIn(fs, id)
    ensures var shown := ApplyAll(c, [Starts(id, Prose(text))] + fs).bodies;
            id in shown && shown[id] == Prose(text + Said(fs, id))
  {
    var f := Starts(id, Prose(text));
    ApplyConcat(c, [f], fs);
    ApplyThen(c, [], f);
    assert [] + [f] == [f];
    BlockComesTo(Apply(c, f), id, fs);
    EditsComeTo(Apply(c, f).bodies[id], fs, id);
  }

  /** And a tool's row as it started, with its last update and each field of its progress as last sent. */
  lemma {:induction false} RowShown(c: Client, id: string, name: string, status: string, outcome: Option<Outcome>,
    progress: Option<map<string, string>>, fs: seq<Frame>)
    requires id !in c.bodies && !StartsIn(fs, id)
    ensures var shown := ApplyAll(c, [Starts(id, Call(name, status, outcome, progress))] + fs).bodies;
            id in shown && RowIs(name, status, outcome, progress, fs, id, shown[id])
  {
    var f := Starts(id, Call(name, status, outcome, progress));
    ApplyConcat(c, [f], fs);
    ApplyThen(c, [], f);
    assert [] + [f] == [f];
    BlockComesTo(Apply(c, f), id, fs);
    EditsComeTo(Apply(c, f).bodies[id], fs, id);
  }

  /** A row that starts again takes the new name and status, and keeps what the new start does not give. */
  lemma {:induction false} RowShownAgain(c: Client, id: string, name: string, status: string, outcome: Option<Outcome>,
    progress: Option<map<string, string>>, fs: seq<Frame>)
    requires id in c.bodies && c.bodies[id].Call? && !StartsIn(fs, id)
    ensures var shown := ApplyAll(c, [Starts(id, Call(name, status, outcome, progress))] + fs).bodies;
            id in shown && RowIs(name, status, if outcome.Some? then outcome else c.bodies[id].outcome,
              if progress.Some? then progress else c.bodies[id].progress, fs, id, shown[id])
  {
    var f := Starts(id, Call(name, status, outcome, progress));
    ApplyConcat(c, [f], fs);
    ApplyThen(c, [], f);
    assert [] + [f] == [f];
    BlockComesTo(Apply(c, f), id, fs);
    EditsComeTo(Apply(c, f).bodies[id], fs, id);
  }

  // ── in what is kept of a wake turn ─────────────────────────────────

  /** The frames kept that start a block. */
  function StartsOf(shown: seq<Frame>, id: string): seq<Frame> {
    if shown == [] then []
    else (if shown[0].Starts? && shown[0].id == id then [shown[0]] else []) + StartsOf(shown[1..], id)
  }

  lemma {:induction false} StartsConcat(a: seq<Frame>, b: seq<Frame>, id: string)
    ensures StartsOf(a + b, id) == StartsOf(a, id) + StartsOf(b, id)
  {
    if a == [] { assert a + b == b; }
    else {
      assert (a + b)[0] == a[0] && (a + b)[1..] == a[1..] + b;
      StartsConcat(a[1..], b, id);
    }
  }

  lemma {:induction false} NoStarts(fs: seq<Frame>, id: string)
    requires !StartsIn(fs, id)
    ensures StartsOf(fs, id) == []
  {
    if fs != [] {
      assert fs[0] in fs;
      forall f | f in fs[1..] ensures f in fs {}
      NoStarts(fs[1..], id);
    }
  }

  lemma StartsSplit(shown: seq<Frame>, i: nat, f: Frame, id: string)
    requires i < |shown|
    ensures StartsOf(shown[i := f], id) == StartsOf(shown[..i], id) + StartsOf([f], id) + StartsOf(shown[i + 1..], id)
  {
    assert shown[i := f] == shown[..i] + [f] + shown[i + 1..];
    StartsConcat(shown[..i] + [f], shown[i + 1..], id);
    StartsConcat(shown[..i], [f], id);
  }

  lemma {:induction false} PropsStartNothing(shown: seq<Frame>, h: Handle, id: string)
    ensures StartsOf(WithoutProps(shown, h), id) == StartsOf(shown, id)
  {
    if shown != [] {
      PropsStartNothing(shown[1..], h, id);
      StartsConcat(if shown[0].Props? && shown[0].handle == h then [] else [shown[0]], WithoutProps(shown[1..], h), id);
      assert shown[0].Props? ==> !shown[0].Starts?;
    }
  }

  lemma OpenStartsNothing(shown: seq<Frame>, f: Frame, id: string)
    requires f.Opens?
    ensures StartsOf(FoldOpen(shown, f), id) == StartsOf(shown, id)
  {
    StartsConcat(shown, [f], id);
    assert StartsOf([f], id) == [];
    match f.revises
    case None =>
    case Some(r) =>
      var i := OpenOf(shown, r);
      if i < |shown| {
        StartsSplit(shown, i, Standing(shown[i], f), id);
        StartsSplit(shown, i, shown[i], id);
        assert shown[i := shown[i]] == shown;
        PropsStartNothing(shown[i := Standing(shown[i], f)], r, id);
      }
  }

  lemma {:induction false} FirstStart(shown: seq<Frame>, id: string)
    ensures var i := StartOf(shown, id); StartsOf(shown[..i], id) == [] && (StartsOf(shown, id) != [] ==> i < |shown|)
  {
    assert shown[..0] == [];
    if shown != [] && !(shown[0].Starts? && shown[0].id == id) {
      FirstStart(shown[1..], id);
      var i := StartOf(shown[1..], id);
      assert shown[..1 + i] == [shown[0]] + shown[1..][..i];
      StartsConcat([shown[0]], shown[1..][..i], id);
      assert StartsOf([shown[0]], id) == [];
      assert StartsOf(shown, id) == [] + StartsOf(shown[1..], id);
    }
  }

  lemma OnlyStart(shown: seq<Frame>, id: string, body: Body)
    requires StartsOf(shown, id) == [Starts(id, body)]
    ensures var i := StartOf(shown, id);
            && i < |shown| && shown[i] == Starts(id, body)
            && StartsOf(shown[..i], id) == [] && StartsOf(shown[i + 1..], id) == []
  {
    FirstStart(shown, id);
    var i := StartOf(shown, id);
    StartsSplit(shown, i, shown[i], id);
    assert shown[i := shown[i]] == shown && StartsOf([shown[i]], id) == [shown[i]];
    OnlyOne(StartsOf(shown, id), shown[i], StartsOf(shown[i + 1..], id));
  }

  /** An edit is kept in the frame that started its block, in no other. */
  lemma EditKept(shown: seq<Frame>, id: string, body: Body, f: Frame)
    requires StartsOf(shown, id) == [Starts(id, body)]
    ensures StartsOf(FoldEdit(shown, id, f), id) == [Starts(id, Edited(body, f))]
  {
    OnlyStart(shown, id, body);
    var edited := Starts(id, Edited(body, f));
    StartsSplit(shown, StartOf(shown, id), edited, id);
    assert StartsOf([edited], id) == [edited];
  }

  lemma OnlyOne(all: seq<Frame>, f: Frame, rest: seq<Frame>)
    requires all == [] + [f] + rest && |all| == 1
    ensures rest == [] && f == all[0]
  {
    assert |all| == 1 + |rest|;
  }

  lemma OtherEditKept(shown: seq<Frame>, other: string, f: Frame, id: string)
    requires other != id
    ensures StartsOf(FoldEdit(shown, other, f), id) == StartsOf(shown, id)
  {
    var i := StartOf(shown, other);
    if i < |shown| {
      StartsSplit(shown, i, shown[i], id);
      assert shown[i := shown[i]] == shown;
      StartsSplit(shown, i, shown[i].(body := Edited(shown[i].body, f)), id);
    }
  }

  lemma OtherKept(shown: seq<Frame>, f: Frame, id: string)
    requires !Edits(f, id) && !(f.Starts? && f.id == id)
    ensures StartsOf(Remember(shown, f), id) == StartsOf(shown, id)
  {
    if f.Opens? { OpenStartsNothing(shown, f, id); }
    else if f.Delta? || f.Updates? || f.Progresses? { OtherEditKept(shown, f.id, f, id); }
    else {
      StartsConcat(shown, [f], id);
      assert StartsOf([f], id) == [];
    }
  }

  lemma {:induction false} NeverKept(fs: seq<Frame>, id: string)
    requires !StartsIn(fs, id)
    ensures StartsOf(Shown(fs), id) == []
  {
    if fs != [] {
      var before, f := fs[..|fs| - 1], fs[|fs| - 1];
      assert f in fs;
      forall g | g in before ensures g in fs {}
      NeverKept(before, id);
      if Edits(f, id) { NoneToEdit(Shown(before), id, f); } else { OtherKept(Shown(before), f, id); }
    }
  }

  lemma StartKnown(shown: seq<Frame>, i: nat, id: string)
    requires i < |shown| && shown[i].Starts? && shown[i].id == id
    ensures StartsOf(shown, id) != []
  {
    StartsSplit(shown, i, shown[i], id);
    assert shown[i := shown[i]] == shown && StartsOf([shown[i]], id) == [shown[i]];
  }

  lemma NoneToEdit(shown: seq<Frame>, id: string, f: Frame)
    requires StartsOf(shown, id) == []
    ensures FoldEdit(shown, id, f) == shown
  {
    var i := StartOf(shown, id);
    if i < |shown| { StartKnown(shown, i, id); }
  }

  lemma OneMoreKept(shown: seq<Frame>, id: string, body: Body, f: Frame)
    requires StartsOf(shown, id) == [Starts(id, body)] && !(f.Starts? && f.id == id)
    ensures StartsOf(Remember(shown, f), id) == [Starts(id, if Edits(f, id) then Edited(body, f) else body)]
  {
    if Edits(f, id) { EditKept(shown, id, body, f); } else { OtherKept(shown, f, id); }
  }

  lemma ShownOn(fs: seq<Frame>, before: seq<Frame>, f: Frame)
    ensures Shown(fs + (before + [f])) == Remember(Shown(fs + before), f)
  {
    var all := fs + before;
    assert fs + (before + [f]) == all + [f] && (all + [f])[..|all|] == all;
  }

  lemma StartsFewer(before: seq<Frame>, f: Frame, id: string)
    requires !StartsIn(before + [f], id)
    ensures !StartsIn(before, id) && !(f.Starts? && f.id == id)
  {
    OneMore(before, f);
  }

  lemma BlockKeptOn(fs: seq<Frame>, id: string, body: Body, before: seq<Frame>, f: Frame)
    requires StartsOf(Shown(fs + before), id) == [Starts(id, EditedBy(body, before, id))] && !(f.Starts? && f.id == id)
    ensures StartsOf(Shown(fs + (before + [f])), id) == [Starts(id, EditedBy(body, before + [f], id))]
  {
    ShownOn(fs, before, f);
    OneMoreKept(Shown(fs + before), id, EditedBy(body, before, id), f);
    OneMore(before, f);
  }

  lemma {:induction false} BlockKept(fs: seq<Frame>, id: string, body: Body, more: seq<Frame>)
    requires StartsOf(Shown(fs), id) == [Starts(id, body)] && !StartsIn(more, id)
    ensures StartsOf(Shown(fs + more), id) == [Starts(id, EditedBy(body, more, id))]
  {
    if more == [] {
      assert fs + more == fs;
    } else {
      var before, f := more[..|more| - 1], more[|more| - 1];
      assert more == before + [f];
      StartsFewer(before, f, id);
      BlockKept(fs, id, body, before);
      BlockKeptOn(fs, id, body, before, f);
    }
  }

  lemma StartKept(pre: seq<Frame>, id: string, body: Body)
    requires !StartsIn(pre, id)
    ensures StartsOf(Shown(pre + [Starts(id, body)]), id) == [Starts(id, body)]
  {
    var f := Starts(id, body);
    NeverKept(pre, id);
    assert (pre + [f])[..|pre|] == pre;
    StartsConcat(Shown(pre), [f], id);
    assert StartsOf([f], id) == [f];
  }

  /** Of a block a wake turn started once, one frame is kept, with its text whole and in order. */
  lemma {:induction false} TextKept(pre: seq<Frame>, id: string, text: string, fs: seq<Frame>)
    requires !StartsIn(pre, id) && !StartsIn(fs, id)
    ensures StartsOf(Shown(pre + [Starts(id, Prose(text))] + fs), id) == [Starts(id, Prose(text + Said(fs, id)))]
  {
    StartKept(pre, id, Prose(text));
    BlockKept(pre + [Starts(id, Prose(text))], id, Prose(text), fs);
    EditsComeTo(Prose(text), fs, id);
  }

  /** Of a tool's row, one frame is kept, with its last update and each field of its progress as last sent. */
  lemma {:induction false} RowKept(pre: seq<Frame>, id: string, name: string, status: string, outcome: Option<Outcome>,
    progress: Option<map<string, string>>, fs: seq<Frame>)
    requires !StartsIn(pre, id) && !StartsIn(fs, id)
    ensures exists now :: RowIs(name, status, outcome, progress, fs, id, now)
              && StartsOf(Shown(pre + [Starts(id, Call(name, status, outcome, progress))] + fs), id)
                 == [Starts(id, now)]
  {
    var row := Call(name, status, outcome, progress);
    StartKept(pre, id, row);
    BlockKept(pre + [Starts(id, row)], id, row, fs);
    EditsComeTo(row, fs, id);
  }

  // ── surfaces ───────────────────────────────────────────────────────

  /** The props last sent for a surface by a handle. */
  function LastProps(fs: seq<Frame>, h: Handle): Option<string> {
    if fs == [] then None
    else
      var f := fs[|fs| - 1];
      if f.Props? && f.handle == h then Some(f.props) else LastProps(fs[..|fs| - 1], h)
  }

  /** Where a surface was last said to stand. */
  function LastStand(fs: seq<Frame>, h: Handle): (r: Option<Frame>)
    ensures r.Some? ==> r.value.Stands?
  {
    if fs == [] then None
    else
      var f := fs[|fs| - 1];
      if f.Stands? && f.handle == h then Some(f) else LastStand(fs[..|fs| - 1], h)
  }

  /** Nothing in the stream takes the surface over, or moves it to another handle. */
  predicate Unrevised(fs: seq<Frame>, h: Handle) { forall f | f in fs :: f.Opens? ==> h !in Family(f) }

  ghost predicate SurfaceIs(was: Surface, fs: seq<Frame>, h: Handle, now: Surface) {
    && now.shape == was.shape
    && (match LastProps(fs, h)
        case Some(p) => now.props == Some(p) && !now.revising
        case None => now.props == was.props && now.revising == was.revising)
    && (match LastStand(fs, h)
        case Some(f) => now.state == f.state && now.selection == f.selection
        case None => now.state == was.state && now.selection == was.selection)
  }

  lemma SurfaceStep(was: Surface, fs: seq<Frame>, h: Handle, c: Client, f: Frame)
    requires h in c.surfaces && SurfaceIs(was, fs, h, c.surfaces[h]) && (f.Opens? ==> h !in Family(f))
    ensures h in Apply(c, f).surfaces && SurfaceIs(was, fs + [f], h, Apply(c, f).surfaces[h])
  {
    OneMore(fs, f);
    if f.Opens? { OthersOpen(c, f, h); } else { OthersStay(c, f, h); }
  }

  lemma OthersStay(c: Client, f: Frame, h: Handle)
    requires !f.Opens? && h in c.surfaces
    ensures h in Apply(c, f).surfaces
            && Apply(c, f).surfaces[h] == if f.Props? && f.handle == h then
                 c.surfaces[h].(props := Some(f.props), revising := false)
               else if f.Stands? && f.handle == h then c.surfaces[h].(state := f.state, selection := f.selection)
               else c.surfaces[h]
  {}

  lemma OthersOpen(c: Client, f: Frame, h: Handle)
    requires f.Opens? && h !in Family(f) && h in c.surfaces
    ensures h in ApplyOpen(c, f).surfaces && ApplyOpen(c, f).surfaces[h] == c.surfaces[h]
  {}

  /** A surface shows the props last sent for it, and stands where it was last said to. */
  lemma {:induction false} SurfaceShown(c: Client, h: Handle, fs: seq<Frame>)
    requires h in c.surfaces && Unrevised(fs, h)
    ensures var shown := ApplyAll(c, fs).surfaces; h in shown && SurfaceIs(c.surfaces[h], fs, h, shown[h])
  {
    if fs != [] {
      var before, f := fs[..|fs| - 1], fs[|fs| - 1];
      assert fs == before + [f] && f in fs;
      forall g | g in before ensures g in fs {}
      SurfaceShown(c, h, before);
      SurfaceStep(c.surfaces[h], before, h, ApplyAll(c, before), f);
    }
  }

  /**
   * A revision takes over the block: until it is told otherwise it shows the old props, where the surface last stood,
   * in the old mode, as the new component and version; the handle it revises shows nothing.
   */
  lemma {:induction false} RevisionShown(c: Client, h: Handle, fs: seq<Frame>, f: Frame, gs: seq<Frame>)
    requires h in c.surfaces && Unrevised(fs, h)
    requires f.Opens? && Unrevised(gs, f.handle) && f.revises == Some(h) && f.handle != h
             && f.handle !in ApplyAll(c, fs).surfaces && f.handle !in ApplyAll(c, fs).replacedBy
    ensures h in ApplyAll(c, fs).surfaces && SurfaceIs(c.surfaces[h], fs, h, ApplyAll(c, fs).surfaces[h])
    ensures var was, shown := ApplyAll(c, fs).surfaces[h], ApplyAll(c, fs + [f] + gs).surfaces;
            && f.handle in shown
            && SurfaceIs(Surface(Shape(f.shape.component, f.shape.version, was.shape.mode), was.state, was.selection,
                 was.props, true), gs, f.handle, shown[f.handle])
            && h !in ApplyAll(c, fs + [f]).surfaces
  {
    SurfaceShown(c, h, fs);
    ApplyThen(c, fs, f);
    ApplyConcat(c, fs + [f], gs);
    SurfaceShown(ApplyAll(c, fs + [f]), f.handle, gs);
  }

  /**
   * A surface no one has heard of opens live, as what it is, beside the tool that showed it; and then shows the props
   * last sent for it and stands where it was last said to.
   */
  lemma {:induction false} OpenedShown(c: Client, f: Frame, gs: seq<Frame>)
    requires f.Opens? && f.handle !in c.surfaces && f.handle !in c.replacedBy && Unrevised(gs, f.handle)
    requires forall h | h in Family(f) :: h !in c.surfaces
    ensures var shown := ApplyAll(c, [f] + gs).surfaces;
            && f.handle in shown
            && SurfaceIs(Surface(f.shape, "live", None, None, false), gs, f.handle, shown[f.handle])
            && f.handle in Apply(c, f).rows && Apply(c, f).rows[f.handle] == f.toolId
  {
    ApplyConcat(c, [f], gs);
    ApplyThen(c, [], f);
    assert [] + [f] == [f];
    SurfaceShown(Apply(c, f), f.handle, gs);
  }

  // ── notices ────────────────────────────────────────────────────────

  function NotesIn(fs: seq<Frame>): seq<Note> {
    if fs == [] then []
    else NotesIn(fs[..|fs| - 1]) + if fs[|fs| - 1].Arrives? then [fs[|fs| - 1].note] else []
  }

  predicate RisingFrom(notes: seq<Note>, above: nat) {
    && (forall k | 0 <= k < |notes| :: above < notes[k].number)
    && (forall i, j | 0 <= i < j < |notes| :: notes[i].number < notes[j].number)
  }

  /** Notices sent in their order, past those known, are all taken in, in that order, whatever else is sent. */
  lemma {:induction false} NoticesTaken(c: Client, fs: seq<Frame>)
    requires RisingFrom(NotesIn(fs), LastNumber(c.notices))
    ensures ApplyAll(c, fs).notices == c.notices + NotesIn(fs)
  {
    if fs != [] {
      var before, f := fs[..|fs| - 1], fs[|fs| - 1];
      RisesBefore(NotesIn(before), if f.Arrives? then [f.note] else [], LastNumber(c.notices));
      NoticesTaken(c, before);
      var d := ApplyAll(c, before);
      if f.Arrives? {
        LastRises(c.notices, NotesIn(before), f.note);
      } else {
        OthersTakeNone(d, f);
      }
    }
  }

  /** And one already known, or older, changes nothing. */
  lemma KnownNotice(c: Client, n: Note)
    requires n.number <= LastNumber(c.notices)
    ensures Apply(c, Arrives(n)) == c
  {}

  lemma RisesBefore(a: seq<Note>, b: seq<Note>, above: nat)
    requires RisingFrom(a + b, above)
    ensures RisingFrom(a, above) && forall n | n in b :: above < n.number && forall k | 0 <= k < |a| ::
              a[k].number < n.number
  {
    forall k | 0 <= k < |a| ensures (a + b)[k] == a[k] {}
    forall k | 0 <= k < |b| ensures (a + b)[|a| + k] == b[k] {}
  }

  lemma LastRises(known: seq<Note>, more: seq<Note>, n: Note)
    requires LastNumber(known) < n.number && forall k | 0 <= k < |more| :: more[k].number < n.number
    ensures LastNumber(known + more) < n.number && known + more + [n] == known + (more + [n])
  {
    if more == [] { assert known + more == known; }
  }

  lemma OthersTakeNone(c: Client, f: Frame)
    requires !f.Arrives?
    ensures Apply(c, f).notices == c.notices
  {}
}
