/** The browser: how each frame changes the transcript it shows. */
module Transcripts {
  import opened History
  import opened Conversations
  import opened Orders

  datatype Outcome = Outcome(ms: nat, result: string)

  datatype Body =
    | Prose(text: string)
    | Call(name: string, status: string, outcome: Option<Outcome>, progress: Option<map<string, string>>)

  datatype Shape = Shape(component: string, version: nat, mode: string)

  /** What a stream sends. `revises` and `also` are the handles the surface had before, the last first. */
  datatype Frame =
    | Arrives(note: Note)
    | Starts(id: string, body: Body)
    | Delta(id: string, text: string)
    | Updates(id: string, status: string, outcome: Outcome)
    | Progresses(id: string, fields: map<string, string>)
    | Opens(handle: Handle, shape: Shape, toolId: string, revises: Option<Handle>, also: seq<Handle>)
    | Props(handle: Handle, props: string)
    | Stands(handle: Handle, state: string, selection: Option<string>)
    | StatusIs(status: string)
    | ContextIs(context: string)
    | Released

  datatype Surface = Surface(shape: Shape, state: string, selection: Option<string>, props: Option<string>,
    revising: bool)

  /**
   * `order` is the transcript, block by block; `bodies` what each block holds, `rows` the tool row of each
   * surface's block. `replacedBy` leads each handle heard of as revised to the one that revised it.
   */
  datatype Client = Client(
    order: seq<Item>, bodies: map<string, Body>, rows: map<Handle, string>, surfaces: map<Handle, Surface>,
    replacedBy: map<Handle, Handle>, notices: seq<Note>, status: string, context: string)

  const NEW_CLIENT := Client([], map[], map[], map[], map[], [], "idle", "")

  // ── revisions ──────────────────────────────────────────────────────

  /** Revisions are issued later than what they revise. */
  predicate Upward(links: map<Handle, Handle>) { forall h | h in links :: h < links[h] }

  function From(links: map<Handle, Handle>, h: Handle): set<Handle> { set k | k in links && k >= h }

  /** The handle a surface has now. */
  function Current(links: map<Handle, Handle>, h: Handle): Handle
    decreases From(links, h)
  {
    if h in links && h < links[h] then
      assert From(links, links[h]) <= From(links, h) && h in From(links, h) && h !in From(links, links[h]);
      Current(links, links[h])
    else h
  }

  function Family(f: Frame): seq<Handle>
    requires f.Opens?
  {
    (match f.revises case Some(r) => [r] case None => []) + f.also
  }

  /** Every earlier handle leads to the new one. */
  function Relinked(links: map<Handle, Handle>, family: seq<Handle>, h: Handle): map<Handle, Handle> {
    links + map k | k in family && k != h :: h
  }

  /** The one of them a browser shows, the last revised first. */
  function FirstKnown(surfaces: map<Handle, Surface>, family: seq<Handle>): (known: Option<Handle>)
    ensures known.Some? ==> known.value in family && known.value in surfaces
    ensures known.None? ==> forall h | h in family :: h !in surfaces
  {
    if family == [] then None else if family[0] in surfaces then Some(family[0]) else FirstKnown(surfaces, family[1..])
  }

  /** The notices that name the surface now at `h`, oldest first. */
  function Named(notices: seq<Note>, links: map<Handle, Handle>, h: Handle): seq<Item> {
    if notices == [] then []
    else
      var n := notices[|notices| - 1];
      Named(notices[..|notices| - 1], links, h) + (if n.names.Some?
        && Current(links, n.names.value) == h then [N(n)] else [])
  }

  // ── frames ─────────────────────────────────────────────────────────

  function LastNumber(notices: seq<Note>): nat { if notices == [] then 0 else notices[|notices| - 1].number }

  /** Where a notice goes: beside its surface, after those already there, or at the end. */
  function Inserted(c: Client, n: Note): seq<Item> {
    match n.names
    case None => c.order + [N(n)]
    case Some(h) =>
      var now := Current(c.replacedBy, h);
      if U(now) in c.order then Weave(c.order, map[now := [N(n)]], []) else c.order + [N(n)]
  }

  function ApplyNotice(c: Client, n: Note): Client {
    if n.number <= LastNumber(c.notices) then c else c.(notices := c.notices + [n], order := Inserted(c, n))
  }

  /** `Object.assign`: what the new body does not say stays. */
  function Assigned(known: Body, body: Body): Body {
    match (known, body)
    case (Call(_, _, outcome, progress), Call(name, status, o, p)) =>
      Call(name, status, if o.Some? then o else outcome, if p.Some? then p else progress)
    case _ => body
  }

  function ApplyStart(c: Client, id: string, body: Body): Client {
    if id in c.bodies then c.(bodies := c.bodies[id := Assigned(c.bodies[id], body)])
    else c.(bodies := c.bodies[id := body], order := c.order + [B(id)])
  }

  function Merged(progress: Option<map<string, string>>, fields: map<string, string>): Option<map<string, string>> {
    Some((if progress.Some? then progress.value else map[]) + fields)
  }

  /** What a delta, an update or progress makes of a block. */
  function Edited(body: Body, f: Frame): Body {
    match (body, f)
    case (Prose(text), Delta(_, more)) => Prose(text + more)
    case (Call(name, _, _, progress), Updates(_, status, outcome)) => Call(name, status, Some(outcome), progress)
    case (Call(name, status, outcome, progress), Progresses(_, fields)) => Call(name, status, outcome,
      Merged(progress, fields))
    case _ => body
  }

  function ApplyEdit(c: Client, id: string, f: Frame): Client {
    if id in c.bodies then c.(bodies := c.bodies[id := Edited(c.bodies[id], f)]) else c
  }

  /** An original that comes after its revisions: it stands as the latest of them, which takes its tool row. */
  function ApplyLate(c: Client, f: Frame): Client
    requires f.Opens?
  {
    var now := Current(c.replacedBy, f.handle);
    if now in c.rows && c.rows[now] == "" then c.(rows := c.rows[now := f.toolId]) else c
  }

  /** The record a surface takes over from the one it revises. */
  function Revised(s: Surface, f: Frame): Surface
    requires f.Opens?
  {
    s.(shape := f.shape.(mode := s.shape.mode), revising := true)
  }

  /** A surface takes over the record and the block of the one it revises, or gets its own at the end. */
  function Seated(c: Client, f: Frame): Client
    requires f.Opens?
  {
    match FirstKnown(c.surfaces, Family(f))
    case Some(was) =>
      c.(surfaces := (c.surfaces - {was})[f.handle := Revised(c.surfaces[was], f)],
         order := Rename(c.order, was, f.handle),
         rows := if was in c.rows then (c.rows - {was})[f.handle := c.rows[was]] else c.rows)
    case None =>
      c.(surfaces := c.surfaces[f.handle := Surface(f.shape, "live", None, None, false)],
         order := c.order + [U(f.handle)],
         rows := c.rows[f.handle := f.toolId])
  }

  function ApplyOpen(c: Client, f: Frame): Client
    requires f.Opens?
  {
    if f.handle in c.surfaces then c
    else if f.handle in c.replacedBy then ApplyLate(c, f)
    else
      var d := Seated(c, f).(replacedBy := Relinked(c.replacedBy, Family(f), f.handle));
      d.(order := MoveUnder(d.order, f.handle, Named(d.notices, d.replacedBy, f.handle)))
  }

  function ApplySurface(c: Client, f: Frame): Client
    requires f.Props? || f.Stands?
  {
    if f.handle !in c.surfaces then c
    else
      var s := c.surfaces[f.handle];
      c.(surfaces := c.surfaces[f.handle := if f.Props? then s.(props := Some(f.props), revising := false)
                                            else s.(state := f.state, selection := f.selection)])
  }

  function Apply(c: Client, f: Frame): Client {
    match f
    case Arrives(note) => ApplyNotice(c, note)
    case Starts(id, body) => ApplyStart(c, id, body)
    case Delta(id, _) => ApplyEdit(c, id, f)
    case Updates(id, _, _) => ApplyEdit(c, id, f)
    case Progresses(id, _) => ApplyEdit(c, id, f)
    case Opens(_, _, _, _, _) => ApplyOpen(c, f)
    case Props(_, _) => ApplySurface(c, f)
    case Stands(_, _, _) => ApplySurface(c, f)
    case StatusIs(status) => c.(status := status)
    case ContextIs(context) => c.(context := context)
    case Released => c
  }

  function ApplyAll(c: Client, fs: seq<Frame>): Client {
    if fs == [] then c else Apply(ApplyAll(c, fs[..|fs| - 1]), fs[|fs| - 1])
  }

  lemma ApplyThen(c: Client, fs: seq<Frame>, f: Frame)
    ensures ApplyAll(c, fs + [f]) == Apply(ApplyAll(c, fs), f)
  {
    assert (fs + [f])[..|fs|] == fs;
  }

  lemma {:induction false} ApplyConcat(c: Client, fs: seq<Frame>, gs: seq<Frame>)
    ensures ApplyAll(c, fs + gs) == ApplyAll(ApplyAll(c, fs), gs)
  {
    if gs == [] {
      assert fs + gs == fs;
    } else {
      assert (fs + gs)[..|fs + gs| - 1] == fs + gs[..|gs| - 1];
      ApplyConcat(c, fs, gs[..|gs| - 1]);
    }
  }
}
