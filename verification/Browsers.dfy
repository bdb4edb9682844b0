/** The browser's client in place: its arrays and maps, edited frame by frame as `apply` edits them. */
module Browsers {
  import opened History
  import opened Conversations
  import opened Orders
  import opened Transcripts
  import opened TranscriptOrder

  // ── what the edits in place amount to ──────────────────────────────

  lemma {:induction false} WeaveRun(s: seq<Item>, h: Handle, notes: seq<Item>, j: nat)
    requires j <= |s| && (forall k | 0 <= k < j :: Naming(s[k])) && (j < |s| ==> !Naming(s[j])) && U(h) !in s
    ensures Weave(s, map[h := notes], notes) == s[..j] + notes + s[j..]
  {
    if j == 0 {
      WeaveRest(s, h, notes);
      assert s[..0] + notes + s[0..] == notes + s;
    } else {
      var x, rest := s[0], s[1..];
      assert s == [x] + rest;
      WeaveHead(x, rest, map[h := notes], notes);
      WeaveRun(rest, h, notes, j - 1);
      RunSplits(s, notes, j);
    }
  }

  lemma RunSplits(s: seq<Item>, notes: seq<Item>, j: nat)
    requires 0 < j <= |s|
    ensures [s[0]] + (s[1..][..j - 1] + notes + s[1..][j - 1..]) == s[..j] + notes + s[j..]
  {}

  lemma WeaveRest(s: seq<Item>, h: Handle, notes: seq<Item>)
    requires U(h) !in s && (s != [] ==> !Naming(s[0]))
    ensures Weave(s, map[h := notes], notes) == notes + s
  {
    if s != [] {
      var x, rest := s[0], s[1..];
      assert s == [x] + rest && x in s;
      WeaveHead(x, rest, map[h := notes], notes);
      assert Due(x, map[h := notes]) == [];
      WeaveIgnores(rest, map[h := notes], map[], []);
      WeaveNothing(rest, map[]);
    }
  }

  /** Splicing after the notices beside a surface is weaving there. */
  lemma {:induction false} SpliceWeaves(s: seq<Item>, h: Handle, notes: seq<Item>, at: nat, j: nat)
    requires at < j <= |s| && s[at] == U(h) && forall k | 0 <= k < |s| && k != at :: s[k] != U(h)
    requires (forall k | at < k < j :: Naming(s[k])) && (j < |s| ==> !Naming(s[j]))
    ensures Weave(s, map[h := notes], []) == s[..j] + notes + s[j..]
  {
    var x, rest := s[0], s[1..];
    assert s == [x] + rest;
    if at == 0 {
      WeaveHead(x, rest, map[h := notes], []);
      WeaveRun(rest, h, notes, j - 1);
    } else {
      WeavePast(x, rest, h, notes);
      SpliceWeaves(rest, h, notes, at - 1, j - 1);
    }
    RunSplits(s, notes, j);
  }

  lemma WeavePast(x: Item, rest: seq<Item>, h: Handle, notes: seq<Item>)
    requires x != U(h)
    ensures Weave([x] + rest, map[h := notes], []) == [x] + Weave(rest, map[h := notes], [])
  {
    WeaveHead(x, rest, map[h := notes], []);
    assert Due(x, map[h := notes]) == [];
  }

  lemma {:induction false} RemoveOne(s: seq<Item>, i: nat)
    requires i < |s| && multiset(s)[s[i]] == 1
    ensures s[..i] + s[i + 1..] == Remove(s, {s[i]})
  {
    var x := s[i];
    assert s == s[..i] + ([x] + s[i + 1..]);
    RemoveConcat(s[..i], [x] + s[i + 1..], {x});
    RemoveHead(x, s[i + 1..], {x});
    assert multiset(s) == multiset(s[..i]) + multiset{x} + multiset(s[i + 1..]);
    assert x !in multiset(s[..i]) && x !in multiset(s[i + 1..]);
    RemoveNone(s[..i], {x});
    RemoveNone(s[i + 1..], {x});
  }

  lemma RemoveMore(s: seq<Item>, gone: set<Item>, i: nat)
    requires Once(s) && i < |Remove(s, gone)|
    ensures var r := Remove(s, gone); r[..i] + r[i + 1..] == Remove(s, gone + {r[i]})
  {
    var r := Remove(s, gone);
    RemoveCounts(s, gone, r[i]);
    InCounts(r, r[i]);
    RemoveOne(r, i);
    RemoveTwice(s, gone, {r[i]});
  }

  // ── sorting, as the array's own sort does ──────────────────────────

  ghost predicate Rising(s: seq<Item>) {
    (forall x | x in s :: x.N?) && forall i, j | 0 <= i < j < |s| :: s[i].note.number < s[j].note.number
  }

  function InsertNote(s: seq<Item>, x: Item): seq<Item>
    requires x.N? && forall y | y in s :: y.N?
  {
    if s == [] || x.note.number < s[0].note.number then [x] + s else [s[0]] + InsertNote(s[1..], x)
  }

  lemma {:induction false} InsertHas(s: seq<Item>, x: Item)
    requires x.N? && forall y | y in s :: y.N?
    ensures forall y :: y in InsertNote(s, x) <==> y in s || y == x
  {
    if s != [] && s[0].note.number <= x.note.number {
      assert s == [s[0]] + s[1..];
      InsertHas(s[1..], x);
    }
  }

  lemma {:induction false} InsertRises(s: seq<Item>, x: Item)
    requires x.N? && Rising(s) && forall y | y in s :: y.note.number != x.note.number
    ensures Rising(InsertNote(s, x))
  {
    if s == [] || x.note.number < s[0].note.number {
    } else {
      var rest := InsertNote(s[1..], x);
      forall y | y in s[1..] ensures y in s {}
      InsertRises(s[1..], x);
      InsertHas(s[1..], x);
      assert s[0] in s;
      forall k | 0 <= k < |rest| ensures s[0].note.number < rest[k].note.number { assert rest[k] in rest; }
    }
  }

  /** Sorted by number. */
  function SortNotes(s: seq<Item>): (r: seq<Item>)
    requires forall x | x in s :: x.N?
    ensures forall x | x in r :: x in s
  {
    if s == [] then [] else InsertHas(SortNotes(s[1..]), s[0]); InsertNote(SortNotes(s[1..]), s[0])
  }

  lemma {:induction false} SortKeeps(s: seq<Item>)
    requires (forall x | x in s :: x.N?) && forall i, j | 0 <= i < j < |s| :: s[i].note.number != s[j].note.number
    ensures Rising(SortNotes(s)) && forall y :: y in SortNotes(s) <==> y in s
  {
    if s != [] {
      SortKeeps(s[1..]);
      forall y | y in SortNotes(s[1..]) ensures y.note.number != s[0].note.number {
        assert y in s[1..];
        var k :| 0 <= k < |s[1..]| && s[1..][k] == y;
        assert s[k + 1] == y;
      }
      InsertRises(SortNotes(s[1..]), s[0]);
      InsertHas(SortNotes(s[1..]), s[0]);
      assert s == [s[0]] + s[1..];
    }
  }

  lemma FirstIn(s: seq<Item>)
    ensures s != [] ==> s[0] in s
  {}

  /** Two rising lists of the same notices are one. */
  lemma {:induction false} RisingUnique(a: seq<Item>, b: seq<Item>)
    requires Rising(a) && Rising(b) && forall x :: x in a <==> x in b
    ensures a == b
  {
    FirstIn(b);
    if a != [] {
      assert a[0] in a && a[0] in b;
      assert b != [];
      var j :| 0 <= j < |b| && b[j] == a[0];
      assert b[0] in a;
      var i :| 0 <= i < |a| && a[i] == b[0];
      assert i == 0 && j == 0;
      forall x ensures x in a[1..] <==> x in b[1..] { TailHas(a, x); TailHas(b, x); }
      RisingUnique(a[1..], b[1..]);
      assert a == [a[0]] + a[1..] && b == [b[0]] + b[1..];
    }
  }

  lemma TailHas(a: seq<Item>, x: Item)
    requires Rising(a) && a != []
    ensures x in a[1..] <==> x in a && x != a[0]
  {
    if x in a && x != a[0] {
      var k :| 0 <= k < |a| && a[k] == x;
      assert a[1..][k - 1] == x;
    }
    if x in a[1..] {
      var k :| 0 <= k < |a[1..]| && a[1..][k] == x;
      assert a[k + 1] == x;
    }
  }

  lemma {:induction false} NamedRises(notices: seq<Note>, links: map<Handle, Handle>, h: Handle)
    requires Ascending(notices)
    ensures Rising(Named(notices, links, h))
  {
    if notices != [] {
      NamedRises(notices[..|notices| - 1], links, h);
      NamedIn(notices[..|notices| - 1], links, h);
    }
  }

  lemma RenameHead(x: Item, s: seq<Item>, was: Handle, next: Handle)
    ensures Rename([x] + s, was, next) == [if x == U(was) then U(next) else x] + Rename(s, was, next)
  {
    assert ([x] + s)[1..] == s;
  }

  lemma OnlyAt(s: seq<Item>, at: nat)
    requires at < |s| && multiset(s)[s[at]] == 1
    ensures forall k | 0 <= k < |s| && k != at :: s[k] != s[at]
  {
    forall k | 0 <= k < |s| && k != at ensures s[k] != s[at] {
      if s[k] == s[at] { TwiceCounts(s, if k < at then k else at, if k < at then at else k); }
    }
  }

  lemma {:induction false} RenameAt(s: seq<Item>, at: nat, was: Handle, next: Handle)
    requires at < |s| && s[at] == U(was) && forall k | 0 <= k < |s| && k != at :: s[k] != U(was)
    ensures s[at := U(next)] == Rename(s, was, next)
  {
    var x, rest := s[0], s[1..];
    assert s == [x] + rest;
    RenameHead(x, rest, was, next);
    if at == 0 {
      RenameNone(rest, was, next);
      assert s[0 := U(next)] == [U(next)] + rest;
    } else {
      RenameAt(rest, at - 1, was, next);
      assert s[at := U(next)] == [x] + rest[at - 1 := U(next)];
    }
  }

  lemma {:induction false} OfHas(s: seq<Item>, links: map<Handle, Handle>, h: Handle)
    ensures forall x :: x in Of(s, links, h) <==> x in s && Naming(x) && Current(links, x.note.names.value) == h
  {
    if s != [] {
      assert s == [s[0]] + s[1..];
      OfHas(s[1..], links, h);
    }
  }

  /** Each once, if each was. */
  lemma {:induction false} OfOnce(s: seq<Item>, links: map<Handle, Handle>, h: Handle, x: Item)
    ensures multiset(Of(s, links, h))[x] <= multiset(s)[x]
  {
    if s != [] {
      assert s == [s[0]] + s[1..];
      OfOnce(s[1..], links, h, x);
    }
  }

  lemma SameNumber(notices: seq<Note>, m: Note, n: Note)
    requires Ascending(notices) && m in notices && n in notices && m.number == n.number
    ensures m == n
  {
    var i :| 0 <= i < |notices| && notices[i] == m;
    var j :| 0 <= j < |notices| && notices[j] == n;
  }

  lemma TwiceCounts(s: seq<Item>, i: nat, j: nat)
    requires i < j < |s| && s[i] == s[j]
    ensures multiset(s)[s[i]] >= 2
  {
    assert s == s[..i] + [s[i]] + s[i + 1..j] + [s[j]] + s[j + 1..];
  }

  /** The notices found by looking through the transcript, sorted, are those heard of. */
  lemma EarlyIsNamed(c: Client, h: Handle)
    requires Consistent(c)
    ensures var found := Of(c.order, c.replacedBy, h);
            (forall x | x in found :: x.N?) && SortNotes(found) == Named(c.notices, c.replacedBy, h)
  {
    var found := Of(c.order, c.replacedBy, h);
    OfHas(c.order, c.replacedBy, h);
    forall i, j | 0 <= i < j < |found| ensures found[i].note.number != found[j].note.number {
      assert found[i] in found && found[j] in found;
      OfOnce(c.order, c.replacedBy, h, found[i]);
      assert multiset(c.order)[found[i]] <= 1;
      if found[i].note.number == found[j].note.number {
        SameNumber(c.notices, found[i].note, found[j].note);
        TwiceCounts(found, i, j);
      }
    }
    SortKeeps(found);
    NamedRises(c.notices, c.replacedBy, h);
    NamedIn(c.notices, c.replacedBy, h);
    RisingUnique(SortNotes(found), Named(c.notices, c.replacedBy, h));
  }

  lemma EarlyOnce(c: Client, h: Handle)
    requires Consistent(c) && h in c.surfaces
    ensures var early := Named(c.notices, c.replacedBy, h);
            && Once(early) && (forall x | x in early :: x in c.order)
            && Once(Remove(c.order, Members(early))) && U(h) in Remove(c.order, Members(early))
  {
    var early := Named(c.notices, c.replacedBy, h);
    var gone := Members(early);
    NamedOnce(c.notices, c.replacedBy, h);
    NamedIn(c.notices, c.replacedBy, h);
    forall x ensures multiset(Remove(c.order, gone))[x] <= 1 {
      RemoveCounts(c.order, gone, x);
      assert multiset(c.order)[x] <= 1;
    }
    RemoveCounts(c.order, gone, U(h));
    InCounts(c.order, U(h));
    InCounts(Remove(c.order, gone), U(h));
  }

  lemma RelinkedPush(links: map<Handle, Handle>, some: seq<Handle>, k: Handle, h: Handle, more: seq<Handle>)
    requires more == some + [k]
    ensures Relinked(links, more, h) == if k == h then Relinked(links, some, h) else Relinked(links, some, h)[k := h]
  {}

  lemma TakenSet(some: seq<Item>, x: Item, more: seq<Item>)
    requires more == some + [x]
    ensures Members(more) == Members(some) + {x}
  {}

  lemma TakeOne(s: seq<Item>, notes: seq<Item>, i: nat, at: nat)
    requires Once(s) && i < |notes|
    requires var r := Remove(s, Members(notes[..i])); at < |r| && r[at] == notes[i]
    ensures var r := Remove(s, Members(notes[..i])); r[..at] + r[at + 1..] == Remove(s, Members(notes[..i + 1]))
  {
    var some, more := notes[..i], notes[..i + 1];
    assert more == some + [notes[i]];
    var gone := Members(some);
    RemoveMore(s, gone, at);
    TakenSet(some, notes[i], more);
  }

  lemma NotTakenYet(s: seq<Item>, notes: seq<Item>, i: nat)
    requires Once(notes) && i < |notes| && notes[i] in s
    ensures notes[i] in Remove(s, Members(notes[..i]))
  {
    var gone := Members(notes[..i]);
    assert multiset(notes)[notes[i]] <= 1;
    if notes[i] in notes[..i] {
      var j :| 0 <= j < i && notes[j] == notes[i];
      TwiceCounts(notes, j, i);
    }
    RemoveCounts(s, gone, notes[i]);
    InCounts(s, notes[i]);
    InCounts(Remove(s, gone), notes[i]);
  }

  // ── the client ─────────────────────────────────────────────────────

  class Browser {
    var order: seq<Item>
    var bodies: map<string, Body>
    var rows: map<Handle, string>
    var surfaces: map<Handle, Surface>
    var replacedBy: map<Handle, Handle>
    var notices: seq<Note>
    var status: string
    var context: string

    ghost function View(): Client
      reads this
    {
      Client(order, bodies, rows, surfaces, replacedBy, notices, status, context)
    }

    ghost predicate Valid()
      reads this
    {
      Consistent(View()) && InOrder(View())
    }

    constructor ()
      ensures Valid() && View() == NEW_CLIENT
    {
      order, bodies, rows, surfaces, replacedBy, notices, status, context := [], map[], map[], map[], map[], [],
        "idle", "";
    }

    /** The handle a surface has now, following every revision heard of since. */
    method CurrentOf(handle: Handle) returns (h: Handle)
      requires Upward(replacedBy)
      ensures h == Current(replacedBy, handle) && h !in replacedBy
    {
      h := handle;
      while h in replacedBy
        invariant Current(replacedBy, h) == Current(replacedBy, handle)
        decreases From(replacedBy, h)
      {
        assert From(replacedBy, replacedBy[h]) <= From(replacedBy, h) && h in From(replacedBy, h)
               && h !in From(replacedBy, replacedBy[h]);
        h := replacedBy[h];
      }
    }

    /** Where the item is, or the length. */
    method IndexOf(x: Item) returns (i: nat)
      ensures i <= |order| && (i < |order| ==> order[i] == x) && (i == |order| ==> x !in order)
    {
      i := 0;
      while i < |order| && order[i] != x
        invariant i <= |order| && forall k | 0 <= k < i :: order[k] != x
      {
        i := i + 1;
      }
    }

    /** Where a notice for the surface at `at` goes: after the notices already beside it. */
    method AfterNotices(at: nat) returns (i: nat)
      requires at < |order|
      ensures at < i <= |order| && (forall k | at < k < i :: Naming(order[k])) && (i < |order| ==> !Naming(order[i]))
    {
      i := at + 1;
      while i < |order| && Naming(order[i])
        invariant at < i <= |order| && forall k | at < k < i :: Naming(order[k])
      {
        i := i + 1;
      }
    }

    /** Splice the items in beside the surface, if it is shown. */
    method PutBeside(h: Handle, notes: seq<Item>) returns (shown: bool)
      requires Once(order)
      modifies this`order
      ensures shown == (U(h) in old(order))
      ensures order == if shown then Weave(old(order), map[h := notes], []) else old(order)
    {
      var at := IndexOf(U(h));
      shown := at < |order|;
      if shown {
        InCounts(order, U(h));
        assert multiset(order)[U(h)] <= 1;
        OnlyAt(order, at);
        var j := AfterNotices(at);
        SpliceWeaves(order, h, notes, at, j);
        order := order[..j] + notes + order[j..];
      }
    }

    method Notice(note: Note)
      requires Valid()
      modifies this`order, this`notices
      ensures Valid() && View() == ApplyNotice(old(View()), note)
    {
      ghost var c := View();
      ApplyKeeps(c, Arrives(note));
      var last := if notices == [] then 0 else notices[|notices| - 1].number;
      if note.number > last {
        Insert(note);
        notices := notices + [note];
      }
      assert View() == ApplyNotice(c, note);
    }

    /** The notice's block: beside its surface, or at the end. */
    method Insert(note: Note)
      requires Once(order) && Upward(replacedBy)
      modifies this`order
      ensures order == Inserted(old(View()), note)
    {
      var shown := false;
      if note.names.Some? {
        var h := CurrentOf(note.names.value);
        shown := PutBeside(h, [N(note)]);
      }
      if !shown { order := order + [N(note)]; }
    }

    method Start(id: string, body: Body)
      requires Valid()
      modifies this`order, this`bodies
      ensures Valid() && View() == ApplyStart(old(View()), id, body)
    {
      ApplyKeeps(View(), Starts(id, body));
      if id in bodies {
        bodies := bodies[id := Assigned(bodies[id], body)];
      } else {
        bodies := bodies[id := body];
        order := order + [B(id)];
      }
    }

    method Edit(id: string, f: Frame)
      requires Valid()
      modifies this`bodies
      ensures Valid() && View() == ApplyEdit(old(View()), id, f)
    {
      if id in bodies { bodies := bodies[id := Edited(bodies[id], f)]; }
    }

    method Surfaced(f: Frame)
      requires Valid() && (f.Props? || f.Stands?)
      modifies this`surfaces
      ensures Valid() && View() == ApplySurface(old(View()), f)
    {
      ApplyKeeps(View(), f);
      if f.handle in surfaces {
        var s := surfaces[f.handle];
        surfaces := surfaces[f.handle := if f.Props? then s.(props := Some(f.props), revising := false)
                                         else s.(state := f.state, selection := f.selection)];
      }
    }

    /** The first of the family that is shown. */
    method FindShown(family: seq<Handle>) returns (known: Option<Handle>)
      ensures known == FirstKnown(surfaces, family)
    {
      var i := 0;
      while i < |family|
        invariant i <= |family| && FirstKnown(surfaces, family) == FirstKnown(surfaces, family[i..])
      {
        if family[i] in surfaces { return Some(family[i]); }
        assert family[i..][1..] == family[i + 1..];
        i := i + 1;
      }
      return None;
    }

    /** Every earlier handle leads to the new one. */
    method Relink(family: seq<Handle>, h: Handle)
      modifies this`replacedBy
      ensures replacedBy == Relinked(old(replacedBy), family, h)
    {
      var i := 0;
      while i < |family|
        invariant i <= |family| && replacedBy == Relinked(old(replacedBy), family[..i], h)
      {
        RelinkedPush(old(replacedBy), family[..i], family[i], h, family[..i + 1]);
        if family[i] != h { replacedBy := replacedBy[family[i] := h]; }
        i := i + 1;
      }
      assert family[..|family|] == family;
    }

    /** The block of the surface, with its next handle. */
    method Hand(was: Handle, next: Handle)
      requires Once(order)
      modifies this`order
      ensures order == Rename(old(order), was, next)
    {
      var at := IndexOf(U(was));
      if at < |order| {
        InCounts(order, U(was));
        assert multiset(order)[U(was)] <= 1;
        OnlyAt(order, at);
        RenameAt(order, at, was, next);
        order := order[at := U(next)];
      } else {
        RenameNone(order, was, next);
      }
    }

    method Seat(f: Frame)
      requires f.Opens? && Consistent(View())
      modifies this`order, this`surfaces, this`rows
      ensures View() == Seated(old(View()), f)
    {
      var known := FindShown((match f.revises case Some(r) => [r] case None => []) + f.also);
      match known
      case Some(was) =>
        var record := surfaces[was];
        surfaces := surfaces - {was};
        surfaces := surfaces[f.handle := record.(shape := f.shape.(mode := record.shape.mode), revising := true)];
        rows := (rows - {was})[f.handle := rows[was]];
        Hand(was, f.handle);
      case None =>
        surfaces := surfaces[f.handle := Surface(f.shape, "live", None, None, false)];
        order := order + [U(f.handle)];
        rows := rows[f.handle := f.toolId];
    }

    /** The notices naming the surface now at `h`, wherever they stand, in the order they were sent. */
    method Early(h: Handle) returns (early: seq<Item>)
      requires Consistent(View())
      ensures early == Named(notices, replacedBy, h)
    {
      var found: seq<Item> := [];
      var i := 0;
      while i < |order|
        invariant i <= |order| && found == Of(order[..i], replacedBy, h)
      {
        assert order[..i + 1] == order[..i] + [order[i]];
        OfPush(order[..i], order[i], replacedBy, h);
        if order[i].N? && order[i].note.names.Some? {
          var now := CurrentOf(order[i].note.names.value);
          if now == h { found := found + [order[i]]; }
        }
        i := i + 1;
      }
      assert order[..|order|] == order;
      EarlyIsNamed(View(), h);
      early := SortNotes(found);
    }

    /** Take them out, one by one. */
    method TakeOut(notes: seq<Item>)
      requires Once(order) && Once(notes) && forall x | x in notes :: x in order
      modifies this`order
      ensures order == Remove(old(order), Members(notes))
    {
      ghost var was := order;
      RemoveNone(was, {});
      assert Members(notes[..0]) == {};
      var i := 0;
      while i < |notes|
        invariant i <= |notes| && order == Remove(was, Members(notes[..i]))
      {
        NotTakenYet(was, notes, i);
        var at := IndexOf(notes[i]);
        TakeOne(was, notes, i, at);
        order := order[..at] + order[at + 1..];
        i := i + 1;
      }
      assert notes[..|notes|] == notes;
    }

    /** Move the surface's early notices under it. */
    method Gather(h: Handle)
      requires Consistent(View()) && h in surfaces
      modifies this`order
      ensures order == MoveUnder(old(order), h, Named(notices, replacedBy, h))
    {
      var early := Early(h);
      EarlyOnce(View(), h);
      TakeOut(early);
      var _ := PutBeside(h, early);
    }

    /** A surface this browser knows nothing of, or an earlier revision of. */
    method OpenNew(f: Frame)
      requires f.Opens? && Valid() && Issues(f) && f.handle !in surfaces && f.handle !in replacedBy
      modifies this
      ensures View() == ApplyOpen(old(View()), f)
    {
      ghost var c := View();
      SeatedConsistent(c, f);
      RelinkedUpward(c.replacedBy, Family(f), f.handle);
      Relink((match f.revises case Some(r) => [r] case None => []) + f.also, f.handle);
      Seat(f);
      assert View() == Opening(c, f);
      Gather(f.handle);
    }

    /** An original that comes after its revisions. */
    method OpenLate(f: Frame)
      requires f.Opens? && Valid() && f.handle in replacedBy
      modifies this`rows
      ensures View() == ApplyLate(old(View()), f)
    {
      var now := CurrentOf(f.handle);
      if now in rows && rows[now] == "" { rows := rows[now := f.toolId]; }
    }

    method Open(f: Frame)
      requires f.Opens? && Valid() && Issues(f)
      modifies this
      ensures Valid() && View() == ApplyOpen(old(View()), f)
    {
      ApplyKeeps(View(), f);
      if f.handle in surfaces {
      } else if f.handle in replacedBy {
        OpenLate(f);
      } else {
        OpenNew(f);
      }
    }

    /** One frame from the server. */
    method Receive(f: Frame)
      requires Valid() && Issues(f)
      modifies this
      ensures Valid() && View() == Apply(old(View()), f)
    {
      if f.Arrives? { Notice(f.note); }
      else if f.Starts? { Start(f.id, f.body); }
      else if f.Opens? { Open(f); }
      else { Change(f); }
    }

    /** A frame that neither adds a block nor moves one. */
    method Change(f: Frame)
      requires Valid() && !f.Arrives? && !f.Starts? && !f.Opens?
      modifies this`bodies, this`surfaces, this`status, this`context
      ensures Valid() && View() == Apply(old(View()), f)
    {
      OthersKeep(View(), f);
      match f {
        case Delta(id, _) => Edit(id, f);
        case Updates(id, _, _) => Edit(id, f);
        case Progresses(id, _) => Edit(id, f);
        case Props(_, _) => Surfaced(f);
        case Stands(_, _, _) => Surfaced(f);
        case StatusIs(s) => status := s;
        case ContextIs(s) => context := s;
        case _ =>
      }
    }
  }
}
