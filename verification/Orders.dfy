/** The order of a browser's transcript, and moving notices beside the surface they name. */
module Orders {
  import opened History
  import opened Conversations

  /** A notice as a browser shows it: `names` is the surface it belongs beside. */
  datatype Note = Note(number: nat, names: Option<Handle>)

  datatype Item = B(id: string) | U(handle: Handle) | N(note: Note)

  predicate Naming(x: Item) { x.N? && x.note.names.Some? }

  predicate AllNaming(s: seq<Item>) { forall x | x in s :: Naming(x) }

  // ── what a move is made of ─────────────────────────────────────────

  /** The items not in `gone`. */
  function Remove(s: seq<Item>, gone: set<Item>): seq<Item> {
    if s == [] then [] else (if s[0] in gone then [] else [s[0]]) + Remove(s[1..], gone)
  }

  /** What the surface at the head of a list gets. */
  function Due(x: Item, under: map<Handle, seq<Item>>): seq<Item> {
    if x.U? && x.handle in under then under[x.handle] else []
  }

  /**
   * Each surface in `under` gets its items after the notices already beside it; `due` is what the last one still gets.
   */
  function Weave(s: seq<Item>, under: map<Handle, seq<Item>>, due: seq<Item>): seq<Item> {
    if s == [] then due
    else if Naming(s[0]) then [s[0]] + Weave(s[1..], under, due)
    else due + [s[0]] + Weave(s[1..], under, Due(s[0], under))
  }

  /** A surface's revision takes its place. */
  function Rename(s: seq<Item>, was: Handle, next: Handle): seq<Item> {
    if s == [] then [] else [if s[0] == U(was) then U(next) else s[0]] + Rename(s[1..], was, next)
  }

  function Members(s: seq<Item>): set<Item> { set x | x in s }

  /** The notices named go beside the surface, after the others already there. */
  function MoveUnder(s: seq<Item>, h: Handle, notes: seq<Item>): seq<Item> {
    Weave(Remove(s, Members(notes)), map[h := notes], [])
  }

  /** The naming notices directly after the surface. */
  function Beside(s: seq<Item>, h: Handle): seq<Item> {
    if s == [] then [] else if s[0] == U(h) then Leading(s[1..]) else Beside(s[1..], h)
  }

  /** The naming notices a list starts with. */
  function Leading(s: seq<Item>): seq<Item> {
    if s == [] || !Naming(s[0]) then [] else [s[0]] + Leading(s[1..])
  }

  function RemoveEach(under: map<Handle, seq<Item>>, gone: set<Item>): map<Handle, seq<Item>> {
    map h | h in under :: Remove(under[h], gone)
  }

  ghost predicate EachNaming(under: map<Handle, seq<Item>>) { forall h | h in under :: AllNaming(under[h]) }

  // ── their algebra ──────────────────────────────────────────────────

  lemma WeaveHead(x: Item, s: seq<Item>, under: map<Handle, seq<Item>>, due: seq<Item>)
    ensures Weave([x] + s, under, due) == if Naming(x) then [x] + Weave(s, under, due)
            else due + ([x] + Weave(s, under, Due(x, under)))
  {
    assert ([x] + s)[1..] == s;
    if !Naming(x) { assert due + [x] + Weave(s, under, Due(x, under)) == due + ([x] + Weave(s, under, Due(x, under))); }
  }

  lemma RemoveHead(x: Item, s: seq<Item>, gone: set<Item>)
    ensures Remove([x] + s, gone) == if x in gone then Remove(s, gone) else [x] + Remove(s, gone)
  {
    assert ([x] + s)[1..] == s;
  }

  lemma {:induction false} WeaveSkips(p: seq<Item>, s: seq<Item>, under: map<Handle, seq<Item>>, due: seq<Item>)
    requires AllNaming(p)
    ensures Weave(p + s, under, due) == p + Weave(s, under, due)
  {
    if p == [] {
      assert p + s == s;
    } else {
      assert p[0] in p;
      assert (p + s)[1..] == p[1..] + s;
      WeaveSkips(p[1..], s, under, due);
      assert p == [p[0]] + p[1..];
    }
  }

  /** Two moves under different surfaces are one. */
  lemma {:induction false} WeaveTwice(s: seq<Item>, f: map<Handle, seq<Item>>, p: seq<Item>, g: map<Handle, seq<Item>>,
    q: seq<Item>)
    requires EachNaming(f) && AllNaming(p) && f.Keys !! g.Keys
    ensures Weave(Weave(s, f, p), g, q) == Weave(s, f + g, p + q)
    decreases |s|, 1
  {
    if s == [] {
      assert p + [] == p;
      WeaveSkips(p, [], g, q);
    } else {
      var x, rest := s[0], s[1..];
      assert s == [x] + rest;
      if Naming(x) {
        WeaveHead(x, rest, f, p);
        WeaveHead(x, rest, f + g, p + q);
        WeaveHead(x, Weave(rest, f, p), g, q);
        WeaveTwice(rest, f, p, g, q);
      } else {
        WeaveTwiceAt(x, rest, f, p, g, q);
      }
    }
  }

  lemma {:induction false} WeaveTwiceAt(x: Item, rest: seq<Item>, f: map<Handle, seq<Item>>, p: seq<Item>,
    g: map<Handle, seq<Item>>, q: seq<Item>)
    requires EachNaming(f) && AllNaming(p) && f.Keys !! g.Keys && !Naming(x)
    ensures Weave(Weave([x] + rest, f, p), g, q) == Weave([x] + rest, f + g, p + q)
    decreases |rest| + 1, 0
  {
    WeaveHead(x, rest, f, p);
    WeaveHead(x, rest, f + g, p + q);
    assert Due(x, f + g) == Due(x, f) + Due(x, g);
    WeaveTwice(rest, f, Due(x, f), g, Due(x, g));
    WeaveStep(x, Weave(rest, f, Due(x, f)), Weave(rest, f + g, Due(x, f + g)), p, g, q);
  }

  lemma WeaveStep(x: Item, inner: seq<Item>, both: seq<Item>, p: seq<Item>, g: map<Handle, seq<Item>>, q: seq<Item>)
    requires AllNaming(p) && !Naming(x) && Weave(inner, g, Due(x, g)) == both
    ensures Weave(p + ([x] + inner), g, q) == p + q + ([x] + both)
  {
    WeaveSkips(p, [x] + inner, g, q);
    WeaveHead(x, inner, g, q);
    assert p + (q + ([x] + both)) == p + q + ([x] + both);
  }

  lemma {:induction false} RemoveConcat(a: seq<Item>, b: seq<Item>, gone: set<Item>)
    ensures Remove(a + b, gone) == Remove(a, gone) + Remove(b, gone)
  {
    if a == [] {
      assert a + b == b;
    } else {
      assert (a + b)[1..] == a[1..] + b;
      RemoveConcat(a[1..], b, gone);
    }
  }

  ghost predicate OnlyNotices(gone: set<Item>) { forall x | x in gone :: Naming(x) }

  /** Taking notices out of a woven order weaves what is left. */
  lemma {:induction false} RemoveWeave(s: seq<Item>, f: map<Handle, seq<Item>>, p: seq<Item>, gone: set<Item>)
    requires OnlyNotices(gone)
    ensures Remove(Weave(s, f, p), gone) == Weave(Remove(s, gone), RemoveEach(f, gone), Remove(p, gone))
  {
    if s != [] {
      var x, rest := s[0], s[1..];
      assert s == [x] + rest;
      WeaveHead(x, rest, f, p);
      RemoveHead(x, rest, gone);
      if Naming(x) {
        RemoveHead(x, Weave(rest, f, p), gone);
        RemoveWeave(rest, f, p, gone);
        if x !in gone { WeaveHead(x, Remove(rest, gone), RemoveEach(f, gone), Remove(p, gone)); }
      } else {
        RemoveConcat(p, [x] + Weave(rest, f, Due(x, f)), gone);
        RemoveHead(x, Weave(rest, f, Due(x, f)), gone);
        RemoveWeave(rest, f, Due(x, f), gone);
        WeaveHead(x, Remove(rest, gone), RemoveEach(f, gone), Remove(p, gone));
        assert Due(x, RemoveEach(f, gone)) == Remove(Due(x, f), gone);
      }
    }
  }

  lemma {:induction false} RemoveTwice(s: seq<Item>, a: set<Item>, b: set<Item>)
    ensures Remove(Remove(s, a), b) == Remove(s, a + b)
  {
    if s != [] {
      RemoveTwice(s[1..], a, b);
      RemoveConcat(if s[0] in a then [] else [s[0]], Remove(s[1..], a), b);
    }
  }

  lemma {:induction false} RemoveNone(s: seq<Item>, gone: set<Item>)
    requires forall x | x in s :: x !in gone
    ensures Remove(s, gone) == s
  {
    if s != [] { assert s[0] in s; RemoveNone(s[1..], gone); }
  }

  lemma {:induction false} RemoveAll(s: seq<Item>, gone: set<Item>)
    requires forall x | x in s :: x in gone
    ensures Remove(s, gone) == []
  {
    if s != [] { assert s[0] in s; RemoveAll(s[1..], gone); }
  }

  /** A move of nothing. */
  lemma {:induction false} WeaveNothing(s: seq<Item>, f: map<Handle, seq<Item>>)
    requires forall h | h in f :: f[h] == []
    ensures Weave(s, f, []) == s
  {
    if s != [] { WeaveNothing(s[1..], f); }
  }

  /** What cannot matter: a surface the order does not have. */
  lemma {:induction false} WeaveIgnores(s: seq<Item>, f: map<Handle, seq<Item>>, g: map<Handle, seq<Item>>,
    due: seq<Item>)
    requires forall h | U(h) in s :: (h in f <==> h in g) && (h in f ==> f[h] == g[h])
    ensures Weave(s, f, due) == Weave(s, g, due)
  {
    if s != [] {
      assert s[0] in s;
      WeaveIgnores(s[1..], f, g, if Naming(s[0]) then due else if s[0].U? && s[0].handle in f then f[s[0].handle]
        else []);
    }
  }

  lemma PushAssoc(a: seq<Item>, y: Item, b: seq<Item>, c: seq<Item>, d: seq<Item>)
    ensures a + ([y] + (b + c + d)) == a + ([y] + b) + c + d && [y] + (b + c + d) == [y] + b + c + d
  {}

  /** A block added at the end comes after whatever is still due. */
  lemma {:induction false} WeavePush(s: seq<Item>, x: Item, f: map<Handle, seq<Item>>, due: seq<Item>)
    requires !Naming(x)
    ensures Weave(s + [x], f, due) == Weave(s, f, due) + [x] + Due(x, f)
  {
    if s == [] {
      assert s + [x] == [x] + [];
      WeaveHead(x, [], f, due);
    } else {
      var y, rest := s[0], s[1..];
      assert s == [y] + rest;
      assert s + [x] == [y] + (rest + [x]);
      var next := if Naming(y) then due else Due(y, f);
      WeaveHead(y, rest + [x], f, due);
      WeaveHead(y, rest, f, due);
      WeavePush(rest, x, f, next);
      PushAssoc(if Naming(y) then [] else due, y, Weave(rest, f, next), [x], Due(x, f));
    }
  }

  lemma {:induction false} RenameConcat(a: seq<Item>, b: seq<Item>, was: Handle, next: Handle)
    ensures Rename(a + b, was, next) == Rename(a, was, next) + Rename(b, was, next)
  {
    if a == [] {
      assert a + b == b;
    } else {
      assert (a + b)[1..] == a[1..] + b;
      RenameConcat(a[1..], b, was, next);
    }
  }

  lemma {:induction false} RenameNaming(s: seq<Item>, was: Handle, next: Handle)
    requires AllNaming(s)
    ensures Rename(s, was, next) == s
  {
    if s != [] { assert s[0] in s; RenameNaming(s[1..], was, next); }
  }

  lemma {:induction false} RenameRemove(s: seq<Item>, was: Handle, next: Handle, gone: set<Item>)
    requires OnlyNotices(gone)
    ensures Rename(Remove(s, gone), was, next) == Remove(Rename(s, was, next), gone)
  {
    if s != [] {
      RenameRemove(s[1..], was, next, gone);
      var head := if s[0] in gone then [] else [s[0]];
      RenameConcat(head, Remove(s[1..], gone), was, next);
    }
  }

  /** `under`, by the surface's next handle. */
  function RenameKey(under: map<Handle, seq<Item>>, was: Handle, next: Handle): map<Handle, seq<Item>> {
    if was in under then (under - {was})[next := under[was]] else under - {next}
  }

  lemma {:induction false} RenameWeave(s: seq<Item>, f: map<Handle, seq<Item>>, due: seq<Item>, was: Handle,
    next: Handle)
    requires EachNaming(f) && AllNaming(due) && was != next && U(next) !in s
    ensures Rename(Weave(s, f, due), was, next) == Weave(Rename(s, was, next), RenameKey(f, was, next), due)
  {
    if s == [] {
      RenameNaming(due, was, next);
    } else if Naming(s[0]) {
      var rest := Weave(s[1..], f, due);
      RenameConcat([s[0]], rest, was, next);
      assert ([s[0]] + Rename(s[1..], was, next))[1..] == Rename(s[1..], was, next);
      RenameWeave(s[1..], f, due, was, next);
    } else {
      assert s[0] in s;
      var d := if s[0].U? && s[0].handle in f then f[s[0].handle] else [];
      var rest := Weave(s[1..], f, d);
      RenameConcat(due + [s[0]], rest, was, next);
      RenameConcat(due, [s[0]], was, next);
      RenameNaming(due, was, next);
      RenameWeave(s[1..], f, d, was, next);
      var x := if s[0] == U(was) then U(next) else s[0];
      assert [s[0]][1..] == [];
      assert Rename([s[0]], was, next) == [x];
      assert ([x] + Rename(s[1..], was, next))[1..] == Rename(s[1..], was, next);
    }
  }

  lemma {:induction false} RenameTwice(s: seq<Item>, a: Handle, b: Handle, c: Handle)
    requires U(b) !in s
    ensures Rename(Rename(s, a, b), b, c) == Rename(s, a, c)
  {
    if s != [] {
      assert s[0] in s;
      assert ([if s[0] == U(a) then U(b) else s[0]] + Rename(s[1..], a, b))[1..] == Rename(s[1..], a, b);
      RenameTwice(s[1..], a, b, c);
    }
  }

  /** Renames of different surfaces. */
  lemma {:induction false} RenameSwap(s: seq<Item>, a: Handle, b: Handle, c: Handle, d: Handle)
    requires a != c && b != c && a != d
    ensures Rename(Rename(s, a, b), c, d) == Rename(Rename(s, c, d), a, b)
  {
    if s != [] {
      assert ([if s[0] == U(a) then U(b) else s[0]] + Rename(s[1..], a, b))[1..] == Rename(s[1..], a, b);
      assert ([if s[0] == U(c) then U(d) else s[0]] + Rename(s[1..], c, d))[1..] == Rename(s[1..], c, d);
      RenameSwap(s[1..], a, b, c, d);
    }
  }

  lemma {:induction false} RenameNone(s: seq<Item>, was: Handle, next: Handle)
    requires U(was) !in s
    ensures Rename(s, was, next) == s
  {
    if s != [] { assert s[0] in s; RenameNone(s[1..], was, next); }
  }

  // ── what is beside a surface ───────────────────────────────────────

  lemma Regroup(p: seq<Item>, s: seq<Item>)
    requires p != []
    ensures p + s == [p[0]] + (p[1..] + s)
  {}

  lemma LeadingHead(x: Item, s: seq<Item>)
    ensures Leading([x] + s) == if Naming(x) then [x] + Leading(s) else []
  {
    assert ([x] + s)[1..] == s;
  }

  lemma {:induction false} LeadingSkips(p: seq<Item>, s: seq<Item>)
    requires AllNaming(p)
    ensures Leading(p + s) == p + Leading(s)
  {
    if p == [] {
      assert p + s == s && p + Leading(s) == Leading(s);
    } else {
      assert p[0] in p;
      Regroup(p, s);
      LeadingHead(p[0], p[1..] + s);
      LeadingSkips(p[1..], s);
      Regroup(p, Leading(s));
    }
  }

  lemma {:induction false} LeadingWeave(s: seq<Item>, f: map<Handle, seq<Item>>, due: seq<Item>)
    requires AllNaming(due)
    ensures Leading(Weave(s, f, due)) == Leading(s) + due
  {
    if s == [] {
      assert due + [] == due;
      LeadingSkips(due, []);
    } else {
      assert s == [s[0]] + s[1..];
      WeaveHead(s[0], s[1..], f, due);
      if Naming(s[0]) {
        LeadingHead(s[0], Weave(s[1..], f, due));
        LeadingWeave(s[1..], f, due);
      } else {
        LeadingSkips(due, [s[0]] + Weave(s[1..], f, Due(s[0], f)));
        LeadingHead(s[0], Weave(s[1..], f, Due(s[0], f)));
      }
    }
  }

  lemma BesideHead(x: Item, s: seq<Item>, h: Handle)
    ensures Beside([x] + s, h) == if x == U(h) then Leading(s) else Beside(s, h)
  {
    assert ([x] + s)[1..] == s;
  }

  lemma {:induction false} BesideSkips(p: seq<Item>, s: seq<Item>, h: Handle)
    requires U(h) !in p
    ensures Beside(p + s, h) == Beside(s, h)
  {
    if p == [] {
      assert p + s == s;
    } else {
      assert p + s == [p[0]] + (p[1..] + s);
      BesideHead(p[0], p[1..] + s, h);
      BesideSkips(p[1..], s, h);
    }
  }

  /** A weave adds to what is beside a surface what that surface gets, after it, and nothing else. */
  lemma {:induction false} BesideWeave(s: seq<Item>, f: map<Handle, seq<Item>>, due: seq<Item>, h: Handle)
    requires EachNaming(f) && AllNaming(due) && U(h) in s
    ensures Beside(Weave(s, f, due), h) == Beside(s, h) + Due(U(h), f)
  {
    assert s == [s[0]] + s[1..];
    WeaveHead(s[0], s[1..], f, due);
    if Naming(s[0]) {
      BesideHead(s[0], Weave(s[1..], f, due), h);
      BesideWeave(s[1..], f, due, h);
    } else {
      BesideSkips(due, [s[0]] + Weave(s[1..], f, Due(s[0], f)), h);
      BesideHead(s[0], Weave(s[1..], f, Due(s[0], f)), h);
      if s[0] == U(h) { LeadingWeave(s[1..], f, Due(s[0], f)); } else { BesideWeave(s[1..], f, Due(s[0], f), h); }
    }
  }

  lemma {:induction false} LeadingRemove(s: seq<Item>, gone: set<Item>)
    requires OnlyNotices(gone)
    ensures Leading(Remove(s, gone)) == Remove(Leading(s), gone)
  {
    if s != [] {
      assert s == [s[0]] + s[1..];
      RemoveHead(s[0], s[1..], gone);
      LeadingRemove(s[1..], gone);
      LeadingHead(s[0], Remove(s[1..], gone));
      if Naming(s[0]) { RemoveHead(s[0], Leading(s[1..]), gone); }
    }
  }

  lemma {:induction false} BesideRemove(s: seq<Item>, gone: set<Item>, h: Handle)
    requires OnlyNotices(gone)
    ensures Beside(Remove(s, gone), h) == Remove(Beside(s, h), gone)
  {
    if s != [] {
      assert s == [s[0]] + s[1..];
      RemoveHead(s[0], s[1..], gone);
      BesideHead(s[0], Remove(s[1..], gone), h);
      if s[0] == U(h) { LeadingRemove(s[1..], gone); } else { BesideRemove(s[1..], gone, h); }
    }
  }

  lemma {:induction false} LeadingRename(s: seq<Item>, was: Handle, next: Handle)
    ensures Leading(Rename(s, was, next)) == Leading(s)
  {
    if s != [] {
      LeadingHead(if s[0] == U(was) then U(next) else s[0], Rename(s[1..], was, next));
      LeadingRename(s[1..], was, next);
    }
  }

  lemma {:induction false} BesideRename(s: seq<Item>, was: Handle, next: Handle, h: Handle)
    requires U(next) !in s && was != next
    ensures Beside(Rename(s, was, next), h) == if h == next then Beside(s, was) else if h == was then []
            else Beside(s, h)
  {
    if s != [] {
      assert s[0] in s;
      BesideHead(if s[0] == U(was) then U(next) else s[0], Rename(s[1..], was, next), h);
      BesideRename(s[1..], was, next, h);
      LeadingRename(s[1..], was, next);
    }
  }

  /** Whether what comes after the last item would be beside `h`. */
  lemma {:induction false} LeadingPush(s: seq<Item>, x: Item)
    ensures Leading(s + [x]) == Leading(s) || (Naming(x) && Leading(s + [x]) == Leading(s) + [x])
  {
    if s == [] {
      assert s + [x] == [x] + [];
      LeadingHead(x, []);
    } else {
      assert s + [x] == [s[0]] + (s[1..] + [x]);
      LeadingHead(s[0], s[1..] + [x]);
      LeadingPush(s[1..], x);
    }
  }

  lemma {:induction false} BesidePush(s: seq<Item>, x: Item, h: Handle)
    requires x != U(h)
    ensures Beside(s + [x], h) == Beside(s, h) || (Naming(x) && Beside(s + [x], h) == Beside(s, h) + [x])
  {
    if s == [] {
      assert s + [x] == [x] + [];
      BesideHead(x, [], h);
    } else {
      assert s + [x] == [s[0]] + (s[1..] + [x]);
      BesideHead(s[0], s[1..] + [x], h);
      if s[0] == U(h) { LeadingPush(s[1..], x); } else { BesidePush(s[1..], x, h); }
    }
  }

  lemma {:induction false} LeadingIn(s: seq<Item>)
    ensures forall x | x in Leading(s) :: x in s && Naming(x)
  {
    if s != [] { LeadingIn(s[1..]); }
  }

  lemma {:induction false} BesideIn(s: seq<Item>, h: Handle)
    ensures forall x | x in Beside(s, h) :: x in s && Naming(x)
  {
    if s != [] {
      if s[0] == U(h) { LeadingIn(s[1..]); } else { BesideIn(s[1..], h); }
    }
  }

  // ── nothing lost, nothing twice ────────────────────────────────────

  /** Every item is there once. */
  ghost predicate Once(s: seq<Item>) { forall x :: multiset(s)[x] <= 1 }

  lemma {:induction false} RemoveCounts(s: seq<Item>, gone: set<Item>, x: Item)
    ensures multiset(Remove(s, gone))[x] == if x in gone then 0 else multiset(s)[x]
  {
    if s != [] {
      assert s == [s[0]] + s[1..];
      RemoveCounts(s[1..], gone, x);
    }
  }

  lemma {:induction false} WeaveAbsent(s: seq<Item>, h: Handle, notes: seq<Item>, due: seq<Item>)
    requires U(h) !in s
    ensures multiset(Weave(s, map[h := notes], due)) == multiset(s) + multiset(due)
  {
    if s != [] {
      assert s == [s[0]] + s[1..];
      WeaveHead(s[0], s[1..], map[h := notes], due);
      assert s[0] in s;
      WeaveAbsent(s[1..], h, notes, if Naming(s[0]) then due else []);
    }
  }

  lemma {:induction false} WeaveCounts(s: seq<Item>, h: Handle, notes: seq<Item>, due: seq<Item>)
    requires multiset(s)[U(h)] == 1
    ensures multiset(Weave(s, map[h := notes], due)) == multiset(s) + multiset(due) + multiset(notes)
  {
    assert s == [s[0]] + s[1..];
    WeaveHead(s[0], s[1..], map[h := notes], due);
    if s[0] == U(h) {
      assert U(h) !in multiset(s[1..]);
      WeaveAbsent(s[1..], h, notes, notes);
    } else {
      WeaveCounts(s[1..], h, notes, if Naming(s[0]) then due else []);
    }
  }

  /** A move loses no block and shows none twice. */
  lemma {:induction false} MoveKeeps(s: seq<Item>, h: Handle, notes: seq<Item>)
    requires Once(s) && Once(notes) && U(h) in s && AllNaming(notes) && forall x | x in notes :: x in s
    ensures multiset(MoveUnder(s, h, notes)) == multiset(s)
  {
    var gone := Members(notes);
    RemoveCounts(s, gone, U(h));
    WeaveCounts(Remove(s, gone), h, notes, []);
    forall x ensures multiset(MoveUnder(s, h, notes))[x] == multiset(s)[x] {
      RemoveCounts(s, gone, x);
      if x in gone { assert x in notes && x in s; }
    }
  }

  lemma {:induction false} RenameCounts(s: seq<Item>, was: Handle, next: Handle, x: Item)
    requires was != next
    ensures multiset(Rename(s, was, next))[x] ==
            if x == U(next) then multiset(s)[x] + multiset(s)[U(was)] else if x == U(was) then 0 else multiset(s)[x]
  {
    if s != [] {
      assert s == [s[0]] + s[1..];
      RenameCounts(s[1..], was, next, x);
    }
  }

  lemma InCounts(s: seq<Item>, x: Item)
    ensures x in s <==> multiset(s)[x] > 0
  {
    assert x in s <==> x in multiset(s);
  }

  /** What a move leaves beside each surface. */
  lemma {:induction false} BesideMoved(s: seq<Item>, h: Handle, notes: seq<Item>, k: Handle)
    requires U(k) in s && AllNaming(notes)
    ensures Beside(MoveUnder(s, h, notes), k) == Remove(Beside(s, k), Members(notes)) + if k == h then notes else []
  {
    var gone := Members(notes);
    RemoveCounts(s, gone, U(k));
    InCounts(s, U(k));
    InCounts(Remove(s, gone), U(k));
    BesideWeave(Remove(s, gone), map[h := notes], [], k);
    BesideRemove(s, gone, k);
  }

  /** What one notice placed beside a surface leaves beside each. */
  lemma {:induction false} BesidePlaced(s: seq<Item>, h: Handle, x: Item, k: Handle)
    requires U(k) in s && Naming(x)
    ensures Beside(Weave(s, map[h := [x]], []), k) == Beside(s, k) + if k == h then [x] else []
  {
    BesideWeave(s, map[h := [x]], [], k);
  }
}
