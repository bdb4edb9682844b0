/**
 * A surface's own opening may come after its revisions: it still has one block, at its latest handle, with its tool
 * row.
 */
module LateOriginals {
  import opened History
  import opened Conversations
  import opened Orders
  import opened Transcripts
  import opened TranscriptOrder

  // ── what the streams send of one surface ───────────────────────────

  /** The handles of one surface, in the order they were issued. */
  predicate Rising(hs: seq<Handle>) { hs != [] && forall i, j | 0 <= i < j < |hs| :: hs[i] < hs[j] }

  /** A frame that opens, or names as revised, a handle of the surface. */
  predicate About(f: Frame, hs: seq<Handle>) { f.Opens? && (f.handle in hs || exists h | h in hs :: h in Family(f)) }

  /** The surface as a tool first shows it, in its row. */
  predicate Original(f: Frame, hs: seq<Handle>, row: string)
    requires Rising(hs)
  {
    f.Opens? && f.handle == hs[0] && Family(f) == [] && f.toolId == row
  }

  /** Its `k`-th revision: a revision has no row of its own, and names the handle it replaced, and any before that. */
  predicate Revision(f: Frame, hs: seq<Handle>, k: nat)
    requires Rising(hs) && 0 < k < |hs|
  {
    f.Opens? && f.handle == hs[k] && f.toolId == "" && hs[k - 1] in Family(f)
      && forall h | h in Family(f) :: h in hs[..k]
  }

  /**
   * `fs` has sent the surface's revisions through the `k`-th, each for the first time in order, and its original or
   * not, anywhere among them; either may be sent again. What else it sends is about other surfaces.
   */
  ghost predicate Sent(fs: seq<Frame>, hs: seq<Handle>, row: string, k: nat, original: bool)
    requires Rising(hs) && k < |hs|
    decreases |fs|, 1
  {
    if fs == [] then k == 0 && !original
    else
      || Before(fs, hs, row, k, false, k, original)
      || Before(fs, hs, row, k, true, k, original)
      || (k > 0 && Before(fs, hs, row, k - 1, original, k, original))
  }

  /** The last frame of `fs` took what was sent from `was` and `had` to `k` and `original`. */
  ghost predicate Before(fs: seq<Frame>, hs: seq<Handle>, row: string, was: nat, had: bool, k: nat, original: bool)
    requires Rising(hs) && was < |hs| && k < |hs| && fs != []
    decreases |fs|, 0
  {
    Sends(fs[|fs| - 1], hs, row, was, had, k, original) && Sent(fs[..|fs| - 1], hs, row, was, had)
  }

  /** What one frame adds to what was sent. */
  predicate Sends(f: Frame, hs: seq<Handle>, row: string, was: nat, had: bool, k: nat, original: bool)
    requires Rising(hs) && was < |hs| && k < |hs|
  {
    || (k == was && original == had && (!About(f, hs) || Again(f, hs, row, k, original)))
    || (k == was + 1 && original == had && Revision(f, hs, k))
    || (k == was && original && !had && Original(f, hs, row))
  }

  /** A frame sent before. */
  predicate Again(f: Frame, hs: seq<Handle>, row: string, k: nat, original: bool)
    requires Rising(hs) && k < |hs|
  {
    (original && Original(f, hs, row)) || exists i | 0 < i <= k :: Revision(f, hs, i)
  }

  // ── what the browser then knows of it ──────────────────────────────

  ghost predicate LeadsOn(links: map<Handle, Handle>, hs: seq<Handle>, k: nat, i: nat)
    requires k < |hs| && i < |hs|
  {
    hs[i] in links && exists j | i < j <= k :: links[hs[i]] == hs[j]
  }

  /** Each earlier handle leads to a later one of the surface, and nothing else leads to the surface. */
  ghost predicate LinkedUpTo(links: map<Handle, Handle>, hs: seq<Handle>, k: nat)
    requires k < |hs|
  {
    (forall i: nat | i < |hs| :: LinkedAt(links, hs, k, i)) && Inside(links, hs)
  }

  ghost predicate LinkedAt(links: map<Handle, Handle>, hs: seq<Handle>, k: nat, i: nat)
    requires k < |hs| && i < |hs|
  {
    (hs[i] in links <==> i < k) && (i < k ==> LeadsOn(links, hs, k, i))
  }

  ghost predicate Inside(links: map<Handle, Handle>, hs: seq<Handle>) {
    forall x | x in links && links[x] in hs :: x in hs
  }

  /** The one handle it is shown at, once anything of it has come. */
  ghost predicate ShownAt(surfaces: map<Handle, Surface>, hs: seq<Handle>, k: nat, shown: bool)
    requires k < |hs|
  {
    forall i | 0 <= i < |hs| :: hs[i] in surfaces <==> shown && i == k
  }

  ghost predicate Chain(c: Client, hs: seq<Handle>, row: string, k: nat, original: bool)
    requires k < |hs|
  {
    && LinkedUpTo(c.replacedBy, hs, k)
    && ShownAt(c.surfaces, hs, k, original || k > 0)
    && (original || k > 0 ==> hs[k] in c.rows && c.rows[hs[k]] == if original then row else "")
  }

  /** From any handle of the surface, the links lead to its latest. */
  lemma {:induction false} LeadsToLatest(links: map<Handle, Handle>, hs: seq<Handle>, k: nat, i: nat)
    requires Rising(hs) && k < |hs| && i <= k && LinkedUpTo(links, hs, k)
    ensures Current(links, hs[i]) == hs[k]
    decreases k - i
  {
    if i < k {
      assert LinkedAt(links, hs, k, i);
      var j :| i < j <= k && links[hs[i]] == hs[j];
      assert hs[i] < hs[j];
      LeadsToLatest(links, hs, k, j);
    } else {
      assert LinkedAt(links, hs, k, i);
      CurrentStops(links, hs[i]);
    }
  }

  /** From any other, they do not. */
  lemma {:induction false} LeadsElsewhere(links: map<Handle, Handle>, hs: seq<Handle>, k: nat, x: Handle)
    requires k < |hs| && LinkedUpTo(links, hs, k) && x !in hs
    ensures Current(links, x) !in hs
    decreases From(links, x)
  {
    if x in links && x < links[x] {
      assert From(links, links[x]) <= From(links, x) && x in From(links, x) && x !in From(links, links[x]);
      LeadsElsewhere(links, hs, k, links[x]);
    }
  }

  // ── each frame ─────────────────────────────────────────────────────

  lemma OtherLinks(links: map<Handle, Handle>, hs: seq<Handle>, k: nat, family: seq<Handle>, h: Handle)
    requires k < |hs| && LinkedUpTo(links, hs, k) && h !in hs && forall x | x in family :: x !in hs
    ensures LinkedUpTo(Relinked(links, family, h), hs, k)
  {
    var more := Relinked(links, family, h);
    forall i: nat | i < |hs| ensures LinkedAt(more, hs, k, i) {
      assert LinkedAt(links, hs, k, i);
      if i < k { assert more[hs[i]] == links[hs[i]]; }
    }
  }

  lemma NextLinked(links: map<Handle, Handle>, hs: seq<Handle>, k: nat, family: seq<Handle>, i: nat)
    requires Rising(hs) && k + 1 < |hs| && i < |hs| && LinkedAt(links, hs, k, i)
    requires hs[k] in family && forall x | x in family :: x in hs[..k + 1]
    ensures LinkedAt(Relinked(links, family, hs[k + 1]), hs, k + 1, i)
  {
    var more := Relinked(links, family, hs[k + 1]);
    if hs[i] in family {
      var j :| 0 <= j < k + 1 && hs[..k + 1][j] == hs[i];
      assert i == j && more[hs[i]] == hs[k + 1];
    } else if i < k + 1 {
      assert more[hs[i]] == links[hs[i]];
    }
  }

  lemma NextLinks(links: map<Handle, Handle>, hs: seq<Handle>, k: nat, family: seq<Handle>)
    requires Rising(hs) && k + 1 < |hs| && LinkedUpTo(links, hs, k) && hs[k] in family
             && forall x | x in family :: x in hs[..k + 1]
    ensures LinkedUpTo(Relinked(links, family, hs[k + 1]), hs, k + 1)
  {
    var more, n := Relinked(links, family, hs[k + 1]), k + 1;
    forall i: nat | i < |hs| ensures LinkedAt(more, hs, n, i) {
      assert LinkedAt(links, hs, k, i);
      NextLinked(links, hs, k, family, i);
    }
    NextInside(links, hs, k, family);
  }

  lemma NextInside(links: map<Handle, Handle>, hs: seq<Handle>, k: nat, family: seq<Handle>)
    requires k + 1 < |hs| && Inside(links, hs) && forall x | x in family :: x in hs[..k + 1]
    ensures Inside(Relinked(links, family, hs[k + 1]), hs)
  {}

  /** What opens another surface leaves this one as it is. */
  lemma OtherOpens(c: Client, f: Frame, hs: seq<Handle>, row: string, k: nat, original: bool)
    requires k < |hs| && Chain(c, hs, row, k, original) && f.Opens? && !About(f, hs) && Consistent(c)
    ensures Chain(ApplyOpen(c, f), hs, row, k, original)
  {
    if f.handle in c.surfaces {
    } else if f.handle in c.replacedBy {
      LeadsElsewhere(c.replacedBy, hs, k, f.handle);
      assert hs[k] in hs;
    } else {
      OtherLinks(c.replacedBy, hs, k, Family(f), f.handle);
    }
  }

  lemma OthersLeave(c: Client, f: Frame, hs: seq<Handle>, row: string, k: nat, original: bool)
    requires k < |hs| && Chain(c, hs, row, k, original) && !About(f, hs) && Consistent(c)
    ensures Chain(Apply(c, f), hs, row, k, original)
  {
    if f.Opens? { OtherOpens(c, f, hs, row, k, original); }
  }

  /** A revision takes the block over, and its row with it; or, before the original, opens the block with none. */
  lemma RevisionOpens(c: Client, f: Frame, hs: seq<Handle>, row: string, k: nat, original: bool)
    requires Rising(hs) && k + 1 < |hs| && Chain(c, hs, row, k, original) && Revision(f, hs, k + 1) && Consistent(c)
    ensures Chain(Apply(c, f), hs, row, k + 1, original)
  {
    assert LinkedAt(c.replacedBy, hs, k, k + 1);
    assert hs[k + 1] !in c.surfaces && hs[k + 1] !in c.replacedBy;
    NextLinks(c.replacedBy, hs, k, Family(f));
    OneKnown(c, f, hs, k, original || k > 0);
    assert forall i | 0 <= i < |hs| :: i != k ==> hs[i] != hs[k];
  }

  /** Of its earlier handles, a browser shows only the last. */
  lemma OneKnown(c: Client, f: Frame, hs: seq<Handle>, k: nat, shown: bool)
    requires Rising(hs) && k + 1 < |hs| && ShownAt(c.surfaces, hs, k, shown) && Revision(f, hs, k + 1)
    ensures FirstKnown(c.surfaces, Family(f)) == if shown then Some(hs[k]) else None
  {
    assert forall x | x in Family(f) :: x in hs;
  }

  /** The original opens the block, or finds it standing at the latest revision, and gives it its row. */
  lemma OriginalOpens(c: Client, f: Frame, hs: seq<Handle>, row: string, k: nat)
    requires Rising(hs) && k < |hs| && Chain(c, hs, row, k, false) && Original(f, hs, row) && Consistent(c)
    ensures Chain(Apply(c, f), hs, row, k, true)
  {
    assert LinkedAt(c.replacedBy, hs, k, 0);
    if k > 0 {
      LeadsToLatest(c.replacedBy, hs, k, 0);
    } else {
      assert Relinked(c.replacedBy, Family(f), hs[0]) == c.replacedBy;
      assert FirstKnown(c.surfaces, Family(f)) == None;
    }
  }

  /** A handle of it heard before opens nothing: its row is known, or still to come. */
  lemma HeardBefore(c: Client, f: Frame, hs: seq<Handle>, row: string, k: nat, original: bool, i: nat)
    requires Rising(hs) && i <= k < |hs| && Chain(c, hs, row, k, original) && f.Opens? && f.handle == hs[i]
             && (original || k > 0)
    requires f.toolId == "" || (original && f.toolId == row)
    ensures Chain(Apply(c, f), hs, row, k, original)
  {
    assert LinkedAt(c.replacedBy, hs, k, i);
    if i < k {
      LeadsToLatest(c.replacedBy, hs, k, i);
      assert f.handle !in c.surfaces && f.handle in c.replacedBy;
      assert Apply(c, f) == ApplyLate(c, f);
    } else {
      assert Apply(c, f) == c;
    }
  }

  /** A frame sent before changes nothing of it. */
  lemma AgainOpens(c: Client, f: Frame, hs: seq<Handle>, row: string, k: nat, original: bool)
    requires Rising(hs) && k < |hs| && Chain(c, hs, row, k, original) && Again(f, hs, row, k, original)
    ensures Chain(Apply(c, f), hs, row, k, original)
  {
    if original && Original(f, hs, row) {
      HeardBefore(c, f, hs, row, k, original, 0);
    } else {
      var j :| 0 < j <= k && Revision(f, hs, j);
      HeardBefore(c, f, hs, row, k, original, j);
    }
  }

  // ── over whole streams ─────────────────────────────────────────────

  lemma ChainNext(c: Client, f: Frame, hs: seq<Handle>, row: string, was: nat, had: bool, k: nat, original: bool)
    requires Rising(hs) && was < |hs| && k < |hs| && Chain(c, hs, row, was, had)
             && Sends(f, hs, row, was, had, k, original) && Consistent(c)
    ensures Chain(Apply(c, f), hs, row, k, original)
  {
    if k == was + 1 { RevisionOpens(c, f, hs, row, was, had); }
    else if original != had { OriginalOpens(c, f, hs, row, k); }
    else if About(f, hs) { AgainOpens(c, f, hs, row, k, original); }
    else { OthersLeave(c, f, hs, row, k, original); }
  }

  lemma NothingSent(hs: seq<Handle>, row: string)
    requires Rising(hs)
    ensures Chain(NEW_CLIENT, hs, row, 0, false)
  {}

  lemma {:induction false} ChainKept(fs: seq<Frame>, hs: seq<Handle>, row: string, k: nat, original: bool)
    requires Rising(hs) && k < |hs| && Sent(fs, hs, row, k, original) && forall f | f in fs :: Issues(f)
    ensures Chain(ApplyAll(NEW_CLIENT, fs), hs, row, k, original)
  {
    if fs == [] {
      NothingSent(hs, row);
    } else {
      var front, f := fs[..|fs| - 1], fs[|fs| - 1];
      var was: nat := if k > 0 && Before(fs, hs, row, k - 1, original, k, original) then k - 1 else k;
      var had := if was < k then original else Before(fs, hs, row, k, true, k, original);
      assert Before(fs, hs, row, was, had, k, original);
      TranscriptStaysInOrder(front);
      ChainKept(front, hs, row, was, had);
      ChainNext(ApplyAll(NEW_CLIENT, front), f, hs, row, was, had, k, original);
    }
  }

  /**
   * Wherever a surface's original arrives among its in-order revisions, before, between or after them, and whatever
   * else the streams send: one block stands, once, at the latest handle, in the original's tool row; no other handle
   * of the surface has one; and each leads to the latest.
   */
  lemma {:induction false} OneBlockInItsRow(fs: seq<Frame>, hs: seq<Handle>, row: string, k: nat)
    requires Rising(hs) && k < |hs| && Sent(fs, hs, row, k, true) && forall f | f in fs :: Issues(f)
    ensures var c := ApplyAll(NEW_CLIENT, fs);
            && multiset(c.order)[U(hs[k])] == 1 && hs[k] in c.rows && c.rows[hs[k]] == row
            && (forall i | 0 <= i < |hs| && i != k :: U(hs[i]) !in c.order && hs[i] !in c.rows)
            && (forall i | 0 <= i <= k :: Current(c.replacedBy, hs[i]) == hs[k])
  {
    var c := ApplyAll(NEW_CLIENT, fs);
    ChainKept(fs, hs, row, k, true);
    TranscriptStaysInOrder(fs);
    InCounts(c.order, U(hs[k]));
    forall i | 0 <= i <= k ensures Current(c.replacedBy, hs[i]) == hs[k] { LeadsToLatest(c.replacedBy, hs, k, i); }
  }

  /**
   * In particular, last of all: the revisions came first, and the original changes no block but the row of the one that
   * stands.
   */
  lemma {:induction false} LateOriginal(fs: seq<Frame>, hs: seq<Handle>, row: string, k: nat, f: Frame)
    requires Rising(hs) && 0 < k < |hs| && Sent(fs, hs, row, k, false) && Original(f, hs, row)
             && forall g | g in fs :: Issues(g)
    ensures var c := ApplyAll(NEW_CLIENT, fs); Apply(c, f) == c.(rows := c.rows[hs[k] := row])
    ensures multiset(ApplyAll(NEW_CLIENT, fs).order)[U(hs[k])] == 1
  {
    var c := ApplyAll(NEW_CLIENT, fs);
    ChainKept(fs, hs, row, k, false);
    TranscriptStaysInOrder(fs);
    assert LinkedAt(c.replacedBy, hs, k, 0);
    LeadsToLatest(c.replacedBy, hs, k, 0);
    InCounts(c.order, U(hs[k]));
  }
}
