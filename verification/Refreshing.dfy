/** What a refresh or a connect stores is what it was given, and what a refresh deletes was refused. */
module Refreshing {
  import opened History
  import opened Renewals

  // ── what was answered ──────────────────────────────────────────────

  /** Event `i` asked the authorization server to refresh `before`, for refresh `h`. */
  ghost predicate AskedAt(es: seq<Event>, ms: nat, i: int, h: nat, before: nat) {
    && 0 <= i < |es| && es[i].Step? && es[i].holder == h
    && var v := Run(es[..i], ms);
       h in v.renewals && v.renewals[h].pc.Asking? && v.renewals[h].before == before
  }

  /** It answered with the credential sealed as the value `sealed`. */
  ghost predicate AnsweredAt(es: seq<Event>, ms: nat, i: int, h: nat, before: nat, sealed: nat) {
    && AskedAt(es, ms, i, h, before)
    && (es[i].answer.Rotated? || es[i].answer.SameToken?)
    && |Run(es[..i], ms).kept| == sealed
  }

  ghost predicate RefusedAt(es: seq<Event>, ms: nat, i: int, h: nat, before: nat) {
    AskedAt(es, ms, i, h, before) && es[i].answer.Refused?
  }

  /** Rotated, it has a token no credential sealed before it has; otherwise it has the token of `before`. */
  predicate TokenGot(answer: Answer, before: nat, sealed: nat, kept: seq<Kept>) {
    && before < sealed < |kept|
    && if answer.Rotated?
         then kept[sealed].token.Some? && forall k: nat | k < sealed :: kept[k].token != kept[sealed].token
         else kept[sealed].token == kept[before].token
  }

  lemma AskedOn(es: seq<Event>, e: Event, ms: nat, i: int, h: nat, before: nat)
    requires AskedAt(es, ms, i, h, before)
    ensures AskedAt(es + [e], ms, i, h, before) && (es + [e])[i] == es[i] && (es + [e])[..i] == es[..i]
  {
    assert (es + [e])[..i] == es[..i];
  }

  // ── credentials and tokens only accumulate ─────────────────────────

  lemma NextKept(v: Vault, e: Event, ms: nat)
    ensures var w := Next(v, e, ms); v.kept <= w.kept && (TokensIssued(v) ==> TokensIssued(w))
  {
    match e
    case Step(h, a) =>
      if h in v.renewals {
        KeptStep(v, h, a, ms);
        if TokensIssued(v) { IssuedAfter(v, StepRenewal(v, h, v.renewals[h], a, ms), v.renewals[h].before); }
      }
    case Connect(token) => ConnectKept(v, token, ms);
    case _ => OtherKept(v, e, ms);
  }

  lemma ConnectKept(v: Vault, token: bool, ms: nat)
    ensures var w := Next(v, Connect(token), ms);
            v.kept <= w.kept && |w.kept| == |v.kept| + 1 && (TokensIssued(v) ==> TokensIssued(w))
            && w.kept[|v.kept|].token == if token then Some(v.tokens) else None
  {}

  lemma OtherKept(v: Vault, e: Event, ms: nat)
    requires !e.Step? && !e.Connect?
    ensures var w := Next(v, e, ms); w.kept == v.kept && w.tokens == v.tokens
  {}

  lemma {:induction false} RunIssued(es: seq<Event>, ms: nat)
    ensures TokensIssued(Run(es, ms))
  {
    if es != [] {
      RunIssued(es[..|es| - 1], ms);
      NextKept(Run(es[..|es| - 1], ms), es[|es| - 1], ms);
    }
  }

  lemma {:induction false} KeptStays(es: seq<Event>, ms: nat, n: nat)
    requires n <= |es|
    ensures Run(es[..n], ms).kept <= Run(es, ms).kept
  {
    if n < |es| {
      assert es[..|es| - 1][..n] == es[..n];
      KeptStays(es[..|es| - 1], ms, n);
      NextKept(Run(es[..|es| - 1], ms), es[|es| - 1], ms);
    } else {
      assert es[..n] == es;
    }
  }

  lemma AnswerSeals(v: Vault, h: nat, a: Answer, ms: nat)
    requires h in v.renewals && v.renewals[h].pc.Asking? && (a.Rotated? || a.SameToken?)
    requires TokensIssued(v) && v.renewals[h].before < |v.kept|
    ensures TokenGot(a, v.renewals[h].before, |v.kept|, Next(v, Step(h, a), ms).kept)
  {}

  lemma GotStays(a: Answer, before: nat, sealed: nat, kept: seq<Kept>, more: seq<Kept>)
    requires TokenGot(a, before, sealed, kept) && kept <= more
    ensures TokenGot(a, before, sealed, more)
  {
    forall k: nat | k < |kept| ensures more[k] == kept[k] {}
  }

  /** What a refresh was answered with is in the credential it sealed then, ever after. */
  lemma {:induction false} AnswerKept(es: seq<Event>, ms: nat, i: int, h: nat, before: nat, sealed: nat)
    requires AnsweredAt(es, ms, i, h, before, sealed)
    ensures TokenGot(es[i].answer, before, sealed, Run(es, ms).kept)
  {
    var v := Run(es[..i], ms);
    RunFresh(es[..i], ms);
    RunIssued(es[..i], ms);
    assert RenewalOk(v, h, v.renewals[h]);
    AnswerSeals(v, h, es[i].answer, ms);
    var n := i + 1;
    assert es[..n][..i] == es[..i] && es[..n][i] == es[i];
    KeptStays(es, ms, n);
    GotStays(es[i].answer, before, sealed, Run(es[..n], ms).kept, Run(es, ms).kept);
  }

  // ── a refresh writes what it was answered with ─────────────────────

  /** It holds what an answer of its own gave it, and drops a credential only without a token, or refused. */
  ghost predicate Told(es: seq<Event>, ms: nat, h: nat, v: Vault, r: Renewal) {
    && (Seals(r) ==> exists i :: AnsweredAt(es, ms, i, h, r.before, r.pc.sealed))
    && (r.pc.Dropping? || r.pc.Refusing? ==>
          TokenOf(v, r.before).None? || exists i :: RefusedAt(es, ms, i, h, r.before))
  }

  lemma ToldOn(es: seq<Event>, e: Event, ms: nat, h: nat, v: Vault, w: Vault, r: Renewal)
    requires Told(es, ms, h, v, r) && r.before < |v.kept| && v.kept <= w.kept
    ensures Told(es + [e], ms, h, w, r)
  {
    if Seals(r) {
      var i :| AnsweredAt(es, ms, i, h, r.before, r.pc.sealed);
      AskedOn(es, e, ms, i, h, r.before);
      assert AnsweredAt(es + [e], ms, i, h, r.before, r.pc.sealed);
    }
    if (r.pc.Dropping? || r.pc.Refusing?) && TokenOf(v, r.before).Some? {
      var i :| RefusedAt(es, ms, i, h, r.before);
      AskedOn(es, e, ms, i, h, r.before);
      assert RefusedAt(es + [e], ms, i, h, r.before);
    }
  }

  /** A step keeps what it holds, or is the answer that gives it. */
  lemma StepKeeps(v: Vault, h: nat, a: Answer, ms: nat)
    requires h in v.renewals
    ensures var w, r := Next(v, Step(h, a), ms), v.renewals[h];
            h in w.renewals ==>
              var n := w.renewals[h];
              && n.before == r.before
              && (Seals(n) ==>
                    (Seals(r) && n.pc.sealed == r.pc.sealed)
                    || (r.pc.Asking? && (a.Rotated? || a.SameToken?) && n.pc.sealed == |v.kept|))
              && (n.pc.Dropping? || n.pc.Refusing? ==>
                    || r.pc.Refusing?
                    || (r.pc.Checking? && TokenOf(v, r.before).None?)
                    || (r.pc.Asking? && a.Refused?))
  {}

  lemma OthersKeep(v: Vault, e: Event, ms: nat, h: nat)
    requires Fresh(v) && !(e.Step? && e.holder == h) && h in Next(v, e, ms).renewals
    ensures var n := Next(v, e, ms).renewals[h];
            n.pc.Checking? || (h in v.renewals && n == v.renewals[h])
  {
    if e.Step? { if e.holder in v.renewals { StepFrames(v, e.holder, e.answer, ms); } }
    else if e.FinishStep? { if e.id in v.finishes { FinishRenewsNone(v, e.id, e.answer); } }
    else { RestKeeps(v, e, ms, h); }
  }

  lemma FinishRenewsNone(v: Vault, id: nat, a: Answer)
    requires id in v.finishes
    ensures StepFinish(v, id, v.finishes[id], a).renewals == v.renewals
  {}

  lemma RestKeeps(v: Vault, e: Event, ms: nat, h: nat)
    requires !e.Step? && !e.FinishStep? && h in Next(v, e, ms).renewals
    ensures var n := Next(v, e, ms).renewals[h];
            n.pc.Checking? || (h in v.renewals && n == v.renewals[h])
  {}

  lemma StepTold(es: seq<Event>, ms: nat, h: nat, a: Answer)
    requires var v := Run(es, ms); h in v.renewals && Told(es, ms, h, v, v.renewals[h])
    requires var w := Run(es + [Step(h, a)], ms); h in w.renewals
    ensures var w := Run(es + [Step(h, a)], ms); Told(es + [Step(h, a)], ms, h, w, w.renewals[h])
  {
    var e, after := Step(h, a), es + [Step(h, a)];
    assert after[..|es|] == es;
    var v, w := Run(es, ms), Run(after, ms);
    var r, n := v.renewals[h], w.renewals[h];
    RunFresh(es, ms);
    assert RenewalOk(v, h, r);
    NextKept(v, e, ms);
    StepKeeps(v, h, a, ms);
    ToldOn(es, e, ms, h, v, w, r);
    if r.pc.Asking? {
      assert AskedAt(after, ms, |es|, h, r.before);
      assert Seals(n) ==> AnsweredAt(after, ms, |es|, h, r.before, n.pc.sealed);
      assert a.Refused? ==> RefusedAt(after, ms, |es|, h, r.before);
    }
  }

  lemma {:induction false} RunTold(es: seq<Event>, ms: nat, h: nat)
    requires h in Run(es, ms).renewals
    ensures var v := Run(es, ms); Told(es, ms, h, v, v.renewals[h])
  {
    if es != [] {
      var before, e := es[..|es| - 1], es[|es| - 1];
      var v := Run(before, ms);
      assert es == before + [e];
      if e.Step? && e.holder == h {
        RunTold(before, ms, h);
        StepTold(before, ms, h, e.answer);
      } else {
        RunFresh(before, ms);
        OthersKeep(v, e, ms, h);
        if !Run(es, ms).renewals[h].pc.Checking? {
          RunTold(before, ms, h);
          assert RenewalOk(v, h, v.renewals[h]);
          NextKept(v, e, ms);
          ToldOn(before, e, ms, h, v, Run(es, ms), v.renewals[h]);
        }
      }
    }
  }

  lemma OnlyWritingStores(v: Vault, h: nat, a: Answer, ms: nat)
    requires h in v.renewals
    ensures var w, r := Next(v, Step(h, a), ms), v.renewals[h];
            && (w.value != v.value && w.value.Some? ==>
                  r.pc.Writing? && v.value == Some(r.before) && w.value == Some(r.pc.sealed))
            && (w.value != v.value && w.value.None? ==> r.pc.Dropping? && v.value == Some(r.before))
  {}

  /**
   * In every run, what a refresh stores is the value it sealed when the authorization server answered it: with a
   * token no earlier credential had if that answer rotated it, else with the very token it was asked to refresh.
   */
  lemma {:induction false} RefreshStoresWhatItGot(es: seq<Event>, h: nat, a: Answer, ms: nat)
    requires var v, w := Run(es, ms), Run(es + [Step(h, a)], ms); w.value != v.value && w.value.Some?
    ensures var v, w := Run(es, ms), Run(es + [Step(h, a)], ms);
            h in v.renewals && v.value == Some(v.renewals[h].before)
            && exists i | 0 <= i < |es| ::
                 && AnsweredAt(es, ms, i, h, v.renewals[h].before, w.value.value)
                 && TokenGot(es[i].answer, v.renewals[h].before, w.value.value, w.kept)
  {
    var after := es + [Step(h, a)];
    assert after[..|es|] == es;
    var v, w := Run(es, ms), Run(after, ms);
    OnlyWritingStores(v, h, a, ms);
    var r := v.renewals[h];
    RunTold(es, ms, h);
    var i :| AnsweredAt(es, ms, i, h, r.before, r.pc.sealed);
    AnswerKept(es, ms, i, h, r.before, r.pc.sealed);
    NextKept(v, Step(h, a), ms);
    GotStays(es[i].answer, r.before, r.pc.sealed, v.kept, w.kept);
  }

  /** And while the row is unchanged, a write of it that the store answers lands. */
  lemma {:induction false} AnsweredWriteLands(es: seq<Event>, h: nat, ms: nat)
    requires var v := Run(es, ms);
             h in v.renewals && v.renewals[h].pc.Writing? && v.value == Some(v.renewals[h].before)
    ensures var v, w := Run(es, ms), Run(es + [Step(h, Go)], ms);
            && w.value.Some? && h !in w.renewals
            && exists i | 0 <= i < |es| ::
                 && AnsweredAt(es, ms, i, h, v.renewals[h].before, w.value.value)
                 && TokenGot(es[i].answer, v.renewals[h].before, w.value.value, w.kept)
  {
    var after := es + [Step(h, Go)];
    assert after[..|es|] == es;
    RunTold(es, ms, h);
    RunFresh(es, ms);
    var v := Run(es, ms);
    var r := v.renewals[h];
    assert RenewalOk(v, h, r);
    var i :| AnsweredAt(es, ms, i, h, r.before, r.pc.sealed);
    AnswerKept(es, ms, i, h, r.before, r.pc.sealed);
    assert r.pc.sealed != r.before;
    RefreshStoresWhatItGot(es, h, Go, ms);
  }

  /** A refresh deletes only what it started from, and only without a token to refresh it with, or refused. */
  lemma {:induction false} DeletesOnlyRefused(es: seq<Event>, h: nat, a: Answer, ms: nat)
    requires var v, w := Run(es, ms), Run(es + [Step(h, a)], ms); v.value.Some? && w.value.None?
    ensures var v := Run(es, ms);
            h in v.renewals && v.value == Some(v.renewals[h].before)
            && (TokenOf(v, v.renewals[h].before).None? || exists i :: RefusedAt(es, ms, i, h, v.renewals[h].before))
  {
    assert (es + [Step(h, a)])[..|es|] == es;
    OnlyWritingStores(Run(es, ms), h, a, ms);
    RunTold(es, ms, h);
  }

  /** Refused, with the row still what it started from, the refresh deletes it. */
  lemma {:induction false} RefusedIsDropped(es: seq<Event>, h: nat, ms: nat)
    requires var v := Run(es, ms);
             h in v.renewals && v.renewals[h].pc.Asking? && v.value == Some(v.renewals[h].before)
    ensures var w := Run(es + [Step(h, Refused)] + [Step(h, Go)] + [Step(h, Go)], ms);
            w.value.None? && h !in w.renewals
  {
    var a := es + [Step(h, Refused)];
    var b := a + [Step(h, Go)];
    assert a[..|es|] == es && b[..|a|] == a && (b + [Step(h, Go)])[..|b|] == b;
    var v := Run(a, ms);
    assert v.renewals[h].pc.Refusing? && v.value == Some(v.renewals[h].before);
    var w := Run(b, ms);
    assert w.renewals[h].pc.Dropping? && w.value == Some(w.renewals[h].before);
  }

  // ── a connect writes its own ───────────────────────────────────────

  ghost predicate ConnectedAt(es: seq<Event>, ms: nat, i: int, id: nat) {
    0 <= i < |es| && es[i].Connect? && |Run(es[..i], ms).kept| == id
  }

  lemma FinishKeeps(v: Vault, e: Event, ms: nat, id: nat)
    requires id in Next(v, e, ms).finishes
    ensures id in v.finishes || (e.Connect? && id == |v.kept|)
  {}

  lemma {:induction false} RunConnected(es: seq<Event>, ms: nat, id: nat)
    requires id in Run(es, ms).finishes
    ensures exists i :: ConnectedAt(es, ms, i, id)
  {
    var before, e := es[..|es| - 1], es[|es| - 1];
    assert es == before + [e];
    FinishKeeps(Run(before, ms), e, ms, id);
    if id in Run(before, ms).finishes {
      RunConnected(before, ms, id);
      var i :| ConnectedAt(before, ms, i, id);
      assert es[..i] == before[..i];
      assert ConnectedAt(es, ms, i, id);
    } else {
      assert ConnectedAt(es, ms, |es| - 1, id);
    }
  }

  /** What a connect stores is what it was given: a token of its own, if it came with one. */
  lemma {:induction false} ConnectStoresItsOwn(es: seq<Event>, id: nat, a: Answer, ms: nat)
    requires var v, w := Run(es, ms), Run(es + [FinishStep(id, a)], ms); w.value != v.value
    ensures var w := Run(es + [FinishStep(id, a)], ms);
            && w.value == Some(id) && id < |w.kept|
            && exists i | 0 <= i < |es| ::
                 && ConnectedAt(es, ms, i, id)
                 && (w.kept[id].token.Some? <==> es[i].token)
                 && (es[i].token ==> forall k: nat | k < id :: w.kept[k].token != w.kept[id].token)
  {
    var after := es + [FinishStep(id, a)];
    assert after[..|es|] == es;
    var v, w := Run(es, ms), Run(after, ms);
    RunFresh(es, ms);
    assert id in v.finishes && FinishOk(v, id, v.finishes[id]);
    FinishMoves(v, id, a);
    RunConnected(es, ms, id);
    var i :| ConnectedAt(es, ms, i, id);
    var n := i + 1;
    assert after[..n][..i] == es[..i] && after[..n][i] == es[i] && after[..i] == es[..i];
    RunIssued(es[..i], ms);
    ConnectKept(Run(es[..i], ms), es[i].token, ms);
    KeptStays(after, ms, n);
    ConnectGot(Run(es[..i], ms), Run(after[..n], ms).kept, w.kept, es[i].token);
  }

  lemma ConnectGot(v: Vault, kept: seq<Kept>, more: seq<Kept>, token: bool)
    requires TokensIssued(v) && v.kept <= kept <= more && |kept| == |v.kept| + 1
    requires kept[|v.kept|].token == if token then Some(v.tokens) else None
    ensures (more[|v.kept|].token.Some? <==> token)
            && (token ==> forall k: nat | k < |v.kept| :: more[k].token != more[|v.kept|].token)
  {
    forall k: nat | k < |kept| ensures more[k] == kept[k] {}
    forall k: nat | k < |v.kept| ensures kept[k] == v.kept[k] {}
  }
}
