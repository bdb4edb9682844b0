/**
 * OAuth refresh across processes: one user's credential for one server, its refresh lease, and everyone who may write
 * it.
 */
module Renewals {
  import opened History

  /** A lease on the credential's refresh, by the store's clock. */
  datatype Lease = Lease(holder: nat, until: nat)

  /**
   * What a sealed credential opens to: its refresh token, if it has one. `writer` is the refresh that sealed it, or
   * None for a connect: a history variable.
   */
  datatype Kept = Kept(token: Option<nat>, writer: Option<nat>)

  const WRITE_TRIES := 3

  datatype Pc =
    | Checking
    | Leasing(giveUp: nat)
    | Rechecking(giveUp: nat)
    | Asking
    | Refusing
    | Dropping
    | GivingBack
    // `landed`: the write is in the store, though its answer was lost. A history variable.
    | Writing(sealed: nat, tries: nat, landed: bool)
    | Reading(sealed: nat, tries: nat, landed: bool)
    | LastReading
    | Orphaning
    | Standing

  /** A refresh under way: the credential it started from, and until when its lease runs. */
  datatype Renewal = Renewal(before: nat, until: nat, pc: Pc)

  /** The end of a connect under way: the credential it writes, what it last read, and its tries left. */
  datatype Finish = Finish(sealed: nat, seen: Option<Option<nat>>, tries: nat)

  /**
   * Sealed values, refresh tokens and holders are numbered in the order they are made: two sealings never give
   * the same value. `stored` is every value the row has held: a history variable.
   */
  datatype Vault = Vault(
    now: nat, value: Option<nat>, lease: Option<Lease>, kept: seq<Kept>, tokens: nat, holders: nat,
    renewals: map<nat, Renewal>, finishes: map<nat, Finish>, stored: set<nat>)

  const NEW_VAULT := Vault(0, None, None, [], 0, 0, map[], map[], {})

  /** How a step's request goes: answered, or failed, with the store's write landed all the same or not. */
  datatype Answer = Go | Fails(landed: bool) | Rotated | SameToken | Refused | Outage

  datatype Event =
    | Tick(ms: nat)
    | Renew(before: nat)
    | Step(holder: nat, answer: Answer)
    | Crash(holder: nat)
    | Connect(token: bool)
    | FinishStep(id: nat, answer: Answer)
    | Disconnect

  // ── the store's atomic statements ──────────────────────────────────

  function Put(v: Vault, sealed: nat, previous: Option<nat>): Vault {
    if v.value == previous then v.(value := Some(sealed), lease := None, stored := v.stored + {sealed}) else v
  }

  function Delete(v: Vault, previous: Option<nat>): Vault {
    if previous.Some? && v.value != previous then v else v.(value := None, lease := None)
  }

  predicate Grants(v: Vault, previous: nat, holder: nat) {
    v.value == Some(previous) && (v.lease.None? || v.lease.value.until <= v.now || v.lease.value.holder == holder)
  }

  function TakeLease(v: Vault, previous: nat, holder: nat, ms: nat): Vault {
    if Grants(v, previous, holder) then v.(lease := Some(Lease(holder, v.now + ms))) else v
  }

  // ── a refresh ──────────────────────────────────────────────────────

  function TokenOf(v: Vault, sealed: nat): Option<nat> { if sealed < |v.kept| then v.kept[sealed].token else None }

  function At(v: Vault, holder: nat, r: Renewal, pc: Pc): Vault { v.(renewals := v.renewals[holder := r.(pc := pc)]) }

  function Ends(v: Vault, holder: nat): Vault { v.(renewals := v.renewals - {holder}) }

  /** The store's credential if it is newer ends the refresh, and so does none at all. */
  function Newer(v: Vault, holder: nat, r: Renewal, a: Answer, same: Pc): Vault {
    if !a.Go? || v.value != Some(r.before) then Ends(v, holder) else At(v, holder, r, same)
  }

  function StepChecking(v: Vault, holder: nat, r: Renewal, a: Answer, ms: nat): Vault {
    Newer(v, holder, r, a, if TokenOf(v, r.before).Some? then Leasing(v.now + 2 * ms) else Dropping)
  }

  function StepLeasing(v: Vault, holder: nat, r: Renewal, a: Answer, ms: nat): Vault
    requires r.pc.Leasing?
  {
    if a.Go? then
      if Grants(v, r.before, holder)
        then At(TakeLease(v, r.before, holder, ms), holder, r.(until := v.now + ms), Asking)
      else At(v, holder, r, Rechecking(r.pc.giveUp))
    else Ends(if a.Fails? && a.landed then TakeLease(v, r.before, holder, ms) else v, holder)
  }

  function StepRechecking(v: Vault, holder: nat, r: Renewal, a: Answer): Vault
    requires r.pc.Rechecking?
  {
    if v.value == Some(r.before) && v.now >= r.pc.giveUp then Ends(v, holder)
      else Newer(v, holder, r, a, Leasing(r.pc.giveUp))
  }

  /** The authorization server's answer: a credential sealed anew, with a new refresh token or the same. */
  function StepAsking(v: Vault, holder: nat, r: Renewal, a: Answer): Vault {
    match a
    case Rotated => At(v.(kept := v.kept + [Kept(Some(v.tokens), Some(holder))], tokens := v.tokens + 1), holder, r,
      Writing(|v.kept|, 1, false))
    case SameToken =>
      At(v.(kept := v.kept + [Kept(TokenOf(v, r.before), Some(holder))]), holder, r, Writing(|v.kept|, 1, false))
    case Refused => At(v, holder, r, Refusing)
    case _ => At(v, holder, r, GivingBack)
  }

  function WriteAgain(v: Vault, holder: nat, r: Renewal, sealed: nat, tries: nat, landed: bool): Vault {
    At(v, holder, r, if tries < WRITE_TRIES then Writing(sealed, tries + 1, landed) else LastReading)
  }

  function StepWriting(v: Vault, holder: nat, r: Renewal, a: Answer): Vault
    requires r.pc.Writing?
  {
    var Writing(sealed, tries, landed) := r.pc;
    if a.Go? then
      if v.value == Some(r.before) then Ends(Put(v, sealed, Some(r.before)), holder)
      else At(v, holder, r, if tries > 1 then Reading(sealed, tries, landed) else Orphaning)
    else
      var lands := a.Fails? && a.landed && v.value == Some(r.before);
      WriteAgain(if lands then Put(v, sealed, Some(r.before)) else v, holder, r, sealed, tries, landed || lands)
  }

  function StepReading(v: Vault, holder: nat, r: Renewal, a: Answer): Vault
    requires r.pc.Reading?
  {
    if !a.Go? then WriteAgain(v, holder, r, r.pc.sealed, r.pc.tries, r.pc.landed)
    else if v.value == Some(r.pc.sealed) then Ends(v, holder)
    else At(v, holder, r, Orphaning)
  }

  function StepRenewal(v: Vault, holder: nat, r: Renewal, a: Answer, ms: nat): Vault {
    match r.pc
    case Checking => StepChecking(v, holder, r, a, ms)
    case Leasing(_) => StepLeasing(v, holder, r, a, ms)
    case Rechecking(_) => StepRechecking(v, holder, r, a)
    case Asking => StepAsking(v, holder, r, a)
    case Refusing => Newer(v, holder, r, a, Dropping)
    case Dropping => Ends(if a.Go? || (a.Fails? && a.landed) then Delete(v, Some(r.before)) else v, holder)
    case GivingBack => Ends(if a.Go? || (a.Fails? && a.landed) then TakeLease(v, r.before, holder, 0) else v, holder)
    case Writing(_, _, _) => StepWriting(v, holder, r, a)
    case Reading(_, _, _) => StepReading(v, holder, r, a)
    case LastReading => Ends(v, holder)
    case Orphaning => At(v, holder, r, Standing)
    case Standing => Newer(v, holder, r, a, GivingBack)
  }

  /**
   * The newest connect wins over whatever was kept: it reads the row, and writes over what it read, up to three times.
   */
  function StepFinish(v: Vault, id: nat, f: Finish, a: Answer): Vault {
    var done := v.(finishes := v.finishes - {id});
    match f.seen
    case None => if a.Go? then v.(finishes := v.finishes[id := f.(seen := Some(v.value))]) else done
    case Some(previous) =>
      if !a.Go? then (if a.Fails? && a.landed then Put(done, f.sealed, previous) else done)
      else if v.value == previous then Put(done, f.sealed, previous)
      else if f.tries > 1 then v.(finishes := v.finishes[id := f.(seen := None, tries := f.tries - 1)])
      else done
  }

  function Next(v: Vault, e: Event, ms: nat): Vault {
    match e
    case Tick(more) => v.(now := v.now + more)
    case Renew(before) =>
      if before in v.stored
        then v.(holders := v.holders + 1, renewals := v.renewals[v.holders := Renewal(before, 0, Checking)]) else v
    case Step(holder, a) => if holder in v.renewals then StepRenewal(v, holder, v.renewals[holder], a, ms) else v
    case Crash(holder) => Ends(v, holder)
    case Connect(token) =>
      v.(kept := v.kept + [Kept(if token then Some(v.tokens) else None, None)], tokens := v.tokens + 1,
         finishes := v.finishes[|v.kept| := Finish(|v.kept|, None, 3)])
    case FinishStep(id, a) => if id in v.finishes then StepFinish(v, id, v.finishes[id], a) else v
    case Disconnect => Delete(v, None)
  }

  function Run(es: seq<Event>, ms: nat): Vault {
    if es == [] then NEW_VAULT else Next(Run(es[..|es| - 1], ms), es[|es| - 1], ms)
  }

  // ── no value comes back ────────────────────────────────────────────

  /** It holds a credential of its own to write. */
  predicate Seals(r: Renewal) { r.pc.Writing? || r.pc.Reading? }

  /** What a refresh would write it sealed itself, and it is in the row's past exactly when its write landed. */
  predicate RenewalOk(v: Vault, h: nat, r: Renewal) {
    && r.before in v.stored
    && (Seals(r) ==>
          && r.pc.sealed < |v.kept| && v.kept[r.pc.sealed].writer == Some(h)
          && (r.pc.sealed in v.stored <==> r.pc.landed)
          && (r.pc.landed ==> v.value != Some(r.before)))
  }

  predicate FinishOk(v: Vault, id: nat, f: Finish) {
    f.sealed == id && id < |v.kept| && v.kept[id].writer.None? && id !in v.stored
  }

  ghost predicate RowOk(v: Vault) {
    && (v.value.Some? ==> v.value.value in v.stored)
    && (forall s | s in v.stored :: s < |v.kept|)
  }

  ghost predicate Fresh(v: Vault) {
    && RowOk(v)
    && (forall h | h in v.renewals :: h < v.holders && RenewalOk(v, h, v.renewals[h]))
    && (forall id | id in v.finishes :: FinishOk(v, id, v.finishes[id]))
  }

  /** The row moves on only to what its writer alone could write, and was never there. */
  ghost predicate Moves(v: Vault, w: Vault, writer: Option<nat>) {
    && v.kept <= w.kept && v.stored <= w.stored && RowOk(w)
    && (forall s | s in w.stored && s !in v.stored :: s < |v.kept| && w.kept[s].writer == writer && w.value == Some(s))
    && (w.value == v.value || w.value.None? || w.value.value !in v.stored)
  }

  lemma OtherRenewal(v: Vault, w: Vault, writer: Option<nat>, h: nat, r: Renewal)
    requires RowOk(v) && RenewalOk(v, h, r) && Moves(v, w, writer) && writer != Some(h)
    ensures RenewalOk(w, h, r)
  {}

  lemma OtherFinish(v: Vault, w: Vault, writer: Option<nat>, id: nat, f: Finish)
    requires FinishOk(v, id, f) && Moves(v, w, writer) && (writer.None? ==> id !in w.stored)
    ensures FinishOk(w, id, f)
  {}

  /** A refresh's step: its own next state, and what it does to the row. */
  lemma StepMoves(v: Vault, h: nat, a: Answer, ms: nat)
    requires RowOk(v) && h in v.renewals && RenewalOk(v, h, v.renewals[h])
    ensures var w := StepRenewal(v, h, v.renewals[h], a, ms);
            && Moves(v, w, Some(h))
            && (w.value != v.value ==> v.value == Some(v.renewals[h].before))
            && (h in w.renewals ==> RenewalOk(w, h, w.renewals[h]) && w.renewals[h].before == v.renewals[h].before)
            && w.renewals.Keys <= v.renewals.Keys
               && (forall k | k in w.renewals && k != h :: w.renewals[k] == v.renewals[k])
            && w.finishes == v.finishes && w.holders == v.holders && w.now == v.now
  {
    var r := v.renewals[h];
    match r.pc
    case Writing(_, _, _) => WritingMoves(v, h, a, ms);
    case Asking => AskingMoves(v, h, a, ms);
    case Dropping => LeavingMoves(v, h, a, ms);
    case GivingBack => LeavingMoves(v, h, a, ms);
    case _ => ReadingMoves(v, h, a, ms);
  }

  lemma LeavingMoves(v: Vault, h: nat, a: Answer, ms: nat)
    requires RowOk(v) && h in v.renewals && (v.renewals[h].pc.Dropping? || v.renewals[h].pc.GivingBack?)
    ensures var w := StepRenewal(v, h, v.renewals[h], a, ms);
            && Moves(v, w, Some(h))
            && (w.value != v.value ==> v.value == Some(v.renewals[h].before))
            && w.renewals == v.renewals - {h} && w.finishes == v.finishes && w.holders == v.holders && w.now == v.now
  {}

  lemma ReadingMoves(v: Vault, h: nat, a: Answer, ms: nat)
    requires RowOk(v) && h in v.renewals && RenewalOk(v, h, v.renewals[h])
    requires var pc := v.renewals[h].pc; !pc.Writing? && !pc.Asking? && !pc.Dropping? && !pc.GivingBack?
    ensures var w := StepRenewal(v, h, v.renewals[h], a, ms);
            && Moves(v, w, Some(h)) && w.value == v.value
            && (h in w.renewals ==> RenewalOk(w, h, w.renewals[h]) && w.renewals[h].before == v.renewals[h].before)
            && w.renewals.Keys <= v.renewals.Keys
               && (forall k | k in w.renewals && k != h :: w.renewals[k] == v.renewals[k])
            && w.finishes == v.finishes && w.holders == v.holders && w.now == v.now
  {
    if v.renewals[h].pc.Leasing? { LeasingMoves(v, h, a, ms); }
  }

  lemma LeasingMoves(v: Vault, h: nat, a: Answer, ms: nat)
    requires RowOk(v) && h in v.renewals && RenewalOk(v, h, v.renewals[h]) && v.renewals[h].pc.Leasing?
    ensures var w := StepRenewal(v, h, v.renewals[h], a, ms);
            && Moves(v, w, Some(h)) && w.value == v.value
            && (h in w.renewals ==> RenewalOk(w, h, w.renewals[h]) && w.renewals[h].before == v.renewals[h].before)
            && w.renewals.Keys <= v.renewals.Keys
               && (forall k | k in w.renewals && k != h :: w.renewals[k] == v.renewals[k])
            && w.finishes == v.finishes && w.holders == v.holders && w.now == v.now
  {}

  lemma WritingMoves(v: Vault, h: nat, a: Answer, ms: nat)
    requires RowOk(v) && h in v.renewals && RenewalOk(v, h, v.renewals[h]) && v.renewals[h].pc.Writing?
    ensures var w := StepRenewal(v, h, v.renewals[h], a, ms);
            && Moves(v, w, Some(h))
            && (w.value != v.value ==> v.value == Some(v.renewals[h].before))
            && (h in w.renewals ==> RenewalOk(w, h, w.renewals[h]) && w.renewals[h].before == v.renewals[h].before)
            && w.renewals.Keys <= v.renewals.Keys
               && (forall k | k in w.renewals && k != h :: w.renewals[k] == v.renewals[k])
            && w.finishes == v.finishes && w.holders == v.holders && w.now == v.now
  {}

  lemma AskingMoves(v: Vault, h: nat, a: Answer, ms: nat)
    requires RowOk(v) && h in v.renewals && RenewalOk(v, h, v.renewals[h]) && v.renewals[h].pc.Asking?
    ensures var w := StepRenewal(v, h, v.renewals[h], a, ms);
            && Moves(v, w, Some(h)) && w.value == v.value && w.stored == v.stored
            && (h in w.renewals ==> RenewalOk(w, h, w.renewals[h]) && w.renewals[h].before == v.renewals[h].before)
            && w.renewals.Keys <= v.renewals.Keys
               && (forall k | k in w.renewals && k != h :: w.renewals[k] == v.renewals[k])
            && w.finishes == v.finishes && w.holders == v.holders && w.now == v.now
  {}

  lemma FinishMoves(v: Vault, id: nat, a: Answer)
    requires RowOk(v) && id in v.finishes && FinishOk(v, id, v.finishes[id])
    ensures var w := StepFinish(v, id, v.finishes[id], a);
            && Moves(v, w, None) && (forall s | s in w.stored && s !in v.stored :: s == id && id !in w.finishes)
            && (w.value != v.value ==> w.value == Some(id))
            && (id in w.finishes ==> FinishOk(w, id, w.finishes[id]))
            && w.finishes.Keys <= v.finishes.Keys
               && (forall k | k in w.finishes && k != id :: w.finishes[k] == v.finishes[k])
            && w.renewals == v.renewals && w.holders == v.holders && w.now == v.now
  {}

  lemma RenewalFresh(v: Vault, h: nat, a: Answer, ms: nat)
    requires Fresh(v) && h in v.renewals
    ensures Fresh(StepRenewal(v, h, v.renewals[h], a, ms))
  {
    var w := StepRenewal(v, h, v.renewals[h], a, ms);
    StepMoves(v, h, a, ms);
    forall k | k in w.renewals ensures k < w.holders && RenewalOk(w, k, w.renewals[k]) {
      if k != h { OtherRenewal(v, w, Some(h), k, v.renewals[k]); }
    }
    forall id | id in w.finishes ensures FinishOk(w, id, w.finishes[id]) {
      OtherFinish(v, w, Some(h), id, v.finishes[id]);
    }
  }

  lemma FinishFresh(v: Vault, id: nat, a: Answer)
    requires Fresh(v) && id in v.finishes
    ensures Fresh(StepFinish(v, id, v.finishes[id], a))
  {
    var w := StepFinish(v, id, v.finishes[id], a);
    FinishMoves(v, id, a);
    forall k | k in w.renewals ensures RenewalOk(w, k, w.renewals[k]) { OtherRenewal(v, w, None, k, v.renewals[k]); }
    forall k | k in w.finishes ensures FinishOk(w, k, w.finishes[k]) {
      if k != id { OtherFinish(v, w, None, k, v.finishes[k]); }
    }
  }

  lemma ConnectFresh(v: Vault, token: bool, ms: nat)
    requires Fresh(v)
    ensures Fresh(Next(v, Connect(token), ms))
  {}

  lemma OtherFresh(v: Vault, e: Event, ms: nat)
    requires Fresh(v) && !e.Step? && !e.FinishStep? && !e.Connect?
    ensures Fresh(Next(v, e, ms))
  {}

  lemma NextFresh(v: Vault, e: Event, ms: nat)
    requires Fresh(v)
    ensures Fresh(Next(v, e, ms))
  {
    match e
    case Step(h, a) => if h in v.renewals { RenewalFresh(v, h, a, ms); }
    case FinishStep(id, a) => if id in v.finishes { FinishFresh(v, id, a); }
    case Connect(token) => ConnectFresh(v, token, ms);
    case _ => OtherFresh(v, e, ms);
  }

  lemma {:induction false} RunFresh(es: seq<Event>, ms: nat)
    ensures Fresh(Run(es, ms))
  {
    if es != [] {
      RunFresh(es[..|es| - 1], ms);
      NextFresh(Run(es[..|es| - 1], ms), es[|es| - 1], ms);
    }
  }

  /**
   * In every run, a refresh changes the row only while it holds the very credential the refresh started from: it
   * never overwrites or deletes a newer one, nor brings back one that was disconnected. And whatever is written
   * was never in the row before, so no value comes back.
   */
  lemma {:induction false} RefreshNeverUndoes(es: seq<Event>, e: Event, ms: nat)
    ensures var v, w := Run(es, ms), Run(es + [e], ms);
            && v.stored <= w.stored
            && (w.value != v.value && w.value.Some? ==> w.value.value !in v.stored)
            && (w.value != v.value && e.Step? ==>
               e.holder in v.renewals && v.value == Some(v.renewals[e.holder].before))
            && (v.value.None? && w.value.Some? ==> e.FinishStep?)
  {
    RunFresh(es, ms);
    assert (es + [e])[..|es|] == es;
    var v := Run(es, ms);
    if e.Step? && e.holder in v.renewals { StepMoves(v, e.holder, e.answer, ms); }
    if e.FinishStep? && e.id in v.finishes { FinishMoves(v, e.id, e.answer); }
  }

  // ── one at a time ──────────────────────────────────────────────────

  /** Its refresh token is out: with the authorization server, or spent there and what it got not stored yet. */
  predicate Out(r: Renewal) { r.pc.Asking? || (Seals(r) && !r.pc.landed) }

  /** Every request, and the write of what it got, finishes within its lease. */
  predicate Punctual(v: Vault) { forall h | h in v.renewals && Out(v.renewals[h]) :: v.now < v.renewals[h].until }

  /**
   * A lease is taken, or given up, on a credential whose token another refresh still has out: its own lease has lapsed.
   */
  predicate TakesOver(v: Vault, e: Event) {
    e.Step? && e.holder in v.renewals && Leases(v, e.holder, e.answer) &&
    exists k | k in v.renewals ::
      k != e.holder && Out(v.renewals[k]) && v.renewals[k].before == v.renewals[e.holder].before
  }

  /** The step writes the lease. */
  predicate Leases(v: Vault, h: nat, a: Answer)
    requires h in v.renewals
  {
    var r := v.renewals[h];
    (r.pc.Leasing? || r.pc.GivingBack?) && (a.Go? || (a.Fails? && a.landed)) && Grants(v, r.before, h)
  }

  /** No step of the run takes a lease over. */
  ghost predicate Unhurried(es: seq<Event>, ms: nat) {
    es == [] || (Unhurried(es[..|es| - 1], ms) && !TakesOver(Run(es[..|es| - 1], ms), es[|es| - 1]))
  }

  ghost predicate PunctualRun(es: seq<Event>, ms: nat) {
    Punctual(Run(es, ms)) && (es == [] || PunctualRun(es[..|es| - 1], ms))
  }

  /** No other credential, ever, has its refresh token. */
  ghost predicate Sole(v: Vault, sealed: nat) {
    forall s: nat | s < |v.kept| && s != sealed && v.kept[s].token.Some? :: v.kept[s].token != TokenOf(v, sealed)
  }

  /** While its token is out, the lease is its own, and the row holds no other credential with that token. */
  predicate Holds(v: Vault, h: nat, r: Renewal) {
    Out(r) ==>
      && TokenOf(v, r.before).Some?
      && (v.value == Some(r.before) ==> v.lease == Some(Lease(h, r.until)))
      && (v.value.Some? && TokenOf(v, v.value.value) == TokenOf(v, r.before) ==> v.value == Some(r.before))
  }

  /** And what it got has a token of its own, or the same. */
  ghost predicate Renewed(v: Vault, r: Renewal) {
    && (r.pc.Leasing? || r.pc.Rechecking? ==> TokenOf(v, r.before).Some?)
    && (Seals(r) && !r.pc.landed ==> TokenOf(v, r.pc.sealed) == TokenOf(v, r.before) || Sole(v, r.pc.sealed))
  }

  predicate Apart(v: Vault, r: Renewal, q: Renewal) {
    Out(r) && Out(q) ==> TokenOf(v, r.before) != TokenOf(v, q.before)
  }

  ghost predicate Exclusive(v: Vault) {
    && (forall s: nat | s < |v.kept| && v.kept[s].token.Some? :: v.kept[s].token.value < v.tokens)
    && (forall h | h in v.renewals :: Holds(v, h, v.renewals[h]) && Renewed(v, v.renewals[h]))
    && (forall id | id in v.finishes :: Sole(v, id))
    && (forall h, k | h in v.renewals && k in v.renewals && h != k :: Apart(v, v.renewals[h], v.renewals[k]))
  }

  /** The step's own side: what the refresh may hold next. */
  lemma StepHolds(v: Vault, h: nat, a: Answer, ms: nat)
    requires Fresh(v) && Exclusive(v) && h in v.renewals
    ensures var w := StepRenewal(v, h, v.renewals[h], a, ms);
            h in w.renewals ==> Holds(w, h, w.renewals[h]) && Renewed(w, w.renewals[h])
  {
    var r := v.renewals[h];
    assert RenewalOk(v, h, r) && Holds(v, h, r) && Renewed(v, r);
    match r.pc
    case Asking => AskingHolds(v, h, a, ms);
    case Leasing(_) => LeasingHolds(v, h, a, ms);
    case Writing(_, _, _) => WritingHolds(v, h, a, ms);
    case _ =>
  }

  lemma LeasingHolds(v: Vault, h: nat, a: Answer, ms: nat)
    requires h in v.renewals && v.renewals[h].pc.Leasing? && Renewed(v, v.renewals[h])
    ensures var w := StepRenewal(v, h, v.renewals[h], a, ms);
            h in w.renewals ==> Holds(w, h, w.renewals[h]) && Renewed(w, w.renewals[h])
  {}

  lemma WritingHolds(v: Vault, h: nat, a: Answer, ms: nat)
    requires RowOk(v) && h in v.renewals && v.renewals[h].pc.Writing? && Renewed(v, v.renewals[h])
             && Holds(v, h, v.renewals[h])
    ensures var w := StepRenewal(v, h, v.renewals[h], a, ms);
            h in w.renewals ==> Holds(w, h, w.renewals[h]) && Renewed(w, w.renewals[h])
  {}

  lemma AskingHolds(v: Vault, h: nat, a: Answer, ms: nat)
    requires Fresh(v) && Exclusive(v) && h in v.renewals && v.renewals[h].pc.Asking?
    ensures var w := StepRenewal(v, h, v.renewals[h], a, ms);
            h in w.renewals ==> Holds(w, h, w.renewals[h]) && Renewed(w, w.renewals[h])
  {
    assert RenewalOk(v, h, v.renewals[h]) && Holds(v, h, v.renewals[h]);
  }

  /** Nobody takes over a lease that is held, nor stores a credential with a token that is out. */
  lemma OtherHolds(v: Vault, h: nat, a: Answer, ms: nat, k: nat)
    requires Fresh(v) && Exclusive(v) && !TakesOver(v, Step(h, a)) && h in v.renewals && k in v.renewals && h != k
    ensures var w := StepRenewal(v, h, v.renewals[h], a, ms); Holds(w, k, v.renewals[k])
  {
    var r, q := v.renewals[h], v.renewals[k];
    assert RenewalOk(v, h, r) && RenewalOk(v, k, q) && Holds(v, k, q) && Holds(v, h, r) && Renewed(v, r);
    assert Apart(v, r, q);
    StepMoves(v, h, a, ms);
  }

  /** Once it has the lease, its token is out with no one else. */
  lemma OtherApart(v: Vault, h: nat, a: Answer, ms: nat, k: nat)
    requires Fresh(v) && Exclusive(v) && !TakesOver(v, Step(h, a)) && h in v.renewals && k in v.renewals && h != k
    ensures var w := StepRenewal(v, h, v.renewals[h], a, ms); h in w.renewals ==> Apart(w, w.renewals[h], v.renewals[k])
  {
    var r, q, w := v.renewals[h], v.renewals[k], StepRenewal(v, h, v.renewals[h], a, ms);
    assert RenewalOk(v, h, r) && RenewalOk(v, k, q) && Holds(v, k, q) && Apart(v, r, q);
    OutsSince(v, h, a, ms);
    if h in w.renewals && Out(w.renewals[h]) {
      if Out(r) { StayApart(v, w, r, q); } else { GrantApart(v, h, a, k); }
    }
  }

  /** A token that is out was out before, or its lease has just been granted. */
  lemma OutsSince(v: Vault, h: nat, a: Answer, ms: nat)
    requires h in v.renewals
    ensures var r, w := v.renewals[h], StepRenewal(v, h, v.renewals[h], a, ms);
            v.kept <= w.kept && (h in w.renewals && Out(w.renewals[h]) ==>
              w.renewals[h].before == r.before && (Out(r) || (r.pc.Leasing? && Leases(v, h, a) && w.kept == v.kept)))
  {
    KeptStep(v, h, a, ms);
    if !v.renewals[h].pc.Asking? { KeptOtherwise(v, h, a, ms); }
  }

  lemma GrantApart(v: Vault, h: nat, a: Answer, k: nat)
    requires h in v.renewals && k in v.renewals && h != k && Leases(v, h, a) && !TakesOver(v, Step(h, a))
    requires Holds(v, k, v.renewals[k])
    ensures Out(v.renewals[k]) ==> TokenOf(v, v.renewals[h].before) != TokenOf(v, v.renewals[k].before)
  {}

  lemma KeptStep(v: Vault, h: nat, a: Answer, ms: nat)
    requires h in v.renewals
    ensures KeptGrows(v, StepRenewal(v, h, v.renewals[h], a, ms), v.renewals[h].before)
  {
    match v.renewals[h].pc
    case Asking =>
    case _ => KeptOtherwise(v, h, a, ms);
  }

  lemma KeptOtherwise(v: Vault, h: nat, a: Answer, ms: nat)
    requires h in v.renewals && !v.renewals[h].pc.Asking?
    ensures var w := StepRenewal(v, h, v.renewals[h], a, ms); w.kept == v.kept && w.tokens == v.tokens
  {}

  ghost predicate TokensIssued(v: Vault) {
    forall s: nat | s < |v.kept| && v.kept[s].token.Some? :: v.kept[s].token.value < v.tokens
  }

  lemma KeptIssued(v: Vault, h: nat, a: Answer, ms: nat)
    requires Fresh(v) && Exclusive(v) && h in v.renewals
    ensures TokensIssued(StepRenewal(v, h, v.renewals[h], a, ms))
  {
    KeptStep(v, h, a, ms);
    assert RenewalOk(v, h, v.renewals[h]);
    IssuedAfter(v, StepRenewal(v, h, v.renewals[h], a, ms), v.renewals[h].before);
  }

  /** At most one credential is sealed, with a new token or that of `before`. */
  predicate KeptGrows(v: Vault, w: Vault, before: nat) {
    && v.kept <= w.kept && v.tokens <= w.tokens && |w.kept| <= |v.kept| + 1
    && (|w.kept| > |v.kept| ==>
          || w.kept[|v.kept|].token == TokenOf(v, before)
          || (w.kept[|v.kept|].token == Some(v.tokens) && v.tokens < w.tokens))
  }

  lemma IssuedAfter(v: Vault, w: Vault, before: nat)
    requires TokensIssued(v) && KeptGrows(v, w, before)
    ensures TokensIssued(w)
  {
    forall s: nat | s < |w.kept| && w.kept[s].token.Some? ensures w.kept[s].token.value < w.tokens {
      if s < |v.kept| { assert w.kept[s] == v.kept[s]; }
    }
  }

  lemma SoleAfter(v: Vault, w: Vault, before: nat, id: nat)
    requires TokensIssued(v) && KeptGrows(v, w, before) && Sole(v, id) && id < |v.kept| && id != before
    ensures Sole(w, id)
  {
    forall s: nat | s < |w.kept| && s != id && w.kept[s].token.Some? ensures w.kept[s].token != TokenOf(w, id) {
      if s < |v.kept| { assert w.kept[s] == v.kept[s]; }
    }
  }

  /** A credential no one else can name keeps its token to itself. */
  lemma KeptSole(v: Vault, h: nat, a: Answer, ms: nat, id: nat)
    requires Fresh(v) && Exclusive(v) && h in v.renewals && Sole(v, id) && id < |v.kept| && id !in v.stored
    ensures Sole(StepRenewal(v, h, v.renewals[h], a, ms), id)
  {
    KeptStep(v, h, a, ms);
    assert RenewalOk(v, h, v.renewals[h]);
    SoleAfter(v, StepRenewal(v, h, v.renewals[h], a, ms), v.renewals[h].before, id);
  }

  lemma OtherRenewed(v: Vault, h: nat, a: Answer, ms: nat, k: nat)
    requires Fresh(v) && Exclusive(v) && h in v.renewals && k in v.renewals && h != k
    ensures Renewed(StepRenewal(v, h, v.renewals[h], a, ms), v.renewals[k])
  {
    var q := v.renewals[k];
    assert RenewalOk(v, k, q) && Renewed(v, q);
    KeptStep(v, h, a, ms);
    if Seals(q) && !q.pc.landed && Sole(v, q.pc.sealed) { KeptSole(v, h, a, ms, q.pc.sealed); }
  }

  lemma AllHold(v: Vault, h: nat, a: Answer, ms: nat)
    requires Fresh(v) && Exclusive(v) && !TakesOver(v, Step(h, a)) && h in v.renewals
    ensures var w := StepRenewal(v, h, v.renewals[h], a, ms);
            forall k | k in w.renewals :: Holds(w, k, w.renewals[k]) && Renewed(w, w.renewals[k])
  {
    var w := StepRenewal(v, h, v.renewals[h], a, ms);
    StepFrames(v, h, a, ms);
    StepHolds(v, h, a, ms);
    forall k | k in w.renewals ensures Holds(w, k, w.renewals[k]) && Renewed(w, w.renewals[k]) {
      if k != h { OtherHolds(v, h, a, ms, k); OtherRenewed(v, h, a, ms, k); }
    }
  }

  lemma StepFrames(v: Vault, h: nat, a: Answer, ms: nat)
    requires Fresh(v) && h in v.renewals
    ensures var w := StepRenewal(v, h, v.renewals[h], a, ms);
            && v.kept <= w.kept && (forall k | k in w.renewals :: k in v.renewals && k != h ==>
               w.renewals[k] == v.renewals[k])
            && w.renewals.Keys <= v.renewals.Keys && w.finishes == v.finishes
  {
    assert RenewalOk(v, h, v.renewals[h]);
    StepMoves(v, h, a, ms);
  }

  lemma StayApart(v: Vault, w: Vault, r: Renewal, q: Renewal)
    requires Apart(v, r, q) && v.kept <= w.kept && r.before < |v.kept| && q.before < |v.kept|
    ensures Apart(w, r, q)
  {}

  lemma AllApart(v: Vault, h: nat, a: Answer, ms: nat)
    requires Fresh(v) && Exclusive(v) && !TakesOver(v, Step(h, a)) && h in v.renewals
    ensures var w := StepRenewal(v, h, v.renewals[h], a, ms);
            forall j, k | j in w.renewals && k in w.renewals && j != k :: Apart(w, w.renewals[j], w.renewals[k])
  {
    var w := StepRenewal(v, h, v.renewals[h], a, ms);
    StepFrames(v, h, a, ms);
    forall j, k | j in w.renewals && k in w.renewals && j != k ensures Apart(w, w.renewals[j], w.renewals[k]) {
      if j == h {
        OtherApart(v, h, a, ms, k);
      } else if k == h {
        OtherApart(v, h, a, ms, j);
      } else {
        assert Apart(v, v.renewals[j], v.renewals[k]) && RenewalOk(v, j, v.renewals[j])
               && RenewalOk(v, k, v.renewals[k]);
        StayApart(v, w, v.renewals[j], v.renewals[k]);
      }
    }
  }

  lemma StepExclusive(v: Vault, h: nat, a: Answer, ms: nat)
    requires Fresh(v) && Exclusive(v) && !TakesOver(v, Step(h, a)) && h in v.renewals
    ensures Exclusive(StepRenewal(v, h, v.renewals[h], a, ms))
  {
    var w := StepRenewal(v, h, v.renewals[h], a, ms);
    KeptIssued(v, h, a, ms);
    AllHold(v, h, a, ms);
    AllApart(v, h, a, ms);
    StepFrames(v, h, a, ms);
    forall id | id in w.finishes ensures Sole(w, id) {
      assert FinishOk(v, id, v.finishes[id]);
      KeptSole(v, h, a, ms, id);
    }
  }

  // ── everything else ────────────────────────────────────────────────

  /** A connect writes a credential whose token no one has. */
  lemma FinishHolds(v: Vault, id: nat, a: Answer, k: nat)
    requires Fresh(v) && Exclusive(v) && id in v.finishes && k in v.renewals
    ensures var w := StepFinish(v, id, v.finishes[id], a); Holds(w, k, v.renewals[k])
  {
    assert FinishOk(v, id, v.finishes[id]) && RenewalOk(v, k, v.renewals[k]) && Holds(v, k, v.renewals[k])
           && Sole(v, id);
    FinishMoves(v, id, a);
  }

  lemma FinishExclusive(v: Vault, id: nat, a: Answer)
    requires Fresh(v) && Exclusive(v) && id in v.finishes
    ensures Exclusive(StepFinish(v, id, v.finishes[id], a))
  {
    var w := StepFinish(v, id, v.finishes[id], a);
    assert FinishOk(v, id, v.finishes[id]);
    FinishMoves(v, id, a);
    assert w.kept == v.kept;
    forall k | k in w.renewals ensures Holds(w, k, w.renewals[k]) && Renewed(w, w.renewals[k]) {
      FinishHolds(v, id, a, k);
      assert Renewed(v, v.renewals[k]);
    }
    forall j, k | j in w.renewals && k in w.renewals && j != k ensures Apart(w, w.renewals[j], w.renewals[k]) {
      assert Apart(v, v.renewals[j], v.renewals[k]);
    }
    forall k | k in w.finishes ensures Sole(w, k) { assert Sole(v, k); }
  }

  lemma ConnectExclusive(v: Vault, token: bool, ms: nat)
    requires Fresh(v) && Exclusive(v)
    ensures Exclusive(Next(v, Connect(token), ms))
  {
    var w := Next(v, Connect(token), ms);
    forall s: nat | s < |v.kept| ensures w.kept[s] == v.kept[s] {}
    forall k | k in w.renewals ensures Holds(w, k, w.renewals[k]) && Renewed(w, w.renewals[k]) {
      assert RenewalOk(v, k, v.renewals[k]) && Holds(v, k, v.renewals[k]) && Renewed(v, v.renewals[k]);
      if Seals(v.renewals[k]) && !v.renewals[k].pc.landed && Sole(v, v.renewals[k].pc.sealed) {
        ConnectSole(v, token, ms, v.renewals[k].pc.sealed);
      }
    }
    forall j, k | j in w.renewals && k in w.renewals && j != k ensures Apart(w, w.renewals[j], w.renewals[k]) {
      assert Apart(v, v.renewals[j], v.renewals[k]) && RenewalOk(v, j, v.renewals[j]) && RenewalOk(v, k, v.renewals[k]);
      StayApart(v, w, v.renewals[j], v.renewals[k]);
    }
    forall id | id in w.finishes ensures Sole(w, id) {
      if id in v.finishes { assert FinishOk(v, id, v.finishes[id]); ConnectSole(v, token, ms, id); }
    }
  }

  lemma ConnectSole(v: Vault, token: bool, ms: nat, id: nat)
    requires Exclusive(v) && id < |v.kept| && Sole(v, id)
    ensures Sole(Next(v, Connect(token), ms), id)
  {}

  lemma OtherEventHolds(v: Vault, e: Event, ms: nat, k: nat)
    requires Fresh(v) && Exclusive(v) && !e.Step? && !e.FinishStep? && !e.Connect? && k in Next(v, e, ms).renewals
    ensures var w := Next(v, e, ms); Holds(w, k, w.renewals[k]) && Renewed(w, w.renewals[k])
  {
    if k in v.renewals { assert Holds(v, k, v.renewals[k]) && Renewed(v, v.renewals[k]); }
  }

  lemma OtherEventApart(v: Vault, e: Event, ms: nat, j: nat, k: nat)
    requires Fresh(v) && Exclusive(v) && !e.Step? && !e.FinishStep? && !e.Connect?
    requires j in Next(v, e, ms).renewals && k in Next(v, e, ms).renewals && j != k
    ensures var w := Next(v, e, ms); Apart(w, w.renewals[j], w.renewals[k])
  {
    if j in v.renewals && k in v.renewals { assert Apart(v, v.renewals[j], v.renewals[k]); }
  }

  lemma OtherExclusive(v: Vault, e: Event, ms: nat)
    requires Fresh(v) && Exclusive(v) && !e.Step? && !e.FinishStep? && !e.Connect?
    ensures Exclusive(Next(v, e, ms))
  {
    var w := Next(v, e, ms);
    assert w.kept == v.kept && w.finishes == v.finishes && w.tokens == v.tokens;
    forall k | k in w.renewals ensures Holds(w, k, w.renewals[k]) && Renewed(w, w.renewals[k]) {
      OtherEventHolds(v, e, ms, k);
    }
    forall j, k | j in w.renewals && k in w.renewals && j != k ensures Apart(w, w.renewals[j], w.renewals[k]) {
      OtherEventApart(v, e, ms, j, k);
    }
    forall id | id in w.finishes ensures Sole(w, id) { assert Sole(v, id); }
  }

  /** A takeover leaves the other without the lease it thinks it has. */
  lemma TakenOver(v: Vault, e: Event, ms: nat)
    requires Fresh(v) && Exclusive(v) && TakesOver(v, e)
    ensures !Exclusive(Next(v, e, ms)) && !Punctual(v)
  {
    var k :| k in v.renewals && k != e.holder && Out(v.renewals[k])
             && v.renewals[k].before == v.renewals[e.holder].before;
    assert Holds(v, k, v.renewals[k]) && v.lease == Some(Lease(k, v.renewals[k].until));
    var w := Next(v, e, ms);
    assert w.renewals[k] == v.renewals[k] && !Holds(w, k, w.renewals[k]);
  }

  /** A step keeps each token out once, under its own lease, if and only if it takes no lease over. */
  lemma {:induction false} NextExclusiveIff(v: Vault, e: Event, ms: nat)
    requires Fresh(v) && Exclusive(v)
    ensures Exclusive(Next(v, e, ms)) <==> !TakesOver(v, e)
  {
    if TakesOver(v, e) {
      TakenOver(v, e, ms);
    } else {
      match e
      case Step(h, a) => if h in v.renewals { StepExclusive(v, h, a, ms); }
      case FinishStep(id, a) => if id in v.finishes { FinishExclusive(v, id, a); }
      case Connect(token) => ConnectExclusive(v, token, ms);
      case _ => OtherExclusive(v, e, ms);
    }
  }

  lemma {:induction false} RunExclusive(es: seq<Event>, ms: nat)
    requires Unhurried(es, ms)
    ensures Exclusive(Run(es, ms))
  {
    if es != [] {
      RunExclusive(es[..|es| - 1], ms);
      RunFresh(es[..|es| - 1], ms);
      NextExclusiveIff(Run(es[..|es| - 1], ms), es[|es| - 1], ms);
    }
  }

  /** Two refreshes have one token out. */
  ghost predicate TwoOut(v: Vault) {
    exists h, k | h in v.renewals && k in v.renewals :: h != k && !Apart(v, v.renewals[h], v.renewals[k])
  }

  /** So while each request and its write finish within the lease, no lease is taken over. */
  lemma {:induction false} PunctualIsUnhurried(es: seq<Event>, ms: nat)
    requires PunctualRun(es, ms)
    ensures Unhurried(es, ms)
  {
    if es != [] {
      var front := es[..|es| - 1];
      PunctualIsUnhurried(front, ms);
      RunExclusive(front, ms);
      RunFresh(front, ms);
      if TakesOver(Run(front, ms), es[|es| - 1]) { TakenOver(Run(front, ms), es[|es| - 1], ms); }
    }
  }

  /**
   * While no lease is taken over, as while each request and its write finish within the lease (PunctualIsUnhurried),
   * no two processes have one stored refresh token out at once.
   */
  lemma {:induction false} OneAtATime(es: seq<Event>, ms: nat)
    requires Unhurried(es, ms)
    ensures !TwoOut(Run(es, ms))
  {
    RunExclusive(es, ms);
  }

  /** The takeover that puts a token out a second time: a lease granted to a refresh that then asks. */
  predicate SendsTwice(v: Vault, e: Event) {
    TakesOver(v, e) && v.renewals[e.holder].pc.Leasing? && e.answer.Go?
  }

  lemma TakenOverApart(v: Vault, e: Event, ms: nat)
    requires Fresh(v) && Exclusive(v) && TakesOver(v, e)
    ensures TwoOut(Next(v, e, ms)) <==> SendsTwice(v, e)
  {
    var w, h := Next(v, e, ms), e.holder;
    if SendsTwice(v, e) {
      var k :| k in v.renewals && k != h && Out(v.renewals[k]) && v.renewals[k].before == v.renewals[h].before;
      assert Holds(v, k, v.renewals[k]) && w.renewals[k] == v.renewals[k];
      assert !Apart(w, w.renewals[h], w.renewals[k]);
    } else {
      assert w.renewals == v.renewals - {h} && w.kept == v.kept;
      assert forall j, k | j in w.renewals && k in w.renewals && j != k ::
          Apart(v, v.renewals[j], v.renewals[k]);
    }
  }

  /**
   * After a run that took no lease over, an event has two refreshes with one token out if and only if it is that
   * takeover.
   */
  lemma {:induction false} TwoOutIff(es: seq<Event>, e: Event, ms: nat)
    requires Unhurried(es, ms)
    ensures TwoOut(Run(es + [e], ms)) <==> SendsTwice(Run(es, ms), e)
  {
    var v := Run(es, ms);
    assert (es + [e])[..|es|] == es;
    RunExclusive(es, ms);
    RunFresh(es, ms);
    if TakesOver(v, e) { TakenOverApart(v, e, ms); } else { NextExclusiveIff(v, e, ms); }
  }

  // ── and what happens when a lease lapses ───────────────────────────

  const CONNECTED := NEW_VAULT.(value := Some(0), kept := [Kept(Some(0), None)], tokens := 1, stored := {0})
  const FIRST := Renewal(0, 10, Asking)
  const ONE_OUT := CONNECTED.(lease := Some(Lease(0, 10)), holders := 1, renewals := map[0 := FIRST])
  const TWO_OUT := ONE_OUT.(now := 10, lease := Some(Lease(1, 20)), holders := 2,
    renewals := map[0 := FIRST, 1 := Renewal(0, 20, Asking)])

  function Three(v: Vault, a: Event, b: Event, c: Event): Vault { Next(Next(Next(v, a, 10), b, 10), c, 10) }

  lemma RunThen(es: seq<Event>, e: Event)
    ensures Run(es + [e], 10) == Next(Run(es, 10), e, 10)
  {
    assert (es + [e])[..|es|] == es;
  }

  lemma Onto(es: seq<Event>, v: Vault, a: Event, b: Event, c: Event, w: Vault) returns (more: seq<Event>)
    requires Run(es, 10) == v && Three(v, a, b, c) == w
    ensures Run(more, 10) == w
  {
    RunThen(es, a);
    RunThen(es + [a], b);
    RunThen(es + [a] + [b], c);
    more := es + [a] + [b] + [c];
  }

  lemma Connects()
    ensures Three(NEW_VAULT, Connect(true), FinishStep(0, Go), FinishStep(0, Go)) == CONNECTED
  {}

  lemma FirstAsks()
    ensures Three(CONNECTED, Renew(0), Step(0, Go), Step(0, Go)) == ONE_OUT
  {}

  lemma SecondAsks()
    ensures Next(Three(ONE_OUT, Tick(10), Renew(0), Step(1, Go)), Step(1, Go), 10) == TWO_OUT
  {}

  /** A request slower than its lease leaves its token out while another process takes the lease and sends it too. */
  lemma LapsedLease()
    ensures exists es ::
              var v := Run(es, 10);
              && TwoOut(v) && 0 in v.renewals && 1 in v.renewals && Out(v.renewals[0]) && Out(v.renewals[1])
              && TokenOf(v, v.renewals[0].before) == TokenOf(v, v.renewals[1].before) == Some(0)
  {
    Connects();
    FirstAsks();
    SecondAsks();
    var es := Onto([], NEW_VAULT, Connect(true), FinishStep(0, Go), FinishStep(0, Go), CONNECTED);
    es := Onto(es, CONNECTED, Renew(0), Step(0, Go), Step(0, Go), ONE_OUT);
    es := Onto(es, ONE_OUT, Tick(10), Renew(0), Step(1, Go), Three(ONE_OUT, Tick(10), Renew(0), Step(1, Go)));
    RunThen(es, Step(1, Go));
    assert Run(es + [Step(1, Go)], 10) == TWO_OUT;
    assert !Apart(TWO_OUT, TWO_OUT.renewals[0], TWO_OUT.renewals[1]);
  }
}
