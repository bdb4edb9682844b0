/** A notice stream: it reads what is past its resume point a page at a time, while more is appended. */
module Streaming {
  import opened History
  import opened Conversations
  import opened Stores

  const PAGE := 100

  /** A log only grows. */
  predicate Growing(logs: seq<seq<NoticeRecord>>) { forall i, j | 0 <= i <= j < |logs| :: logs[i] <= logs[j] }

  /** What a stream that resumed after `from`, and has sent through `after`, has sent of the log. */
  function SentOf(log: seq<NoticeRecord>, from: nat, after: nat): seq<NoticeRecord>
    requires from <= after
  {
    if after <= |log| then log[from..after] else []
  }

  /** A page as some read found it: what was past some point, up to a page of it. */
  ghost predicate PageOf(page: seq<NoticeRecord>, log: seq<NoticeRecord>, after: nat) {
    page == UpTo(Past(log, after), Some(PAGE))
  }

  lemma PageIs(page: seq<NoticeRecord>, log: seq<NoticeRecord>, after: nat)
    requires Numbered(log) && PageOf(page, log, after)
    ensures |page| <= PAGE && (forall i | 0 <= i < |page| :: after + i < |log| && page[i] == log[after + i])
    ensures |page| < PAGE ==> after + |page| == |log| || (page == [] && |log| < after)
  {
    var lo := if after <= |log| then after else |log|;
    PastDrops(log, after, lo);
  }

  class NoticeStream {
    var after: nat
    var sent: seq<NoticeRecord>
    const from: nat

    /** It has sent every notice past its resume point, through `after`, in order, each once. */
    ghost predicate Valid(log: seq<NoticeRecord>)
      reads this
    {
      from <= after && (after <= |log| || after == from) && sent == SentOf(log, from, after)
    }

    constructor (from: nat)
      ensures after == from && this.from == from && sent == [] && forall log :: Valid(log)
    {
      this.from, after, sent := from, from, [];
    }

    /** Send a page: what it still has to, and only that. */
    method SendPage(page: seq<NoticeRecord>, ghost log: seq<NoticeRecord>, ghost at: nat)
      requires Numbered(log) && Valid(log) && at <= after && PageOf(page, log, at)
      modifies this
      ensures Valid(log)
      ensures after == if old(after) < at + |page| then at + |page| else old(after)
    {
      PageIs(page, log, at);
      var i := 0;
      while i < |page|
        invariant i <= |page| && Valid(log)
        invariant after == if old(after) < at + i then at + i else old(after)
      {
        if page[i].number > after {
          SendsNext(log, from, after, page[i]);
          sent := sent + [page[i]];
          after := page[i].number;
        }
        i := i + 1;
      }
    }

    /** Read what is next, and send it. A short page is the last there is. */
    method ReadNext(log: seq<NoticeRecord>) returns (short: bool)
      requires Numbered(log) && Valid(log)
      modifies this
      ensures Valid(log) && after >= old(after) && (short ==> after >= |log|)
    {
      var lo := FindPast(log, after);
      var page := UpTo(log[lo..], Some(PAGE));
      PageIs(page, log, after);
      SendPage(page, log, after);
      short := |page| < PAGE;
    }

    /**
     * Page after page, until one comes back short or the stream is cut off. `logs` is the log as each read finds
     * it, whatever is appended in between; `first` a page some earlier read found.
     */
    method CatchUp(first: Option<seq<NoticeRecord>>, logs: seq<seq<NoticeRecord>>, ghost was: seq<NoticeRecord>,
      ghost at: nat) returns (read: nat)
      requires Growing(logs) && forall i | 0 <= i < |logs| :: Numbered(logs[i]) && was <= logs[i]
      requires Numbered(was) && Valid(was) && (first.Some? ==> at <= after && PageOf(first.value, was, at))
      modifies this
      ensures read <= |logs| && after >= old(after)
      ensures Valid(if read == 0 then was else logs[read - 1])
      ensures 0 < read < |logs| ==> after >= |logs[read - 1]|
    {
      read := 0;
      ghost var log := was;
      if first.Some? {
        SendPage(first.value, log, at);
        if |first.value| < PAGE { return; }
      }
      while read < |logs|
        invariant read <= |logs| && Numbered(log) && log == (if read == 0 then was else logs[read - 1]) && Valid(log)
                  && after >= old(after)
      {
        ValidGrows(log, logs[read], from, after);
        log := logs[read];
        var short := ReadNext(logs[read]);
        read := read + 1;
        if short { return; }
      }
    }
  }

  lemma SendsNext(log: seq<NoticeRecord>, from: nat, after: nat, n: NoticeRecord)
    requires Numbered(log) && from <= after < |log| && n == log[after]
    ensures SentOf(log, from, after + 1) == SentOf(log, from, after) + [n] && n.number == after + 1
  {}

  lemma ValidGrows(log: seq<NoticeRecord>, more: seq<NoticeRecord>, from: nat, after: nat)
    requires log <= more && from <= after && (after <= |log| || after == from)
    ensures (after <= |more| || after == from) && SentOf(more, from, after) == SentOf(log, from, after)
  {}
}
