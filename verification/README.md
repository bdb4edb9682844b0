# A model of haikit, with proofs

Haikit keeps conversations between a person and a language model in which tools put live surfaces on the screen. A
conversation is a stored row that many requests compete for; a browser replays what a stream of frames tells it. Nearly
every comment in the code is a promise about what survives a crash, an overtaken lease, a failing save, or a frame that
comes late. This project models those parts and proves what they promise, for every run.

## How it is laid out

**A conversation and its requests.** `History` is the message list and what makes it one a model API accepts.
`Conversations` is the stored row and what each uninterrupted stretch of code does to a copy of it. `Requests` is a
request as a program that stops wherever the code awaits something others can see, change or make fail; model replies
and tools are adversarial. `Worlds` interleaves any number of requests with notices, sweeps, crashes, data loss and
the clock. Over its runs: `Fencing` (turns are serializable), `Turns` and `Pairing` (the history is well formed at
every model call), `Surfaces`, `Identity` and `Sessions` (surfaces keep their identity, and a question is answered
once), `Saying` and `Answers` (what was said and what tools answered reach the model word for word), `Limits` (how
often it is called), `Notices` (taken in once), `Announcing` and `Appending` (a revision and its notice stay together,
told once), `Expiry` (final), `Wakes` (limited, and never twice for one notice), `Retention` (sweeps are safe).
`Findings` holds runs in which the code falls short. `Drafts` and `Replies` are a request's copy and a reply's calls
in place, `Updates` the queues that merge revisions from outside.

**What a browser shows.** `Orders` is the algebra of a transcript, `Transcripts` what each frame does to a client,
`TranscriptOrder` and `LateOriginals` what every reachable transcript keeps. `Rejoining` is what the server keeps of a
wake turn, and `Contents` what streamed text, rows and surfaces come to in both; `Merging`, `Commuting`, `WakeTurns`,
`CatchUp` and `Replaying` prove that it means the same as the turn. `Browsers` is the client in place, `Watching` the
order of turns heard from several processes.

**Stores, credentials, codecs.** `Stores` is the in-memory store in place, `Serving` ties it to the steps of `Worlds`,
`Streaming` reads it page by page. `Renewals` is the refresh protocol of several processes and `Refreshing` what it
stores, `Credentials` its store in place. `Base64` and `Chunking` carry a message over bounded notifications.
`Translation` is the history as another API's items, and back, and `Carrying` that nothing it says is lost or changed;
`Sending` applies it to every run.

Functions that change things in place in the code are methods of classes here, each proved against the functions the
theorems are about. `dafny verify dfyconfig.toml` checks the whole project.

## What the results assume

- Time does not go back, declared freshness windows are fixed during a run, and a lease is `leaseMs` from its load.
- `KeepsQuestions`, in the results on runs that need it: the last read of a wake turn that ran a tool and parked
  succeeds. `Pairing.StepHistoryIff` shows that this is the one step that breaks the history invariant.
- `cfg.sendsNotices`, in the results on outside revisions: it holds of every configuration with `updates` on.
- `KeepsAnswers`, in `Sessions.AnswersStand` alone: no save of an answer lands and is reported as failed.
- `NoClash`, in `Appending.AppendedOnce` alone, and `Unhurried`, in `Renewals` alone: see the table.
- No data loss (`Lose`), in `Retention` alone.
- `Live` and `Sound`, in `Replaying.CatchingUp` and `CaughtUp`: the browser shows nothing it knows to be revised.
  `Replaying.ReachedCatchesUp` proves both of every browser that an orderly stream reaches: revisions of one surface
  are heard in order, from whatever streams.
- JSON and UTF-8 decode what they encode.

## Model

| member | source | states |
|---|---|---|
| `Pairing.ModelCallsAreWellFormed` | packages/server/src/runtime.ts:1238-1310 | At every model call of every run, by any request, overtaken or not: the history ends with a user message, each tool call in it is answered by exactly one result in the very next message, and no result answers anything else. Assumes the last read of a parked wake turn succeeds (see Findings). |
| `Pairing.ParkedHoldsItsCalls` | packages/server/src/runtime.ts:1286-1306 | In every stored state the conversation is awaiting exactly when a question is pending, and then the held results and the asking call are, as multisets, the calls of the last reply. |
| `Pairing.StepHistoryIff` | packages/server/src/runtime.ts:735-754 | A step keeps the history invariant if and only if it is not the one step that loses a question: a wake turn that has run a tool and parked fails its last read, and is closed as idle. |
| `Pairing.UndoClickExact` | packages/server/src/runtime.ts:1077-1136 | A click whose save fails puts the private copy back exactly as it was, field for field. |
| `Pairing.FailWakeExact` | packages/server/src/runtime.ts:702-752 | A wake turn that fails before any tool has run puts the copy back exactly, but that it stays counted and numbered. |
| `Fencing.SavesExtendTheirBase` | packages/server/src/store.ts:97-153 | Over every interleaving: whatever changes the row is a save by the request whose token is current, over exactly the version it loaded or last saved; a superseded request changes neither row, lease nor payloads. |
| `Sessions.SurfaceIdentity` | packages/server/src/runtime.ts:1743-1752 | In every stored state each handle leads, by links to later-issued handles only, to one unrevised handle of the conversation; nothing answered was revised or answered twice; and the question waiting is open. |
| `Sessions.GuardIsIdle` | packages/server/src/runtime.ts:1744-1752 | In every stored state the walk to a surface's latest revision ends where it would without its guard against cycles. |
| `Sessions.ShownTakesItsPlace` | packages/server/src/runtime.ts:1345-1500 | A stored surface that takes effect is attached. A revision becomes the latest of exactly the handles that led to what it revises; an asked one becomes the reply's question; no other handle leads anywhere new. |
| `Sessions.ParksWhereAsked` | packages/server/src/runtime.ts:1289-1306 | In every run, a reply whose last call asked and returned parks on that call and on the very surface it asked on. |
| `Sessions.RowGrows` | packages/server/src/runtime.ts:1469-1499 | No event ever takes back a surface of the stored conversation, a revision of one, or the record of an outside revision. |
| `Sessions.AnswersStand` | packages/server/src/runtime.ts:1063-1136 | Each question is answered at most once over a whole run: what is stored as answered stays so, in order, unless the save of an answer lands and is reported as failed. |
| `Sessions.TakenBackIff` | packages/server/src/runtime.ts:1116-1136 | A stored answer is taken back by an event if and only if the event is the landing last save of the current holder, and that holder undid a click that was stored. |
| `Sessions.TookBackIff` | packages/server/src/runtime.ts:1116-1136 | A request stands to take an answer back exactly from the event in which the save of its answer lands and is reported as failed to its own next step. |
| `Notices.NoticesTakenOnce` | packages/server/src/runtime.ts:766-782 | In every stored conversation the notices in its history are exactly those numbered through `noticedThrough` that have a text for the model, in order, one block each, under its own number: "[UI update] " and the text if the notice revises a surface, else "[App notification: ", its name, "] " and the text. Through failed saves, refused inits, undone wake turns and overtaken turns. |
| `Saying.SaidAsSaid` | packages/server/src/runtime.ts:876-912 | Whenever a request calls the model, runs its tools or ends its turn, its history goes on from what it found with its own words: what the user typed or picked, after any notices read, or that no one said anything. A question left waiting has its result first, behind those held beside it: what was picked, or that nothing was and what was typed. |
| `Answers.CallsAnsweredAsTold` | packages/server/src/runtime.ts:1262-1310 | In every run, once the last call of a reply is settled, the next message holds for each of its calls, in their order, the very text of the event that settled it; exactly when a call asked and returned, the turn parks on it instead and holds the others' so. |
| `Answers.InitAnsweredAsTold` | packages/server/src/runtime.ts:986-1014 | In every run nothing of `init` is in the history before it returns; then its message, its call and its own text as the result are, or the question it parks on, with the notices counted as taken in. |
| `Answers.CutShortAsTold` | packages/server/src/runtime.ts:1238-1260 | A reply cut short has each of its calls answered, in order, as not run. |
| `Limits.ModelCallsLimited` | packages/server/src/runtime.ts:1218-1240 | In every run a request hears the model at most `maxHops` times, and calls it only while it may hear it once more. |
| `Limits.FoundIsRetired` | packages/server/src/runtime.ts:889-904 | Whenever a request calls the model, the surface of a question it found waiting, and answered or closed, is among those no longer live. |
| `Limits.TurnsEnd` | packages/server/src/runtime.ts:1289-1314 | In every run a turn that has ended leaves the conversation idle, or awaiting the user: never streaming. |
| `Limits.PayloadsAreStamped` | packages/server/src/runtime.ts:1345-1377 | In every run each stored surface carries the time it was stored at, by a request whose lease was current, with that request's token and its own component and window: the tool's, or for a revision from outside the declared window of what it revises. |
| `Announcing.RevisionsAndNoticesTogether` | packages/server/src/runtime.ts:591-621 | In every stored state each revision made outside a turn has its update notice in the log or owed by the row, and no update notice in the log names a revision the row lacks. |
| `Announcing.ModelHeardRevisions` | packages/server/src/runtime.ts:492-499 | No model call, by any request, runs unless a user message of its history holds, for each outside revision its copy has, "[UI update] " followed by that revision's own text. |
| `Saying.RevisionsSayTheirText` | packages/server/src/runtime.ts:596-611 | In every run the notice of each outside revision has the text of some request for one, if that had any, then which handle replaced which; and it wakes the model exactly if that request asked to. |
| `Saying.RevisesWhatItWasAsked` | packages/server/src/runtime.ts:560-611 | In every run a request for a revision replaces the surface its handle leads to, attaches the new handle, and owes a notice that names both and has its own text; or, past its window, it changes nothing. |
| `Appending.AppendedOnce` | packages/server/src/runtime.ts:492-499 | Each update notice is appended once, whatever fails and whoever owes it, in every run with no clash: no overtaken request appends what the taker has appended or is about to. |
| `Appending.NextOnceIff` | packages/server/src/runtime.ts:591-621 | A step leaves an update notice told twice, or about to be, if and only if it is such a clash. |
| `Expiry.RefusedExactly` | packages/server/src/runtime.ts:1159-1206 | A request that checks its copy is refused exactly when a surface's payload is lost, or an unrevised one has no known window or one that has run out; either way its copy is as it was. |
| `Expiry.RefusalIsFinal` | packages/server/src/runtime.ts:1159-1206 | Once any request is refused as out of date, and it holds the lease or what closed its copy closes the conversation as it now is, the row stays expired for ever and no later request does more than let its lease go; no revision, undo or overtaken turn revives it. |
| `Expiry.FinalIff` | packages/server/src/runtime.ts:1159-1206 | Once the request that held the conversation has ended or crashed, a refusal is final if and only if the stored conversation is out of date by the time the next request can load: otherwise some later request is let in. |
| `Expiry.TurnRefusalIsFinal` | packages/server/src/runtime.ts:1469-1487 | An update refused within a turn is final in the same way, for a surface the conversation had before the turn's last save. |
| `Expiry.LiveCloses` | packages/server/src/runtime.ts:565-622 | For the request whose lease is current, a surface of the row closes its copy if and only if it closes the conversation. |
| `Conversations.LateIff` | packages/server/src/runtime.ts:1697-1711 | A payload is late exactly when neither a recorded nor a declared window is known for it, or one that is has run out: so it is held to the stricter. |
| `Conversations.ExpiredIff` | packages/server/src/runtime.ts:1159-1192 | A conversation is out of date exactly when the payload of one of its surfaces is lost, or an unrevised one has no known window or one that has run out. |
| `Retention.SweepsAreSafe` | packages/postgres/src/index.ts:640-668 | However sweeps interleave with requests, and whatever grace they are given, every surface of the stored history, and every surface the next save would store, has its payload. |
| `Retention.OrphansStayOrphans` | packages/postgres/src/index.ts:640-668 | What a sweep may delete, no later state of the row ever references. |
| `Wakes.WakeLimit` | packages/server/src/runtime.ts:683-699 | In every run, any `count` + 1 consecutive wake turns that reach the model span at least `perMs`, failed ones included. |
| `Wakes.WakesWhenDue` | packages/server/src/runtime.ts:683-699 | A wake request starts a turn exactly when some notice not yet woken for or taken in wakes, and fewer turns than the limit started within its window; woken or limited, the newest such notice is the one woken through; a turn gets the next number and is counted now; and if none is due nothing changes. |
| `Wakes.WokenOnce` | packages/server/src/runtime.ts:683-757 | Once a wake turn has run a tool, no later wake turn wakes for a notice the first woke for, whether the first failed or was overtaken. |
| `Wakes.WokenBefore` | packages/server/src/runtime.ts:719-731 | And once a newer request has woken, an older wake turn still under way, whatever it does later, woke for none of the notices the newer one wakes for. |
| `Wakes.OneTurnForEach` | packages/server/src/runtime.ts:683-757 | So no notice belongs to two wake turns that both ran a tool, in any run, whichever ran its tool first. |
| `Turns.ToolStepAnswering` | packages/server/src/runtime.ts:1271-1310 | Whatever a tool does next, each call of the reply decided so far is answered, or parked on, exactly once. |
| `Turns.ToolStepOneQuestion` | packages/server/src/runtime.ts:1404-1448 | Whatever renders and updates interleave, one reply asks one question at most, and what claims it is a render still under way or the surface shown: no failed one keeps it. |
| `Turns.FailedGivesBack` | packages/server/src/runtime.ts:1440-1448 | A question that fails before it is shown, or whose call throws, lets the next one ask; the surface of one already shown is retired. |
| `Findings.LostQuestion` | packages/server/src/runtime.ts:743-744 | A run in which a wake turn parks, its last read fails, and the next message calls the model with a call left unanswered. |
| `Findings.OvertakenRefusal` | packages/server/src/runtime.ts:1159-1206 | A run in which a request that lost its lease is refused over a surface since revised, and the next message is let in. |
| `Findings.ToldTwice` | packages/server/src/runtime.ts:591-621 | A run in which a request overtaken between its save and its append tells its revision a second time. |
| `Findings.AnswerTakenBack` | packages/server/src/runtime.ts:1116-1136 | A run in which a stored answer is taken back, its question pending again. |
| `Drafts.Draft.Current` | packages/server/src/runtime.ts:1744-1752 | The loop finds the latest revision that the specification's walk does. |
| `Drafts.Draft.ClosedAt` | packages/server/src/runtime.ts:1159-1206 | The loop refuses exactly when a surface's payload is lost, or an unrevised one has no known window or a known one that has run out. It names the least moment at which any known window of an unrevised surface ran out; at no known age exactly when a payload is lost, or the first to close has no known window. |
| `Drafts.Draft.Unread` | packages/server/src/runtime.ts:766-782 | The loops collect, for each unread notice that has a text for the model, a block with its number and that text under its prefix; the number they run through; and the number of the newest that wakes. |
| `Drafts.Draft.Owed` | packages/server/src/runtime.ts:492-499 | A notice is still owed exactly when none unread names the same revision. |
| `Drafts.Draft.Click` | packages/server/src/runtime.ts:1077-1136 | A click is recorded whole and saved, or leaves the copy exactly as it was. |
| `Drafts.Draft.Wake` | packages/server/src/runtime.ts:683-727 | The loop over the recent wakes starts a turn, or marks the limit, exactly as specified, and keeps what undoes it. |
| `Drafts.Draft.WakeFailed` | packages/server/src/runtime.ts:735-753 | A failed wake turn is closed once a tool has run and put back before then. |
| `Drafts.Draft.Close` | packages/server/src/runtime.ts:884-904 | A message sent while a question waits gives every call of that reply its result, the asking one last. |
| `Drafts.Draft.Begun` | packages/server/src/runtime.ts:983-985 | Init reaches the history only once it has succeeded, with the message it answers. |
| `Drafts.Draft.ReviseHeld` | packages/server/src/runtime.ts:591-614 | An outside revision replaces the surface's latest handle, carries a waiting question over, and owes its notice. |
| `Replies.Reply.Show` | packages/server/src/runtime.ts:1345-1402 | A stored surface is attached, and asked or put in the place of what it revises, unless that went out of date. |
| `Replies.Reply.Play` | packages/server/src/runtime.ts:1266-1310 | A reply's calls run over any script of their tools. Unless the lease is lost, once each is decided every call has its result in the history exactly once, in the order of the calls and with the very text that decided it, or all but the asking one have theirs held so beside the question. |
| `Updates.WritesNeverOverlap` | packages/server/src/runtime.ts:440-472 | Of the writes under way, no two are of one queue, in every run. |
| `Updates.SettledExactlyOnce` | packages/server/src/runtime.ts:447-470 | Each call has exactly one answer, or waits for it in its own queue: never both. |
| `Updates.AnswerIsOwnOrLater` | packages/server/src/runtime.ts:447-470 | The answer a call gets is that of a write of its own props, or of the newest later call's that the write answers, on the same queue; and it wakes the model exactly if one of the calls it answers asked to. |
| `Updates.LastPropsLastWritten` | packages/server/src/runtime.ts:447-470 | Once a queue is idle, its last write is of its last call's props and text. |
| `Updates.QueuesDrain` | packages/server/src/runtime.ts:459-471 | With no more calls, two ends of write leave a queue idle and every call on it answered. |
| `Updates.OneWritePerSurfaceIff` | packages/server/src/runtime.ts:440-472 | One write per surface is in flight at every moment of a run if and only if no call in it meets a write of its surface under another key than its own. |
| `Updates.OneEachIff` | packages/server/src/runtime.ts:440-458 | A step keeps one queue for each surface under way if and only if it is not such a call. |
| `Updates.JoinsIff` | packages/server/src/runtime.ts:441-443 | Which queue a call joins, in every run over no more conversations than are kept: that of the last write that wrote its handle or went by it as first, and one of its own where no write did, or the last to speak of the handle replaced it. |
| `Updates.InBetween` | packages/server/src/runtime.ts:475-486 | A surface revised twice through one queue has two writes in flight, by its first handle and the one in between. |
| `Updates.FirstAndLatest` | packages/server/src/runtime.ts:475-486 | And, once revised by the handle in between, by its first handle and its latest. |
| `Updates.FreshProcess` | packages/server/src/runtime.ts:441-443 | And, in a process that has not revised it itself, by any two of its handles. |
| `Updates.UpdateQueues.Ask` | packages/server/src/runtime.ts:440-458 | The queues in place are where their events lead, after a call. |
| `Updates.UpdateQueues.Finish` | packages/server/src/runtime.ts:459-471 | And after a write ends, each of its callers told in a loop. |
| `Replaying.CatchingUp` | packages/server/src/routes.ts:733-772 | For every wake turn, and every part of it a browser has applied, applying what the server kept of it leaves the browser showing what it would after all of it: block order, text, status, progress, surfaces, tool rows and where each handle leads, up to the props of surfaces that still await theirs. |
| `Replaying.CaughtUp` | packages/client/src/index.js:386-521 | And exactly so, the record of which handle led where aside, once every surface opened has its props. |
| `Replaying.ReachedCatchesUp` | packages/client/src/index.js:418-478 | Both hold for every browser that any orderly stream reaches, with no assumption on its state. |
| `WakeTurns.ShownKept` | packages/server/src/routes.ts:733-772 | What is kept of a turn stays well formed: each block starts once before what it says, each surface once before its props. |
| `CatchUp.RevisionFolds` | packages/server/src/routes.ts:748-771 | Folding a revision into the frame that opened what it revises means what both frames did, wherever in the list that was. |
| `CatchUp.EditFolds` | packages/server/src/routes.ts:738-747 | Folding text, an update or progress into its block's start means what the two frames did. What that is in words is `Contents.TextKept` and `Contents.RowKept`. |
| `Contents.TextShown` | packages/client/src/index.js:386-399 | In any browser, once a block starts as prose, whatever else is sent that does not start it again, it shows its text followed by every delta sent for it, in order. |
| `Contents.RowShown` | packages/client/src/index.js:386-416 | In any browser a tool's row keeps its name, has the status and outcome of its last update, and each field of its progress as last sent; what was not sent stays. |
| `Contents.RowShownAgain` | packages/client/src/index.js:386-416 | A row that starts again takes the new name and status, and keeps the outcome and progress the new start does not give. |
| `Contents.TextKept` | packages/server/src/routes.ts:734-741 | Of a block that a wake turn starts once, one start is kept, with its text followed by every delta for it, in order. |
| `Contents.RowKept` | packages/server/src/routes.ts:734-747 | Of a tool's row, one start is kept, with its name, its last update's status and outcome and each field of its progress as last sent. |
| `Contents.OpenedShown` | packages/client/src/index.js:453-466 | A surface of which no handle is shown opens live, in the row of its tool, and then shows the props last sent and stands where it was last said to. |
| `Contents.RevisionShown` | packages/client/src/index.js:430-453 | A revision takes over the block of what it revises: the new component and version in the old mode, where the surface last stood, with the props last shown until its own come; the old handle shows nothing. |
| `Contents.NoticesTaken` | packages/client/src/index.js:359-372 | Notices sent in order, past those known, are all taken in, in that order, whatever else is sent. |
| `Commuting.RevisionCommutes` | packages/client/src/index.js:418-478 | A revision commutes, for the browser, with every frame not about its surface. |
| `TranscriptOrder.TranscriptStaysInOrder` | packages/client/src/index.js:359-371 | In every state a browser can reach: every block stands once and every notice sent has one; the notices naming any revision of a shown surface follow its block, in the order sent, with only naming notices between. |
| `TranscriptOrder.MovedConsistent` | packages/client/src/index.js:467-478 | Moving a surface's notices under it loses and duplicates nothing. |
| `LateOriginals.OneBlockInItsRow` | packages/client/src/index.js:418-478 | Wherever a surface's original arrives among its in-order revisions: one block stands, once, at the latest handle and in the original's tool row; no other handle has one; and each leads to the latest. |
| `LateOriginals.LateOriginal` | packages/client/src/index.js:420-428 | An original that comes last changes nothing but the tool row of the block that stands. |
| `Browsers.Browser.Receive` | packages/client/src/index.js:386-521 | Each frame edits the client in place, by pushes, splices and a sort, to exactly what the specification shows; `Contents` says what text, rows and surfaces that comes to. |
| `Browsers.SpliceWeaves` | packages/client/src/index.js:799-811 | Splicing notices in after those already beside a surface is what the specification's weaving does. |
| `Browsers.EarlyIsNamed` | packages/client/src/index.js:472-478 | The notices that came early, filtered out of the transcript and sorted, are all those sent that name the surface, in order. |
| `Watching.TurnsAreContiguous` | packages/server/src/routes.ts:827-861 | However frames of turns from different processes interleave, those passed on form contiguous segments, each one turn's and opened by its `streaming`; and a stream that joins is sent what the segment under way means. |
| `Watching.NoOlderTurn` | packages/server/src/routes.ts:827-861 | Once a numbered turn has started, nothing from a lower-numbered one is delivered. |
| `Watching.TurnIsHeard` | packages/server/src/routes.ts:830-858 | From a turn's start, if its number is no lower than any started, exactly its frames are passed on, all and in order, until its end or the start of a turn with no lower number; and a stream that joins is sent what they mean. |
| `Watching.TurnIsKept` | packages/server/src/routes.ts:830-858 | Its end is passed on too, and a numbered turn is then kept whole, the newest of at most five. |
| `Watching.Watchers.Hear` | packages/server/src/routes.ts:827-861 | Each frame heard updates the current turn and what is kept of it, in place, as specified. |
| `Stores.FindPast` | packages/server/src/store.ts:184-198 | The halving search finds where the notices past a number begin, so that what it leaves is what a filter would. |
| `Stores.MemoryStore.Load` | packages/server/src/store.ts:109-140 | A load is refused exactly while a lease lives, and otherwise returns the row under a token issued to nobody before. |
| `Stores.MemoryStore.Save` | packages/server/src/store.ts:141-147 | A save lands exactly with the current token, and a stale one changes nothing. |
| `Stores.MemoryStore.PutPayload` | packages/server/src/store.ts:148-155 | So does a payload, under a handle never issued before. |
| `Stores.MemoryStore.GetPayloads` | packages/server/src/store.ts:162-171 | Each record that comes back is this conversation's, of a handle asked for, and each such handle's record comes back, in the order asked. |
| `Stores.MemoryStore.PutNotice` | packages/server/src/store.ts:172-183 | A notice lands whoever holds the turn, with the next number of its conversation. |
| `Stores.MemoryStore.GetNotices` | packages/server/src/store.ts:184-198 | A page is the first so many of the notices past a number. |
| `Serving.Load` | packages/server/src/store.ts:109-140 | The store in place makes of a load what the runs assume. |
| `Serving.Save` | packages/server/src/store.ts:141-147 | And of a save, which lands exactly for the request whose token the runs call current. |
| `Serving.GetNotices` | packages/server/src/store.ts:184-198 | And a request reads of the log exactly what the runs show it. |
| `Streaming.NoticeStream.CatchUp` | packages/server/src/routes.ts:539-577 | From any resume point, page after page delivers the notices past it in order, each once, whatever is appended between reads, and stops short only when a page says nothing is left. |
| `Streaming.PageIs` | packages/server/src/routes.ts:539-577 | A page read from the store is the next stretch of the log. |
| `Renewals.RefreshNeverUndoes` | packages/mcp/src/oauth.ts:450-565 | In every run, a refresh changes the stored credential only while it is the very one the refresh started from: it never overwrites or deletes a newer one nor brings back a disconnected one, and no value once gone comes back. |
| `Refreshing.RefreshStoresWhatItGot` | packages/mcp/src/oauth.ts:484-520 | In every run, what a refresh stores is the value it sealed when the authorization server answered it: with a refresh token no earlier credential had if the answer rotated it, else with exactly that of the credential it started from. |
| `Refreshing.AnsweredWriteLands` | packages/mcp/src/oauth.ts:505-520 | In every run, while the row is what the refresh started from, a write of what it was answered with that the store answers lands, and ends it. |
| `Refreshing.DeletesOnlyRefused` | packages/mcp/src/oauth.ts:450-483 | In every run, a refresh deletes only what it started from, and only if that has no refresh token or the authorization server refused it. |
| `Refreshing.RefusedIsDropped` | packages/mcp/src/oauth.ts:470-481 | Refused while the row is still what it started from, a refresh deletes it. |
| `Refreshing.ConnectStoresItsOwn` | packages/mcp/src/oauth.ts:360-380 | In every run, what a connect stores is its own credential, with a token no earlier one had if it was given one. |
| `Renewals.OneAtATime` | packages/mcp/src/oauth.ts:431-565 | While no lease is taken over, no two processes have one stored refresh token out at once. |
| `Renewals.PunctualIsUnhurried` | packages/mcp/src/oauth.ts:431-565 | No lease is taken over while each request and its write finish within the lease. |
| `Renewals.NextExclusiveIff` | packages/mcp/src/oauth.ts:542-553 | A step keeps each token out once, under its own lease, if and only if it takes no lapsed lease over from a refresh whose token is out. |
| `Renewals.TwoOutIff` | packages/mcp/src/oauth.ts:542-553 | After a run that took no lease over, an event has two refreshes with one token out if and only if it grants such a lease to one that then asks. |
| `Renewals.LapsedLease` | packages/mcp/src/oauth.ts:542-553 | A run in which a lease lapses mid-request and two processes have one token out. |
| `Credentials.CredentialStore.Put` | packages/mcp/src/store.ts:65-72 | A compare-and-set on the stored value: what the refresh runs assume of a put. |
| `Credentials.CredentialStore.Delete` | packages/mcp/src/store.ts:73-85 | A delete lands only on the value it names, or on any, and takes the lease with it. |
| `Credentials.CredentialStore.DeleteAll` | packages/mcp/src/store.ts:73-85 | All of a user's credentials go, with their leases, and nobody else's. |
| `Credentials.CredentialStore.Lease` | packages/mcp/src/store.ts:89-96 | A lease is granted exactly on the current value, to its holder or once the last has lapsed. |
| `Credentials.CredentialStore.PutFlow` | packages/mcp/src/store.ts:103-111 | A new flow displaces only the oldest, past their time or past the most kept, and is the newest, or keeps its own place: the flows stay in the order they came. |
| `Credentials.CredentialStore.TakeFlow` | packages/mcp/src/store.ts:112-116 | A flow is taken once, and not past its time; the others stay, in their order. |
| `Base64.RoundTrip` | packages/postgres/src/index.ts:352-355 | Every sequence of bytes comes back from its encoding (section 4 of RFC 4648), which is ASCII, through a decoder as forgiving of spaces, padding and spare bits as the platform's. |
| `Chunking.LimitIsTight` | packages/postgres/src/index.ts:68-81 | A message is within `MAX_PUBLISH_BYTES` if and only if its pieces are within `MAX_PIECES`. |
| `Chunking.PiecesFit` | packages/postgres/src/index.ts:352-360 | Whatever is published goes out in at least one and at most `MAX_PIECES` pieces of at most `PIECE` characters, numbered in order. |
| `Chunking.HeardExactlyOnce` | packages/postgres/src/index.ts:309-342 | Whatever is published is put back together exactly, once, by whoever is hearing, in whatever order its pieces come and whatever comes or expires between them, so long as it does not itself expire first. |
| `Chunking.Listening.Receive` | packages/postgres/src/index.ts:309-342 | Each piece fills its message's entry in place as specified; one that does not hold together is dropped. |
| `Chunking.Listening.Expire` | packages/postgres/src/index.ts:321-326 | A message whose other pieces never came is given up on. |
| `Translation.TranslationPairs` | packages/openai/src/mapping.ts:29-72 | On every paired history that can be sent, each call has exactly one output after it, all of a reply's before anything else and before any text of the message that answers it. |
| `Translation.AllAnswered` | packages/openai/src/mapping.ts:29-72 | A history the model can be called with leaves no call without its output. |
| `Carrying.HistoryCarried` | packages/openai/src/mapping.ts:29-72 | Read back, the items of a sendable history say message by message what it says: every result under its call with its own text, then the user's texts, in order; and every text, call and reasoning of a reply, in order and word for word. |
| `Carrying.ReplyCarried` | packages/openai/src/mapping.ts:123-156 | The texts of a reply's content are those of its messages, refusals with them, in order. |
| `Translation.ReplyComesBack` | packages/openai/src/mapping.ts:123-156 | A reply's calls, ids and encrypted reasoning come back, in order, when its content is sent; and all of it can be sent. |
| `Translation.ToInput` | packages/openai/src/mapping.ts:29-72 | The nested loops are total on exactly the histories that can be sent, and give the specified items. |
| `Translation.FromOutput` | packages/openai/src/mapping.ts:123-156 | The loops refuse exactly a failed reply, or a complete one that calls with arguments that are no object. |
| `Sending.RunsItsCalls` | packages/openai/src/mapping.ts:158-166 | The runtime runs an adapted reply's calls exactly when it makes any and is complete, or was cut short for the very reason that stands for them; otherwise none runs, and each is answered so. |
| `Sending.ModelCallsTranslate` | packages/openai/src/mapping.ts:29-72 | At every model call of every run whose replies the adapter made, the history can be translated, and each call in it has its one output in its place. |

## Findings

Each has a run in the model that shows it, and a statement of exactly when the code does meet the promise.

| locator | as written | input | intended |
|---|---|---|---|
| packages/server/src/runtime.ts:743-744 | A wake turn that ran a tool, parked on a question and then fails its last read is closed as `idle` with the question pending; the next message calls the model with a call unanswered. | the run of `Findings.LostQuestion` | Each call is answered before the model is called again. `Pairing.StepHistoryIff`: this step alone breaks it. |
| packages/server/src/runtime.ts:1126-1135 | A click whose save landed but was reported as failed is undone, and the save on the way out stores the copy without it: the answer is taken back, and its handler can run again. | the run of `Findings.AnswerTakenBack` | A question is answered once. `Sessions.TakenBackIff` and `TookBackIff`: exactly these runs break it. |
| packages/server/src/runtime.ts:1159-1206 | A request that has lost its lease can be refused as out of date over a surface since revised, and the next message is let in. | the run of `Findings.OvertakenRefusal` | A refusal is final. `Expiry.FinalIff`: with the holder gone, exactly when the stored conversation is out of date by the time its lease is. |
| packages/server/src/runtime.ts:612-620 | A request overtaken between saving a revision and appending its notice appends it a second time. | the run of `Findings.ToldTwice` | A notice is appended once. `Appending.NextOnceIff`: a step breaks it exactly when an overtaken request appends what the taker has appended or is about to. |
| packages/server/src/runtime.ts:441-485 | Two writes of one surface can be in flight at once, and only the lease keeps them apart: a handle between a surface's first and latest joins a queue of its own; once it has, the first and the latest can too; and so can any two handles in a process that has not revised the surface itself. | `Updates.InBetween`, `Updates.FirstAndLatest`, `Updates.FreshProcess` | One write per surface is in flight at a time, whatever handle a caller holds (packages/server/src/runtime.ts:397-416). `Updates.OneWritePerSurfaceIff`: exactly in the runs where no call meets a write of its surface under another key; `Updates.JoinsIff`: which key a call has. |
| packages/mcp/src/oauth.ts:542-553 | Once a refresh lease lapses mid-request, another process is granted it, and two processes have one refresh token out at once. | the run of `Renewals.LapsedLease` | One request at a time has a token out. `Renewals.NextExclusiveIff` and `TwoOutIff`: exactly such a grant breaks it. |

## Left out

- HTTP, event-stream framing, sockets, heartbeats, gates, polling and reconnect backoff in the routes and the client.
- `goOut`, `withdraw`, `settle` and `letGo` in the client: the pending copy of a message, which is one push and one removal.
- Error frames, deadlines and `ui:` block ids in the client; two revisions of one surface that overtake each other across streams.
- `OAuthCredential.ensure` and `take`, and the refresh one process shares among its own callers: a cache in front of `Renewals`.
- Discovery, token and revocation endpoints, sealing and client registration: each is an answer that may be anything.
- The chain of sends that keeps one conversation's published messages in order.
- The header of a NOTIFY piece as text.
- Saying.SaidAsSaid: the surface's digest, which stands before what was picked or typed in the result of its question.
- Answers.CutShortAsTold: the note's wording, which names the reason the reply stopped.
- Saying.RevisesWhatItWasAsked: the new surface's digest, which ends the notice's text.
- Digests, props, signals and the `query_ui` tool: a surface's component and window are kept, its content is not.
- A surface's `mode` in `Conversations`: the browser's copy keeps it.
- The order a wake turn's status frames reach the browser relative to the lease being let go.
- Translation.ToInput: a `tool_result` whose content is an array of text blocks is not modelled; the runtime's own results are strings.
- Message and handle identifiers: handles and lease tokens are numbered in the order they are issued, and integers have no width.
- Other conversations in one store: `Serving` takes a store whose numbers only this conversation uses; others would only skip numbers.
- How long a load waits for a turn in progress in `hai.update`, and an update's `timeoutMs`.
- The Postgres statements as SQL: each is one atomic step over the same store.
- Appending.AppendedOnce: one way over whole runs; step by step it is exact, in `Appending.NextOnceIff`.
- Expiry.RefusalIsFinal: while another request holds the conversation, it says only that a closing surface in that request's copy suffices; once the holder is gone, `Expiry.FinalIff` is exact.
