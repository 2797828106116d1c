/**
 Replaying a run's events to a client while writers go on (backend/src/api/v1/sse.py): each poll
 reads the run's status, then one page of its log, and any steps may fall before and in between.
 */
module Replay {
  import opened Wrappers
  import opened RunLifecycle
  import opened RunHistory

  const EVENT_PAGE_SIZE := 100

  /** The steps other parties take before a poll's status read and between its two reads. */
  datatype Poll = Poll(before: seq<Step>, between: seq<Step>)

  datatype Ending = Open | NoRun | AfterTerminalEvent | AfterTerminalStatus

  /** What was sent, how it ended, and the log and cursor of the last page read. */
  datatype Stream = Stream(sent: seq<Event>, ending: Ending, log: seq<Event>, cursor: nat)

  function Later(es: seq<Event>, cursor: nat): seq<Event> {
    if es == [] then []
    else (if es[0].sequence > cursor then [es[0]] else []) + Later(es[1..], cursor)
  }

  function Take(es: seq<Event>, n: nat): seq<Event> { if n < |es| then es[..n] else es }

  /** `list_by_run`: the first rows after the cursor. */
  function Page(es: seq<Event>, cursor: nat): seq<Event> { Take(Later(es, cursor), EVENT_PAGE_SIZE) }

  /** A page is sent up to and including its first terminal event. */
  function UpToTerminal(page: seq<Event>): seq<Event> {
    if page == [] then []
    else if page[0].kind.Terminal() then [page[0]]
    else [page[0]] + UpToTerminal(page[1..])
  }

  predicate EndsTerminal(sent: seq<Event>) { sent != [] && sent[|sent| - 1].kind.Terminal() }

  function NextCursor(cursor: nat, sent: seq<Event>): nat {
    if sent == [] then cursor else sent[|sent| - 1].sequence
  }

  function Log(db: Db, r: Id): seq<Event> { if r in db.events then db.events[r] else [] }

  function Replayed(db: Db, r: Id, cursor: nat, polls: seq<Poll>): Stream
    decreases |polls|
  {
    if polls == [] then Stream([], Open, Log(db, r), cursor)
    else
      var seen := After(db, polls[0].before);
      if r !in seen.runs then Stream([], NoRun, Log(seen, r), cursor)
      else
        var later := After(seen, polls[0].between);
        var sent := UpToTerminal(Page(Log(later, r), cursor));
        if EndsTerminal(sent) then Stream(sent, AfterTerminalEvent, Log(later, r), cursor)
        else if seen.runs[r].status.Terminal() then Stream(sent, AfterTerminalStatus, Log(later, r), cursor)
        else
          var rest := Replayed(later, r, NextCursor(cursor, sent), polls[1..]);
          rest.(sent := sent + rest.sent)
  }

  lemma UpToTerminalStep(page: seq<Event>, i: nat)
    requires i < |page| && forall k | 0 <= k < i :: !page[k].kind.Terminal()
    ensures UpToTerminal(page) == if page[i].kind.Terminal() then page[..i + 1] else page[..i + 1] + UpToTerminal(page[i + 1..])
    decreases i
  {
    if i > 0 {
      UpToTerminalStep(page[1..], i - 1);
      var rest := UpToTerminal(page[i + 1..]);
      assert page[1..][i - 1] == page[i] && page[1..][..i] == page[1..i + 1] && page[1..][i..] == page[i + 1..];
      assert UpToTerminal(page) == [page[0]] + UpToTerminal(page[1..]);
      hide UpToTerminal;
      assert [page[0]] + page[1..i + 1] == page[..i + 1];
      assert page[..i + 1] + rest == [page[0]] + (page[1..i + 1] + rest);
    } else {
      assert page[..1] == [page[0]];
    }
  }

  /** One page goes out, until a terminal event closes the stream. */
  method SendPage(page: seq<Event>, cursor: nat) returns (sent: seq<Event>, next: nat, closed: bool)
    ensures sent == UpToTerminal(page) && next == NextCursor(cursor, sent)
    ensures closed <==> EndsTerminal(sent)
  {
    sent, next := [], cursor;
    var j := 0;
    while j < |page|
      invariant 0 <= j <= |page| && sent == page[..j] && next == NextCursor(cursor, sent)
      invariant forall k | 0 <= k < j :: !page[k].kind.Terminal()
    {
      next := page[j].sequence;
      sent := sent + [page[j]];
      UpToTerminalStep(page, j);
      assert sent == page[..j + 1];
      if page[j].kind.Terminal() { return sent, next, true; }
      j := j + 1;
    }
    AllBeforeTerminal(page);
    return sent, next, false;
  }

  /** `replay_run_events`, observed for a number of polls. */
  method ReplayRunEvents(start: Db, r: Id, afterSequence: nat, polls: seq<Poll>) returns (sent: seq<Event>, ending: Ending)
    ensures sent == Replayed(start, r, afterSequence, polls).sent
    ensures ending == Replayed(start, r, afterSequence, polls).ending
  {
    hide After, Page, UpToTerminal, EndsTerminal, NextCursor, Log;
    sent, ending := [], Open;
    var db, current := start, afterSequence;
    var i := 0;
    while i < |polls|
      invariant 0 <= i <= |polls| && ending == Open
      invariant Replayed(start, r, afterSequence, polls).sent == sent + Replayed(db, r, current, polls[i..]).sent
      invariant Replayed(start, r, afterSequence, polls).ending == Replayed(db, r, current, polls[i..]).ending
    {
      assert polls[i..][0] == polls[i] && polls[i..][1..] == polls[i + 1..];
      var seen := After(db, polls[i].before);
      if r !in seen.runs { return sent, NoRun; }
      var later := After(seen, polls[i].between);
      var items, next, closed := SendPage(Page(Log(later, r), current), current);
      ghost var rest := Replayed(later, r, next, polls[i + 1..]).sent;
      assert sent + (items + rest) == sent + items + rest;
      sent := sent + items;
      if closed { return sent, AfterTerminalEvent; }
      if seen.runs[r].status.Terminal() { return sent, AfterTerminalStatus; }
      db, current := later, next;
      i := i + 1;
    }
  }

  lemma AllBeforeTerminal(page: seq<Event>)
    requires forall k | 0 <= k < |page| :: !page[k].kind.Terminal()
    ensures UpToTerminal(page) == page
  {
    if page != [] { AllBeforeTerminal(page[1..]); }
  }

  // ----- what is sent

  lemma {:induction false} LaterIsSuffix(es: seq<Event>, first: nat, cursor: nat)
    requires forall k | 0 <= k < |es| :: es[k].sequence == first + k
    ensures Later(es, cursor) == if cursor < first then es else if cursor - first + 1 <= |es| then es[cursor - first + 1..] else []
  {
    if es != [] { LaterIsSuffix(es[1..], first + 1, cursor); }
  }

  /** The page after cursor `c` of a gapless log starts at position `c`. */
  lemma PageIsSlice(es: seq<Event>, cursor: nat)
    requires Numbered(es)
    ensures Page(es, cursor) == if cursor >= |es| then [] else Take(es[cursor..], EVENT_PAGE_SIZE)
  {
    LaterIsSuffix(es, 1, cursor);
  }

  /** At most the last event is terminal. */
  ghost predicate Clean(sent: seq<Event>) {
    forall k | 0 <= k < |sent| - 1 :: !sent[k].kind.Terminal()
  }

  lemma {:induction false} UpToTerminalIsCleanPrefix(page: seq<Event>)
    ensures UpToTerminal(page) <= page && Clean(UpToTerminal(page))
    ensures EndsTerminal(UpToTerminal(page)) || UpToTerminal(page) == page
  {
    if page != [] && !page[0].kind.Terminal() {
      UpToTerminalIsCleanPrefix(page[1..]);
    }
  }

  /** Everything after `cursor` up to the first terminal event of the log, or all there is. */
  ghost predicate Complete(log: seq<Event>, cursor: nat, sent: seq<Event>) {
    EndsTerminal(sent) || cursor + |sent| >= |log|
  }

  /** `sent` is the stretch of the log right behind the cursor. */
  ghost predicate Follows(log: seq<Event>, cursor: nat, sent: seq<Event>) {
    if cursor <= |log| then cursor + |sent| <= |log| && sent == log[cursor..cursor + |sent|] else sent == []
  }

  /** The page after the cursor holds a terminal event of the log. */
  ghost predicate TerminalWithinPage(log: seq<Event>, cursor: nat) {
    exists k :: cursor <= k < |log| && k < cursor + EVENT_PAGE_SIZE && log[k].kind.Terminal()
  }

  lemma {:induction false} EndsAtFirstTerminal(page: seq<Event>)
    ensures EndsTerminal(UpToTerminal(page)) <==> exists k :: 0 <= k < |page| && page[k].kind.Terminal()
    decreases |page|
  {
    if page != [] {
      EndsAtFirstTerminal(page[1..]);
      if page[0].kind.Terminal() {
        assert UpToTerminal(page) == [page[0]];
      } else {
        if k :| 0 <= k < |page| && page[k].kind.Terminal() { assert page[1..][k - 1] == page[k]; }
        if k :| 0 <= k < |page[1..]| && page[1..][k].kind.Terminal() { assert page[k + 1].kind.Terminal(); }
      }
    }
  }

  lemma {:induction false} PageEndsTerminal(log: seq<Event>, cursor: nat)
    requires Numbered(log)
    ensures EndsTerminal(UpToTerminal(Page(log, cursor))) <==> TerminalWithinPage(log, cursor)
  {
    var page := Page(log, cursor);
    PageIsSlice(log, cursor);
    EndsAtFirstTerminal(page);
    hide UpToTerminal, Page;
    if TerminalWithinPage(log, cursor) {
      var k :| cursor <= k < |log| && k < cursor + EVENT_PAGE_SIZE && log[k].kind.Terminal();
      assert page[k - cursor] == log[k];
    }
    if k :| 0 <= k < |page| && page[k].kind.Terminal() {
      assert log[cursor + k] == page[k];
    }
  }

  lemma OnePage(log: seq<Event>, cursor: nat)
    requires Numbered(log)
    ensures var sent := UpToTerminal(Page(log, cursor));
            && Follows(log, cursor, sent) && Clean(sent)
            && (Complete(log, cursor, sent) <==> |log| <= cursor + EVENT_PAGE_SIZE || TerminalWithinPage(log, cursor))
            && NextCursor(cursor, sent) == cursor + |sent|
            && (!EndsTerminal(sent) ==> forall k | 0 <= k < |sent| :: !sent[k].kind.Terminal())
  {
    PageIsSlice(log, cursor);
    UpToTerminalIsCleanPrefix(Page(log, cursor));
    PageEndsTerminal(log, cursor);
    hide UpToTerminal, Page, Later, TerminalWithinPage;
  }

  lemma Joined(log: seq<Event>, cursor: nat, sent: seq<Event>, rest: seq<Event>, prefix: seq<Event>)
    requires prefix <= log && Follows(prefix, cursor, sent) && Follows(log, cursor + |sent|, rest)
    requires (forall k | 0 <= k < |sent| :: !sent[k].kind.Terminal()) && Clean(rest)
    ensures Follows(log, cursor, sent + rest) && Clean(sent + rest)
  {
    if cursor <= |prefix| {
      assert sent == log[cursor..cursor + |sent|];
      assert log[cursor..cursor + |sent|] + log[cursor + |sent|..cursor + |sent| + |rest|] == log[cursor..cursor + |sent| + |rest|];
    }
  }

  lemma LogIsNumbered(db: Db, r: Id)
    requires Inv(db)
    ensures Numbered(Log(db, r))
  {
    if r in db.events { assert RunOk(r, ViewOf(db, r)); }
  }

  lemma LogGrows(db: Db, steps: seq<Step>, r: Id)
    requires Inv(db)
    ensures Inv(After(db, steps)) && Log(db, r) <= Log(After(db, steps), r)
  {
    AfterKeepsInv(db, steps);
    AfterExtends(db, steps);
    if r in db.runs { assert RunKept(db, After(db, steps), r); }
  }

  /** What one observed replay guarantees about the log of its last poll. */
  ghost predicate Faithful(x: Stream, cursor: nat) {
    && Numbered(x.log) && x.cursor >= cursor
    && Follows(x.log, cursor, x.sent) && Clean(x.sent)
    && (EndsTerminal(x.sent) <==> x.ending == AfterTerminalEvent)
    && (x.ending == AfterTerminalEvent || x.ending == AfterTerminalStatus ==>
          (Complete(x.log, cursor, x.sent) <==> |x.log| <= x.cursor + EVENT_PAGE_SIZE || TerminalWithinPage(x.log, x.cursor)))
  }

  lemma FaithfulStep(prefix: seq<Event>, cursor: nat, sent: seq<Event>, x: Stream)
    requires prefix <= x.log && Follows(prefix, cursor, sent) && Faithful(x, cursor + |sent|)
    requires forall k | 0 <= k < |sent| :: !sent[k].kind.Terminal()
    ensures Faithful(x.(sent := sent + x.sent), cursor)
  {
    Joined(x.log, cursor, sent, x.sent, prefix);
    hide TerminalWithinPage;
    if x.sent == [] { assert sent + x.sent == sent; }
  }

  lemma StopsHere(log: seq<Event>, cursor: nat, ending: Ending)
    requires Numbered(log)
    requires ending == AfterTerminalEvent <==> EndsTerminal(UpToTerminal(Page(log, cursor)))
    requires ending != NoRun && ending != Open
    ensures Faithful(Stream(UpToTerminal(Page(log, cursor)), ending, log, cursor), cursor)
  {
    hide UpToTerminal, Page;
    OnePage(log, cursor);
  }

  lemma PollReads(db: Db, r: Id, poll: Poll)
    requires Inv(db)
    ensures var seen := After(db, poll.before); var later := After(seen, poll.between);
            && Inv(seen) && Inv(later) && Numbered(Log(seen, r)) && Numbered(Log(later, r))
            && Log(db, r) <= Log(seen, r) <= Log(later, r)
  {
    hide After, Inv, Log, Numbered;
    var seen := After(db, poll.before);
    LogGrows(db, poll.before, r);
    LogIsNumbered(seen, r);
    LogGrows(seen, poll.between, r);
    LogIsNumbered(After(seen, poll.between), r);
  }

  /**
   A replay sends committed events in sequence order from cursor + 1 on, without gaps, and nothing
   after a terminal event. When it closes it has sent everything up to the first terminal event,
   if and only if, at its last poll, the log ended within the page read or had a terminal event in it.
   */
  lemma {:induction false} ReplayIsFaithful(db: Db, r: Id, cursor: nat, polls: seq<Poll>)
    requires Inv(db)
    ensures Faithful(Replayed(db, r, cursor, polls), cursor)
    ensures Log(db, r) <= Replayed(db, r, cursor, polls).log
    decreases |polls|
  {
    hide After, Inv, Page, UpToTerminal, Log, Faithful, NextCursor, Numbered, Follows, Clean, Complete;
    if polls == [] {
      LogIsNumbered(db, r);
      NothingSent(Log(db, r), cursor, Open);
    } else {
      var seen := After(db, polls[0].before);
      var later := After(seen, polls[0].between);
      PollReads(db, r, polls[0]);
      if r !in seen.runs {
        NothingSent(Log(seen, r), cursor, NoRun);
      } else {
        var log := Log(later, r);
        var sent := UpToTerminal(Page(log, cursor));
        OnePage(log, cursor);
        if EndsTerminal(sent) {
          StopsHere(log, cursor, AfterTerminalEvent);
        } else if seen.runs[r].status.Terminal() {
          StopsHere(log, cursor, AfterTerminalStatus);
        } else {
          ReplayIsFaithful(later, r, cursor + |sent|, polls[1..]);
          FaithfulStep(log, cursor, sent, Replayed(later, r, cursor + |sent|, polls[1..]));
        }
      }
    }
  }

  lemma NothingSent(log: seq<Event>, cursor: nat, ending: Ending)
    requires Numbered(log) && (ending == Open || ending == NoRun)
    ensures Faithful(Stream([], ending, log, cursor), cursor)
  {
  }

  lemma ShortLogIsDelivered(db: Db, r: Id, cursor: nat, polls: seq<Poll>, k: nat)
    requires Inv(db)
    requires var x := Replayed(db, r, cursor, polls);
             && (x.ending == AfterTerminalEvent || x.ending == AfterTerminalStatus)
             && |x.log| <= cursor + EVENT_PAGE_SIZE
             && cursor <= k < |x.log| && x.log[k].kind.Terminal()
    ensures Replayed(db, r, cursor, polls).ending == AfterTerminalEvent
    ensures EndsTerminal(Replayed(db, r, cursor, polls).sent)
  {
    hide After, Inv, Replayed, TerminalWithinPage, Page;
    ReplayIsFaithful(db, r, cursor, polls);
    var x := Replayed(db, r, cursor, polls);
    assert Complete(x.log, cursor, x.sent);
    if cursor + |x.sent| >= |x.log| {
      assert x.sent == x.log[cursor..];
      assert x.sent[k - cursor] == x.log[k];
    }
  }

  /**
   A log that never holds more than a page beyond the client's cursor is replayed completely: a
   terminal event the client had not seen is the last thing it gets.
   */
  lemma ShortLogsAreDelivered(steps: seq<Step>, r: Id, cursor: nat, polls: seq<Poll>, k: nat)
    requires var x := Replayed(After(EMPTY, steps), r, cursor, polls);
             && (x.ending == AfterTerminalEvent || x.ending == AfterTerminalStatus)
             && |x.log| <= cursor + EVENT_PAGE_SIZE
             && cursor <= k < |x.log| && x.log[k].kind.Terminal()
    ensures Replayed(After(EMPTY, steps), r, cursor, polls).ending == AfterTerminalEvent
    ensures EndsTerminal(Replayed(After(EMPTY, steps), r, cursor, polls).sent)
  {
    EmptyInv();
    AfterKeepsInv(EMPTY, steps);
    hide After, Replayed;
    ShortLogIsDelivered(After(EMPTY, steps), r, cursor, polls, k);
  }

  // ----- poll by poll

  /**
   `n` is how many events a poll sends of the log it reads: those behind the cursor, at most a hundred, and
   none after the first terminal one.
   */
  ghost predicate Sends(log: seq<Event>, cursor: nat, n: nat) {
    && n <= 100 && (n > 0 ==> cursor + n <= |log|)
    && (forall k | cursor <= k < cursor + n - 1 :: !log[k].kind.Terminal())
    && (n < 100 && cursor + n < |log| ==> n > 0 && log[cursor + n - 1].kind.Terminal())
  }

  function Stretch(log: seq<Event>, cursor: nat, n: nat): seq<Event>
    requires n > 0 ==> cursor + n <= |log|
  {
    if n == 0 then [] else log[cursor..cursor + n]
  }

  lemma {:induction false} PageSends(log: seq<Event>, cursor: nat)
    requires Numbered(log)
    ensures var sent := UpToTerminal(Page(log, cursor)); Sends(log, cursor, |sent|) && sent == Stretch(log, cursor, |sent|)
  {
    var page := Page(log, cursor);
    PageIsSlice(log, cursor);
    UpToTerminalIsCleanPrefix(page);
    var sent := UpToTerminal(page);
    hide UpToTerminal, Page, Later;
    assert sent == page[..|sent|];
    forall k | cursor <= k < cursor + |sent| - 1 ensures !log[k].kind.Terminal() { assert sent[k - cursor] == log[k]; }
    if |sent| > 0 { assert sent[|sent| - 1] == log[cursor + |sent| - 1]; }
  }

  /** A poll that sends `n` events: then closed behind a terminal event, closed for a run seen ended, or polled on from there. */
  ghost predicate Polled(db: Db, r: Id, cursor: nat, polls: seq<Poll>, n: nat)
    requires polls != []
  {
    var x, seen := Replayed(db, r, cursor, polls), After(db, polls[0].before);
    var later := After(seen, polls[0].between);
    var log := Log(later, r);
    && r in seen.runs && Sends(log, cursor, n)
    && var sent := Stretch(log, cursor, n);
    if n > 0 && log[cursor + n - 1].kind.Terminal() then x.sent == sent && x.ending == AfterTerminalEvent
    else if seen.runs[r].status.Terminal() then x.sent == sent && x.ending == AfterTerminalStatus
    else
      var rest := Replayed(later, r, cursor + n, polls[1..]);
      x.sent == sent + rest.sent && x.ending == rest.ending
  }

  /**
   Every poll of a stored run sends the next events of the log it reads, a hundred at most and none behind a
   terminal one; then the stream closes behind the terminal event, or because the run was seen ended, or it
   goes on from there. It ends with nothing sent exactly when there is no such run.
   */
  lemma {:induction false} EveryPollSends(db: Db, r: Id, cursor: nat, polls: seq<Poll>)
    requires Inv(db) && polls != []
    ensures if r in After(db, polls[0].before).runs then exists n: nat :: Polled(db, r, cursor, polls, n)
            else Replayed(db, r, cursor, polls).sent == [] && Replayed(db, r, cursor, polls).ending == NoRun
  {
    var seen := After(db, polls[0].before);
    if r in seen.runs {
      var later := After(seen, polls[0].between);
      var sent := UpToTerminal(Page(Log(later, r), cursor));
      PollSendsPage(db, r, cursor, polls, sent);
      hide *;
      assert Polled(db, r, cursor, polls, |sent|);
    }
  }

  lemma {:induction false} PollSendsPage(db: Db, r: Id, cursor: nat, polls: seq<Poll>, sent: seq<Event>)
    requires Inv(db) && polls != [] && r in After(db, polls[0].before).runs
    requires sent == UpToTerminal(Page(Log(After(After(db, polls[0].before), polls[0].between), r), cursor))
    ensures Polled(db, r, cursor, polls, |sent|)
  {
    hide After, Inv, Page, UpToTerminal, Log, Numbered, Replayed, Sends;
    PollReads(db, r, polls[0]);
    var seen := After(db, polls[0].before);
    var log := Log(After(seen, polls[0].between), r);
    NextCursorIs(log, cursor);
    PageSends(log, cursor);
    PollIs(db, r, cursor, polls, sent);
    EndsAtLast(log, cursor, sent);
  }

  lemma {:induction false} NextCursorIs(log: seq<Event>, cursor: nat)
    requires Numbered(log)
    ensures NextCursor(cursor, UpToTerminal(Page(log, cursor))) == cursor + |UpToTerminal(Page(log, cursor))|
  {
    OnePage(log, cursor);
  }

  lemma {:induction false} EndsAtLast(log: seq<Event>, cursor: nat, sent: seq<Event>)
    requires Sends(log, cursor, |sent|) && sent == Stretch(log, cursor, |sent|)
    ensures EndsTerminal(sent) <==> |sent| > 0 && log[cursor + |sent| - 1].kind.Terminal()
  {
    if |sent| > 0 { assert sent[|sent| - 1] == log[cursor + |sent| - 1]; }
  }

  lemma {:induction false} PollIs(db: Db, r: Id, cursor: nat, polls: seq<Poll>, sent: seq<Event>)
    requires polls != [] && r in After(db, polls[0].before).runs
    requires sent == UpToTerminal(Page(Log(After(After(db, polls[0].before), polls[0].between), r), cursor))
    ensures var x, seen := Replayed(db, r, cursor, polls), After(db, polls[0].before);
            var later := After(seen, polls[0].between);
            var rest := Replayed(later, r, NextCursor(cursor, sent), polls[1..]);
            && x.sent == (if EndsTerminal(sent) || seen.runs[r].status.Terminal() then sent else sent + rest.sent)
            && x.ending == if EndsTerminal(sent) then AfterTerminalEvent
                           else if seen.runs[r].status.Terminal() then AfterTerminalStatus else rest.ending
  {
    hide After, Page, UpToTerminal, Log;
  }

  /** An observation of no poll has sent nothing. */
  lemma NoPollSendsNothing(db: Db, r: Id, cursor: nat)
    ensures Replayed(db, r, cursor, []).sent == [] && Replayed(db, r, cursor, []).ending == Open
  {
  }

  // ----- logs that fit a page

  /** All steps other parties take, poll by poll. */
  function PollSteps(polls: seq<Poll>): seq<Step> {
    if polls == [] then [] else polls[0].before + polls[0].between + PollSteps(polls[1..])
  }

  lemma AfterPoll(db: Db, poll: Poll, rest: seq<Step>)
    ensures After(db, poll.before + poll.between + rest) == After(After(After(db, poll.before), poll.between), rest)
  {
    hide After;
    AfterConcat(db, poll.before + poll.between, rest);
    AfterConcat(db, poll.before, poll.between);
  }

  /** The log a replay read last is a stage of the log that all steps lead to. */
  lemma {:induction false} ReplayedLogIsReached(db: Db, r: Id, cursor: nat, polls: seq<Poll>)
    requires Inv(db)
    ensures Replayed(db, r, cursor, polls).log <= Log(After(db, PollSteps(polls)), r)
    decreases |polls|
  {
    hide After, Inv, Page, UpToTerminal, Log, NextCursor;
    if polls == [] {
      assert PollSteps(polls) == [];
      assert After(db, []) == db by { AfterNothing(db); }
    } else {
      var seen := After(db, polls[0].before);
      var later := After(seen, polls[0].between);
      PollReads(db, r, polls[0]);
      AfterPoll(db, polls[0], PollSteps(polls[1..]));
      LogGrows(later, PollSteps(polls[1..]), r);
      var sent := UpToTerminal(Page(Log(later, r), cursor));
      ReplayedLogIsReached(later, r, NextCursor(cursor, sent), polls[1..]);
    }
  }

  lemma AfterNothing(db: Db)
    ensures After(db, []) == db
  {
  }

  lemma AfterKeepsRun(db: Db, steps: seq<Step>, r: Id)
    requires Inv(db) && r in db.runs
    ensures var next := After(db, steps);
            && Inv(next) && r in next.runs && RowKept(db.runs[r], next.runs[r])
  {
    AfterKeepsInv(db, steps);
    AfterExtends(db, steps);
    assert RunKept(db, After(db, steps), r);
  }

  lemma FinishedLogEndsTerminal(db: Db, r: Id)
    requires Inv(db) && r in db.runs && db.runs[r].kind == MainAgent && db.runs[r].status.Terminal()
    ensures var log := Log(db, r); log != [] && log[|log| - 1].kind.Terminal()
  {
    assert RunOk(r, ViewOf(db, r));
  }

  /** A main-agent run's log that was read after its status was seen terminal ends with its terminal event. */
  lemma {:induction false} ClosedLogIsFinished(db: Db, r: Id, cursor: nat, polls: seq<Poll>)
    requires Inv(db) && r in db.runs && db.runs[r].kind == MainAgent
    requires Replayed(db, r, cursor, polls).ending == AfterTerminalStatus
    ensures var log := Replayed(db, r, cursor, polls).log; log != [] && log[|log| - 1].kind.Terminal()
    decreases |polls|
  {
    hide After, Inv, Page, UpToTerminal, Log, NextCursor, EndsTerminal;
    var seen := After(db, polls[0].before);
    var later := After(seen, polls[0].between);
    AfterKeepsRun(db, polls[0].before, r);
    AfterKeepsRun(seen, polls[0].between, r);
    var sent := UpToTerminal(Page(Log(later, r), cursor));
    if seen.runs[r].status.Terminal() {
      FinishedLogEndsTerminal(later, r);
    } else {
      ClosedLogIsFinished(later, r, NextCursor(cursor, sent), polls[1..]);
    }
  }

  /**
   A main-agent run whose log never outgrows a page: a client that is not past its end gets the
   terminal event, whenever the stream closes.
   */
  lemma ShortMainAgentLogsEndTerminal(db: Db, r: Id, cursor: nat, polls: seq<Poll>)
    requires Inv(db) && r in db.runs && db.runs[r].kind == MainAgent
    requires |Log(After(db, PollSteps(polls)), r)| <= EVENT_PAGE_SIZE
    requires var x := Replayed(db, r, cursor, polls);
             (x.ending == AfterTerminalEvent || x.ending == AfterTerminalStatus) && cursor < |x.log|
    ensures var x := Replayed(db, r, cursor, polls);
            x.ending == AfterTerminalEvent && EndsTerminal(x.sent)
  {
    hide After, Replayed, Inv, Log, PollSteps, EndsTerminal;
    ReplayedLogIsReached(db, r, cursor, polls);
    var x := Replayed(db, r, cursor, polls);
    if x.ending == AfterTerminalStatus {
      ClosedLogIsFinished(db, r, cursor, polls);
      ShortLogIsDelivered(db, r, cursor, polls, |x.log| - 1);
    } else {
      ReplayIsFaithful(db, r, cursor, polls);
    }
  }

  // ----- the page limit bites

  function Appends(r: Id, n: nat): seq<Step> {
    if n == 0 then [] else [DoAppendAlways(r, RouteDecided)] + Appends(r, n - 1)
  }

  /** A claimed diagnosis run whose log has grown by executor rows only. */
  ghost predicate Busy(db: Db, length: nat) {
    && 5 in db.runs && 5 in db.events && db.runs[5].status == Running && db.runs[5].kind == Diagnosis
    && db.runs[5].session in db.sessions && Claimed(db, 5) && |db.events[5]| == length
    && forall k | 0 <= k < length :: !db.events[5][k].kind.Terminal()
  }

  lemma {:induction false} ManyAppends(db: Db, length: nat, n: nat)
    requires Busy(db, length)
    ensures Busy(After(db, Appends(5, n)), length + n)
    decreases n
  {
    if n > 0 {
      var next := Next(db, DoAppendAlways(5, RouteDecided));
      assert Busy(next, length + 1);
      assert Appends(5, n)[0] == DoAppendAlways(5, RouteDecided) && Appends(5, n)[1..] == Appends(5, n - 1);
      hide Busy, Next;
      ManyAppends(next, length + 1, n - 1);
    }
  }

  /** A busy run that was then cancelled. */
  ghost predicate CancelledAfter(db: Db, length: nat) {
    && 5 in db.runs && 5 in db.events && db.runs[5].status == Cancelled
    && |db.events[5]| == length + 1 && db.events[5][length].kind == RunCancelled
    && forall k | 0 <= k < length :: !db.events[5][k].kind.Terminal()
  }

  lemma CancelBusy(db: Db, length: nat)
    requires Busy(db, length)
    ensures CancelledAfter(Next(db, DoCancel(5)), length)
  {
  }

  lemma BusyStart()
    ensures Inv(ClaimedRun()) && Busy(ClaimedRun(), 2)
  {
    ClaimedRunInv();
    ClaimedRunIs();
    hide Inv;
    assert ClaimedRun().runs[5].session in ClaimedRun().sessions;
    hide ClaimedRun;
  }

  lemma OnePollIsCutShort(db: Db)
    requires Inv(db) && CancelledAfter(db, 102)
    ensures var x := Replayed(db, 5, 0, [Poll([], [])]);
            && x.ending == AfterTerminalStatus && |x.sent| == EVENT_PAGE_SIZE && !EndsTerminal(x.sent) && x.log == db.events[5]
  {
    hide Inv;
    var log := db.events[5];
    LogIsNumbered(db, 5);
    PageIsSlice(log, 0);
    hide Page;
    assert log[0..] == log;
    AllBeforeTerminal(Page(log, 0));
    hide UpToTerminal;
    assert After(After(db, []), []) == db;
  }

  /**
   A client that is more than a page behind when the run ends gets one page and no terminal event:
   100 events of a 103-event log, the last of them RUN_CANCELLED, and the stream is closed.
   */
  lemma LongLogIsCutShort()
    ensures var db := Next(After(ClaimedRun(), Appends(5, 100)), DoCancel(5));
            var x := Replayed(db, 5, 0, [Poll([], [])]);
            && x.ending == AfterTerminalStatus && |x.sent| == 100 && !EndsTerminal(x.sent)
            && |x.log| == 103 && x.log[102].kind == RunCancelled
  {
    BusyStart();
    hide ClaimedRun, Next, Inv, Busy, After;
    ManyAppends(ClaimedRun(), 2, 100);
    AfterKeepsInv(ClaimedRun(), Appends(5, 100));
    var busy := After(ClaimedRun(), Appends(5, 100));
    CancelBusy(busy, 102);
    NextKeepsInv(busy, DoCancel(5));
    OnePollIsCutShort(Next(busy, DoCancel(5)));
  }
}
