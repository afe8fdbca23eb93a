/** The weekly report over what the recorder wrote: each run's row shows its recorded statuses and costs. */
module RecordedReport {
  import opened Text
  import opened Note
  import opened NoteRoundTrip
  import opened Recording
  import opened RecordedNote
  import opened Report

  // ---------------------------------------------------------------- what the calls put on a ticket

  function Comments(es: seq<Event>): (cs: seq<Comment>)
    ensures |cs| == |es| && forall i | 0 <= i < |es| :: cs[i] == CommentOf(es[i])
  {
    seq(|es|, i requires 0 <= i < |es| => CommentOf(es[i]))
  }

  /** The calls that put a note on the ticket, in order. */
  function PostedOn(tickets: Tickets, events: seq<Event>, ticket: string): seq<Event>
    decreases |events|
  {
    if events == [] then []
    else
      var e := events[0];
      var rest := PostedOn(After(tickets, e.recorder, e.call, e.world), events[1..], ticket);
      if e.recorder.ticket == ticket && Posts(tickets, e.recorder, e.call, e.world) then [e] + rest else rest
  }

  lemma {:induction false} BoardHoldsPosted(tickets: Tickets, events: seq<Event>, ticket: string)
    ensures On(AfterAll(tickets, events), ticket) == On(tickets, ticket) + Comments(PostedOn(tickets, events, ticket))
    ensures forall e | e in PostedOn(tickets, events, ticket) ::
              e in events && Refused(e.recorder, e.call).None? && e.world.takes
    decreases |events|
  {
    hide Refused, Body, NoteOf, HasKey;
    if events != [] {
      var e := events[0];
      var next := After(tickets, e.recorder, e.call, e.world);
      BoardHoldsPosted(next, events[1..], ticket);
      var rest := PostedOn(next, events[1..], ticket);
      if e.recorder.ticket == ticket && Posts(tickets, e.recorder, e.call, e.world) {
        assert Comments([e] + rest) == [CommentOf(e)] + Comments(rest);
        assert On(next, ticket) == On(tickets, ticket) + [CommentOf(e)];
      } else {
        assert On(next, ticket) == On(tickets, ticket);
      }
    }
  }

  // ---------------------------------------------------------------- what the report reads of it

  predicate Within(e: Event, now: int, window: int) {
    now - window <= e.world.now <= now
  }

  function DatedOf(e: Event): Dated {
    Dated(Reread(Noted(e)), e.world.now)
  }

  /** The notes of the calls inside the window. */
  function Read(es: seq<Event>, now: int, window: int): seq<Dated>
    decreases |es|
  {
    if es == [] then []
    else
      var most, e := es[..|es| - 1], es[|es| - 1];
      Read(most, now, window) + if Within(e, now, window) then [DatedOf(e)] else []
  }

  predicate Sound(es: seq<Event>) {
    forall e | e in es :: Refused(e.recorder, e.call).None? && e.world.takes && Answers(e.world)
  }

  lemma {:induction false} CountedIsRead(es: seq<Event>, now: int, window: int)
    requires Sound(es)
    ensures Counted(Comments(es), now, window) == Read(es, now, window)
    decreases |es|
  {
    hide Refused, Answers, Body, NoteOf, Parse, Reread;
    if es != [] {
      var most, e := es[..|es| - 1], es[|es| - 1];
      CountedIsRead(most, now, window);
      assert Comments(es)[..|es| - 1] == Comments(most);
      assert e in es;
      AcceptedIsPrintable(e);
      BodyRead(Noted(e));
    }
  }

  ghost predicate DistinctKeys(es: seq<Event>) {
    forall i, j | 0 <= i < j < |es| :: KeyOf(es[i]) != KeyOf(es[j])
  }

  lemma PostedAreDistinct(es: seq<Event>)
    requires Sound(es) && OnePerKey(Comments(es))
    ensures DistinctKeys(es)
  {
    hide CommentKey, Refused, Answers, Body, NoteOf, CallKey;
    forall i, j | 0 <= i < j < |es|
      ensures KeyOf(es[i]) != KeyOf(es[j])
    {
      assert es[i] in es && es[j] in es;
      CallWritesItsKey(es[i].recorder, es[i].call, es[i].world);
      CallWritesItsKey(es[j].recorder, es[j].call, es[j].world);
      assert CommentKey(Comments(es)[i]) != CommentKey(Comments(es)[j]);
    }
  }

  /** The call recorded this step of this run inside the window. */
  predicate Records(e: Event, now: int, window: int, k: JobRun, s: Step) {
    Within(e, now, window) && KeyOf(e) == Key(s, k.jobID, k.runID)
  }

  /** What the window's calls for the run have cost. */
  function Spent(es: seq<Event>, now: int, window: int, k: JobRun): int
    decreases |es|
  {
    if es == [] then 0
    else
      var most, e := es[..|es| - 1], es[|es| - 1];
      Spent(most, now, window, k) +
      if Within(e, now, window) && JobRun(KeyOf(e).jobID, KeyOf(e).runID) == k then Noted(e).cost.costCents else 0
  }

  lemma RereadKeepsKey(e: Event)
    requires Refused(e.recorder, e.call).None? && Answers(e.world)
    ensures NoteKey(DatedOf(e).note) == KeyOf(e) && ValidStep(DatedOf(e).note.step)
    ensures DatedOf(e).note.status == StatusOf(e.call) && DatedOf(e).note.cost.costCents == Noted(e).cost.costCents
  {
    hide Token, Body, FieldMap, PairsText, CostPairs, ParseAudit, AuditText, OneLine, ModelNames, SpaceFree;
    hide ParseCost, AuditOf;
    if e.world.ledger.Rows? {
      CostRoundTrip(Noted(e).cost);
    } else {
      NoCostRead();
    }
  }

  lemma NoCostRead()
    ensures ParseCost(FieldMap(PairsText(CostPairs(NO_COST)))) == NO_COST
  {
    assert ModelNames([]);
    CostRoundTrip(NO_COST);
  }

  ghost predicate RecordedBy(es: seq<Event>, now: int, window: int, k: JobRun, s: Step, n: Note) {
    exists e | e in es :: Records(e, now, window, k, s) && n == DatedOf(e).note
  }

  /** The notes are exactly those of the calls that recorded a step of the run inside the window. */
  ghost predicate AllRecorded(es: seq<Event>, now: int, window: int, k: JobRun, notes: map<Step, Note>) {
    && (forall s | s in notes :: RecordedBy(es, now, window, k, s, notes[s]))
    && (forall e | e in es && Records(e, now, window, k, KeyOf(e).step) :: KeyOf(e).step in notes)
  }

  lemma RecordedMore(most: seq<Event>, e: Event, now: int, window: int, k: JobRun, notes: map<Step, Note>)
    requires AllRecorded(most, now, window, k, notes)
    ensures var s := KeyOf(e).step;
            if Records(e, now, window, k, s) then AllRecorded(most + [e], now, window, k, notes[s := DatedOf(e).note])
            else AllRecorded(most + [e], now, window, k, notes)
  {
    hide DatedOf, KeyOf;
    var es, s := most + [e], KeyOf(e).step;
    var next := if Records(e, now, window, k, s) then notes[s := DatedOf(e).note] else notes;
    forall x | x in next
      ensures RecordedBy(es, now, window, k, x, next[x])
    {
      if Records(e, now, window, k, s) && x == s {
        assert es[|most|] == e && e in es;
      } else {
        var f :| f in most && Records(f, now, window, k, x) && notes[x] == DatedOf(f).note;
        assert f in es;
      }
    }
  }

  /** The first notes of a run are what its calls recorded, and cost what they cost. */
  lemma {:induction false} FirstNotesAreRecorded(es: seq<Event>, now: int, window: int, k: JobRun)
    requires Sound(es) && DistinctKeys(es)
    ensures var notes := FirstNotes(Read(es, now, window), k);
            AllRecorded(es, now, window, k, notes) && Cost(notes, STEPS) == Spent(es, now, window, k)
    decreases |es|
  {
    hide FirstNotes, Cost, DatedOf, KeyOf, Noted, Answers, Refused, ValidStep, AllRecorded;
    if es == [] {
      FreshRun([], k);
      NothingRecorded(now, window, k);
    } else {
      var most, e := es[..|es| - 1], es[|es| - 1];
      assert es == most + [e] && e in es;
      FirstNotesAreRecorded(most, now, window, k);
      RereadKeepsKey(e);
      var ds, d := Read(most, now, window), DatedOf(e);
      RecordedMore(most, e, now, window, k, FirstNotes(ds, k));
      if Within(e, now, window) {
        assert Read(es, now, window) == ds + [d];
        FirstNotesMore(ds, d, k);
        if Records(e, now, window, k, KeyOf(e).step) {
          NotYetRecorded(most, e, now, window, k, FirstNotes(ds, k));
          CostOfMore(ds, d, k);
        }
      } else {
        assert Read(es, now, window) == ds + [] == ds;
      }
    }
  }

  lemma NothingRecorded(now: int, window: int, k: JobRun)
    ensures AllRecorded([], now, window, k, map[])
  {
  }

  lemma NotYetRecorded(most: seq<Event>, e: Event, now: int, window: int, k: JobRun, notes: map<Step, Note>)
    requires AllRecorded(most, now, window, k, notes) && DistinctKeys(most + [e])
    requires Records(e, now, window, k, KeyOf(e).step)
    ensures KeyOf(e).step !in notes
  {
    hide DatedOf, KeyOf;
    forall f | f in most
      ensures KeyOf(f) != KeyOf(e)
    {
      var i :| 0 <= i < |most| && most[i] == f;
      assert (most + [e])[i] == f && (most + [e])[|most|] == e;
    }
  }

  lemma CostOfMore(ds: seq<Dated>, d: Dated, k: JobRun)
    requires ValidStep(d.note.step) && d.note.step !in FirstNotes(ds, k)
    ensures Cost(FirstNotes(ds, k)[d.note.step := d.note], STEPS) ==
            Cost(FirstNotes(ds, k), STEPS) + d.note.cost.costCents
  {
    hide FirstNotes, Cost, ValidStep;
    StepListed(d.note.step);
    StepsAreDistinct();
    CostMore(FirstNotes(ds, k), d.note.step, d.note, STEPS);
  }

  // ---------------------------------------------------------------- the report

  /** The calls that recorded something on the ticket while the board could list. */
  lemma PostedIsSound(events: seq<Event>, ticket: string, now: int, window: int)
    requires forall e | e in events :: e.world.lists && Answers(e.world)
    ensures var es := PostedOn(map[], events, ticket);
            Sound(es) && DistinctKeys(es) &&
            Counted(On(AfterAll(map[], events), ticket), now, window) == Read(es, now, window)
  {
    hide Refused, Answers, Counted, Read, Comments, OnePerKey, AfterAll, PostedOn, DistinctKeys;
    var es := PostedOn(map[], events, ticket);
    BoardHoldsPosted(map[], events, ticket);
    EmptyBoard();
    OneNotePerKey(map[], events);
    assert On(AfterAll(map[], events), ticket) == Comments(es);
    PostedAreDistinct(es);
    CountedIsRead(es, now, window);
  }

  /** What the row says of a step is what the call said and what the auditor answered: its status, whether it
      failed, and whether it wrote without a clean verdict. */
  predicate Tells(j: JobKPI, s: Step, e: Event) {
    var status := match e.call
                  case Run(_, _, None) => "ok"
                  case Run(_, _, Some(_)) => "failed"
                  case Skip(_, _) => "skipped"
                  case Record(_, given, _, _) => given;
    var clean := match e.world.auditor
                 case NoAuditor => false
                 case Verdict(verdict, _, _, None) => verdict == "OK"
                 case Verdict(verdict, _, _, Some(error)) => Overridden(LooseWords(error), "audit", verdict) == "OK";
    && s in j.steps && j.steps[s] == status
    && (s in j.failed <==> status == "failed")
    && (s in j.auditGaps <==> s in {"publish", "rollback"} && status != "skipped" && !clean)
  }

  /** The row tells every step that a call recorded for its run inside the window, no other step, and what these
      calls have cost. */
  ghost predicate Shows(es: seq<Event>, now: int, window: int, j: JobKPI) {
    var k := JobRun(j.jobID, j.runID);
    && (forall e, s | e in es && Records(e, now, window, k, s) :: Tells(j, s, e))
    && (forall s | s in j.steps :: exists e | e in es :: Records(e, now, window, k, s))
    && j.costCents == Wrap(Spent(es, now, window, k))
  }

  lemma RowShows(es: seq<Event>, now: int, window: int, k: JobRun)
    requires Sound(es) && DistinctKeys(es)
    ensures Shows(es, now, window, Row(Read(es, now, window), k))
  {
    hide FirstNotes, Cost, Read, Spent, DatedOf, KeyOf, Noted, Answers, Refused, Wrap, Failed, Gaps, Latest, Tells;
    FirstNotesAreRecorded(es, now, window, k);
    var notes := FirstNotes(Read(es, now, window), k);
    StatusKeys(notes);
    forall e, s | e in es && Records(e, now, window, k, s)
      ensures Tells(Row(Read(es, now, window), k), s, e)
    {
      assert KeyOf(e).step == s;
      var f :| f in es && Records(f, now, window, k, s) && notes[s] == DatedOf(f).note;
      OneCallPerKey(es, e, f);
      RowTells(Row(Read(es, now, window), k), notes, s, e);
    }
  }

  lemma RowTells(j: JobKPI, notes: map<Step, Note>, s: Step, e: Event)
    requires j == RowOf(JobRun(j.jobID, j.runID), notes, j.last) && s in notes && notes[s] == DatedOf(e).note
    requires Refused(e.recorder, e.call).None? && e.world.takes && Answers(e.world) && KeyOf(e).step == s
    ensures Tells(j, s, e)
  {
    hide Refused, Answers, Noted, Reread, KeyOf, Failed, Gaps, Cost, Those, Overridden, LooseWords, Leaves, AuditIntact;
    RereadKeepsKey(e);
    LeavesOnEmptyBoard(e);
    LeftStatus(map[], e, notes[s]);
    LeftAudit(map[], e, notes[s]);
    JudgedSteps(notes, STEPS);
    ThoseMembers(STEPS, x => SaysFailed(notes, x));
    ThoseMembers(STEPS, x => SaysNotClean(notes, x));
    StepListed(s);
  }

  lemma OneCallPerKey(es: seq<Event>, e: Event, f: Event)
    requires DistinctKeys(es) && e in es && f in es && KeyOf(e) == KeyOf(f)
    ensures e == f
  {
    hide KeyOf;
    var i :| 0 <= i < |es| && es[i] == e;
    var j :| 0 <= j < |es| && es[j] == f;
    assert i == j;
  }

  ghost predicate InReport(out: seq<JobKPI>, k: JobRun) {
    exists j | j in out :: JobRun(j.jobID, j.runID) == k
  }

  ghost predicate InRecord(es: seq<Event>, now: int, window: int, k: JobRun) {
    exists e | e in es :: Records(e, now, window, k, KeyOf(e).step)
  }

  /** A run has a note in the window exactly when a call recorded a step of it there. */
  lemma {:induction false} MentionsRecorded(es: seq<Event>, now: int, window: int, k: JobRun)
    requires Sound(es)
    ensures Mentions(Read(es, now, window), k) <==> InRecord(es, now, window, k)
    decreases |es|
  {
    hide DatedOf, KeyOf, Noted, Answers, Refused;
    if es != [] {
      var most, e := es[..|es| - 1], es[|es| - 1];
      assert es == most + [e] && e in es;
      MentionsRecorded(most, now, window, k);
      RereadKeepsKey(e);
      var ds, all := Read(most, now, window), Read(es, now, window);
      if Within(e, now, window) {
        assert all == ds + [DatedOf(e)];
        assert DatedOf(e) in all;
        assert forall d :: d in all <==> d in ds || d == DatedOf(e);
      } else {
        assert all == ds + [] == ds;
      }
    }
  }

  /** The report over any calls on a board that can list: one row for each run with a call recorded inside the
      window, showing exactly what was recorded. */
  lemma ReportShowsRecords(events: seq<Event>, ticket: string, now: int, window: int, out: seq<JobKPI>)
    requires forall e | e in events :: e.world.lists && Answers(e.world)
    requires var ds := Counted(On(AfterAll(map[], events), ticket), now, window);
             Ranked(Report.Rows(ds, Runs(ds)), out)
    ensures var es := PostedOn(map[], events, ticket);
            && (forall j | j in out :: Shows(es, now, window, j))
            && (forall k :: InReport(out, k) <==> InRecord(es, now, window, k))
            && NewestFirst(out)
  {
    hide Shows, Read, Counted, PostedOn, AfterAll, Sound, DistinctKeys, Row, Runs, Report.Rows;
    hide Mentions, Answers, AtLast;
    PostedIsSound(events, ticket, now, window);
    var es := PostedOn(map[], events, ticket);
    var ds := Read(es, now, window);
    OneRowPerRun(ds, out);
    forall j | j in out
      ensures Shows(es, now, window, j)
    {
      RowShows(es, now, window, JobRun(j.jobID, j.runID));
    }
    forall k
      ensures InReport(out, k) <==> InRecord(es, now, window, k)
    {
      MentionsRecorded(es, now, window, k);
    }
  }
}
