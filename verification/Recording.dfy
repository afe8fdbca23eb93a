/** The recorder over an append-only board: at most one note per step, job and run. */
module Recording {
  import opened Text
  import opened Note
  import opened NoteRoundTrip

  datatype Comment = Comment(body: string, createdAt: int)

  /** The comments of every ticket, in posting order. */
  type Tickets = map<string, seq<Comment>>

  function On(tickets: Tickets, ticket: string): seq<Comment> {
    if ticket in tickets then tickets[ticket] else []
  }

  datatype Key = Key(step: Step, jobID: string, runID: string)

  function NoteKey(n: Note): Key {
    Key(n.step, n.jobID, n.runID)
  }

  /** `strings.SplitN(body, "\n", 2)[0]`. */
  function FirstLine(body: string): string {
    body[..IndexOf(body, '\n')]
  }

  function CommentKey(c: Comment): Option<Key> {
    match ParseKey(FirstLine(c.body))
    case None => None
    case Some(n) => Some(NoteKey(n))
  }

  predicate HasKey(comments: seq<Comment>, key: Key) {
    exists c | c in comments :: CommentKey(c) == Some(key)
  }

  /** No two comments of a ticket record the same step of the same run. */
  ghost predicate OnePerKey(comments: seq<Comment>) {
    forall i, j | 0 <= i < j < |comments| :: CommentKey(comments[i]).Some? ==>
        CommentKey(comments[i]) != CommentKey(comments[j])
  }

  // ---------------------------------------------------------------- ids

  function Replace(s: string, c: char, put: char): string {
    if s == "" then "" else [if s[0] == c then put else s[0]] + Replace(s[1..], c, put)
  }

  /** `token`: white space and '=' become '_'. */
  function Token(s: string): string {
    Replace(Join(Fields(s), "_"), '=', '_')
  }

  lemma {:induction false} ReplaceFree(s: string, c: char, put: char)
    requires SpaceFree(s) && !IsSpace(put) && put != c
    ensures SpaceFree(Replace(s, c, put)) && c !in Replace(s, c, put) && |Replace(s, c, put)| == |s|
    decreases |s|
  {
    hide IsSpace;
    if s != "" {
      assert s[0] in s;
      ReplaceFree(s[1..], c, put);
    }
  }

  lemma {:induction false} JoinWords(ws: seq<string>)
    requires forall w | w in ws :: Word(w)
    ensures SpaceFree(Join(ws, "_")) && (Join(ws, "_") == "" <==> ws == [])
    decreases |ws|
  {
    if ws != [] {
      assert ws[0] in ws;
      JoinWords(ws[1..]);
    }
  }

  /** A token is empty exactly for a blank id; otherwise it is one word without '='. */
  lemma TokenIsWord(s: string)
    ensures Token(s) == "" <==> Fields(s) == []
    ensures SpaceFree(Token(s)) && '=' !in Token(s)
  {
    hide Fields, Join, Replace;
    JoinWords(Fields(s));
    ReplaceFree(Join(Fields(s), "_"), '=', '_');
  }

  // ---------------------------------------------------------------- what one call does

  /** The fields of a recorder that a call reads. */
  datatype Recorder = Recorder(hasBoard: bool, ticket: string, jobID: string, runID: string)

  datatype Call =
    | Run(runStep: Step, detail: string, err: Option<string>)
    | Skip(skipStep: Step, reason: string)
    | Record(step: Step, status: Status, known: string, failure: string)

  datatype Ledger = NoLedger | LedgerError(message: string) | Rows(summary: Summary)

  datatype Auditor = NoAuditor | Verdict(status: string, writes: int64, unmatched: int64, err: Option<string>)

  /** What the board, the ledger and the auditor answer during one call. */
  datatype World = World(lists: bool, takes: bool, now: int, ledger: Ledger, auditor: Auditor)

  datatype Refusal = UnknownStep | NoBoard | NoTicket | NoIds | BadStatus

  function StepOf(c: Call): Step {
    match c case Run(s, _, _) => s case Skip(s, _) => s case Record(s, _, _, _) => s
  }

  function StatusOf(c: Call): Status {
    match c
    case Run(_, _, err) => if err.Some? then FAILED else OK
    case Skip(_, _) => SKIPPED
    case Record(_, st, _, _) => st
  }

  function Check(r: Recorder, step: Step): Option<Refusal> {
    if !ValidStep(step) then Some(UnknownStep)
    else if !r.hasBoard then Some(NoBoard)
    else if TrimSpace(r.ticket) == "" then Some(NoTicket)
    else if Token(r.jobID) == "" || Token(r.runID) == "" then Some(NoIds)
    else None
  }

  function Refused(r: Recorder, c: Call): Option<Refusal> {
    var no := Check(r, StepOf(c));
    if no.Some? then no else if !ValidStatus(StatusOf(c)) then Some(BadStatus) else None
  }

  function CostOf(l: Ledger): (Summary, string) {
    match l
    case NoLedger => (NO_COST, "no ledger configured")
    case LedgerError(m) => (NO_COST, m)
    case Rows(s) => (s, "")
  }

  function AuditOf(a: Auditor): AuditLine {
    match a
    case NoAuditor => AuditLine("NOT_RUN", 0, 0, "no auditor configured")
    case Verdict(st, w, u, err) => AuditLine(st, w, u, if err.Some? then err.value else "")
  }

  function NoteOf(r: Recorder, c: Call, w: World): Note {
    var (cost, costErr) := CostOf(w.ledger);
    var audit := if Writes(StepOf(c)) && StatusOf(c) != SKIPPED then Some(AuditOf(w.auditor)) else None;
    var (failure, detail) :=
      match c
      case Run(_, d, e) => (if e.Some? then e.value else "", d)
      case Skip(_, why) => ("", why)
      case Record(_, _, d, f) => (f, d);
    Note(StepOf(c), Token(r.jobID), Token(r.runID), StatusOf(c), cost, costErr, audit, failure, detail)
  }

  function CallKey(r: Recorder, c: Call): Key {
    Key(StepOf(c), Token(r.jobID), Token(r.runID))
  }

  /** The call was accepted, found nothing recorded yet as far as it could see, and the board took the note. */
  predicate Posts(tickets: Tickets, r: Recorder, c: Call, w: World) {
    Refused(r, c).None? && w.takes && !(w.lists && HasKey(On(tickets, r.ticket), CallKey(r, c)))
  }

  function After(tickets: Tickets, r: Recorder, c: Call, w: World): Tickets {
    if Posts(tickets, r, c, w) then
      tickets[r.ticket := On(tickets, r.ticket) + [Comment(Body(NoteOf(r, c, w)), w.now)]]
    else tickets
  }

  // ---------------------------------------------------------------- the recorder's methods

  datatype Outcome = Outcome(ran: bool, posted: bool, refused: Option<Refusal>, boardRefused: bool)

  class Board {
    var tickets: Tickets

    constructor ()
      ensures tickets == map[]
    {
      tickets := map[];
    }

    method ListComments(ticket: string, lists: bool) returns (r: Option<seq<Comment>>)
      ensures r == if lists then Some(On(tickets, ticket)) else None
    {
      r := if lists then Some(On(tickets, ticket)) else None;
    }

    method PostComment(ticket: string, body: string, now: int, takes: bool) returns (ok: bool)
      modifies this
      ensures ok == takes
      ensures tickets == if ok then old(tickets)[ticket := On(old(tickets), ticket) + [Comment(body, now)]]
                         else old(tickets)
    {
      ok := takes;
      if ok {
        tickets := tickets[ticket := On(tickets, ticket) + [Comment(body, now)]];
      }
    }

    /** `alreadyRecorded`: a board that cannot list answers no. */
    method AlreadyRecorded(ticket: string, n: Note, lists: bool) returns (found: bool)
      ensures found == (lists && HasKey(On(tickets, ticket), NoteKey(n)))
    {
      var existing := ListComments(ticket, lists);
      if existing.None? {
        return false;
      }
      var i := 0;
      while i < |existing.value|
        invariant i <= |existing.value|
        invariant forall c | c in existing.value[..i] :: CommentKey(c) != Some(NoteKey(n))
      {
        var p := ParseKey(FirstLine(existing.value[i].body));
        if p.Some? && p.value.step == n.step && p.value.jobID == n.jobID && p.value.runID == n.runID {
          assert CommentKey(existing.value[i]) == Some(NoteKey(n));
          return true;
        }
        assert existing.value[..i + 1] == existing.value[..i] + [existing.value[i]];
        i := i + 1;
      }
      assert existing.value[..i] == existing.value;
      return false;
    }

    /** `post`, for a note that passed the checks. */
    method Post(r: Recorder, c: Call, w: World) returns (posted: bool, boardRefused: bool)
      requires Refused(r, c).None?
      modifies this
      ensures tickets == After(old(tickets), r, c, w) && posted == Posts(old(tickets), r, c, w)
      ensures boardRefused == (!w.takes && !(w.lists && HasKey(On(old(tickets), r.ticket), CallKey(r, c))))
    {
      hide Check, Body, HasKey, Token, AuditOf, CostOf;
      var n := NoteOf(r, c, w);
      posted, boardRefused := false, false;
      var found := AlreadyRecorded(r.ticket, n, w.lists);
      if found {
        return;
      }
      posted := PostComment(r.ticket, Body(n), w.now, w.takes);
      boardRefused := !posted;
    }

    /** `Run`, `Skip` and `Record`: a refused call does not run its step and changes nothing. */
    method Do(r: Recorder, c: Call, w: World) returns (o: Outcome)
      modifies this
      ensures tickets == After(old(tickets), r, c, w)
      ensures o.posted == Posts(old(tickets), r, c, w)
      ensures o.posted <==> tickets != old(tickets)
      ensures o.refused == Refused(r, c) && (o.refused.Some? ==> tickets == old(tickets))
      ensures o.ran == (c.Run? && o.refused.None?)
      ensures o.boardRefused ==> tickets == old(tickets) && !w.takes
    {
      hide Body, HasKey, Token, NoteOf, Refused, Check, ValidStep, ValidStatus;
      o := Outcome(false, false, Check(r, StepOf(c)), false);
      if o.refused.Some? {
        RefusedFirst(r, c);
        return;
      }
      if !ValidStatus(StatusOf(c)) {
        RefusedLast(r, c);
        return o.(refused := Some(BadStatus));
      }
      RefusedNot(r, c);
      var posted, boardRefused := Post(r, c, w);
      o := Outcome(c.Run?, posted, None, boardRefused);
      assert posted ==> |On(tickets, r.ticket)| > |On(old(tickets), r.ticket)|;
    }
  }

  lemma RefusedFirst(r: Recorder, c: Call)
    requires Check(r, StepOf(c)).Some?
    ensures Refused(r, c) == Check(r, StepOf(c))
  {
  }

  lemma RefusedLast(r: Recorder, c: Call)
    requires Check(r, StepOf(c)).None? && !ValidStatus(StatusOf(c))
    ensures Refused(r, c) == Some(BadStatus)
  {
  }

  lemma RefusedNot(r: Recorder, c: Call)
    requires Check(r, StepOf(c)).None? && ValidStatus(StatusOf(c))
    ensures Refused(r, c) == None
  {
  }

  // ---------------------------------------------------------------- the key that is written is the key that is read

  lemma {:induction false} TrimRightKeeps(s: string, c: char, k: nat)
    requires k < |s| && s[k] != c
    ensures k < |TrimRight(s, c)| && TrimRight(s, c) <= s
    decreases |s|
  {
    if s[|s| - 1] == c {
      TrimRightKeeps(s[..|s| - 1], c, k);
    }
  }

  lemma BodyStart(n: Note)
    requires Without(KeyLine(n), '\n')
    ensures FirstLine(Body(n)) == KeyLine(n)
  {
    hide KeyLine, CostLine, OneLine, AuditText, TrimRight, Without;
    CostLineStart(n);
    var more := BodyMore(n);
    var k, rest := KeyLine(n), CostLine(n) + "\n" + more;
    assert k + "\n" + CostLine(n) + "\n" + more == k + "\n" + rest;
    TrimmedStart(k, rest);
  }

  lemma BodyMore(n: Note) returns (more: string)
    ensures Body(n) == TrimRight(KeyLine(n) + "\n" + CostLine(n) + "\n" + more, '\n')
  {
    hide KeyLine, CostLine, OneLine, AuditText, TrimRight;
    var b0 := KeyLine(n) + "\n" + CostLine(n) + "\n";
    var b1 := if n.audit.Some? then b0 + AuditText(n.audit.value) + "\n" else b0;
    var b2 := if n.failure != "" then b1 + "failure: " + OneLine(n.failure) + "\n" else b1;
    var b3 := if n.detail != "" then b2 + "detail: " + OneLine(n.detail) + "\n" else b2;
    assert b0 <= b1 <= b2 <= b3;
    more := b3[|b0|..];
    assert b3 == b0 + more;
  }

  lemma TrimmedStart(k: string, rest: string)
    requires Without(k, '\n') && rest != "" && rest[0] != '\n'
    ensures FirstLine(TrimRight(k + "\n" + rest, '\n')) == k
  {
    hide TrimRight;
    var s := k + "\n" + rest;
    TrimRightKeeps(s, '\n', |k| + 1);
    var body := TrimRight(s, '\n');
    assert body == k + ['\n'] + body[|k| + 1..];
    IndexOfFirst(k, '\n', body[|k| + 1..]);
  }

  lemma CostLineStart(n: Note)
    ensures CostLine(n) != "" && CostLine(n)[0] == 'c'
  {
    hide Itoa, Models, OneLine;
    PairsPrefix(CostPairs(n.cost));
  }

  /** `parseKey` recovers the key that `Body` wrote, whatever cost, audit and text follow. */
  lemma BodyKey(n: Note, now: int)
    requires ValidStep(n.step) && ValidStatus(n.status) && Word(n.jobID) && Word(n.runID)
    ensures CommentKey(Comment(Body(n), now)) == Some(NoteKey(n))
  {
    hide ParseKey, Body, ValidStep, ValidStatus, Word, KeyLine, FirstLine;
    KeyRoundTrip(n);
    BodyStart(n);
  }

  lemma CallWritesItsKey(r: Recorder, c: Call, w: World)
    requires Refused(r, c).None?
    ensures CommentKey(Comment(Body(NoteOf(r, c, w)), w.now)) == Some(CallKey(r, c))
  {
    hide Body, Token, ValidStep, ValidStatus, CommentKey, AuditOf, CostOf;
    TokenIsWord(r.jobID);
    TokenIsWord(r.runID);
    BodyKey(NoteOf(r, c, w), w.now);
  }

  // ---------------------------------------------------------------- runs

  datatype Event = Event(recorder: Recorder, call: Call, world: World)

  function Noted(e: Event): Note {
    NoteOf(e.recorder, e.call, e.world)
  }

  function KeyOf(e: Event): Key {
    CallKey(e.recorder, e.call)
  }

  function CommentOf(e: Event): Comment {
    Comment(Body(Noted(e)), e.world.now)
  }

  function AfterAll(tickets: Tickets, events: seq<Event>): Tickets
    decreases |events|
  {
    if events == [] then tickets
    else AfterAll(After(tickets, events[0].recorder, events[0].call, events[0].world), events[1..])
  }

  ghost predicate BoardUnique(tickets: Tickets) {
    forall t :: OnePerKey(On(tickets, t))
  }

  /** Whether the call repeats a note because the board could not list. */
  predicate Blind(tickets: Tickets, e: Event) {
    && Refused(e.recorder, e.call).None? && e.world.takes && !e.world.lists
    && HasKey(On(tickets, e.recorder.ticket), CallKey(e.recorder, e.call))
  }

  lemma AppendUnique(comments: seq<Comment>, c: Comment)
    requires OnePerKey(comments) && CommentKey(c).Some?
    ensures OnePerKey(comments + [c]) <==> !HasKey(comments, CommentKey(c).value)
  {
    hide CommentKey;
    var all := comments + [c];
    if HasKey(comments, CommentKey(c).value) {
      var d :| d in comments && CommentKey(d) == Some(CommentKey(c).value);
      var i :| 0 <= i < |comments| && comments[i] == d;
      assert all[i] == d && all[|comments|] == c;
    } else {
      forall i, j | 0 <= i < j < |all|
        ensures CommentKey(all[i]).Some? ==> CommentKey(all[i]) != CommentKey(all[j])
      {
        if j < |comments| {
          assert all[i] == comments[i] && all[j] == comments[j];
        } else {
          assert all[i] == comments[i] && comments[i] in comments;
        }
      }
    }
  }

  /** One call keeps the board free of duplicates, unless it posted without being able to look. */
  lemma CallKeepsUnique(tickets: Tickets, e: Event)
    requires BoardUnique(tickets)
    ensures BoardUnique(After(tickets, e.recorder, e.call, e.world)) <==> !Blind(tickets, e)
  {
    hide HasKey, OnePerKey, CommentKey, Refused, Body, NoteOf, CallKey;
    var r, c, w := e.recorder, e.call, e.world;
    var next := After(tickets, r, c, w);
    if Posts(tickets, r, c, w) {
      var note := Comment(Body(NoteOf(r, c, w)), w.now);
      CallWritesItsKey(r, c, w);
      AppendUnique(On(tickets, r.ticket), note);
      assert On(next, r.ticket) == On(tickets, r.ticket) + [note];
      assert forall t | t != r.ticket :: On(next, t) == On(tickets, t);
    }
  }

  /** While the board can list, any calls by any recorders leave at most one note per step, job and run. */
  lemma {:induction false} OneNotePerKey(tickets: Tickets, events: seq<Event>)
    requires BoardUnique(tickets) && forall e | e in events :: e.world.lists
    ensures BoardUnique(AfterAll(tickets, events))
    decreases |events|
  {
    hide After, BoardUnique;
    if events != [] {
      assert events[0] in events;
      CallKeepsUnique(tickets, events[0]);
      OneNotePerKey(After(tickets, events[0].recorder, events[0].call, events[0].world), events[1..]);
    }
  }

  /** Nothing on the board is ever altered, and what was recorded stays recorded. */
  lemma {:induction false} BoardOnlyGrows(tickets: Tickets, events: seq<Event>, ticket: string)
    ensures On(tickets, ticket) <= On(AfterAll(tickets, events), ticket)
    decreases |events|
  {
    hide Posts, NoteOf, Body;
    if events != [] {
      BoardOnlyGrows(After(tickets, events[0].recorder, events[0].call, events[0].world), events[1..], ticket);
    }
  }

  /** An accepted call that the board did not turn away has its step recorded afterwards. */
  lemma AcceptedIsRecorded(tickets: Tickets, e: Event)
    requires Refused(e.recorder, e.call).None? && e.world.takes
    ensures HasKey(On(After(tickets, e.recorder, e.call, e.world), e.recorder.ticket), CallKey(e.recorder, e.call))
  {
    hide CommentKey, Refused, Body, NoteOf, CallKey;
    var r, c, w := e.recorder, e.call, e.world;
    if Posts(tickets, r, c, w) {
      var note := Comment(Body(NoteOf(r, c, w)), w.now);
      CallWritesItsKey(r, c, w);
      var there := On(After(tickets, r, c, w), r.ticket);
      assert there[|there| - 1] == note;
    }
  }

  /** A run repeated later, after anything else has happened, posts nothing while the board can list. */
  lemma RepeatPostsNothing(tickets: Tickets, first: Event, between: seq<Event>, again: Event)
    requires Refused(first.recorder, first.call).None? && first.world.takes && again.world.lists
    requires again.recorder.ticket == first.recorder.ticket
    requires CallKey(again.recorder, again.call) == CallKey(first.recorder, first.call)
    ensures var before := AfterAll(tickets, [first] + between);
            !Posts(before, again.recorder, again.call, again.world) &&
            After(before, again.recorder, again.call, again.world) == before
  {
    hide CommentKey, Refused, Body, NoteOf, CallKey, After;
    var ticket := first.recorder.ticket;
    var once := After(tickets, first.recorder, first.call, first.world);
    AcceptedIsRecorded(tickets, first);
    assert ([first] + between)[1..] == between;
    BoardOnlyGrows(once, between, ticket);
    var before := AfterAll(tickets, [first] + between);
    assert AfterAll(once, between) == before;
    var c :| c in On(once, ticket) && CommentKey(c) == Some(CallKey(first.recorder, first.call));
    assert c in On(before, ticket);
    NotPosted(before, again);
  }

  lemma NotPosted(tickets: Tickets, e: Event)
    requires e.world.lists && HasKey(On(tickets, e.recorder.ticket), CallKey(e.recorder, e.call))
    ensures !Posts(tickets, e.recorder, e.call, e.world) && After(tickets, e.recorder, e.call, e.world) == tickets
  {
  }

  /** A board that cannot list does take a second note of the same step and run. */
  lemma BlindBoardRepeats()
    ensures exists first: Event, again: Event ::
              BoardUnique(AfterAll(map[], [first])) && !BoardUnique(AfterAll(map[], [first, again]))
  {
    hide HasKey, OnePerKey, CommentKey, Body, NoteOf, CallKey, Refused, BoardUnique, Posts;
    var r := Recorder(true, "T", "j", "r");
    var c := Skip("price", "");
    var e := Event(r, c, World(false, true, 0, NoLedger, NoAuditor));
    PlainRecorder(r, c);
    EmptyBoard();
    var once := After(map[], r, c, e.world);
    assert AfterAll(map[], [e]) == once by {
      assert [e][1..] == [];
      NothingDone(once);
    }
    assert AfterAll(map[], [e, e]) == After(once, r, c, e.world) by {
      assert [e, e][1..] == [e] && [e][1..] == [];
      NothingDone(After(once, r, c, e.world));
    }
    CallKeepsUnique(map[], e);
    CallKeepsUnique(once, e);
    AcceptedIsRecorded(map[], e);
  }

  lemma NothingDone(tickets: Tickets)
    ensures AfterAll(tickets, []) == tickets
  {
  }

  lemma EmptyBoard()
    ensures BoardUnique(map[]) && forall e :: !Blind(map[], e)
  {
  }

  lemma PlainRecorder(r: Recorder, c: Call)
    requires r == Recorder(true, "T", "j", "r") && c == Skip("price", "")
    ensures Refused(r, c).None?
  {
    TokenIsWord("j");
    TokenIsWord("r");
    FieldsOfWord("j", "");
    FieldsOfWord("r", "");
    assert "j" + "" == "j" && "r" + "" == "r";
  }
}
