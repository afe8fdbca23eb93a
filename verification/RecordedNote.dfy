/** What a call leaves on the board, read back: the laws of the recorder in the words of the note itself. */
module RecordedNote {
  import opened Text
  import opened Note
  import opened NoteRoundTrip
  import opened Recording

  /** The ledger names models, and the auditor's verdict is one word. */
  predicate Answers(w: World) {
    && (w.ledger.Rows? ==> ModelNames(w.ledger.summary.models))
    && (w.auditor.Verdict? ==> SpaceFree(w.auditor.status))
  }

  lemma AcceptedIsPrintable(e: Event)
    requires Refused(e.recorder, e.call).None? && Answers(e.world)
    ensures Printable(Noted(e))
  {
    hide Token, Body;
    TokenIsWord(e.recorder.jobID);
    TokenIsWord(e.recorder.runID);
    NotRunIsWord();
  }

  lemma NotRunIsWord()
    ensures SpaceFree("NOT_RUN")
  {
  }

  // ---------------------------------------------------------------- what the comment says

  /** The call posts, and `n` is the note that a reader finds in the comment it added. */
  ghost predicate Leaves(tickets: Tickets, e: Event, n: Note) {
    var before := On(tickets, e.recorder.ticket);
    var after := On(After(tickets, e.recorder, e.call, e.world), e.recorder.ticket);
    && Posts(tickets, e.recorder, e.call, e.world) && Answers(e.world)
    && |after| == |before| + 1 && before <= after
    && Parse(after[|before|].body) == Some(n)
  }

  lemma LeftNote(tickets: Tickets, e: Event, n: Note)
    requires Leaves(tickets, e, n)
    ensures n == Reread(Noted(e)) && Refused(e.recorder, e.call).None?
  {
    hide Body, Parse, NoteOf, Reread, HasKey, Answers;
    AcceptedIsPrintable(e);
    BodyRead(Noted(e));
  }

  /** Every posting call leaves one note, stamped with the board's time. */
  lemma PostsLeaveNote(tickets: Tickets, e: Event)
    requires Posts(tickets, e.recorder, e.call, e.world) && Answers(e.world)
    ensures exists n :: Leaves(tickets, e, n)
    ensures var after := On(After(tickets, e.recorder, e.call, e.world), e.recorder.ticket);
            after != [] && after[|after| - 1].createdAt == e.world.now
  {
    hide Body, Parse, NoteOf, Reread, HasKey, Answers;
    AcceptedIsPrintable(e);
    BodyRead(Noted(e));
    assert Leaves(tickets, e, Reread(Noted(e)));
  }

  /** What an accepted call leaves does not depend on what else is on the board. */
  lemma LeavesOnEmptyBoard(e: Event)
    requires Refused(e.recorder, e.call).None? && e.world.takes && Answers(e.world)
    ensures Leaves(map[], e, Reread(Noted(e)))
  {
    hide Body, Parse, NoteOf, Reread, Refused, Answers;
    AcceptedIsPrintable(e);
    BodyRead(Noted(e));
  }

  /** Step, status, error and detail of a Run, a Skip and a Record. */
  lemma LeftStatus(tickets: Tickets, e: Event, n: Note)
    requires Leaves(tickets, e, n)
    ensures n.jobID == Token(e.recorder.jobID) && n.runID == Token(e.recorder.runID)
    ensures match e.call
            case Run(step, detail, None) =>
              n.step == step && n.status == "ok" && n.failure == "" && n.detail == OneLine(detail)
            case Run(step, detail, Some(error)) =>
              n.step == step && n.status == "failed" && n.failure == OneLine(error) && n.detail == OneLine(detail)
            case Skip(step, reason) =>
              n.step == step && n.status == "skipped" && n.failure == "" && n.detail == OneLine(reason)
            case Record(step, status, detail, failure) =>
              n.step == step && n.status == status && n.failure == OneLine(failure) && n.detail == OneLine(detail)
  {
    hide Leaves, Refused, Token, OneLine, ParseCost, ParseAudit, FieldMap, PairsText, AuditText, AuditOf, CostOf;
    LeftNote(tickets, e, n);
    EmptyOneLine();
  }

  /** Exactly a publish or a rollback that was not skipped carries an audit line, with the auditor's verdict. */
  lemma LeftAudit(tickets: Tickets, e: Event, n: Note)
    requires Leaves(tickets, e, n)
    ensures n.audit.Some? <==> n.step in {"publish", "rollback"} && n.status != "skipped"
    ensures n.audit.Some? ==>
              match e.world.auditor
              case NoAuditor => n.audit.value == AuditLine("NOT_RUN", 0, 0, "no auditor configured")
              case Verdict(status, writes, unmatched, None) =>
                n.audit.value == AuditLine(status, writes, unmatched, "")
              case Verdict(status, writes, unmatched, Some(error)) =>
                && n.audit.value.status == Overridden(LooseWords(error), "audit", status)
                && (AuditIntact(AuditLine(status, writes, unmatched, error)) ==>
                      n.audit.value == AuditLine(status, writes, unmatched, OneLine(error)))
  {
    hide Token, OneLine, ParseCost, ParseAudit, FieldMap, PairsText, AuditText, CostOf, Overridden, LooseWords;
    hide AuditIntact, Leaves, Refused;
    LeftNote(tickets, e, n);
    AnswersOf(tickets, e, n);
    if n.audit.Some? {
      var x := AuditOf(e.world.auditor);
      NotRunIsWord();
      AuditRoundTrip(x);
      match e.world.auditor
      case NoAuditor => NotRunIsIntact();
      case Verdict(status, writes, unmatched, None) => SilentIsIntact(x);
      case Verdict(_, _, _, Some(_)) =>
    }
  }

  lemma AnswersOf(tickets: Tickets, e: Event, n: Note)
    requires Leaves(tickets, e, n)
    ensures Answers(e.world)
  {
  }

  /** The cost line carries the ledger's numbers, or says why there are none. */
  lemma LeftCost(tickets: Tickets, e: Event, n: Note)
    requires Leaves(tickets, e, n)
    ensures match e.world.ledger
            case NoLedger => n.cost == Summary(0, 0, 0, 0, 0, []) && n.costErr == OneLine("no ledger configured")
            case LedgerError(message) => n.cost == Summary(0, 0, 0, 0, 0, []) && n.costErr == OneLine(message)
            case Rows(s) => n.cost.(models := s.models) == s && n.costErr == ""
  {
    hide Token, OneLine, ParseCost, ParseAudit, FieldMap, PairsText, CostPairs, AuditText, AuditOf, ModelNames;
    hide Leaves, Refused;
    LeftNote(tickets, e, n);
    AnswersOf(tickets, e, n);
    EmptyOneLine();
    NoModels();
    CostRoundTrip(Noted(e).cost);
  }

  lemma NoModels()
    ensures ModelNames([])
  {
  }

  lemma SilentIsIntact(x: AuditLine)
    requires x.note == ""
    ensures AuditIntact(x) && OneLine("") == ""
  {
    EmptyOneLine();
    AtoiItoa(x.writes);
    AtoiItoa(x.unmatched);
  }

  lemma NotRunIsIntact()
    ensures AuditIntact(AuditLine("NOT_RUN", 0, 0, "no auditor configured"))
    ensures OneLine("no auditor configured") == "no auditor configured"
  {
    hide Itoa, Atoi64, Fields, Override, Join;
    NoAuditorWords();
    NoPairs();
    AtoiItoa(0);
  }

  lemma JoinThree(a: string, b: string, c: string)
    ensures Join([a, b, c], " ") == a + " " + b + " " + c
  {
    assert [a, b, c][1..] == [b, c] && [b, c][1..] == [c];
    assert Join([c], " ") == c;
    assert Join([b, c], " ") == b + " " + c;
    assert a + " " + (b + " " + c) == a + " " + b + " " + c;
  }

  lemma NoAuditorWords()
    ensures Fields("no auditor configured") == ["no", "auditor", "configured"]
    ensures Fields("no auditor configured")[1..] == ["auditor", "configured"]
    ensures Join(["no", "auditor", "configured"], " ") == "no auditor configured"
  {
    hide Fields, Join;
    var ws := ["no", "auditor", "configured"];
    ThreeWords();
    FieldsJoin(ws);
    JoinThree("no", "auditor", "configured");
    assert "no" + " " + "auditor" + " " + "configured" == "no auditor configured";
  }

  lemma ThreeWords()
    ensures Word("no") && Word("auditor") && Word("configured")
  {
  }

  lemma NoPairs()
    ensures forall key :: Override(["auditor", "configured"], key) == None
  {
    hide Override;
    forall key
      ensures Override(["auditor", "configured"], key) == None
    {
      NotKeyed("auditor", key);
      NotKeyed("configured", key);
      NoWordNone(["auditor", "configured"], key);
    }
  }

  lemma NotKeyed(w: string, key: string)
    requires '=' !in w
    ensures !(key + "=" <= w)
  {
    assert (key + "=")[|key|] == '=';
  }

  // ---------------------------------------------------------------- refusals and ids

  /** What a call is refused for, and in which order. */
  lemma RefusalOrder(r: Recorder, c: Call)
    ensures var step := match c case Run(s, _, _) => s case Skip(s, _) => s case Record(s, _, _, _) => s;
            Refused(r, c) ==
            if step !in {"research", "price", "publish", "verify", "rollback"} then Some(UnknownStep)
            else if !r.hasBoard then Some(NoBoard)
            else if Blank(r.ticket) then Some(NoTicket)
            else if Blank(r.jobID) || Blank(r.runID) then Some(NoIds)
            else if c.Record? && c.status !in {"ok", "failed", "skipped"} then Some(BadStatus)
            else None
  {
    hide TrimSpace, Token, Fields, Blank;
    BlankText(r.ticket);
    TokenIsWord(r.jobID);
    TokenIsWord(r.runID);
    BlankFields(r.jobID);
    BlankFields(r.runID);
  }

  lemma {:induction false} ReplaceAt(s: string, c: char, put: char)
    ensures |Replace(s, c, put)| == |s|
    ensures forall i | 0 <= i < |s| :: Replace(s, c, put)[i] == if s[i] == c then put else s[i]
    decreases |s|
  {
    if s != "" {
      ReplaceAt(s[1..], c, put);
    }
  }

  /** The token of an id: its words joined by '_', every '=' turned into '_', everything else as it is. */
  lemma TokenOfWords(ws: seq<string>)
    requires forall w | w in ws :: Word(w)
    ensures var id := Join(ws, " ");
            |Token(id)| == |id| &&
            forall i | 0 <= i < |id| :: Token(id)[i] == if id[i] in {' ', '='} then '_' else id[i]
  {
    hide Fields, Replace, Join;
    FieldsJoin(ws);
    JoinedAlike(ws);
    ReplaceAt(Join(ws, "_"), '=', '_');
  }

  /** Joined by blanks and joined by '_', the words stand at the same places. */
  lemma {:induction false} JoinedAlike(ws: seq<string>)
    requires forall w | w in ws :: Word(w)
    ensures |Join(ws, "_")| == |Join(ws, " ")|
    ensures var a, b := Join(ws, " "), Join(ws, "_");
            forall i | 0 <= i < |a| :: b[i] == if a[i] == ' ' then '_' else a[i]
    decreases |ws|
  {
    hide Word;
    if ws != [] {
      NoBlankInside(ws[0]);
      if |ws| > 1 {
        JoinedAlike(ws[1..]);
      }
    }
  }

  lemma NoBlankInside(w: string)
    requires Word(w)
    ensures ' ' !in w
  {
  }
}
