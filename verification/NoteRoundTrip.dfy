/** Reading a printed audit note gives the note back, and exactly when it does not. */
module NoteRoundTrip {
  import opened Text
  import opened Note

  /** What the recorder can put in a note: ids and verdicts are one word, model names are list items. */
  predicate Printable(n: Note) {
    && ValidStep(n.step) && ValidStatus(n.status)
    && Word(n.jobID) && Word(n.runID)
    && (forall m | m in n.cost.models :: Word(m) && ',' !in m)
    && (n.audit.Some? ==> SpaceFree(n.audit.value.status))
  }

  /** The note as it comes back: free text on one line, no cost when the ledger could not be read. */
  function Normal(n: Note): Note {
    n.(cost := if n.costErr != "" then NO_COST else n.cost,
       costErr := OneLine(n.costErr),
       audit := if n.audit.None? then None else Some(n.audit.value.(note := OneLine(n.audit.value.note))),
       failure := OneLine(n.failure),
       detail := OneLine(n.detail))
  }

  // ---------------------------------------------------------------- fields

  predicate Plain(p: Pair) {
    '=' !in p.key && SpaceFree(p.key) && SpaceFree(p.value)
  }

  function PairsInto(m: map<string, string>, ps: seq<Pair>): map<string, string>
    decreases |ps|
  {
    if ps == [] then m else PairsInto(m[ps[0].key := ps[0].value], ps[1..])
  }

  lemma PairWord(p: Pair)
    requires Plain(p)
    ensures Word(PairText(p))
  {
    forall c | c in PairText(p)
      ensures !IsSpace(c)
    {
      assert c in p.key || c == '=' || c in p.value;
    }
  }

  /** The words of a line of plain pairs are its pairs, whatever words come after them. */
  lemma {:induction false} PairsFields(m: map<string, string>, ps: seq<Pair>, tail: string)
    requires ps != [] && (forall p | p in ps :: Plain(p)) && (tail == "" || IsSpace(tail[0]))
    ensures FieldsInto(m, Fields(PairsText(ps) + tail)) == FieldsInto(PairsInto(m, ps), Fields(tail))
    decreases |ps|
  {
    hide IsSpace, CutPair, WordLen;
    var w := PairText(ps[0]);
    assert ps[0] in ps;
    PairWord(ps[0]);
    CutPairOf(ps[0].key, ps[0].value);
    if |ps| > 1 {
      var rest := " " + (PairsText(ps[1..]) + tail);
      assert PairsText(ps) + tail == w + rest;
      BlankFirst(PairsText(ps[1..]) + tail);
      FieldsOfWord(w, rest);
      assert ([w] + Fields(rest))[1..] == Fields(rest);
      PairsFields(m[ps[0].key := ps[0].value], ps[1..], tail);
    } else {
      FieldsOfWord(w, tail);
      assert ([w] + Fields(tail))[1..] == Fields(tail);
      assert ps[1..] == [];
    }
  }

  lemma BlankFirst(s: string)
    ensures Fields(" " + s) == Fields(s) && IsSpace((" " + s)[0])
  {
    assert (" " + s)[1..] == s;
  }

  lemma PairsRead(ps: seq<Pair>)
    requires ps != [] && forall p | p in ps :: Plain(p)
    ensures FieldMap(PairsText(ps)) == PairsInto(map[], ps)
  {
    PairsFields(map[], ps, "");
    assert PairsText(ps) + "" == PairsText(ps);
  }

  /** The pair at `i` decides its key when no later pair has it. */
  lemma {:induction false} PairAt(m: map<string, string>, ps: seq<Pair>, i: nat)
    requires i < |ps| && forall k | i < k < |ps| :: ps[k].key != ps[i].key
    ensures Get(PairsInto(m, ps), ps[i].key) == ps[i].value
    decreases |ps|
  {
    var next := m[ps[0].key := ps[0].value];
    if i == 0 {
      PairElsewhere(next, ps[1..], ps[0].key);
    } else {
      PairAt(next, ps[1..], i - 1);
    }
  }

  lemma {:induction false} PairElsewhere(m: map<string, string>, ps: seq<Pair>, key: string)
    requires forall p | p in ps :: p.key != key
    ensures Get(PairsInto(m, ps), key) == Get(m, key)
    decreases |ps|
  {
    if ps != [] {
      assert ps[0] in ps;
      PairElsewhere(m[ps[0].key := ps[0].value], ps[1..], key);
    }
  }

  lemma {:induction false} PairsOneLine(ps: seq<Pair>)
    requires ps != [] && forall p | p in ps :: Plain(p)
    ensures Without(PairsText(ps), '\n')
    decreases |ps|
  {
    assert ps[0] in ps;
    PairWord(ps[0]);
    if |ps| > 1 {
      PairsOneLine(ps[1..]);
    }
  }

  /** The value of the last word that is a pair with this key. */
  function Override(ws: seq<string>, key: string): Option<string>
    decreases |ws|
  {
    if ws == [] then None
    else
      var later := Override(ws[1..], key);
      if later.Some? then later
      else match CutPair(ws[0])
           case None => None
           case Some(p) => if p.key == key then Some(p.value) else None
  }

  function Overridden(ws: seq<string>, key: string, value: string): string {
    match Override(ws, key) case None => value case Some(v) => v
  }

  lemma {:induction false} LaterWordsOverride(m: map<string, string>, ws: seq<string>, key: string)
    ensures Get(FieldsInto(m, ws), key) == Overridden(ws, key, Get(m, key))
    decreases |ws|
  {
    if ws != [] {
      LaterWordsOverride(AddField(m, ws[0]), ws[1..], key);
    }
  }

  /** The last word that carries the key decides. */
  lemma {:induction false} LastWordDecides(a: seq<string>, key: string, value: string, b: seq<string>)
    requires '=' !in key && forall i | 0 <= i < |b| :: !(key + "=" <= b[i])
    ensures Override(a + [key + "=" + value] + b, key) == Some(value)
    decreases |a|
  {
    hide CutPair;
    var ws := a + [key + "=" + value] + b;
    if a == [] {
      assert ws[1..] == b;
      NoWordNone(b, key);
      CutPairOf(key, value);
    } else {
      assert ws[1..] == a[1..] + [key + "=" + value] + b;
      LastWordDecides(a[1..], key, value, b);
    }
  }

  lemma {:induction false} NoWordNone(ws: seq<string>, key: string)
    requires forall i | 0 <= i < |ws| :: !(key + "=" <= ws[i])
    ensures Override(ws, key) == None
    decreases |ws|
  {
    if ws != [] {
      var w := ws[0];
      NoWordNone(ws[1..], key);
      var n := IndexOf(w, '=');
      if n < |w| {
        assert w == w[..n] + "=" + w[n + 1..];
      }
    }
  }

  /** Which comments are notes: those whose first line goes on after the header with words that name one of the five
      steps, a job, a run and one of the three statuses. */
  lemma WhichAreNotes(body: string)
    ensures var line := body[..IndexOf(body, '\n')];
            if !("AUDIT listing-step " <= line) then Parse(body) == None
            else
              var ws := Fields(line[19..]);
              var step, status := Overridden(ws, "step", ""), Overridden(ws, "status", "");
              var jobID, runID := Overridden(ws, "job", ""), Overridden(ws, "run", "");
              && (Parse(body).Some? <==>
                    && step in {"research", "price", "publish", "verify", "rollback"}
                    && status in {"ok", "failed", "skipped"} && jobID != "" && runID != "")
              && (Parse(body).Some? ==>
                    var n := Parse(body).value;
                    n.step == step && n.status == status && n.jobID == jobID && n.runID == runID)
  {
    hide Fields, FieldsInto, Override, IndexOf, ParseLines, Get, Split;
    var line := body[..IndexOf(body, '\n')];
    assert Split(body, '\n')[0] == line;
    assert |HEADER + " "| == 19 && HEADER + " " == "AUDIT listing-step ";
    if "AUDIT listing-step " <= line {
      var ws := Fields(line[19..]);
      LaterWordsOverride(map[], ws, "step");
      LaterWordsOverride(map[], ws, "status");
      LaterWordsOverride(map[], ws, "job");
      LaterWordsOverride(map[], ws, "run");
      NothingInEmpty();
    }
    if ParseKey(line).Some? {
      LinesKeepKey(ParseKey(line).value, Split(body, '\n')[1..]);
    }
  }

  lemma NothingInEmpty()
    ensures forall key :: Get(map[], key) == ""
  {
  }

  // ---------------------------------------------------------------- the key line

  function Unfilled(n: Note): Note {
    Note(n.step, n.jobID, n.runID, n.status, NO_COST, "", None, "", "")
  }

  lemma StepWord(s: Step)
    requires ValidStep(s)
    ensures Word(s)
  {
  }

  lemma KeyPairsRead(n: Note)
    ensures var m := PairsInto(map[], KeyPairs(n));
            Get(m, "step") == n.step && Get(m, "job") == n.jobID && Get(m, "run") == n.runID
                && Get(m, "status") == n.status
  {
    hide PairsInto, Get;
    var ps := KeyPairs(n);
    PairAt(map[], ps, 0);
    PairAt(map[], ps, 1);
    PairAt(map[], ps, 2);
    PairAt(map[], ps, 3);
  }

  /** The key line carries step, job, run and status through. */
  lemma KeyRoundTrip(n: Note)
    requires ValidStep(n.step) && ValidStatus(n.status) && Word(n.jobID) && Word(n.runID)
    ensures ParseKey(KeyLine(n)) == Some(Unfilled(n)) && Without(KeyLine(n), '\n')
  {
    hide PairsText, FieldMap, PairsInto, Get, ValidStep, ValidStatus;
    var ps := KeyPairs(n);
    assert KeyLine(n)[|HEADER + " "|..] == PairsText(ps);
    StepWord(n.step);
    StatusWord(n.status);
    assert forall p | p in ps :: Plain(p);
    PairsRead(ps);
    KeyPairsRead(n);
    PairsOneLine(ps);
  }

  lemma StatusWord(s: Status)
    requires ValidStatus(s)
    ensures Word(s)
  {
  }

  // ---------------------------------------------------------------- the cost line

  lemma PairsPrefix(ps: seq<Pair>)
    requires ps != []
    ensures ps[0].key + "=" <= PairsText(ps)
  {
  }

  lemma {:induction false} JoinSpaceFree(ws: seq<string>)
    requires forall w | w in ws :: SpaceFree(w)
    ensures SpaceFree(Join(ws, ","))
    decreases |ws|
  {
    if ws != [] {
      assert ws[0] in ws;
      JoinSpaceFree(ws[1..]);
    }
  }

  predicate ModelNames(models: seq<string>) {
    forall m | m in models :: Word(m) && ',' !in m
  }

  /** A list of model names is read back unless it is the one name that stands for the empty list. */
  lemma ModelsRoundTrip(models: seq<string>)
    requires ModelNames(models)
    ensures SpaceFree(Models(models))
    ensures var m := Models(models);
            (if m != "" && m != "-" then Split(m, ',') else []) == models <==> models != ["-"]
  {
    JoinSpaceFree(models);
    if models != [] {
      var m := Join(models, ",");
      assert models[0] in models;
      SplitJoin(models, ',');
      if m == "-" {
        assert Split(m, ',') == ["-"] by { assert IndexOf("-", ',') == 1; }
      }
    }
  }

  lemma LowerCase(key: string)
    requires forall c | c in key :: 'a' <= c <= 'z' || c == '_'
    ensures SpaceFree(key) && '=' !in key
  {
  }

  lemma CostPlain(s: Summary)
    requires ModelNames(s.models)
    ensures forall p | p in CostPairs(s) :: Plain(p)
  {
    hide Itoa, Models, ModelNames, Split, IsSpace, Join;
    ModelsRoundTrip(s.models);
    forall p | p in CostPairs(s)
      ensures Plain(p)
    {
      LowerCase(p.key);
    }
  }

  lemma CostPairsRead(s: Summary)
    ensures var m := PairsInto(map[], CostPairs(s));
            && Get(m, "cost_cents") == Itoa(s.costCents) && Get(m, "calls") == Itoa(s.calls)
            && Get(m, "errors") == Itoa(s.errors) && Get(m, "tokens_in") == Itoa(s.tokensIn)
            && Get(m, "tokens_out") == Itoa(s.tokensOut) && Get(m, "models") == Models(s.models)
  {
    hide PairsInto, Get, Itoa, Models;
    var ps := CostPairs(s);
    PairAt(map[], ps, 0);
    PairAt(map[], ps, 1);
    PairAt(map[], ps, 2);
    PairAt(map[], ps, 3);
    PairAt(map[], ps, 4);
    PairAt(map[], ps, 5);
  }

  /** A ledger summary is read back from the cost line, all but the model list in any case. */
  lemma CostRoundTrip(s: Summary)
    requires ModelNames(s.models)
    ensures ParseCost(FieldMap(PairsText(CostPairs(s)))) == s <==> s.models != ["-"]
    ensures ParseCost(FieldMap(PairsText(CostPairs(s)))).(models := s.models) == s
    ensures Without(PairsText(CostPairs(s)), '\n')
  {
    hide PairsInto, Get, Itoa, Models, FieldMap, PairsText, Atoi64;
    CostPlain(s);
    PairsRead(CostPairs(s));
    CostPairsRead(s);
    ModelsRoundTrip(s.models);
    AtoiItoa(s.costCents);
    AtoiItoa(s.calls);
    AtoiItoa(s.errors);
    AtoiItoa(s.tokensIn);
    AtoiItoa(s.tokensOut);
    PairsOneLine(CostPairs(s));
  }

  // ---------------------------------------------------------------- the audit line

  /** The words of the free text that can reach the fields: all but the first, which is glued to `note=`. */
  function LooseWords(note: string): seq<string> {
    if note == "" || Fields(note) == [] then [] else Fields(note)[1..]
  }

  /** No loose word of the note changes what the line says about the verdict. */
  predicate AuditIntact(a: AuditLine) {
    var ws := LooseWords(a.note);
    && Overridden(ws, "audit", a.status) == a.status
    && Atoi64(Overridden(ws, "writes", Itoa(a.writes))) == a.writes
    && Atoi64(Overridden(ws, "unmatched", Itoa(a.unmatched))) == a.unmatched
  }

  lemma JoinHead(x: string, y: string, rest: seq<string>, sep: string)
    ensures Join([x + y] + rest, sep) == x + Join([y] + rest, sep)
  {
    assert ([x + y] + rest)[1..] == rest == ([y] + rest)[1..];
  }

  lemma NoteFields(note: string)
    requires note != ""
    ensures Fields(" note=" + OneLine(note)) ==
            (if Fields(note) == [] then ["note="] else ["note=" + Fields(note)[0]] + LooseWords(note))
  {
    var fs := Fields(note);
    assert (" note=" + OneLine(note))[1..] == "note=" + OneLine(note);
    if fs == [] {
      FieldsOfWord("note=", "");
      assert "note=" + "" == "note=";
    } else {
      assert Word(fs[0]) by { assert fs[0] in fs; }
      var ws := ["note=" + fs[0]] + fs[1..];
      JoinHead("note=", fs[0], fs[1..], " ");
      assert [fs[0]] + fs[1..] == fs;
      forall w | w in ws
        ensures Word(w)
      {
        if w == ws[0] {
          forall c | c in w
            ensures !IsSpace(c)
          {
            assert c in "note=" || c in fs[0];
          }
        } else {
          assert w in fs;
        }
      }
      FieldsJoin(ws);
    }
  }

  const MARK: string := " note="

  /** Between three words no blank is followed by an 'n' as long as the later two begin differently. */
  lemma MarkNotInside(a: string, b: string, c: string, rest: string, k: nat)
    requires SpaceFree(a) && SpaceFree(b) && SpaceFree(c) && b != "" && c != "" && b[0] != 'n' && c[0] != 'n'
    requires k < |a + " " + b + " " + c|
    ensures !(MARK <= (a + " " + b + " " + c + rest)[k..])
  {
    var head := a + " " + b + " " + c;
    var s := head + rest;
    assert s[k..][0] == s[k] == head[k];
    if k < |a| {
      assert s[k] in a;
    } else if k == |a| {
      assert s[k..][1] == s[k + 1] == head[k + 1] == b[0];
    } else if k < |a| + 1 + |b| {
      assert s[k] == b[k - |a| - 1];
      assert s[k] in b;
    } else if k == |a| + 1 + |b| {
      assert s[k..][1] == s[k + 1] == head[k + 1] == c[0];
    } else {
      assert s[k] == c[k - |a| - |b| - 2];
      assert s[k] in c;
    }
  }

  lemma AuditHead(x: AuditLine)
    requires SpaceFree(x.status)
    ensures var ps := AuditPairs(x);
            && (forall p | p in ps :: Plain(p))
            && PairsText(ps) == PairText(ps[0]) + " " + PairText(ps[1]) + " " + PairText(ps[2])
            && PairText(ps[1])[0] == 'w' && PairText(ps[2])[0] == 'u'
  {
    hide Itoa;
    var ps := AuditPairs(x);
    assert ps[1..][1..] == ps[2..];
    assert PairsText(ps[2..]) == PairText(ps[2]);
    assert PairsText(ps[1..]) == PairText(ps[1]) + " " + PairText(ps[2]);
  }

  /** The free-text note is cut out of the line whole. */
  lemma NoteCut(x: AuditLine)
    requires SpaceFree(x.status)
    ensures var l := AuditText(x);
            var n := Find(l, MARK);
            (if n < |l| then l[n + |MARK|..] else "") == OneLine(x.note)
  {
    hide PairText, PairsText, SpaceFree, OneLine, Find, Itoa;
    AuditHead(x);
    var ps := AuditPairs(x);
    var head := PairsText(ps);
    var a, b, c := PairText(ps[0]), PairText(ps[1]), PairText(ps[2]);
    PairWord(ps[0]);
    PairWord(ps[1]);
    PairWord(ps[2]);
    if x.note != "" {
      var rest := MARK + OneLine(x.note);
      assert AuditText(x) == head + MARK + OneLine(x.note) == head + rest;
      forall k: nat | k < |head|
        ensures !(MARK <= (head + MARK + OneLine(x.note))[k..])
      {
        MarkNotInside(a, b, c, rest, k);
      }
      FindAfter(head, MARK, OneLine(x.note));
      assert (head + MARK + OneLine(x.note))[|head| + |MARK|..] == OneLine(x.note);
    } else {
      assert AuditText(x) == head + "" == head;
      forall k: nat | k < |head|
        ensures !(MARK <= head[k..])
      {
        MarkNotInside(a, b, c, "", k);
      }
      FindNone(head, MARK);
      EmptyOneLine();
    }
  }

  lemma EmptyOneLine()
    ensures OneLine("") == ""
  {
  }

  /** The map that the words of the audit line build. */
  lemma AuditFields(x: AuditLine)
    requires SpaceFree(x.status)
    ensures exists m ::
              && FieldMap(AuditText(x)) == FieldsInto(m, LooseWords(x.note))
              && Get(m, "audit") == x.status && Get(m, "writes") == Itoa(x.writes)
                  && Get(m, "unmatched") == Itoa(x.unmatched)
  {
    hide PairsText, Fields, FieldsInto, PairsInto, Itoa, Get, LooseWords, OneLine;
    AuditHead(x);
    var ps := AuditPairs(x);
    var m := PairsInto(map[], ps);
    PairAt(map[], ps, 0);
    PairAt(map[], ps, 1);
    PairAt(map[], ps, 2);
    if x.note == "" {
      assert AuditText(x) == PairsText(ps) + "" == PairsText(ps);
      PairsRead(ps);
      NoLooseWords(m, x.note);
    } else {
      PairsFields(map[], ps, MARK + OneLine(x.note));
      assert AuditText(x) == PairsText(ps) + (MARK + OneLine(x.note));
      NoteFields(x.note);
      var next := GluedWord(m, x.note);
    }
  }

  lemma NoLooseWords(m: map<string, string>, note: string)
    requires note == ""
    ensures FieldsInto(m, LooseWords(note)) == m
  {
  }

  /** The word glued to `note=` sets the key `note` and no other. */
  lemma GluedWord(m: map<string, string>, note: string) returns (next: map<string, string>)
    requires note != ""
    ensures FieldsInto(m, Fields(" note=" + OneLine(note))) == FieldsInto(next, LooseWords(note))
    ensures Get(next, "audit") == Get(m, "audit") && Get(next, "writes") == Get(m, "writes")
    ensures Get(next, "unmatched") == Get(m, "unmatched")
  {
    hide Fields, OneLine, CutPair;
    NoteFields(note);
    var fs := Fields(note);
    var value := if fs == [] then "" else fs[0];
    CutPairOf("note", value);
    assert "note" + "=" + value == "note=" + value;
    next := m["note" := value];
    var w := "note=" + value;
    if fs == [] {
      assert w == "note=";
      assert LooseWords(note) == [];
    }
    assert Fields(" note=" + OneLine(note)) == [w] + LooseWords(note);
    assert ([w] + LooseWords(note))[1..] == LooseWords(note);
    assert AddField(m, w) == next;
  }

  /** The audit line is read back exactly when no loose word of its note speaks about the verdict. */
  lemma AuditRoundTrip(x: AuditLine)
    requires SpaceFree(x.status)
    ensures ParseAudit(AuditText(x)) == x.(note := OneLine(x.note)) <==> AuditIntact(x)
    ensures ParseAudit(AuditText(x)).status == Overridden(LooseWords(x.note), "audit", x.status)
  {
    hide PairsText, Fields, FieldsInto, Itoa, Get, LooseWords, OneLine, Find, FieldMap, AuditText, Override,
        Overridden, Atoi64;
    AuditFields(x);
    var m :| FieldMap(AuditText(x)) == FieldsInto(m, LooseWords(x.note)) &&
             Get(m, "audit") == x.status && Get(m, "writes") == Itoa(x.writes)
                 && Get(m, "unmatched") == Itoa(x.unmatched);
    LaterWordsOverride(m, LooseWords(x.note), "audit");
    LaterWordsOverride(m, LooseWords(x.note), "writes");
    LaterWordsOverride(m, LooseWords(x.note), "unmatched");
    NoteCut(x);
  }

  /** The free text `see writes=9` makes the line report nine writes. */
  lemma LooseWordOverrides()
    ensures var x := AuditLine("OK", 0, 0, "see writes=9");
            !AuditIntact(x) && ParseAudit(AuditText(x)) != x.(note := OneLine(x.note))
  {
    hide LooseWords, Override, ParseAudit, AuditText, OneLine, Atoi64, Itoa;
    NineWrites();
    NineIsRead();
    AuditRoundTrip(AuditLine("OK", 0, 0, "see writes=9"));
  }

  lemma NineWrites()
    ensures LooseWords("see writes=9") == ["writes=9"] && SpaceFree("OK")
  {
    hide Fields, IsSpace;
    var ws := ["see", "writes=9"];
    PlainWords();
    FieldsJoin(ws);
    assert ws[1..] == ["writes=9"];
    assert Join(ws, " ") == "see" + " " + "writes=9" == "see writes=9";
  }

  lemma NineIsRead()
    ensures Override(["writes=9"], "writes") == Some("9") && Atoi64("9") == 9
  {
    CutPairOf("writes", "9");
    assert "writes=9" == "writes" + "=" + "9";
    assert ["writes=9"][1..] == [];
    AtoiItoa(9);
    assert Itoa(9) == "9";
  }

  lemma PlainWords()
    ensures Word("see") && Word("writes=9") && SpaceFree("OK")
  {
  }

  // ---------------------------------------------------------------- the lines of a body

  /** The lines of a printed note after the cost line. */
  function MoreLines(n: Note): seq<string> {
    (if n.audit.Some? then [AuditText(n.audit.value)] else []) +
    (if n.failure != "" then ["failure: " + OneLine(n.failure)] else []) +
    (if n.detail != "" then ["detail: " + OneLine(n.detail)] else [])
  }

  function Lines(n: Note): seq<string> {
    [KeyLine(n), CostLine(n)] + MoreLines(n)
  }

  /** The lines as they are written, each with its newline. */
  function Written(lines: seq<string>): string
    decreases |lines|
  {
    if lines == [] then "" else Written(lines[..|lines| - 1]) + lines[|lines| - 1] + "\n"
  }

  lemma WrittenMore(lines: seq<string>, l: string)
    ensures Written(lines + [l]) == Written(lines) + l + "\n"
  {
    assert (lines + [l])[..|lines|] == lines;
  }

  lemma {:induction false} JoinMore(lines: seq<string>, l: string)
    ensures Join(lines + [l], "\n") == Written(lines) + l
    decreases |lines|
  {
    var all := lines + [l];
    if lines == [] {
      assert all == [l];
    } else {
      assert all[1..] == lines[1..] + [l];
      JoinMore(lines[1..], l);
      WrittenFront(lines);
      assert Written(lines) + l == lines[0] + "\n" + (Written(lines[1..]) + l);
    }
  }

  lemma {:induction false} WrittenFront(lines: seq<string>)
    requires lines != []
    ensures Written(lines) == lines[0] + "\n" + Written(lines[1..])
    decreases |lines|
  {
    if |lines| == 1 {
      assert lines[..0] == [] == lines[1..];
      assert "" + lines[0] + "\n" == lines[0] + "\n" + "";
    } else {
      var most, last := lines[..|lines| - 1], lines[|lines| - 1];
      WrittenFront(most);
      assert most[1..] == lines[1..][..|lines[1..]| - 1];
      assert (lines[0] + "\n" + Written(most[1..])) + last + "\n" ==
             lines[0] + "\n" + (Written(most[1..]) + last + "\n");
    }
  }

  predicate Line(l: string) {
    l != "" && '\n' !in l
  }

  lemma TrimOne(s: string, l: string)
    requires Line(l)
    ensures TrimRight(s + l + "\n", '\n') == s + l
  {
    assert (s + l + "\n")[..|s + l|] == s + l;
    assert l[|l| - 1] in l;
    assert (s + l)[|s + l| - 1] == l[|l| - 1];
  }

  /** Trimming what was written leaves the lines joined. */
  lemma TrimWritten(lines: seq<string>)
    requires lines != [] && Line(lines[|lines| - 1])
    ensures TrimRight(Written(lines), '\n') == Join(lines, "\n")
  {
    hide Join;
    var most, last := lines[..|lines| - 1], lines[|lines| - 1];
    JoinMore(most, last);
    assert most + [last] == lines;
    TrimOne(Written(most), last);
  }

  lemma LinesAreLines(n: Note)
    requires Printable(n)
    ensures forall l | l in Lines(n) :: Line(l)
  {
    hide ParseKey, PairsText, FieldMap, ParseCost, AuditPairs, KeyPairs, OneLine, ValidStep, ValidStatus, Itoa,
        Models, AuditText;
    KeyRoundTrip(n);
    OneLineIsOneLine(n.costErr);
    OneLineIsOneLine(n.failure);
    OneLineIsOneLine(n.detail);
    CostRoundTrip(n.cost);
    PairsPrefix(CostPairs(n.cost));
    if n.audit.Some? {
      AuditLineIsLine(n.audit.value);
    }
  }

  lemma AuditLineIsLine(x: AuditLine)
    requires SpaceFree(x.status)
    ensures Line(AuditText(x)) && "audit=" <= AuditText(x)
  {
    hide PairText, PairsText, OneLine, Itoa;
    AuditHead(x);
    PairsOneLine(AuditPairs(x));
    PairsPrefix(AuditPairs(x));
    OneLineIsOneLine(x.note);
  }

  lemma BodyLines(n: Note)
    requires Printable(n)
    ensures Body(n) == Join(Lines(n), "\n")
  {
    hide KeyLine, CostLine, AuditText, OneLine, TrimRight, Printable, Join, Written;
    LinesAreLines(n);
    var ls := [KeyLine(n), CostLine(n)];
    WrittenMore([], KeyLine(n));
    WrittenMore([KeyLine(n)], CostLine(n));
    assert [] + [KeyLine(n)] == [KeyLine(n)];
    assert [KeyLine(n)] + [CostLine(n)] == ls;
    WrittenNone();
    assert Written(ls) == KeyLine(n) + "\n" + CostLine(n) + "\n";
    var b := KeyLine(n) + "\n" + CostLine(n) + "\n";
    if n.audit.Some? {
      var l := AuditText(n.audit.value);
      WrittenMore(ls, l);
      ls, b := ls + [l], b + l + "\n";
    }
    if n.failure != "" {
      var l := "failure: " + OneLine(n.failure);
      WrittenMore(ls, l);
      ls, b := ls + [l], b + "failure: " + OneLine(n.failure) + "\n";
      assert Written(ls) == b;
    }
    if n.detail != "" {
      var l := "detail: " + OneLine(n.detail);
      WrittenMore(ls, l);
      ls, b := ls + [l], b + "detail: " + OneLine(n.detail) + "\n";
      assert Written(ls) == b;
    }
    assert ls == Lines(n);
    TrimWritten(ls);
  }

  function Texts(ps: seq<Pair>): (ws: seq<string>)
    ensures |ws| == |ps| && forall i | 0 <= i < |ps| :: ws[i] == PairText(ps[i])
  {
    seq(|ps|, i requires 0 <= i < |ps| => PairText(ps[i]))
  }

  lemma {:induction false} PairsJoin(ps: seq<Pair>)
    requires ps != []
    ensures PairsText(ps) == Join(Texts(ps), " ")
    decreases |ps|
  {
    hide PairText;
    if |ps| > 1 {
      PairsJoin(ps[1..]);
      assert Texts(ps)[1..] == Texts(ps[1..]);
    }
  }

  lemma KeyFormat(n: Note)
    ensures KeyLine(n) == "AUDIT listing-step " +
                          Join(["step=" + n.step, "job=" + n.jobID, "run=" + n.runID, "status=" + n.status], " ")
  {
    hide Join;
    PairsJoin(KeyPairs(n));
    assert "step" + "=" == "step=" && "job" + "=" == "job=" && "run" + "=" == "run=" && "status" + "=" == "status=";
    assert Texts(KeyPairs(n)) == ["step=" + n.step, "job=" + n.jobID, "run=" + n.runID, "status=" + n.status];
  }

  lemma CostFormat(n: Note)
    requires n.costErr == ""
    ensures var c := n.cost;
            CostLine(n) == Join(["cost_cents=" + Itoa(c.costCents), "calls=" + Itoa(c.calls),
                                 "errors=" + Itoa(c.errors), "tokens_in=" + Itoa(c.tokensIn),
                                 "tokens_out=" + Itoa(c.tokensOut),
                                 "models=" + if c.models == [] then "-" else Join(c.models, ",")], " ")
  {
    hide Join, Itoa;
    var c := n.cost;
    PairsJoin(CostPairs(c));
    assert "cost_cents" + "=" == "cost_cents=" && "calls" + "=" == "calls=" && "errors" + "=" == "errors=";
    assert "tokens_in" + "=" == "tokens_in=" && "tokens_out" + "=" == "tokens_out=" && "models" + "=" == "models=";
    assert Texts(CostPairs(c)) ==
           ["cost_cents=" + Itoa(c.costCents), "calls=" + Itoa(c.calls), "errors=" + Itoa(c.errors),
            "tokens_in=" + Itoa(c.tokensIn), "tokens_out=" + Itoa(c.tokensOut), "models=" + Models(c.models)];
  }

  lemma AuditFormat(x: AuditLine)
    ensures AuditText(x) ==
            Join(["audit=" + x.status, "writes=" + Itoa(x.writes), "unmatched=" + Itoa(x.unmatched)], " ") +
            if x.note != "" then " note=" + OneLine(x.note) else ""
  {
    hide Join, Itoa, OneLine;
    PairsJoin(AuditPairs(x));
    assert "audit" + "=" == "audit=" && "writes" + "=" == "writes=" && "unmatched" + "=" == "unmatched=";
    assert Texts(AuditPairs(x)) ==
           ["audit=" + x.status, "writes=" + Itoa(x.writes), "unmatched=" + Itoa(x.unmatched)];
  }

  /** The text of a note, line by line, as a reader of the board sees it. */
  lemma BodyFormat(n: Note)
    requires Printable(n)
    ensures var key := Join(["step=" + n.step, "job=" + n.jobID, "run=" + n.runID, "status=" + n.status], " ");
            var c := n.cost;
            var cost := if n.costErr != "" then "cost=unknown (" + OneLine(n.costErr) + ")"
                        else Join(["cost_cents=" + Itoa(c.costCents), "calls=" + Itoa(c.calls),
                                   "errors=" + Itoa(c.errors), "tokens_in=" + Itoa(c.tokensIn),
                                   "tokens_out=" + Itoa(c.tokensOut),
                                   "models=" + if c.models == [] then "-" else Join(c.models, ",")], " ");
            var audit := if n.audit.None? then []
                         else
                           var x := n.audit.value;
                           [Join(["audit=" + x.status, "writes=" + Itoa(x.writes), "unmatched=" + Itoa(x.unmatched)],
                                 " ") + if x.note != "" then " note=" + OneLine(x.note) else ""];
            var failure := if n.failure != "" then ["failure: " + OneLine(n.failure)] else [];
            var detail := if n.detail != "" then ["detail: " + OneLine(n.detail)] else [];
            Body(n) == Join(["AUDIT listing-step " + key, cost] + (audit + failure + detail), "\n")
  {
    hide Body, Join, OneLine, Itoa, Printable, KeyLine, AuditText;
    BodyLines(n);
    KeyFormat(n);
    if n.costErr == "" {
      CostFormat(n);
    }
    if n.audit.Some? {
      AuditFormat(n.audit.value);
    }
  }

  lemma WrittenNone()
    ensures Written([]) == ""
  {
  }

  // ---------------------------------------------------------------- the lines read one by one

  lemma CostLineRead(m: Note, n: Note)
    requires m.cost == NO_COST && m.costErr == ""
    ensures ParseLine(m, CostLine(n)) == m.(costErr := OneLine(n.costErr),
                                            cost := if n.costErr != "" then NO_COST
                                                    else ParseCost(FieldMap(PairsText(CostPairs(n.cost)))))
  {
    hide OneLine, FieldMap, ParseCost, Itoa, Models, ParseAudit, PairsText;
    var l := CostLine(n);
    var free := OneLine(n.costErr);
    if n.costErr != "" {
      var p := "cost=unknown (";
      assert l == p + (free + ")");
      assert TrimPrefix(l, p) == free + ")";
      assert TrimSuffix(free + ")", ')') == free;
    } else {
      PairsPrefix(CostPairs(n.cost));
      assert l[4] == '_';
      EmptyOneLine();
    }
  }

  lemma AuditLineRead(m: Note, x: AuditLine)
    requires SpaceFree(x.status)
    ensures ParseLine(m, AuditText(x)) == m.(audit := Some(ParseAudit(AuditText(x))))
  {
    hide FieldMap, ParseCost, ParseAudit, PairsText, AuditText, SpaceFree;
    AuditLineIsLine(x);
    assert AuditText(x)[0] == 'a';
  }

  lemma FailureRead(m: Note, s: string)
    ensures ParseLine(m, "failure: " + s) == m.(failure := s)
  {
    hide FieldMap, ParseCost, ParseAudit;
    var l := "failure: " + s;
    assert l[0] == 'f';
  }

  lemma DetailRead(m: Note, s: string)
    ensures ParseLine(m, "detail: " + s) == m.(detail := s)
  {
    hide FieldMap, ParseCost, ParseAudit;
    var l := "detail: " + s;
    assert l[0] == 'd';
  }

  /** What comes back, with the two parts left open that free words can spoil. */
  function Reread(n: Note): Note {
    Normal(n).(cost := if n.costErr != "" then NO_COST else ParseCost(FieldMap(PairsText(CostPairs(n.cost)))),
               audit := if n.audit.None? then None else Some(ParseAudit(AuditText(n.audit.value))))
  }

  lemma {:induction false} ParseMore(m: Note, xs: seq<string>, ys: seq<string>)
    ensures ParseLines(m, xs + ys) == ParseLines(ParseLines(m, xs), ys)
    decreases |xs|
  {
    if xs == [] {
      assert xs + ys == ys;
    } else {
      assert (xs + ys)[1..] == xs[1..] + ys;
      ParseMore(ParseLine(m, xs[0]), xs[1..], ys);
    }
  }

  lemma MoreLinesRead(m: Note, n: Note)
    requires n.audit.Some? ==> SpaceFree(n.audit.value.status)
    requires m.audit.None? && m.failure == "" && m.detail == ""
    ensures ParseLines(m, MoreLines(n)) ==
            m.(audit := Reread(n).audit, failure := OneLine(n.failure), detail := OneLine(n.detail))
  {
    hide OneLine, ParseLine, AuditText, ParseAudit, ParseCost, FieldMap, PairsText, SpaceFree, CostPairs;
    EmptyOneLine();
    var one := if n.audit.Some? then [AuditText(n.audit.value)] else [];
    var two := if n.failure != "" then ["failure: " + OneLine(n.failure)] else [];
    var three := if n.detail != "" then ["detail: " + OneLine(n.detail)] else [];
    ParseMore(m, one + two, three);
    ParseMore(m, one, two);
    if n.audit.Some? {
      AuditLineRead(m, n.audit.value);
    }
    var m1 := m.(audit := Reread(n).audit);
    assert ParseLines(m, one) == m1;
    FailureRead(m1, OneLine(n.failure));
    var m2 := m1.(failure := OneLine(n.failure));
    assert ParseLines(m1, two) == m2;
    DetailRead(m2, OneLine(n.detail));
  }

  lemma BodyRead(n: Note)
    requires Printable(n)
    ensures Parse(Body(n)) == Some(Reread(n))
  {
    hide ParseKey, KeyLine, CostLine, ParseLine, Body, Join, OneLine, Split, MoreLines, FieldMap, ParseCost, ParseAudit,
         AuditText, CostPairs, PairsText, ValidStep, ValidStatus;
    LinesAreLines(n);
    BodyLines(n);
    SplitJoin(Lines(n), '\n');
    KeyRoundTrip(n);
    var rest := Lines(n)[1..];
    assert rest == [CostLine(n)] + MoreLines(n);
    assert rest[1..] == MoreLines(n);
    CostLineRead(Unfilled(n), n);
    MoreLinesRead(ParseLine(Unfilled(n), CostLine(n)), n);
  }

  /** The model list is not the one name that stands for none, and no free word overrides the verdict. */
  predicate Faithful(n: Note) {
    && (n.costErr == "" ==> n.cost.models != ["-"])
    && (n.audit.Some? ==> AuditIntact(n.audit.value))
  }

  /** `ParseNote(n.Body())` is `n` with its free text on one line, exactly for the faithful notes. */
  lemma NoteRoundTrip(n: Note)
    requires Printable(n)
    ensures Parse(Body(n)) == Some(Normal(n)) <==> Faithful(n)
    ensures Parse(Body(n)).Some? && Unfilled(Parse(Body(n)).value) == Unfilled(n)
  {
    hide Parse, Body, ParseCost, ParseAudit, FieldMap, PairsText, AuditText, OneLine, AuditIntact, CostPairs,
        ValidStep, ValidStatus;
    BodyRead(n);
    CostRoundTrip(n.cost);
    if n.audit.Some? {
      AuditRoundTrip(n.audit.value);
    }
  }

  /** A note whose only model is called `-` comes back without it. */
  lemma DashModelIsLost(n: Note)
    requires Printable(n) && n.costErr == "" && n.cost.models == ["-"]
    ensures Parse(Body(n)) != Some(Normal(n))
    ensures Printable(Note("price", "j", "r", OK, NO_COST.(models := ["-"]), "", None, "", ""))
  {
    hide Parse, Body;
    NoteRoundTrip(n);
    DashIsPrintable();
  }

  lemma DashIsPrintable()
    ensures Word("-") && Word("j") && Word("r") && ',' !in "-"
  {
  }

  /** A note that was read back can be recorded again and reads the same. */
  lemma RereadIsStable(n: Note)
    requires Printable(n) && Faithful(n)
    ensures Parse(Body(Normal(n))) == Some(Normal(n))
  {
    hide OneLine, ValidStep, ValidStatus, Parse, Body, Overridden, Atoi64, Itoa;
    OneLineFields(n.costErr);
    OneLineFields(n.failure);
    OneLineFields(n.detail);
    EmptyOneLine();
    if n.audit.Some? {
      OneLineFields(n.audit.value.note);
    }
    NoteRoundTrip(Normal(n));
  }
}
