/** The audit note of one listing step (internal/auditrecord/auditrecord.go): printing and reading back. */
module Note {
  import opened Text

  // Steps, statuses and proxy verdicts are string types in the source; any string can be stored in them.
  type Step = string
  type Status = string

  const STEPS: seq<Step> := ["research", "price", "publish", "verify", "rollback"]

  predicate ValidStep(s: Step) { s in STEPS }

  predicate Writes(s: Step) { s == "publish" || s == "rollback" }

  const OK: Status := "ok"
  const FAILED: Status := "failed"
  const SKIPPED: Status := "skipped"

  predicate ValidStatus(s: Status) { s == OK || s == FAILED || s == SKIPPED }

  datatype Summary = Summary(costCents: int64, calls: int64, errors: int64, tokensIn: int64, tokensOut: int64,
                             models: seq<string>)

  const NO_COST: Summary := Summary(0, 0, 0, 0, 0, [])

  datatype AuditLine = AuditLine(status: string, writes: int64, unmatched: int64, note: string)

  datatype Note = Note(step: Step, jobID: string, runID: string, status: Status, cost: Summary, costErr: string,
                       audit: Option<AuditLine>, failure: string, detail: string)

  const HEADER: string := "AUDIT listing-step"

  // ---------------------------------------------------------------- printing

  function PairText(p: Pair): string {
    p.key + "=" + p.value
  }

  /** A format string of `key=%v` words with single blanks between them, filled in. */
  function PairsText(ps: seq<Pair>): string
    requires ps != []
  {
    if |ps| == 1 then PairText(ps[0]) else PairText(ps[0]) + " " + PairsText(ps[1..])
  }

  function KeyPairs(n: Note): seq<Pair> {
    [Pair("step", n.step), Pair("job", n.jobID), Pair("run", n.runID), Pair("status", n.status)]
  }

  function KeyLine(n: Note): string {
    HEADER + " " + PairsText(KeyPairs(n))
  }

  function Models(models: seq<string>): string {
    if models == [] then "-" else Join(models, ",")
  }

  function CostPairs(s: Summary): seq<Pair> {
    [Pair("cost_cents", Itoa(s.costCents)), Pair("calls", Itoa(s.calls)), Pair("errors", Itoa(s.errors)),
     Pair("tokens_in", Itoa(s.tokensIn)), Pair("tokens_out", Itoa(s.tokensOut)), Pair("models", Models(s.models))]
  }

  function CostLine(n: Note): string {
    if n.costErr != "" then "cost=unknown (" + OneLine(n.costErr) + ")" else PairsText(CostPairs(n.cost))
  }

  function AuditPairs(a: AuditLine): seq<Pair> {
    [Pair("audit", a.status), Pair("writes", Itoa(a.writes)), Pair("unmatched", Itoa(a.unmatched))]
  }

  function AuditText(a: AuditLine): string {
    PairsText(AuditPairs(a)) + (if a.note != "" then " note=" + OneLine(a.note) else "")
  }

  /** `Body`: every line is written with its newline, and the trailing newlines are trimmed at the end. */
  function Body(n: Note): string {
    var b := KeyLine(n) + "\n" + CostLine(n) + "\n";
    var b := if n.audit.Some? then b + AuditText(n.audit.value) + "\n" else b;
    var b := if n.failure != "" then b + "failure: " + OneLine(n.failure) + "\n" else b;
    var b := if n.detail != "" then b + "detail: " + OneLine(n.detail) + "\n" else b;
    TrimRight(b, '\n')
  }

  // ---------------------------------------------------------------- reading

  function AddField(m: map<string, string>, w: string): map<string, string> {
    match CutPair(w)
    case None => m
    case Some(p) => m[p.key := p.value]
  }

  /** The map `fields` builds word by word; a later word overrides an earlier one. */
  function FieldsInto(m: map<string, string>, ws: seq<string>): map<string, string>
    decreases |ws|
  {
    if ws == [] then m else FieldsInto(AddField(m, ws[0]), ws[1..])
  }

  function FieldMap(s: string): map<string, string> {
    FieldsInto(map[], Fields(s))
  }

  function Get(m: map<string, string>, key: string): string {
    if key in m then m[key] else ""
  }

  function ParseKey(line: string): Option<Note> {
    if !((HEADER + " ") <= line) then None
    else
      var f := FieldMap(line[|HEADER + " "|..]);
      var n := Note(Get(f, "step"), Get(f, "job"), Get(f, "run"), Get(f, "status"), NO_COST, "", None, "", "");
      if !ValidStep(n.step) || n.jobID == "" || n.runID == "" || !ValidStatus(n.status) then None else Some(n)
  }

  function ParseCost(f: map<string, string>): Summary {
    Summary(Atoi64(Get(f, "cost_cents")), Atoi64(Get(f, "calls")), Atoi64(Get(f, "errors")),
            Atoi64(Get(f, "tokens_in")), Atoi64(Get(f, "tokens_out")),
            var m := Get(f, "models"); if m != "" && m != "-" then Split(m, ',') else [])
  }

  function ParseAudit(l: string): AuditLine {
    var f := FieldMap(l);
    var n := Find(l, " note=");
    AuditLine(Get(f, "audit"), Atoi64(Get(f, "writes")), Atoi64(Get(f, "unmatched")),
              if n < |l| then l[n + |" note="|..] else "")
  }

  function ParseLine(n: Note, l: string): Note {
    if "cost=unknown (" <= l then n.(costErr := TrimSuffix(TrimPrefix(l, "cost=unknown ("), ')'))
    else if "cost_cents=" <= l then n.(cost := ParseCost(FieldMap(l)))
    else if "audit=" <= l then n.(audit := Some(ParseAudit(l)))
    else if "failure: " <= l then n.(failure := TrimPrefix(l, "failure: "))
    else if "detail: " <= l then n.(detail := TrimPrefix(l, "detail: "))
    else n
  }

  function ParseLines(n: Note, lines: seq<string>): Note
    decreases |lines|
  {
    if lines == [] then n else ParseLines(ParseLine(n, lines[0]), lines[1..])
  }

  lemma {:induction false} LinesKeepKey(n: Note, lines: seq<string>)
    ensures var m := ParseLines(n, lines);
            m.step == n.step && m.jobID == n.jobID && m.runID == n.runID && m.status == n.status
    decreases |lines|
  {
    hide ParseCost, ParseAudit, FieldMap;
    if lines != [] {
      LinesKeepKey(ParseLine(n, lines[0]), lines[1..]);
    }
  }

  function Parse(body: string): Option<Note> {
    var lines := Split(body, '\n');
    match ParseKey(lines[0])
    case None => None
    case Some(n) => Some(ParseLines(n, lines[1..]))
  }

  /** `fields`, the loop. */
  method ReadFields(s: string) returns (out: map<string, string>)
    ensures out == FieldMap(s)
  {
    out := map[];
    var ws := Fields(s);
    var i := 0;
    while i < |ws|
      invariant i <= |ws| && FieldsInto(out, ws[i..]) == FieldMap(s)
    {
      out := AddField(out, ws[i]);
      assert ws[i..][0] == ws[i] && ws[i..][1..] == ws[i + 1..];
      i := i + 1;
    }
  }

  /** `ParseNote`, the loop over the lines after the key. */
  method ParseNote(body: string) returns (note: Option<Note>)
    ensures note == Parse(body)
  {
    var lines := Split(body, '\n');
    note := ParseKey(lines[0]);
    if note.None? {
      return;
    }
    var n := note.value;
    var i := 1;
    while i < |lines|
      invariant 1 <= i <= |lines| && Some(ParseLines(n, lines[i..])) == Parse(body)
    {
      n := ParseLine(n, lines[i]);
      assert lines[i..][0] == lines[i] && lines[i..][1..] == lines[i + 1..];
      i := i + 1;
    }
    note := Some(n);
  }
}
