/** The join of proxy writes to approvals (internal/auditjoin/join.go). */
module ProxyJoin {
  import opened Text

  datatype Row = Row(kind: string, verb: string, path: string, approvalID: string)

  /** One scanned line: blank, one that does not parse, or a row. */
  datatype Line = Blank | Bad | Good(row: Row)

  datatype Log = Missing | Unreadable | Opened(lines: seq<Line>, scanFails: bool)

  datatype Status = OK | Unmatched | NotRun

  datatype Why = NoError | NoApproval | NoLog | LogError | ApprovalsError | BadLine | ScanError | EmptyLog | NoWriteRow

  datatype Verdict = Verdict(status: Status, readCount: nat, writes: nat, unmatched: seq<string>, why: Why)

  function Refuse(why: Why): Verdict {
    Verdict(NotRun, 0, 0, [], why)
  }

  // ---------------------------------------------------------------- one row

  predicate ReadOnly(r: Row) {
    r.verb == "GET" || r.verb == "HEAD"
  }

  /** An intent row, or a row of the older format that is not a read. */
  predicate IsWrite(r: Row) {
    r.kind == "intent" || (r.kind == "" && !ReadOnly(r))
  }

  predicate IsRead(r: Row) {
    !IsWrite(r) && ReadOnly(r)
  }

  function Entry(r: Row): string {
    if r.kind == "intent" && r.approvalID == "" then r.verb + " " + r.path + " (no approval id)"
    else r.verb + " " + r.path + " approval=" + r.approvalID
  }

  /** Whether a write has an approval. An intent row without an id never has; an older row is looked up whatever its
      id. */
  predicate Matched(r: Row, approved: set<string>) {
    r.approvalID in approved && !(r.kind == "intent" && r.approvalID == "")
  }

  // ---------------------------------------------------------------- the rows of a log

  function Rows(lines: seq<Line>): seq<Row>
    decreases |lines|
  {
    if lines == [] then []
    else
      var last := lines[|lines| - 1];
      Rows(lines[..|lines| - 1]) + if last.Good? then [last.row] else []
  }

  /** The rows a scoped join looks at; the empty id stands for all rows. */
  function Scope(rows: seq<Row>, only: string): seq<Row>
    decreases |rows|
  {
    if rows == [] then []
    else
      var last := rows[|rows| - 1];
      Scope(rows[..|rows| - 1], only) + if only == "" || last.approvalID == only then [last] else []
  }

  function Count(rows: seq<Row>, p: Row -> bool): (n: nat)
    ensures n <= |rows|
    decreases |rows|
  {
    if rows == [] then 0 else Count(rows[..|rows| - 1], p) + if p(rows[|rows| - 1]) then 1 else 0
  }

  function Writes(rows: seq<Row>): nat { Count(rows, IsWrite) }

  function Reads(rows: seq<Row>): nat { Count(rows, IsRead) }

  function Entries(rows: seq<Row>, approved: set<string>): seq<string>
    decreases |rows|
  {
    if rows == [] then []
    else
      var r := rows[|rows| - 1];
      Entries(rows[..|rows| - 1], approved) + if IsWrite(r) && !Matched(r, approved) then [Entry(r)] else []
  }

  predicate Readable(log: Log) {
    log.Opened? && !log.scanFails && Bad !in log.lines
  }

  /** The verdict on a readable log. */
  function Judged(rows: seq<Row>, approved: set<string>, only: string): Verdict {
    var mine := Scope(rows, only);
    if rows == [] then Refuse(EmptyLog)
    else
      var u := Entries(mine, approved);
      Verdict(if u != [] then Unmatched else OK, Reads(mine), Writes(mine), u, NoError)
  }

  function JoinOf(log: Log, approvals: Option<set<string>>, only: string): Verdict {
    match log
    case Missing => Refuse(NoLog)
    case Unreadable => Refuse(LogError)
    case Opened(lines, scanFails) =>
      if approvals.None? then Refuse(ApprovalsError)
      else if Bad in lines then Refuse(BadLine)
      else if scanFails then Refuse(ScanError)
      else Judged(Rows(lines), approvals.value, only)
  }

  function Scoped(log: Log, approvals: Option<set<string>>, id: string): Verdict {
    if id == "" then Refuse(NoApproval)
    else
      var v := JoinOf(log, approvals, id);
      if v.status != NotRun && v.writes == 0 then Verdict(NotRun, v.readCount, 0, [], NoWriteRow) else v
  }

  // ---------------------------------------------------------------- the scan

  /** The counters a join fills in. */
  class Result {
    var readCount: nat
    var writes: nat
    var unmatched: seq<string>

    constructor ()
      ensures readCount == 0 && writes == 0 && unmatched == []
    {
      readCount, writes, unmatched := 0, 0, [];
    }

    ghost predicate Counts(rows: seq<Row>, approved: set<string>)
      reads this
    {
      readCount == Reads(rows) && writes == Writes(rows) && unmatched == Entries(rows, approved)
    }

    method Match(r: Row, approved: set<string>)
      modifies this`unmatched
      ensures unmatched == old(unmatched) +
                           if r.approvalID in approved then []
                           else [r.verb + " " + r.path + " approval=" + r.approvalID]
    {
      if r.approvalID !in approved {
        unmatched := unmatched + [r.verb + " " + r.path + " approval=" + r.approvalID];
      }
    }

    method Tally(r: Row, approved: set<string>, ghost before: seq<Row>)
      requires Counts(before, approved)
      modifies this
      ensures Counts(before + [r], approved)
    {
      assert (before + [r])[..|before|] == before;
      if r.kind == "intent" {
        writes := writes + 1;
        if r.approvalID == "" {
          unmatched := unmatched + [r.verb + " " + r.path + " (no approval id)"];
          return;
        }
        Match(r, approved);
      } else if r.kind == "" && r.verb != "GET" && r.verb != "HEAD" {
        writes := writes + 1;
        Match(r, approved);
      } else if r.verb == "GET" || r.verb == "HEAD" {
        readCount := readCount + 1;
      }
    }
  }

  /** The loop over the lines of an open log. */
  method Scan(lines: seq<Line>, approved: set<string>, only: string) returns (bad: bool, haveRow: bool, res: Result)
    ensures fresh(res)
    ensures bad <==> Bad in lines
    ensures !bad ==> (haveRow <==> Rows(lines) != []) && res.Counts(Scope(Rows(lines), only), approved)
  {
    hide Result.Counts, Scope;
    res := new Result();
    NoRows(res, approved, only);
    bad, haveRow := false, false;
    var i := 0;
    while i < |lines|
      invariant i <= |lines| && Bad !in lines[..i] && fresh(res)
      invariant haveRow <==> Rows(lines[..i]) != []
      invariant res.Counts(Scope(Rows(lines[..i]), only), approved)
    {
      ghost var rows := Rows(lines[..i]);
      assert lines[..i + 1][..i] == lines[..i];
      assert lines[..i + 1] == lines[..i] + [lines[i]];
      var line := lines[i];
      i := i + 1;
      if line.Blank? {
        assert rows + [] == rows;
        continue;
      }
      if line.Bad? {
        return true, haveRow, res;
      }
      haveRow := true;
      ScopeMore(rows, line.row, only);
      if only != "" && line.row.approvalID != only {
        continue;
      }
      res.Tally(line.row, approved, Scope(rows, only));
    }
    assert lines[..i] == lines;
  }

  lemma ScopeMore(rows: seq<Row>, r: Row, only: string)
    ensures Scope(rows + [r], only) == if only == "" || r.approvalID == only then Scope(rows,
        only) + [r] else Scope(rows, only)
  {
    assert (rows + [r])[..|rows|] == rows;
    assert Scope(rows, only) + [] == Scope(rows, only);
  }

  method Join(log: Log, approvals: Option<set<string>>, only: string) returns (v: Verdict)
    ensures v == JoinOf(log, approvals, only)
  {
    hide Entries, Reads, Writes, Scope, Rows;
    match log {
      case Missing => return Refuse(NoLog);
      case Unreadable => return Refuse(LogError);
      case Opened(lines, scanFails) =>
        if approvals.None? {
          return Refuse(ApprovalsError);
        }
        var bad, haveRow, res := Scan(lines, approvals.value, only);
        if bad {
          return Refuse(BadLine);
        }
        if scanFails {
          return Refuse(ScanError);
        }
        if !haveRow {
          return Refuse(EmptyLog);
        }
        return Verdict(if |res.unmatched| > 0 then Unmatched else OK, res.readCount, res.writes, res.unmatched,
            NoError);
    }
  }

  lemma NoRows(res: Result, approved: set<string>, only: string)
    requires res.readCount == 0 && res.writes == 0 && res.unmatched == []
    ensures Rows([]) == [] && res.Counts(Scope([], only), approved)
  {
  }

  method JoinApproval(log: Log, approvals: Option<set<string>>, id: string) returns (v: Verdict)
    ensures v == Scoped(log, approvals, id)
  {
    if id == "" {
      return Refuse(NoApproval);
    }
    v := Join(log, approvals, id);
    if v.status != NotRun && v.writes == 0 {
      v := Verdict(NotRun, v.readCount, 0, [], NoWriteRow);
    }
  }

  // ---------------------------------------------------------------- additivity

  /** The writes under one approval id: a scoped join for a named id, the rows without an id otherwise. */
  function WritesUnder(rows: seq<Row>, id: string): nat {
    Count(rows, r => IsWrite(r) && r.approvalID == id)
  }

  function SumOver(rows: seq<Row>, ids: seq<string>): nat
    decreases |ids|
  {
    if ids == [] then 0 else SumOver(rows, ids[..|ids| - 1]) + WritesUnder(rows, ids[|ids| - 1])
  }

  lemma WritesUnderMore(rows: seq<Row>, id: string)
    requires rows != []
    ensures var last := rows[|rows| - 1];
            WritesUnder(rows, id) == WritesUnder(rows[..|rows| - 1], id) + if IsWrite(last)
                && last.approvalID == id then 1 else 0
  {
    hide IsWrite;
  }

  lemma {:induction false} SumMore(rows: seq<Row>, ids: seq<string>)
    requires rows != [] && Distinct(ids)
    ensures var last := rows[|rows| - 1];
            SumOver(rows, ids) == SumOver(rows[..|rows| - 1], ids) + if IsWrite(last)
                && last.approvalID in ids then 1 else 0
    decreases |ids|
  {
    hide IsWrite, WritesUnder;
    if ids != [] {
      var most := ids[..|ids| - 1];
      SumMore(rows, most);
      WritesUnderMore(rows, ids[|ids| - 1]);
      assert ids == most + [ids[|ids| - 1]];
    }
  }

  lemma {:induction false} SumNone(ids: seq<string>)
    ensures SumOver([], ids) == 0
    decreases |ids|
  {
    if ids != [] {
      SumNone(ids[..|ids| - 1]);
    }
  }

  /** All writes are the sum of the writes under each distinct approval id, the empty one included. */
  lemma {:induction false} WritesAddUp(rows: seq<Row>, ids: seq<string>)
    requires Distinct(ids) && forall r | r in rows :: r.approvalID in ids
    ensures Writes(rows) == SumOver(rows, ids)
    decreases |rows|
  {
    hide IsWrite, SumOver;
    if rows == [] {
      SumNone(ids);
    } else {
      assert rows[|rows| - 1] in rows;
      WritesAddUp(rows[..|rows| - 1], ids);
      SumMore(rows, ids);
    }
  }

  lemma {:induction false} ScopeCounts(rows: seq<Row>, id: string)
    requires id != ""
    ensures Writes(Scope(rows, id)) == WritesUnder(rows, id)
    decreases |rows|
  {
    hide IsWrite;
    if rows != [] {
      var most, last := rows[..|rows| - 1], rows[|rows| - 1];
      ScopeCounts(most, id);
      WritesUnderMore(rows, id);
      var mine := Scope(most, id);
      assert (mine + [last])[..|mine|] == mine;
      assert mine + [] == mine;
    }
  }

  lemma {:induction false} ScopeAll(rows: seq<Row>)
    ensures Scope(rows, "") == rows
    decreases |rows|
  {
    if rows != [] {
      ScopeAll(rows[..|rows| - 1]);
    }
  }

  /** On a readable, non-empty log the unscoped join counts what the scoped joins and the rows without an id add up
      to. */
  lemma JoinIsAdditive(log: Log, approved: set<string>, ids: seq<string>)
    requires Readable(log) && Rows(log.lines) != [] && Distinct(ids) && "" !in ids
    requires forall r | r in Rows(log.lines) :: r.approvalID == "" || r.approvalID in ids
    ensures JoinOf(log, Some(approved), "").writes == SumOfScoped(log, approved, ids) + WritesUnder(Rows(log.lines), "")
  {
    hide Rows, Writes, WritesUnder, Scope, Entries;
    var rows := Rows(log.lines);
    ScopeAll(rows);
    WritesAddUp(rows, ids + [""]);
    assert (ids + [""])[..|ids|] == ids;
    SumIsScoped(log, approved, ids);
  }

  function SumOfScoped(log: Log, approved: set<string>, ids: seq<string>): nat
    decreases |ids|
  {
    if ids == [] then 0
    else SumOfScoped(log, approved, ids[..|ids| - 1]) + Scoped(log, Some(approved), ids[|ids| - 1]).writes
  }

  lemma {:induction false} SumIsScoped(log: Log, approved: set<string>, ids: seq<string>)
    requires Readable(log) && Rows(log.lines) != [] && "" !in ids
    ensures SumOfScoped(log, approved, ids) == SumOver(Rows(log.lines), ids)
    decreases |ids|
  {
    hide Rows, Writes, WritesUnder, Scope, Entries;
    if ids != [] {
      SumIsScoped(log, approved, ids[..|ids| - 1]);
      ScopeCounts(Rows(log.lines), ids[|ids| - 1]);
    }
  }

  // ---------------------------------------------------------------- one more row

  lemma {:induction false} RowsSplit(xs: seq<Line>, ys: seq<Line>)
    ensures Rows(xs + ys) == Rows(xs) + Rows(ys)
    decreases |ys|
  {
    if ys == [] {
      assert xs + ys == xs;
    } else {
      var most := ys[..|ys| - 1];
      assert (xs + ys)[..|xs + ys| - 1] == xs + most;
      RowsSplit(xs, most);
    }
  }

  lemma {:induction false} ScopeSplit(xs: seq<Row>, ys: seq<Row>, only: string)
    ensures Scope(xs + ys, only) == Scope(xs, only) + Scope(ys, only)
    decreases |ys|
  {
    if ys == [] {
      assert xs + ys == xs;
    } else {
      var most := ys[..|ys| - 1];
      assert (xs + ys)[..|xs + ys| - 1] == xs + most;
      ScopeSplit(xs, most, only);
    }
  }

  lemma {:induction false} CountSplit(xs: seq<Row>, ys: seq<Row>, p: Row -> bool)
    ensures Count(xs + ys, p) == Count(xs, p) + Count(ys, p)
    decreases |ys|
  {
    if ys == [] {
      assert xs + ys == xs;
    } else {
      var most := ys[..|ys| - 1];
      assert (xs + ys)[..|xs + ys| - 1] == xs + most;
      CountSplit(xs, most, p);
    }
  }

  lemma {:induction false} EntriesSplit(xs: seq<Row>, ys: seq<Row>, approved: set<string>)
    ensures Entries(xs + ys, approved) == Entries(xs, approved) + Entries(ys, approved)
    decreases |ys|
  {
    hide IsWrite, Matched, Entry;
    if ys == [] {
      assert xs + ys == xs;
    } else {
      var most := ys[..|ys| - 1];
      assert (xs + ys)[..|xs + ys| - 1] == xs + most;
      EntriesSplit(xs, most, approved);
    }
  }

  /** The lines of an open log joined one half after the other. */
  lemma HalvesAdd(xs: seq<Line>, ys: seq<Line>, approved: set<string>, only: string)
    requires Bad !in xs && Bad !in ys
    ensures var a, b, v := JoinOf(Opened(xs, false), Some(approved), only),
                           JoinOf(Opened(ys, false), Some(approved), only),
                           JoinOf(Opened(xs + ys, false), Some(approved), only);
            && v.writes == a.writes + b.writes && v.readCount == a.readCount + b.readCount
            && v.unmatched == a.unmatched + b.unmatched
            && (v.why == NoError <==> a.why == NoError || b.why == NoError)
  {
    hide Entries, Count, Rows, Scope;
    RowsSplit(xs, ys);
    ScopeSplit(Rows(xs), Rows(ys), only);
    var mine, yours := Scope(Rows(xs), only), Scope(Rows(ys), only);
    CountSplit(mine, yours, IsWrite);
    CountSplit(mine, yours, IsRead);
    EntriesSplit(mine, yours, approved);
    NothingIn(approved, only);
  }

  lemma NothingIn(approved: set<string>, only: string)
    ensures Scope([], only) == [] && Reads([]) == 0 && Writes([]) == 0 && Entries([], approved) == []
  {
  }

  /** What one line alone says. An intent row is a write. A row without a kind is a write unless its verb is GET or
      HEAD. Any other row with one of these verbs is a read, and the rest are neither. */
  lemma LineAlone(line: Line, approved: set<string>, only: string)
    requires !line.Bad?
    ensures var v := JoinOf(Opened([line], false), Some(approved), only);
            if line.Blank? then v == Verdict(NotRun, 0, 0, [], EmptyLog)
            else
              var r := line.row;
              var counted := only == "" || r.approvalID == only;
              var wrote := counted && (r.kind == "intent" || (r.kind == "" && r.verb != "GET" && r.verb != "HEAD"));
              var read := counted && r.kind != "intent" && (r.verb == "GET" || r.verb == "HEAD");
              var loose := wrote && (r.approvalID !in approved || (r.kind == "intent" && r.approvalID == ""));
              && v.why == NoError
              && v.writes == (if wrote then 1 else 0)
              && v.readCount == (if read then 1 else 0)
              && v.unmatched == (if !loose then []
                                 else if r.kind == "intent" && r.approvalID == "" then
                                   [r.verb + " " + r.path + " (no approval id)"]
                                 else [r.verb + " " + r.path + " approval=" + r.approvalID])
  {
    hide Entry, Count, Scope, Rows;
    OneRow(line, only);
    NothingIn(approved, only);
    if line.Good? {
      CountOne(line.row, IsWrite);
      CountOne(line.row, IsRead);
      EntryOf(line.row);
    }
  }

  lemma OneRow(line: Line, only: string)
    requires !line.Bad?
    ensures Rows([line]) == if line.Good? then [line.row] else []
    ensures line.Good? ==> Scope([line.row], only) == if only == "" || line.row.approvalID == only then [line.row]
                                                     else []
  {
    assert [line][..0] == [];
  }

  lemma CountOne(r: Row, p: Row -> bool)
    ensures Count([r], p) == if p(r) then 1 else 0
  {
    assert [r][..0] == [];
  }

  lemma EntryOf(r: Row)
    ensures Entry(r) == if r.kind == "intent" && r.approvalID == "" then r.verb + " " + r.path + " (no approval id)"
                        else r.verb + " " + r.path + " approval=" + r.approvalID
  {
  }

  /** The verdict on a log whose every line parses is UNMATCHED exactly when some write is listed, and OK otherwise,
      unless the log has no row. */
  lemma StatusOfLog(lines: seq<Line>, approved: set<string>, only: string)
    requires Bad !in lines
    ensures var v := JoinOf(Opened(lines, false), Some(approved), only);
            && (v.status == NotRun <==> v.why == EmptyLog)
            && (v.status == Unmatched <==> v.why == NoError && v.unmatched != [])
            && (v.status == OK <==> v.why == NoError && v.unmatched == [])
  {
    hide Entries, Scope, Rows;
  }

  /** A planted write without an approval, anywhere in the log, is exactly one write and one unmatched row more, and
      stands in the list where it stands in the log. */
  lemma PlantedWriteShows(xs: seq<Line>, r: Row, ys: seq<Line>, approved: set<string>)
    requires r.kind == "intent" && r.approvalID !in approved && Bad !in xs && Bad !in ys
    ensures var more, without := JoinOf(Opened(xs + [Good(r)] + ys, false), Some(approved), ""),
                                 JoinOf(Opened(xs + ys, false), Some(approved), "");
            && more.status == Unmatched && more.why == NoError
            && more.writes == without.writes + 1
            && more.readCount == without.readCount
            && exists k | 0 <= k <= |without.unmatched| ::
                 more.unmatched == without.unmatched[..k]
                   + [r.verb + " " + r.path + if r.approvalID == "" then " (no approval id)"
                                              else " approval=" + r.approvalID]
                   + without.unmatched[k..]
  {
    hide JoinOf;
    HalvesAdd(xs, [Good(r)], approved, "");
    HalvesAdd(xs + [Good(r)], ys, approved, "");
    HalvesAdd(xs, ys, approved, "");
    LineAlone(Good(r), approved, "");
    StatusOfLog(xs + [Good(r)] + ys, approved, "");
    var without := JoinOf(Opened(xs + ys, false), Some(approved), "").unmatched;
    var k := |JoinOf(Opened(xs, false), Some(approved), "").unmatched|;
    assert without[..k] == JoinOf(Opened(xs, false), Some(approved), "").unmatched;
    assert without[k..] == JoinOf(Opened(ys, false), Some(approved), "").unmatched;
    assert r.verb + " " + r.path + " approval=" + r.approvalID == r.verb + " " + r.path + (" approval=" + r.approvalID);
  }

  // ---------------------------------------------------------------- scoped verdicts

  lemma {:induction false} CountPositive(rows: seq<Row>, p: Row -> bool)
    ensures Count(rows, p) > 0 <==> exists r | r in rows :: p(r)
    decreases |rows|
  {
    if rows != [] {
      var most, last := rows[..|rows| - 1], rows[|rows| - 1];
      assert rows == most + [last];
      CountPositive(most, p);
    }
  }

  lemma {:induction false} ScopeMembers(rows: seq<Row>, id: string)
    requires id != ""
    ensures forall r :: r in Scope(rows, id) <==> r in rows && r.approvalID == id
    decreases |rows|
  {
    if rows != [] {
      var most, last := rows[..|rows| - 1], rows[|rows| - 1];
      assert rows == most + [last];
      ScopeMembers(most, id);
    }
  }

  /** When every row carries `id`, either all writes are matched or none is. */
  lemma {:induction false} AllOrNone(rows: seq<Row>, id: string, approved: set<string>)
    requires id != "" && forall r | r in rows :: r.approvalID == id
    ensures |Entries(rows, approved)| == if id in approved then 0 else Writes(rows)
    decreases |rows|
  {
    hide IsWrite, Entry;
    if rows != [] {
      var most, last := rows[..|rows| - 1], rows[|rows| - 1];
      assert last in rows;
      AllOrNone(most, id, approved);
    }
  }

  lemma {:induction false} RowsMembers(lines: seq<Line>)
    ensures forall r :: r in Rows(lines) <==> Good(r) in lines
    ensures Rows(lines) == [] <==> forall l | l in lines :: !l.Good?
    decreases |lines|
  {
    if lines != [] {
      var most, last := lines[..|lines| - 1], lines[|lines| - 1];
      assert lines == most + [last];
      RowsMembers(most);
    }
  }

  /** Some line of the log is a write under the id. */
  predicate WroteUnder(lines: seq<Line>, id: string) {
    exists l | l in lines :: l.Good? && l.row.approvalID == id
                             && (l.row.kind == "intent"
                                 || (l.row.kind == "" && l.row.verb != "GET" && l.row.verb != "HEAD"))
  }

  lemma WroteUnderScope(lines: seq<Line>, id: string)
    requires id != ""
    ensures WroteUnder(lines, id) <==> Writes(Scope(Rows(lines), id)) > 0
  {
    hide Scope, Rows, Count;
    var mine := Scope(Rows(lines), id);
    RowsMembers(lines);
    ScopeMembers(Rows(lines), id);
    CountPositive(mine, IsWrite);
    if Writes(mine) > 0 {
      var r :| r in mine && IsWrite(r);
      assert Good(r) in lines;
    }
    if WroteUnder(lines, id) {
      var l :| l in lines && l.Good? && l.row.approvalID == id
               && (l.row.kind == "intent" || (l.row.kind == "" && l.row.verb != "GET" && l.row.verb != "HEAD"));
      assert l == Good(l.row) && l.row in mine;
    }
  }

  /** The three scoped verdicts: a write row under the id decides against NOT_RUN, the approval decides the rest. */
  lemma ScopedVerdict(log: Log, approved: set<string>, id: string)
    requires Readable(log) && id != ""
    ensures var v := Scoped(log, Some(approved), id);
            && (v.status == OK <==> WroteUnder(log.lines, id) && id in approved)
            && (v.status == Unmatched <==> WroteUnder(log.lines, id) && id !in approved)
            && (v.status == NotRun <==> !WroteUnder(log.lines, id))
            && (v.status == Unmatched ==> |v.unmatched| == v.writes)
            && (v.status == OK ==> v.unmatched == [] && v.writes > 0)
            && (v.status == NotRun ==> v.unmatched == [] && v.writes == 0)
            && (v.why == NoError <==> v.status != NotRun)
            && v.readCount == JoinOf(log, Some(approved), id).readCount
  {
    hide IsWrite, Entry, Scope, Entries, Rows, Count, WroteUnder;
    var rows := Rows(log.lines);
    var mine := Scope(rows, id);
    ScopeMembers(rows, id);
    AllOrNone(mine, id, approved);
    WroteUnderScope(log.lines, id);
    NothingIn(approved, id);
  }

  /** Which of the refusals a log meets: they come in this order, and are never a clean day. */
  lemma RefusalOrder(log: Log, approvals: Option<set<string>>, only: string)
    ensures var v := JoinOf(log, approvals, only);
            && (v.why == NoLog <==> log.Missing?)
            && (v.why == LogError <==> log.Unreadable?)
            && (v.why == ApprovalsError <==> log.Opened? && approvals.None?)
            && (v.why == BadLine <==> log.Opened? && approvals.Some? && Bad in log.lines)
            && (v.why == ScanError <==> log.Opened? && approvals.Some? && Bad !in log.lines && log.scanFails)
            && (v.why == EmptyLog <==> Readable(log) && approvals.Some? && forall l | l in log.lines :: l == Blank)
            && (v.status == NotRun <==> v.why != NoError)
            && (v.status == NotRun ==> v == Verdict(NotRun, 0, 0, [], v.why))
            && Scoped(log, approvals, "") == Verdict(NotRun, 0, 0, [], NoApproval)
            && (only != "" && v.status == NotRun ==> Scoped(log, approvals, only) == v)
  {
    hide Entries, Scope, Rows;
    if log.Opened? {
      RowsMembers(log.lines);
    }
  }
}
