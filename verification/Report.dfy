/** The weekly report (internal/auditrecord/auditrecord.go, KPI): first note per step wins, newest run first. */
module Report {
  import opened Text
  import opened Note
  import opened Recording

  datatype JobRun = JobRun(jobID: string, runID: string)

  datatype JobKPI = JobKPI(jobID: string, runID: string, steps: map<Step, Status>, complete: bool, failed: seq<Step>,
                           auditGaps: seq<Step>, costCents: int64, last: int)

  datatype Dated = Dated(note: Note, at: int)

  function RunOf(n: Note): JobRun {
    JobRun(n.jobID, n.runID)
  }

  /** What one comment contributes: nothing when it is outside the window or not an audit note. */
  function Reading(c: Comment, now: int, window: int): seq<Dated> {
    if c.createdAt < now - window || c.createdAt > now then []
    else match Parse(c.body)
         case None => []
         case Some(n) => [Dated(n, c.createdAt)]
  }

  function Counted(cs: seq<Comment>, now: int, window: int): seq<Dated>
    decreases |cs|
  {
    if cs == [] then [] else Counted(cs[..|cs| - 1], now, window) + Reading(cs[|cs| - 1], now, window)
  }

  // ---------------------------------------------------------------- specification

  /** The position of the first note of a step of a run, or the number of notes. */
  function First(ds: seq<Dated>, k: JobRun, s: Step): (i: nat)
    ensures i <= |ds|
    ensures i < |ds| ==> RunOf(ds[i].note) == k && ds[i].note.step == s
    ensures forall j | 0 <= j < i :: !(RunOf(ds[j].note) == k && ds[j].note.step == s)
    decreases |ds|
  {
    if ds == [] || (RunOf(ds[0].note) == k && ds[0].note.step == s) then 0 else 1 + First(ds[1..], k, s)
  }

  function FirstNotes(ds: seq<Dated>, k: JobRun): map<Step, Note> {
    map s: Step | s in STEPS && First(ds, k, s) < |ds| :: ds[First(ds, k, s)].note
  }

  predicate Mentions(ds: seq<Dated>, k: JobRun) {
    exists d | d in ds :: RunOf(d.note) == k
  }

  /** The runs in the order of their first note. */
  function Runs(ds: seq<Dated>): seq<JobRun>
    decreases |ds|
  {
    if ds == [] then []
    else
      var most, d := ds[..|ds| - 1], ds[|ds| - 1];
      if Mentions(most, RunOf(d.note)) then Runs(most) else Runs(most) + [RunOf(d.note)]
  }

  function Latest(ds: seq<Dated>, k: JobRun): int
    decreases |ds|
  {
    if ds == [] then ZERO_TIME
    else
      var most, d := ds[..|ds| - 1], ds[|ds| - 1];
      if RunOf(d.note) == k && d.at > Latest(most, k) then d.at else Latest(most, k)
  }

  function Cost(notes: map<Step, Note>, steps: seq<Step>): int
    decreases |steps|
  {
    if steps == [] then 0
    else (if steps[0] in notes then notes[steps[0]].cost.costCents else 0) + Cost(notes, steps[1..])
  }

  function Statuses(notes: map<Step, Note>): map<Step, Status> {
    map s | s in notes :: notes[s].status
  }

  predicate Gap(n: Note) {
    n.audit.Some? && n.audit.value.status != "OK"
  }

  function Failed(notes: map<Step, Note>, steps: seq<Step>): seq<Step>
    decreases |steps|
  {
    if steps == [] then []
    else
      var s := steps[|steps| - 1];
      Failed(notes, steps[..|steps| - 1]) + (if s in notes && notes[s].status == FAILED then [s] else [])
  }

  function Gaps(notes: map<Step, Note>, steps: seq<Step>): seq<Step>
    decreases |steps|
  {
    if steps == [] then []
    else
      var s := steps[|steps| - 1];
      Gaps(notes, steps[..|steps| - 1]) + (if s in notes && Gap(notes[s]) then [s] else [])
  }

  /** A row from the first notes of a run alone. */
  function RowOf(k: JobRun, notes: map<Step, Note>, last: int): JobKPI {
    JobKPI(k.jobID, k.runID, Statuses(notes), forall s | s in STEPS :: s in notes, Failed(notes, STEPS),
           Gaps(notes, STEPS), Wrap(Cost(notes, STEPS)), last)
  }

  function Row(ds: seq<Dated>, k: JobRun): JobKPI {
    RowOf(k, FirstNotes(ds, k), Latest(ds, k))
  }

  function Rows(ds: seq<Dated>, ks: seq<JobRun>): seq<JobKPI>
    decreases |ks|
  {
    if ks == [] then [] else Rows(ds, ks[..|ks| - 1]) + [Row(ds, ks[|ks| - 1])]
  }

  // ---------------------------------------------------------------- stable order by `last`, newest first

  ghost predicate NewestFirst(js: seq<JobKPI>) {
    forall i, j | 0 <= i < j < |js| :: js[i].last >= js[j].last
  }

  function AtLast(js: seq<JobKPI>, t: int): seq<JobKPI>
    decreases |js|
  {
    if js == [] then []
    else if js[0].last == t then [js[0]] + AtLast(js[1..], t)
    else AtLast(js[1..], t)
  }

  ghost predicate SameTies(rows: seq<JobKPI>, out: seq<JobKPI>) {
    forall t :: AtLast(out, t) == AtLast(rows, t)
  }

  /** `out` is `rows` newest first, rows of equal age in their old order. */
  ghost predicate Ranked(rows: seq<JobKPI>, out: seq<JobKPI>) {
    NewestFirst(out) && SameTies(rows, out)
  }

  lemma {:induction false} AtLastSplit(xs: seq<JobKPI>, ys: seq<JobKPI>, t: int)
    ensures AtLast(xs + ys, t) == AtLast(xs, t) + AtLast(ys, t)
    decreases |xs|
  {
    if xs == [] {
      assert xs + ys == ys;
    } else {
      assert (xs + ys)[1..] == xs[1..] + ys;
      AtLastSplit(xs[1..], ys, t);
    }
  }

  lemma SwapKeepsTies(rows: seq<JobKPI>, js: seq<JobKPI>, k: nat)
    requires SameTies(rows, js) && 0 < k < |js| && js[k].last != js[k - 1].last
    ensures SameTies(rows, js[k := js[k - 1]][k - 1 := js[k]])
  {
    forall t
      ensures AtLast(js[k := js[k - 1]][k - 1 := js[k]], t) == AtLast(rows, t)
    {
      SwapKeeps(js, k, t);
    }
  }

  lemma SwapKeeps(js: seq<JobKPI>, k: nat, t: int)
    requires 0 < k < |js| && js[k].last != js[k - 1].last
    ensures AtLast(js[k := js[k - 1]][k - 1 := js[k]], t) == AtLast(js, t)
  {
    var a, x, y, b := js[..k - 1], js[k - 1], js[k], js[k + 1..];
    assert js == a + ([x] + [y] + b);
    assert js[k := x][k - 1 := y] == a + ([y] + [x] + b);
    AtLastSplit(a, [x] + [y] + b, t);
    AtLastSplit(a, [y] + [x] + b, t);
    AtLastSplit([x] + [y], b, t);
    AtLastSplit([y] + [x], b, t);
    AtLastSplit([x], [y], t);
    AtLastSplit([y], [x], t);
  }

  lemma {:induction false} AtLastMembers(js: seq<JobKPI>, t: int)
    ensures forall j :: j in AtLast(js, t) <==> j in js && j.last == t
    decreases |js|
  {
    if js != [] {
      AtLastMembers(js[1..], t);
      assert js == [js[0]] + js[1..];
    }
  }

  /** The order by age with ties kept determines the list. */
  lemma {:induction false} RankedIsUnique(rows: seq<JobKPI>, a: seq<JobKPI>, b: seq<JobKPI>)
    requires Ranked(rows, a) && Ranked(rows, b)
    ensures a == b
    decreases |a|
  {
    if a == [] || b == [] {
      var c := if a == [] then b else a;
      if c != [] {
        AtLastMembers(a, c[0].last);
        AtLastMembers(b, c[0].last);
      }
    } else {
      HeadsAgree(rows, a, b);
      forall t
        ensures AtLast(a[1..], t) == AtLast(b[1..], t)
      {
        assert AtLast(a, t) == AtLast(b, t);
        if t == a[0].last {
          assert AtLast(a[1..], t) == AtLast(a, t)[1..] && AtLast(b[1..], t) == AtLast(b, t)[1..];
        }
      }
      RankedIsUnique(a[1..], a[1..], b[1..]);
    }
  }

  lemma HeadsAgree(rows: seq<JobKPI>, a: seq<JobKPI>, b: seq<JobKPI>)
    requires Ranked(rows, a) && Ranked(rows, b) && a != [] && b != []
    ensures a[0] == b[0]
  {
    AtLastMembers(a, b[0].last);
    AtLastMembers(b, b[0].last);
    AtLastMembers(a, a[0].last);
    AtLastMembers(b, a[0].last);
    assert a[0] in a && b[0] in b;
    assert b[0] in AtLast(a, b[0].last) && a[0] in AtLast(b, a[0].last);
    assert b[0] in a && a[0] in b;
    var i :| 0 <= i < |a| && a[i] == b[0];
    var j :| 0 <= j < |b| && b[j] == a[0];
    assert a[0].last == b[0].last;
    assert AtLast(a, a[0].last)[0] == a[0] && AtLast(b, a[0].last)[0] == b[0];
  }

  lemma AlreadyTied(rows: seq<JobKPI>)
    ensures SameTies(rows, rows)
  {
  }

  /** `sortByLastDesc`, in place. */
  method SortByLastDesc(js: array<JobKPI>)
    modifies js
    ensures Ranked(old(js[..]), js[..])
  {
    hide SameTies;
    ghost var was := js[..];
    AlreadyTied(was);
    var i := 1;
    while i < js.Length
      invariant 1 <= i
      invariant forall a, b | 0 <= a < b < i && b < js.Length :: js[a].last >= js[b].last
      invariant SameTies(was, js[..])
    {
      var k := i;
      while k > 0 && js[k].last > js[k - 1].last
        invariant 0 <= k <= i < js.Length
        invariant forall a, b | 0 <= a < b <= i && a != k && b != k :: js[a].last >= js[b].last
        invariant forall b | k < b <= i :: js[k].last > js[b].last
        invariant SameTies(was, js[..])
      {
        SwapKeepsTies(was, js[..], k);
        ghost var next := js[..][k := js[k - 1]][k - 1 := js[k]];
        js[k], js[k - 1] := js[k - 1], js[k];
        assert js[..] == next;
        k := k - 1;
      }
      i := i + 1;
    }
  }

  // ---------------------------------------------------------------- one more note

  predicate Valid(ds: seq<Dated>) {
    forall d | d in ds :: ValidStep(d.note.step)
  }

  lemma {:induction false} FirstMore(ds: seq<Dated>, d: Dated, k: JobRun, s: Step)
    ensures First(ds + [d], k, s) ==
            if First(ds, k, s) < |ds| then First(ds, k, s)
            else if RunOf(d.note) == k && d.note.step == s then |ds| else |ds| + 1
    decreases |ds|
  {
    var all := ds + [d];
    if ds == [] {
      assert all[1..] == [];
    } else {
      assert all[1..] == ds[1..] + [d];
      FirstMore(ds[1..], d, k, s);
    }
  }

  lemma FirstNotesMore(ds: seq<Dated>, d: Dated, k: JobRun)
    requires ValidStep(d.note.step)
    ensures FirstNotes(ds + [d], k) ==
            if RunOf(d.note) == k && d.note.step !in FirstNotes(ds, k) then FirstNotes(ds, k)[d.note.step := d.note]
            else FirstNotes(ds, k)
  {
    hide First, ValidStep;
    var m, next := FirstNotes(ds, k), FirstNotes(ds + [d], k);
    forall s | s in STEPS
      ensures s in next <==> s in m || (RunOf(d.note) == k && d.note.step == s)
      ensures s in m ==> next[s] == m[s]
      ensures s !in m && s in next ==> next[s] == d.note
    {
      FirstMore(ds, d, k, s);
    }
    StepListed(d.note.step);
  }

  lemma StepListed(s: Step)
    ensures ValidStep(s) <==> s in STEPS
  {
  }

  lemma {:induction false} MentionsFirst(ds: seq<Dated>, k: JobRun)
    ensures Mentions(ds, k) <==> k in Runs(ds)
    decreases |ds|
  {
    if ds != [] {
      var most, d := ds[..|ds| - 1], ds[|ds| - 1];
      assert ds == most + [d];
      MentionsFirst(most, k);
      if Mentions(most, k) {
        var e :| e in most && RunOf(e.note) == k;
        assert e in ds;
      }
    }
  }

  /** Each run has one row. */
  lemma {:induction false} RunsAreDistinct(ds: seq<Dated>)
    ensures forall i, j | 0 <= i < j < |Runs(ds)| :: Runs(ds)[i] != Runs(ds)[j]
    decreases |ds|
  {
    if ds != [] {
      var most := ds[..|ds| - 1];
      RunsAreDistinct(most);
      MentionsFirst(most, RunOf(ds[|ds| - 1].note));
    }
  }

  lemma {:induction false} CostMore(notes: map<Step, Note>, s: Step, n: Note, steps: seq<Step>)
    requires s !in notes && forall i, j | 0 <= i < j < |steps| :: steps[i] != steps[j]
    ensures Cost(notes[s := n], steps) == Cost(notes, steps) + if s in steps then n.cost.costCents else 0
    decreases |steps|
  {
    if steps != [] {
      CostMore(notes, s, n, steps[1..]);
      if steps[0] == s {
        assert s !in steps[1..];
      }
    }
  }

  /** Five distinct steps: a run is complete when it has as many statuses as there are steps. */
  lemma CompleteByCount(notes: map<Step, Note>)
    requires forall s | s in notes :: s in STEPS
    ensures |Statuses(notes)| == |STEPS| <==> forall s | s in STEPS :: s in notes
  {
    var all := AllSteps();
    assert Statuses(notes).Keys == notes.Keys <= all;
    Subset(notes.Keys, all);
    if forall s | s in all :: s in notes {
      assert notes.Keys == all;
    }
  }

  lemma AllSteps() returns (all: set<Step>)
    ensures |all| == |STEPS| && forall s :: s in all <==> s in STEPS
  {
    all := {"research", "price", "publish", "verify", "rollback"};
    assert "research"[0] == 'r' && "price"[0] == 'p' && "publish"[1] == 'u' && "verify"[0] == 'v'
        && "rollback"[1] == 'o';
    assert "research"[1] == 'e' && "price"[1] == 'r';
  }

  lemma {:induction false} Subset<T>(a: set<T>, b: set<T>)
    requires a <= b
    ensures |a| == |b| <==> a == b
    ensures |a| <= |b|
    decreases |b|
  {
    if b != {} {
      var x :| x in b;
      if x in a {
        Subset(a - {x}, b - {x});
        if |a| == |b| {
          assert a == (a - {x}) + {x} == (b - {x}) + {x} == b;
        }
      } else {
        Subset(a, b - {x});
      }
    }
  }

  lemma ReadingIsValid(c: Comment, now: int, window: int)
    ensures Valid(Reading(c, now, window))
  {
    hide ParseLines, Split, FieldMap, ValidStep;
    if Parse(c.body).Some? {
      var lines := Split(c.body, '\n');
      LinesKeepKey(ParseKey(lines[0]).value, lines[1..]);
    }
  }

  // ---------------------------------------------------------------- the fold

  /** The rows under construction: everything but the fields the second loop fills in. */
  ghost predicate Building(ds: seq<Dated>, rows: map<JobRun, JobKPI>, order: seq<JobRun>,
          notes: map<JobRun, map<Step, Note>>) {
    && order == Runs(ds)
    && (forall k :: k in rows <==> k in order) && (forall k :: k in notes <==> k in order)
    && forall k | k in order ::
         && notes[k] == FirstNotes(ds, k)
         && rows[k] == JobKPI(k.jobID, k.runID, Statuses(FirstNotes(ds, k)), false, [], [],
                              Wrap(Cost(FirstNotes(ds, k), STEPS)), Latest(ds, k))
  }

  lemma FreshRun(ds: seq<Dated>, k: JobRun)
    requires k !in Runs(ds)
    ensures FirstNotes(ds, k) == map[] && Latest(ds, k) == ZERO_TIME && Cost(map[], STEPS) == 0
        && Statuses(map[]) == map[]
    decreases |ds|
  {
    MentionsFirst(ds, k);
    if ds != [] {
      var most := ds[..|ds| - 1];
      assert ds == most + [ds[|ds| - 1]];
      MentionsFirst(most, k);
      FreshRun(most, k);
    }
    forall s | s in STEPS
      ensures First(ds, k, s) == |ds|
    {
      var i := First(ds, k, s);
      if i < |ds| {
        assert false;
      }
    }
  }

  lemma LatestMore(ds: seq<Dated>, d: Dated, k: JobRun)
    ensures Latest(ds + [d], k) == if RunOf(d.note) == k && d.at > Latest(ds, k) then d.at else Latest(ds, k)
  {
    assert (ds + [d])[..|ds|] == ds;
  }

  lemma RunsMore(ds: seq<Dated>, d: Dated)
    ensures Runs(ds + [d]) == if RunOf(d.note) in Runs(ds) then Runs(ds) else Runs(ds) + [RunOf(d.note)]
  {
    assert (ds + [d])[..|ds|] == ds;
    MentionsFirst(ds, RunOf(d.note));
  }

  /** The note's effect on the rows of other runs is none, and on its own row what the loop body does. */
  lemma NoteCounts(ds: seq<Dated>, d: Dated, k: JobRun)
    requires ValidStep(d.note.step)
    ensures RunOf(d.note) != k ==> FirstNotes(ds + [d], k) == FirstNotes(ds, k) && Latest(ds + [d], k) == Latest(ds, k)
    ensures RunOf(d.note) == k && d.note.step in FirstNotes(ds, k) ==> FirstNotes(ds + [d], k) == FirstNotes(ds, k)
    ensures RunOf(d.note) == k && d.note.step !in FirstNotes(ds, k) ==>
              && FirstNotes(ds + [d], k) == FirstNotes(ds, k)[d.note.step := d.note]
              && Statuses(FirstNotes(ds + [d], k)) == Statuses(FirstNotes(ds, k))[d.note.step := d.note.status]
              && Wrap(Cost(FirstNotes(ds + [d], k), STEPS)) ==
                 Wrap(Wrap(Cost(FirstNotes(ds, k), STEPS)) + d.note.cost.costCents)
    ensures Latest(ds + [d], k) == if RunOf(d.note) == k && d.at > Latest(ds, k) then d.at else Latest(ds, k)
  {
    hide FirstNotes, Latest, Wrap, ValidStep, Cost;
    FirstNotesMore(ds, d, k);
    LatestMore(ds, d, k);
    StepListed(d.note.step);
    if d.note.step !in FirstNotes(ds, k) {
      StepsAreDistinct();
      CostMore(FirstNotes(ds, k), d.note.step, d.note, STEPS);
      WrapAdd(Cost(FirstNotes(ds, k), STEPS), d.note.cost.costCents);
    }
  }

  lemma StepsAreDistinct()
    ensures forall i, j | 0 <= i < j < |STEPS| :: STEPS[i] != STEPS[j]
  {
    assert forall s | s in STEPS :: |s| > 1;
    assert STEPS[0][..2] == "re" && STEPS[1][..2] == "pr" && STEPS[2][..2] == "pu" && STEPS[3][..2] == "ve"
        && STEPS[4][..2] == "ro";
  }

  method Count(ghost ds: seq<Dated>, d: Dated, rows0: map<JobRun, JobKPI>, order0: seq<JobRun>,
          notes0: map<JobRun, map<Step, Note>>)
    returns (rows: map<JobRun, JobKPI>, order: seq<JobRun>, notes: map<JobRun, map<Step, Note>>)
    requires Building(ds, rows0, order0, notes0) && ValidStep(d.note.step)
    ensures Building(ds + [d], rows, order, notes)
  {
    hide FirstNotes, Latest, Wrap, ValidStep, Cost, Runs, Statuses;
    rows, order, notes := rows0, order0, notes0;
    var k := RunOf(d.note);
    RunsMore(ds, d);
    forall other
      ensures RunOf(d.note) != other ==>
            FirstNotes(ds + [d], other) == FirstNotes(ds, other) && Latest(ds + [d], other) == Latest(ds, other)
    {
      NoteCounts(ds, d, other);
    }
    NoteCounts(ds, d, k);
    if k !in rows {
      FreshRun(ds, k);
      WrapZero();
      rows := rows[k := JobKPI(k.jobID, k.runID, map[], false, [], [], 0, ZERO_TIME)];
      order := order + [k];
      notes := notes[k := map[]];
    }
    var j := rows[k];
    if d.at > j.last {
      j := j.(last := d.at);
    }
    StatusKeys(FirstNotes(ds, k));
    if d.note.step !in j.steps {
      j := j.(steps := j.steps[d.note.step := d.note.status], costCents := Wrap(j.costCents + d.note.cost.costCents));
      notes := notes[k := notes[k][d.note.step := d.note]];
    }
    rows := rows[k := j];
  }

  lemma WrapZero()
    ensures Wrap(0) == 0
  {
  }

  lemma StatusKeys(notes: map<Step, Note>)
    ensures forall s :: s in Statuses(notes) <==> s in notes
  {
  }

  /** The second loop: what the first notes say, step by step in job order. */
  method Judge(notes: map<Step, Note>, steps: seq<Step>) returns (failed: seq<Step>, gaps: seq<Step>)
    ensures failed == Failed(notes, steps) && gaps == Gaps(notes, steps)
  {
    failed, gaps := [], [];
    var i := 0;
    while i < |steps|
      invariant i <= |steps| && failed == Failed(notes, steps[..i]) && gaps == Gaps(notes, steps[..i])
    {
      assert steps[..i + 1][..i] == steps[..i];
      var s := steps[i];
      if s in notes {
        if notes[s].status == FAILED {
          failed := failed + [s];
        }
        if Gap(notes[s]) {
          gaps := gaps + [s];
        }
      }
      i := i + 1;
    }
    assert steps[..i] == steps;
  }

  method Finish(k: JobRun, j0: JobKPI, notes: map<Step, Note>) returns (j: JobKPI)
    requires (forall s | s in notes :: s in STEPS) && j0.jobID == k.jobID && j0.runID == k.runID
    requires j0.steps == Statuses(notes) && j0.costCents == Wrap(Cost(notes, STEPS))
    ensures j == RowOf(k, notes, j0.last)
  {
    hide Wrap, Cost, Statuses, Failed, Gaps;
    var failed, gaps := Judge(notes, STEPS);
    CompleteByCount(notes);
    j := j0.(failed := failed, auditGaps := gaps, complete := |j0.steps| == |STEPS|);
  }

  /** The first loop of `KPI`. */
  method Build(comments: seq<Comment>, now: int, window: int)
    returns (rows: map<JobRun, JobKPI>, order: seq<JobRun>, notes: map<JobRun, map<Step, Note>>)
    ensures Building(Counted(comments, now, window), rows, order, notes)
  {
    hide Building, ValidStep, Parse, Counted;
    rows, order, notes := map[], [], map[];
    NothingBuilt();
    CountedNone(now, window);
    var i := 0;
    while i < |comments|
      invariant i <= |comments| && Building(Counted(comments[..i], now, window), rows, order, notes)
    {
      var c := comments[i];
      ghost var ds := Counted(comments[..i], now, window);
      assert comments[..i + 1] == comments[..i] + [c];
      CountedMore(comments[..i], c, now, window);
      ReadingIsValid(c, now, window);
      i := i + 1;
      if c.createdAt < now - window || c.createdAt > now {
        assert ds + [] == ds;
        continue;
      }
      var n := Parse(c.body);
      if n.None? {
        assert ds + [] == ds;
        continue;
      }
      var d := Dated(n.value, c.createdAt);
      assert Reading(c, now, window) == [d];
      assert d in [d];
      rows, order, notes := Count(ds, d, rows, order, notes);
    }
    assert comments[..i] == comments;
  }

  lemma CountedMore(cs: seq<Comment>, c: Comment, now: int, window: int)
    ensures Counted(cs + [c], now, window) == Counted(cs, now, window) + Reading(c, now, window)
  {
    assert (cs + [c])[..|cs|] == cs;
  }

  /** `KPI`. */
  method KPI(comments: seq<Comment>, now: int, window: int) returns (out: seq<JobKPI>)
    ensures var ds := Counted(comments, now, window); Ranked(Rows(ds, Runs(ds)), out)
  {
    hide FirstNotes, Latest, Wrap, Cost, Runs, Statuses, Ranked, Counted, RowOf;
    var rows, order, notes := Build(comments, now, window);
    ghost var ds := Counted(comments, now, window);
    var js := new JobKPI[|order|](n requires n < |order| => JobKPI("", "", map[], false, [], [], 0, 0));
    var i := 0;
    while i < |order|
      invariant i <= |order| && js[..i] == Rows(ds, order[..i])
    {
      var k := order[i];
      assert order[..i + 1][..i] == order[..i];
      assert k in order;
      OnlySteps(ds, k);
      js[i] := Finish(k, rows[k], notes[k]);
      assert js[..i + 1] == js[..i] + [js[i]];
      i := i + 1;
    }
    assert order[..i] == order && js[..i] == js[..];
    SortByLastDesc(js);
    out := js[..];
  }

  lemma NothingBuilt()
    ensures Building([], map[], [], map[])
  {
  }

  lemma OnlySteps(ds: seq<Dated>, k: JobRun)
    ensures forall s | s in FirstNotes(ds, k) :: s in STEPS
  {
  }

  // ---------------------------------------------------------------- what the report depends on

  lemma {:induction false} FirstInserted(xs: seq<Dated>, d: Dated, ys: seq<Dated>, k: JobRun, s: Step)
    requires First(xs, RunOf(d.note), d.note.step) < |xs|
    ensures var i := First(xs + ys, k, s);
            First(xs + [d] + ys, k, s) == if i < |xs| then i else i + 1
    decreases |xs|
  {
    var all, without := xs + [d] + ys, xs + ys;
    assert all[0] == xs[0] == without[0];
    assert all[1..] == xs[1..] + [d] + ys && without[1..] == xs[1..] + ys;
    if RunOf(xs[0].note) == RunOf(d.note) && xs[0].note.step == d.note.step {
      if !(RunOf(xs[0].note) == k && xs[0].note.step == s) {
        SkipOther(xs[1..], d, ys, k, s);
      }
    } else {
      FirstInserted(xs[1..], d, ys, k, s);
    }
  }

  /** A note of another key only shifts what comes after it. */
  lemma {:induction false} SkipOther(xs: seq<Dated>, d: Dated, ys: seq<Dated>, k: JobRun, s: Step)
    requires !(RunOf(d.note) == k && d.note.step == s)
    ensures var i := First(xs + ys, k, s);
            First(xs + [d] + ys, k, s) == if i < |xs| then i else i + 1
    decreases |xs|
  {
    var all, without := xs + [d] + ys, xs + ys;
    if xs == [] {
      assert all[1..] == ys == without;
    } else {
      assert all[1..] == xs[1..] + [d] + ys && without[1..] == xs[1..] + ys;
      SkipOther(xs[1..], d, ys, k, s);
    }
  }

  lemma {:induction false} RunsInserted(xs: seq<Dated>, d: Dated, ys: seq<Dated>)
    requires Mentions(xs, RunOf(d.note))
    ensures Runs(xs + [d] + ys) == Runs(xs + ys)
    decreases |ys|
  {
    hide Mentions;
    var all, without := xs + [d] + ys, xs + ys;
    if ys == [] {
      assert all == xs + [d] && without == xs;
      RunsMore(xs, d);
      MentionsFirst(xs, RunOf(d.note));
    } else {
      var most := ys[..|ys| - 1];
      assert all[..|all| - 1] == xs + [d] + most && without[..|without| - 1] == xs + most;
      RunsInserted(xs, d, most);
      SameMentions(xs, d, most, RunOf(ys[|ys| - 1].note));
    }
  }

  lemma SameMentions(xs: seq<Dated>, d: Dated, ys: seq<Dated>, k: JobRun)
    requires Mentions(xs, RunOf(d.note))
    ensures Mentions(xs + [d] + ys, k) <==> Mentions(xs + ys, k)
  {
    var e :| e in xs && RunOf(e.note) == RunOf(d.note);
    assert e in xs + ys;
    if Mentions(xs + ys, k) {
      var f :| f in xs + ys && RunOf(f.note) == k;
      assert f in xs + [d] + ys;
    }
    if Mentions(xs + [d] + ys, k) {
      var f :| f in xs + [d] + ys && RunOf(f.note) == k;
      assert f in xs + ys || f == d;
    }
  }

  /** The later note of a recorded step changes no row except for its time, and no row is added or dropped. */
  lemma DuplicateChangesOnlyLast(xs: seq<Dated>, d: Dated, ys: seq<Dated>, k: JobRun)
    requires First(xs, RunOf(d.note), d.note.step) < |xs|
    ensures Runs(xs + [d] + ys) == Runs(xs + ys)
    ensures Row(xs + [d] + ys, k) == Row(xs + ys, k).(last := Latest(xs + [d] + ys, k))
    ensures k != RunOf(d.note) ==> Row(xs + [d] + ys, k) == Row(xs + ys, k)
  {
    hide First;
    var i := First(xs, RunOf(d.note), d.note.step);
    assert xs[i] in xs;
    RunsInserted(xs, d, ys);
    var all, without := xs + [d] + ys, xs + ys;
    forall s | s in STEPS
      ensures First(all, k, s) < |all| <==> First(without, k, s) < |without|
      ensures First(all, k, s) < |all| ==> all[First(all, k, s)] == without[First(without, k, s)]
    {
      FirstInserted(xs, d, ys, k, s);
      FirstBound(without, k, s);
    }
    assert FirstNotes(all, k) == FirstNotes(without, k);
    if k != RunOf(d.note) {
      LatestElsewhere(xs, d, ys, k);
    }
  }

  lemma FirstBound(ds: seq<Dated>, k: JobRun, s: Step)
    ensures First(ds, k, s) <= |ds|
  {
  }

  lemma {:induction false} LatestElsewhere(xs: seq<Dated>, d: Dated, ys: seq<Dated>, k: JobRun)
    requires k != RunOf(d.note)
    ensures Latest(xs + [d] + ys, k) == Latest(xs + ys, k)
    decreases |ys|
  {
    var all, without := xs + [d] + ys, xs + ys;
    if ys == [] {
      assert all[..|xs|] == xs == without;
    } else {
      var most := ys[..|ys| - 1];
      assert all[..|all| - 1] == xs + [d] + most && without[..|without| - 1] == xs + most;
      LatestElsewhere(xs, d, most, k);
    }
  }

  lemma {:induction false} CountedSplit(xs: seq<Comment>, ys: seq<Comment>, now: int, window: int)
    ensures Counted(xs + ys, now, window) == Counted(xs, now, window) + Counted(ys, now, window)
    decreases |ys|
  {
    hide Reading;
    if ys == [] {
      assert xs + ys == xs;
    } else {
      assert (xs + ys)[..|xs + ys| - 1] == xs + ys[..|ys| - 1];
      CountedSplit(xs, ys[..|ys| - 1], now, window);
    }
  }

  /** A comment that repeats a recorded step can change only the time and so the place of its run's row. */
  lemma RepeatedNoteIsHarmless(xs: seq<Comment>, c: Comment, ys: seq<Comment>, now: int, window: int, k: JobRun)
    requires forall d | d in Reading(c, now, window) ::
               First(Counted(xs, now, window), RunOf(d.note), d.note.step) < |Counted(xs, now, window)|
    ensures var all, without := Counted(xs + [c] + ys, now, window), Counted(xs + ys, now, window);
            && Runs(all) == Runs(without)
            && Row(all, k) == Row(without, k).(last := Latest(all, k))
            && (!Mentions(Reading(c, now, window), k) ==> Row(all, k) == Row(without, k))
  {
    hide First, Row, Reading, Runs, Latest;
    var a, b := Counted(xs, now, window), Counted(ys, now, window);
    CountedSplit(xs + [c], ys, now, window);
    CountedSplit(xs, [c], now, window);
    CountedSplit(xs, ys, now, window);
    assert Counted([c], now, window) == Reading(c, now, window) by {
      assert [c][..0] == [];
      CountedNone(now, window);
    }
    ReadingIsShort(c, now, window);
    if Reading(c, now, window) == [] {
      assert a + [] + b == a + b;
      SameRow(a + b, k);
    } else {
      var d := Reading(c, now, window)[0];
      assert Reading(c, now, window) == [d];
      assert d in [d];
      DuplicateChangesOnlyLast(a, d, b, k);
    }
  }

  lemma CountedNone(now: int, window: int)
    ensures Counted([], now, window) == []
  {
  }

  lemma ReadingIsShort(c: Comment, now: int, window: int)
    ensures |Reading(c, now, window)| <= 1
  {
    hide Parse;
  }

  lemma SameRow(ds: seq<Dated>, k: JobRun)
    ensures Row(ds, k) == Row(ds, k).(last := Latest(ds, k))
  {
  }

  /** The rows are exactly the runs with a counted note, one each, and sorting loses none. */
  lemma {:induction false} RowsCover(ds: seq<Dated>, ks: seq<JobRun>)
    ensures |Rows(ds, ks)| == |ks| && forall i | 0 <= i < |ks| :: Rows(ds, ks)[i] == Row(ds, ks[i])
    decreases |ks|
  {
    hide Row;
    if ks != [] {
      RowsCover(ds, ks[..|ks| - 1]);
    }
  }

  lemma RowIsNamed(ds: seq<Dated>, k: JobRun)
    ensures JobRun(Row(ds, k).jobID, Row(ds, k).runID) == k
  {
  }

  lemma TiedMembers(rows: seq<JobKPI>, out: seq<JobKPI>)
    requires SameTies(rows, out)
    ensures forall j :: j in out <==> j in rows
    ensures |out| == |rows|
  {
    forall j
      ensures j in out <==> j in rows
    {
      AtLastMembers(out, j.last);
      AtLastMembers(rows, j.last);
    }
    SameLength(rows, out);
  }

  lemma OneRowPerRun(ds: seq<Dated>, out: seq<JobKPI>)
    requires Ranked(Rows(ds, Runs(ds)), out)
    ensures forall k :: (exists j | j in out :: j == Row(ds, k) && JobRun(j.jobID, j.runID) == k) <==> Mentions(ds, k)
    ensures forall j | j in out :: j == Row(ds, JobRun(j.jobID, j.runID))
    ensures |out| == |Runs(ds)|
  {
    hide Row, Rows, Runs, SameTies, Mentions;
    var rows := Rows(ds, Runs(ds));
    RowsCover(ds, Runs(ds));
    TiedMembers(rows, out);
    forall k
      ensures (exists j | j in out :: j == Row(ds, k) && JobRun(j.jobID, j.runID) == k) <==> Mentions(ds, k)
    {
      RowIsNamed(ds, k);
      MentionsFirst(ds, k);
      if Mentions(ds, k) {
        var i :| 0 <= i < |Runs(ds)| && Runs(ds)[i] == k;
        assert rows[i] == Row(ds, k) && rows[i] in rows;
      } else if Row(ds, k) in rows {
        var i :| 0 <= i < |rows| && rows[i] == Row(ds, k);
        RowIsNamed(ds, Runs(ds)[i]);
      }
    }
    forall j | j in out
      ensures j == Row(ds, JobRun(j.jobID, j.runID))
    {
      var i :| 0 <= i < |rows| && rows[i] == j;
      RowIsNamed(ds, Runs(ds)[i]);
    }
  }

  lemma HeadIsThere(js: seq<JobKPI>)
    ensures js != [] ==> AtLast(js, js[0].last) != []
  {
  }

  lemma {:induction false} SameLength(a: seq<JobKPI>, b: seq<JobKPI>)
    requires forall t :: AtLast(a, t) == AtLast(b, t)
    ensures |a| == |b|
    decreases |a|
  {
    if a == [] {
      HeadIsThere(b);
    } else {
      var t0 := a[0].last;
      assert AtLast(a, t0) == AtLast(b, t0) && AtLast(a, t0)[0] == a[0];
      var i := Where(b, t0);
      var rest := b[..i] + b[i + 1..];
      forall t
        ensures AtLast(a[1..], t) == AtLast(rest, t)
      {
        assert b == b[..i] + ([b[i]] + b[i + 1..]);
        AtLastSplit(b[..i], [b[i]] + b[i + 1..], t);
        AtLastSplit([b[i]], b[i + 1..], t);
        AtLastSplit(b[..i], b[i + 1..], t);
        assert AtLast(a, t) == AtLast(b, t);
        if t == t0 {
          assert AtLast(a[1..], t) == AtLast(a, t)[1..];
          NoneBefore(b[..i], t);
          assert AtLast(rest, t) == AtLast(b, t)[1..];
        }
      }
      SameLength(a[1..], rest);
    }
  }

  lemma {:induction false} NoneBefore(js: seq<JobKPI>, t: int)
    requires forall j | j in js :: j.last != t
    ensures AtLast(js, t) == []
    decreases |js|
  {
    if js != [] {
      assert js[0] in js;
      NoneBefore(js[1..], t);
    }
  }

  /** The first position of a row of this time. */
  lemma {:induction false} Where(js: seq<JobKPI>, t: int) returns (i: nat)
    requires AtLast(js, t) != []
    ensures i < |js| && js[i].last == t && forall j | j in js[..i] :: j.last != t
    decreases |js|
  {
    if js[0].last == t {
      i := 0;
    } else {
      var k := Where(js[1..], t);
      i := k + 1;
      assert js[..i] == [js[0]] + js[1..][..k];
    }
  }

  /** The whole report with and without a comment that repeats a recorded step: as many rows, each with a
      counterpart that differs at most in its time, and the rows of all other runs are equal. */
  lemma RepeatedNoteInReport(xs: seq<Comment>, c: Comment, ys: seq<Comment>, now: int, window: int, out: seq<JobKPI>,
          before: seq<JobKPI>)
    requires forall d | d in Reading(c, now, window) ::
               First(Counted(xs, now, window), RunOf(d.note), d.note.step) < |Counted(xs, now, window)|
    requires var all := Counted(xs + [c] + ys, now, window); Ranked(Rows(all, Runs(all)), out)
    requires var without := Counted(xs + ys, now, window); Ranked(Rows(without, Runs(without)), before)
    ensures |out| == |before|
    ensures forall j | j in out :: exists i | i in before :: j == i.(last := j.last)
    ensures forall j: JobKPI | !Mentions(Reading(c, now, window), JobRun(j.jobID, j.runID)) :: j in out <==> j in before
  {
    hide First, Row, Rows, Reading, Runs, Counted, Ranked, Latest;
    var all, without := Counted(xs + [c] + ys, now, window), Counted(xs + ys, now, window);
    OneRowPerRun(all, out);
    OneRowPerRun(without, before);
    forall k: JobRun
      ensures Runs(all) == Runs(without) && Row(all, k) == Row(without, k).(last := Latest(all, k))
      ensures !Mentions(Reading(c, now, window), k) ==> Row(all, k) == Row(without, k)
    {
      RepeatedNoteIsHarmless(xs, c, ys, now, window, k);
    }
    RepeatedNoteIsHarmless(xs, c, ys, now, window, JobRun("", ""));
    forall k: JobRun
      ensures Mentions(all, k) <==> Mentions(without, k)
    {
      MentionsFirst(all, k);
      MentionsFirst(without, k);
    }
    forall j | j in out
      ensures exists i | i in before :: j == i.(last := j.last)
      ensures !Mentions(Reading(c, now, window), JobRun(j.jobID, j.runID)) ==> j in before
    {
      var k := JobRun(j.jobID, j.runID);
      assert j == Row(all, k) && Mentions(all, k);
      var i :| i in before && i == Row(without, k) && JobRun(i.jobID, i.runID) == k;
      assert j == i.(last := j.last);
    }
    forall j | j in before && !Mentions(Reading(c, now, window), JobRun(j.jobID, j.runID))
      ensures j in out
    {
      var k := JobRun(j.jobID, j.runID);
      assert j == Row(without, k) && Mentions(without, k);
      var i :| i in out && i == Row(all, k) && JobRun(i.jobID, i.runID) == k;
    }
  }

  // ---------------------------------------------------------------- what a row says of the first notes

  /** The steps for which `holds` is true, in their order. */
  function Those(steps: seq<Step>, holds: Step -> bool): seq<Step>
    decreases |steps|
  {
    if steps == [] then []
    else
      var s := steps[|steps| - 1];
      Those(steps[..|steps| - 1], holds) + if holds(s) then [s] else []
  }

  lemma {:induction false} ThoseMembers(steps: seq<Step>, holds: Step -> bool)
    ensures forall s :: s in Those(steps, holds) <==> s in steps && holds(s)
    decreases |steps|
  {
    if steps != [] {
      var most, s := steps[..|steps| - 1], steps[|steps| - 1];
      ThoseMembers(most, holds);
      assert steps == most + [s];
    }
  }

  predicate SaysFailed(notes: map<Step, Note>, s: Step) {
    s in notes && notes[s].status == "failed"
  }

  predicate SaysNotClean(notes: map<Step, Note>, s: Step) {
    s in notes && notes[s].audit.Some? && notes[s].audit.value.status != "OK"
  }

  lemma {:induction false} JudgedSteps(notes: map<Step, Note>, steps: seq<Step>)
    ensures Failed(notes, steps) == Those(steps, s => SaysFailed(notes, s))
    ensures Gaps(notes, steps) == Those(steps, s => SaysNotClean(notes, s))
    decreases |steps|
  {
    if steps != [] {
      JudgedSteps(notes, steps[..|steps| - 1]);
    }
  }

  /** The position of the first note of a step of a run. */
  ghost predicate FirstAt(ds: seq<Dated>, k: JobRun, s: Step, i: nat) {
    && i < |ds| && ds[i].note.jobID == k.jobID && ds[i].note.runID == k.runID && ds[i].note.step == s
    && forall j | 0 <= j < i :: ds[j].note.jobID != k.jobID || ds[j].note.runID != k.runID || ds[j].note.step != s
  }

  /** A row says of each of the five steps what its first note says: the status, whether it failed, and whether its
      audit verdict is any other than OK.  Steps are listed in job order. */
  lemma RowJudges(ds: seq<Dated>, k: JobRun, s: Step, i: nat)
    requires FirstAt(ds, k, s, i) && s in {"research", "price", "publish", "verify", "rollback"}
    ensures var j, n := Row(ds, k), ds[i].note;
            && s in j.steps && j.steps[s] == n.status
            && (s in j.failed <==> n.status == "failed")
            && (s in j.auditGaps <==> n.audit.Some? && n.audit.value.status != "OK")
  {
    hide First, Failed, Gaps, Those;
    FirstIsFirst(ds, k, s, i);
    var notes := FirstNotes(ds, k);
    JudgedSteps(notes, STEPS);
    ThoseMembers(STEPS, x => SaysFailed(notes, x));
    ThoseMembers(STEPS, x => SaysNotClean(notes, x));
  }

  lemma FirstIsFirst(ds: seq<Dated>, k: JobRun, s: Step, i: nat)
    requires FirstAt(ds, k, s, i)
    ensures First(ds, k, s) == i
  {
    var f := First(ds, k, s);
  }

  /** A row names only steps that have a note, is complete with all five, and lists failures and gaps in job order. */
  lemma RowNamesOnlySteps(ds: seq<Dated>, k: JobRun)
    ensures var j := Row(ds, k);
            var order := ["research", "price", "publish", "verify", "rollback"];
            && j.jobID == k.jobID && j.runID == k.runID
            && (forall s | s in j.steps :: s in order && exists i: nat :: FirstAt(ds, k, s, i))
            && (j.complete <==> forall s | s in order :: s in j.steps)
            && j.failed == Those(order, s => s in j.failed)
            && j.auditGaps == Those(order, s => s in j.auditGaps)
            && forall s | s in j.failed || s in j.auditGaps :: s in j.steps
  {
    hide First, Failed, Gaps, Those;
    var notes := FirstNotes(ds, k);
    var order := ["research", "price", "publish", "verify", "rollback"];
    assert order == STEPS;
    JudgedSteps(notes, STEPS);
    ThoseMembers(STEPS, x => SaysFailed(notes, x));
    ThoseMembers(STEPS, x => SaysNotClean(notes, x));
    SameThose(STEPS, x => SaysFailed(notes, x), x => x in Row(ds, k).failed);
    SameThose(STEPS, x => SaysNotClean(notes, x), x => x in Row(ds, k).auditGaps);
    forall s | s in notes
      ensures exists i: nat :: FirstAt(ds, k, s, i)
    {
      StepIsFirst(ds, k, s);
    }
  }

  lemma {:induction false} SameThose(steps: seq<Step>, a: Step -> bool, b: Step -> bool)
    requires forall s | s in steps :: a(s) == b(s)
    ensures Those(steps, a) == Those(steps, b)
    decreases |steps|
  {
    if steps != [] {
      SameThose(steps[..|steps| - 1], a, b);
    }
  }

  lemma StepIsFirst(ds: seq<Dated>, k: JobRun, s: Step)
    requires First(ds, k, s) < |ds|
    ensures FirstAt(ds, k, s, First(ds, k, s))
  {
  }

  /** The time of a row is that of the latest counted note of its run. */
  lemma {:induction false} RowIsAsOld(ds: seq<Dated>, k: JobRun)
    ensures forall d | d in ds && RunOf(d.note) == k :: d.at <= Row(ds, k).last
    ensures Row(ds, k).last == ZERO_TIME || exists d | d in ds && RunOf(d.note) == k :: d.at == Row(ds, k).last
    decreases |ds|
  {
    hide FirstNotes, Failed, Gaps, Cost;
    if ds != [] {
      var most, d := ds[..|ds| - 1], ds[|ds| - 1];
      assert ds == most + [d];
      RowIsAsOld(most, k);
      assert forall e :: e in ds <==> e in most || e == d;
    }
  }
}
