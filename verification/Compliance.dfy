/** The compliance history and its summary (internal/compliance/advanced.go): four aggregates built in one pass. */
module Compliance {
  import opened Text

  datatype RuleResult = RuleResult(id: string, pass: bool)

  datatype Record = Record(tenantID: string, productID: string, checkedAt: int, pass: bool, results: seq<RuleResult>)

  datatype Filter = Filter(tenantID: string, from: int, to: int)

  const SECONDS_PER_DAY: int := 86400

  datatype Stat = Stat(passed: nat, failed: nat, total: nat)

  const NO_STAT: Stat := Stat(0, 0, 0)

  /** What is counted: a product, a rule or a calendar day. */
  datatype Key = Name(text: string) | Day(number: int)

  type Stats = map<Key, Stat>

  datatype Trend = Trend(day: int, stat: Stat)

  datatype Summary = Summary(tenantID: string, total: nat, passed: nat, failed: nat, passRate: real, rules: Stats,
                             products: Stats, trends: seq<Trend>)

  // ---------------------------------------------------------------- what an aggregate is

  /** One thing that was checked under one key. */
  datatype Check = Check(key: Key, pass: bool)

  function Add(s: Stat, pass: bool): Stat {
    if pass then Stat(s.passed + 1, s.failed, s.total + 1) else Stat(s.passed, s.failed + 1, s.total + 1)
  }

  function Look(m: Stats, k: Key): Stat {
    if k in m then m[k] else NO_STAT
  }

  function Bump(m: Stats, k: Key, pass: bool): Stats {
    m[k := Add(Look(m, k), pass)]
  }

  /** One pass over the checks. */
  function Fold(m: Stats, cs: seq<Check>): Stats
    decreases |cs|
  {
    if cs == [] then m else Fold(Bump(m, cs[0].key, cs[0].pass), cs[1..])
  }

  /** How many checks there are, passed and failed. */
  function Tally(cs: seq<Check>): Stat
    decreases |cs|
  {
    if cs == [] then NO_STAT else Add(Tally(cs[1..]), cs[0].pass)
  }

  function Under(cs: seq<Check>, k: Key): seq<Check>
    decreases |cs|
  {
    if cs == [] then []
    else if cs[0].key == k then [cs[0]] + Under(cs[1..], k)
    else Under(cs[1..], k)
  }

  function Plus(a: Stat, b: Stat): Stat {
    Stat(a.passed + b.passed, a.failed + b.failed, a.total + b.total)
  }

  /** Counting is a commutative sum. */
  lemma PlusLaws(a: Stat, b: Stat, pass: bool)
    ensures Plus(NO_STAT, a) == a == Plus(a, NO_STAT)
    ensures Plus(Add(a, pass), b) == Add(Plus(a, b), pass) == Plus(a, Add(b, pass))
  {
  }

  lemma {:induction false} FoldCounts(m: Stats, cs: seq<Check>, k: Key)
    ensures k in Fold(m, cs) <==> k in m || Under(cs, k) != []
    ensures Look(Fold(m, cs), k) == Plus(Look(m, k), Tally(Under(cs, k)))
    decreases |cs|
  {
    hide Plus, Add;
    PlusLaws(Look(m, k), NO_STAT, false);
    if cs != [] {
      FoldCounts(Bump(m, cs[0].key, cs[0].pass), cs[1..], k);
      if cs[0].key == k {
        assert ([cs[0]] + Under(cs[1..], k))[1..] == Under(cs[1..], k);
        PlusLaws(Look(m, k), Tally(Under(cs[1..], k)), cs[0].pass);
      }
    }
  }

  /** The entry of a key counts exactly the checks under it, and there is one per key that was checked. */
  lemma StatCountsItsKey(cs: seq<Check>, k: Key)
    ensures k in Fold(map[], cs) <==> exists c | c in cs :: c.key == k
    ensures Look(Fold(map[], cs), k) == Tally(Under(cs, k))
  {
    hide Fold, Tally, Under, Plus;
    FoldCounts(map[], cs, k);
    PlusLaws(Tally(Under(cs, k)), NO_STAT, false);
    UnderMembers(cs, k);
    if exists c | c in cs :: c.key == k {
      var c :| c in cs && c.key == k;
      assert c in Under(cs, k);
    }
    if Under(cs, k) != [] {
      assert Under(cs, k)[0] in Under(cs, k);
    }
  }

  lemma {:induction false} UnderMembers(cs: seq<Check>, k: Key)
    ensures forall c :: c in Under(cs, k) <==> c in cs && c.key == k
    decreases |cs|
  {
    if cs != [] {
      UnderMembers(cs[1..], k);
      assert cs == [cs[0]] + cs[1..];
    }
  }

  function SumOver(m: Stats, ks: seq<Key>): Stat
    decreases |ks|
  {
    if ks == [] then NO_STAT else Plus(Look(m, ks[0]), SumOver(m, ks[1..]))
  }

  lemma {:induction false} SumMore(m: Stats, k: Key, pass: bool, ks: seq<Key>)
    requires Distinct(ks)
    ensures SumOver(Bump(m, k, pass), ks) == if k in ks then Add(SumOver(m, ks), pass) else SumOver(m, ks)
    decreases |ks|
  {
    hide Plus, Add;
    if ks != [] {
      SumMore(m, k, pass, ks[1..]);
      PlusLaws(Look(m, ks[0]), SumOver(m, ks[1..]), pass);
      if ks[0] == k {
        assert k !in ks[1..];
      }
    }
  }

  lemma {:induction false} FoldAddsUp(m: Stats, cs: seq<Check>, ks: seq<Key>)
    requires Distinct(ks) && forall c | c in cs :: c.key in ks
    ensures SumOver(Fold(m, cs), ks) == Plus(SumOver(m, ks), Tally(cs))
    decreases |cs|
  {
    hide SumOver, Bump, Distinct, Plus, Add;
    PlusLaws(SumOver(m, ks), NO_STAT, false);
    if cs != [] {
      assert cs[0] in cs;
      PlusLaws(SumOver(m, ks), Tally(cs[1..]), cs[0].pass);
      SumMore(m, cs[0].key, cs[0].pass, ks);
      FoldAddsUp(Bump(m, cs[0].key, cs[0].pass), cs[1..], ks);
    }
  }

  lemma {:induction false} SumNone(ks: seq<Key>)
    ensures SumOver(map[], ks) == NO_STAT
    decreases |ks|
  {
    hide Plus;
    PlusLaws(NO_STAT, NO_STAT, false);
    if ks != [] {
      SumNone(ks[1..]);
    }
  }

  /** Added over all keys, however they are listed, totals, passed and failed are those of all checks. */
  lemma StatsAddUp(cs: seq<Check>, ks: seq<Key>)
    requires Distinct(ks) && forall k :: k in ks <==> k in Fold(map[], cs)
    ensures SumOver(Fold(map[], cs), ks) == Tally(cs)
  {
    hide SumOver, Fold, Tally, Distinct, Plus;
    PlusLaws(Tally(cs), NO_STAT, false);
    forall c | c in cs
      ensures c.key in ks
    {
      StatCountsItsKey(cs, c.key);
    }
    FoldAddsUp(map[], cs, ks);
    SumNone(ks);
  }

  lemma {:induction false} TallyTotals(cs: seq<Check>)
    ensures Tally(cs).total == |cs| == Tally(cs).passed + Tally(cs).failed
    decreases |cs|
  {
    if cs != [] {
      TallyTotals(cs[1..]);
    }
  }

  // ---------------------------------------------------------------- the checks of a list of records

  function DayOf(t: int): int {
    t / SECONDS_PER_DAY
  }

  function ProductChecks(rs: seq<Record>): seq<Check>
    decreases |rs|
  {
    if rs == [] then [] else ProductChecks(rs[..|rs| - 1]) + [Check(Name(rs[|rs| - 1].productID), rs[|rs| - 1].pass)]
  }

  function DayChecks(rs: seq<Record>): seq<Check>
    decreases |rs|
  {
    if rs == [] then [] else DayChecks(rs[..|rs| - 1]) + [Check(Day(DayOf(rs[|rs| - 1].checkedAt)), rs[|rs| - 1].pass)]
  }

  function ResultChecks(results: seq<RuleResult>): seq<Check>
    decreases |results|
  {
    if results == [] then []
    else
      var last := results[|results| - 1];
      ResultChecks(results[..|results| - 1]) + [Check(Name(last.id), last.pass)]
  }

  function RuleChecks(rs: seq<Record>): seq<Check>
    decreases |rs|
  {
    if rs == [] then [] else RuleChecks(rs[..|rs| - 1]) + ResultChecks(rs[|rs| - 1].results)
  }

  lemma {:induction false} FoldSplit(m: Stats, xs: seq<Check>, ys: seq<Check>)
    ensures Fold(m, xs + ys) == Fold(Fold(m, xs), ys)
    decreases |xs|
  {
    if xs == [] {
      assert xs + ys == ys;
    } else {
      assert (xs + ys)[1..] == xs[1..] + ys;
      FoldSplit(Bump(m, xs[0].key, xs[0].pass), xs[1..], ys);
    }
  }

  lemma FoldMore(m: Stats, xs: seq<Check>, c: Check)
    ensures Fold(m, xs + [c]) == Bump(Fold(m, xs), c.key, c.pass)
  {
    FoldSplit(m, xs, [c]);
    assert [c][1..] == [];
  }

  // ---------------------------------------------------------------- the store

  /** Whether the record counts for the filter: the tenant's own, and inside the bounds that are set. */
  predicate Selects(f: Filter, r: Record) {
    && r.tenantID == TrimSpace(f.tenantID)
    && (f.from == ZERO_TIME || r.checkedAt >= f.from)
    && (f.to == ZERO_TIME || r.checkedAt <= f.to)
  }

  function Selected(f: Filter, rs: seq<Record>): seq<Record>
    decreases |rs|
  {
    if rs == [] then [] else Selected(f, rs[..|rs| - 1]) + if Selects(f, rs[|rs| - 1]) then [rs[|rs| - 1]] else []
  }

  predicate ByTime(rs: seq<Record>) {
    forall i, j | 0 <= i < j < |rs| :: rs[i].checkedAt <= rs[j].checkedAt
  }

  /** Strictly increasing days. */
  ghost predicate Chronological(ts: seq<Trend>) {
    forall i, j | 0 <= i < j < |ts| :: ts[i].day < ts[j].day
  }

  /** The summary of a list of records. */
  ghost predicate Summarises(s: Summary, tenant: string, rs: seq<Record>) {
    && s.tenantID == tenant
    && Stat(s.passed, s.failed, s.total) == Tally(ProductChecks(rs))
    && s.passRate == (if s.total > 0 then s.passed as real / s.total as real else 0.0)
    && s.products == Fold(map[], ProductChecks(rs))
    && s.rules == Fold(map[], RuleChecks(rs))
    && TrendsOf(s.trends, Fold(map[], DayChecks(rs)))
  }

  ghost predicate TrendsOf(ts: seq<Trend>, days: Stats) {
    && Chronological(ts)
    && (forall t | t in ts :: Day(t.day) in days && t.stat == days[Day(t.day)])
    && (forall k | k in days :: exists t | t in ts :: Day(t.day) == k)
  }

  class InMemoryHistoryStore {
    var records: seq<Record>

    constructor ()
      ensures records == []
    {
      records := [];
    }

    /** `RecordEvaluation`; `wall` is the clock read for a record without a time. */
    method RecordEvaluation(r: Record, wall: int) returns (ok: bool)
      modifies this
      ensures ok <==> TrimSpace(r.tenantID) != "" && TrimSpace(r.productID) != ""
      ensures var at := if r.checkedAt == ZERO_TIME then wall else r.checkedAt;
              records == if ok then old(records) + [r.(tenantID := TrimSpace(r.tenantID), checkedAt := at)]
                         else old(records)
    {
      if TrimSpace(r.tenantID) == "" || TrimSpace(r.productID) == "" {
        return false;
      }
      var record := r.(tenantID := TrimSpace(r.tenantID));
      if record.checkedAt == ZERO_TIME {
        record := record.(checkedAt := wall);
      }
      records := records + [record];
      return true;
    }

    method ListEvaluations(f: Filter) returns (out: Option<seq<Record>>)
      ensures out.None? <==> TrimSpace(f.tenantID) == ""
      ensures out.Some? ==> ByTime(out.value) && multiset(out.value) == multiset(Selected(f, records))
    {
      hide TrimSpace;
      if TrimSpace(f.tenantID) == "" {
        return None;
      }
      var mine: seq<Record> := [];
      var i := 0;
      while i < |records|
        invariant i <= |records| && mine == Selected(f, records[..i])
      {
        assert records[..i + 1][..i] == records[..i];
        var r := records[i];
        i := i + 1;
        if r.tenantID != TrimSpace(f.tenantID) {
          continue;
        }
        if f.from != ZERO_TIME && r.checkedAt < f.from {
          continue;
        }
        if f.to != ZERO_TIME && r.checkedAt > f.to {
          continue;
        }
        mine := mine + [r];
      }
      assert records[..i] == records;
      var a := new Record[|mine|](i requires 0 <= i < |mine| => mine[i]);
      assert a[..] == mine;
      SortByTime(a);
      out := Some(a[..]);
    }

    method Summary(f: Filter) returns (s: Option<Summary>)
      ensures s.None? <==> TrimSpace(f.tenantID) == ""
      ensures s.Some? ==> exists rs: seq<Record> | multiset(rs) == multiset(Selected(f, records)) ::
          Summarises(s.value, TrimSpace(f.tenantID), rs)
    {
      hide TrimSpace, Selected, Summarises, ByTime;
      var listed := ListEvaluations(f);
      if listed.None? {
        return None;
      }
      var sum := Summarise(TrimSpace(f.tenantID), listed.value);
      s := Some(sum);
    }
  }

  /** The first `i + 1` records are in order, except that the one at `k` may belong further to the front. */
  ghost predicate OrderedBut(rs: seq<Record>, i: nat, k: nat)
    requires k <= i < |rs|
  {
    && (forall x, y | 0 <= x < y <= i && x != k && y != k :: rs[x].checkedAt <= rs[y].checkedAt)
    && (forall y | k < y <= i :: rs[k].checkedAt < rs[y].checkedAt)
  }

  ghost predicate OrderedTo(rs: seq<Record>, i: nat) {
    i <= |rs| && ByTime(rs[..i])
  }

  ghost predicate Permutes(rs: seq<Record>, out: seq<Record>) {
    multiset(out) == multiset(rs)
  }

  /** Exchanging the record at `k` with its predecessor. */
  lemma SwapKeeps(rs: seq<Record>, was: seq<Record>, now: seq<Record>, i: nat, k: nat)
    requires 0 < k <= i < |was| && OrderedBut(was, i, k) && was[k].checkedAt < was[k - 1].checkedAt
    requires Permutes(rs, was) && now == was[k := was[k - 1]][k - 1 := was[k]]
    ensures OrderedBut(now, i, k - 1) && Permutes(rs, now)
  {
  }

  lemma InPlace(rs: seq<Record>, i: nat, k: nat)
    requires k <= i < |rs| && OrderedBut(rs, i, k) && (k > 0 ==> rs[k].checkedAt >= rs[k - 1].checkedAt)
    ensures OrderedTo(rs, i + 1)
  {
  }

  method SortByTime(a: array<Record>)
    modifies a
    ensures ByTime(a[..]) && multiset(a[..]) == multiset(old(a[..]))
  {
    hide ByTime, OrderedBut, OrderedTo, Permutes;
    ghost var rs := a[..];
    ghost var now := rs;
    NothingMoved(rs);
    var i := 0;
    while i < a.Length
      invariant i <= a.Length == |now| && a[..] == now
      invariant OrderedTo(now, i) && Permutes(rs, now)
    {
      var k := i;
      LastMayMove(now, i);
      while k > 0 && a[k].checkedAt < a[k - 1].checkedAt
        invariant k <= i < a.Length == |now| && a[..] == now
        invariant OrderedBut(now, i, k) && Permutes(rs, now)
      {
        ghost var was := now;
        now := was[k := was[k - 1]][k - 1 := was[k]];
        SwapKeeps(rs, was, now, i, k);
        a[k], a[k - 1] := a[k - 1], a[k];
        k := k - 1;
      }
      InPlace(now, i, k);
      i := i + 1;
    }
    AllMoved(rs, now);
  }

  lemma NothingMoved(rs: seq<Record>)
    ensures OrderedTo(rs, 0) && Permutes(rs, rs)
  {
  }

  lemma AllMoved(rs: seq<Record>, out: seq<Record>)
    requires OrderedTo(out, |out|) && Permutes(rs, out)
    ensures ByTime(out) && multiset(out) == multiset(rs)
  {
    assert out[..|out|] == out;
  }

  lemma LastMayMove(rs: seq<Record>, i: nat)
    requires i < |rs| && OrderedTo(rs, i)
    ensures OrderedBut(rs, i, i)
  {
    assert forall x | 0 <= x < i :: rs[..i][x] == rs[x];
  }

  /** The inner loop over the rule results of one record. */
  method AddResults(rules: Stats, results: seq<RuleResult>) returns (out: Stats)
    ensures out == Fold(rules, ResultChecks(results))
  {
    out := rules;
    var i := 0;
    while i < |results|
      invariant i <= |results| && out == Fold(rules, ResultChecks(results[..i]))
    {
      var r := results[i];
      assert results[..i + 1][..i] == results[..i];
      FoldMore(rules, ResultChecks(results[..i]), Check(Name(r.id), r.pass));
      var stat := Look(out, Name(r.id));
      stat := stat.(total := stat.total + 1);
      if r.pass {
        stat := stat.(passed := stat.passed + 1);
      } else {
        stat := stat.(failed := stat.failed + 1);
      }
      out := out[Name(r.id) := stat];
      i := i + 1;
    }
    assert results[..i] == results;
  }

  lemma {:induction false} TallySplit(xs: seq<Check>, ys: seq<Check>)
    ensures Tally(xs + ys) == Plus(Tally(xs), Tally(ys))
    decreases |xs|
  {
    hide Plus, Add;
    PlusLaws(Tally(ys), NO_STAT, false);
    if xs == [] {
      assert xs + ys == ys;
    } else {
      assert (xs + ys)[1..] == xs[1..] + ys;
      TallySplit(xs[1..], ys);
      PlusLaws(Tally(xs[1..]), Tally(ys), xs[0].pass);
    }
  }

  lemma TallyMore(xs: seq<Check>, c: Check)
    ensures Tally(xs + [c]) == Add(Tally(xs), c.pass)
  {
    hide Plus, Add;
    TallySplit(xs, [c]);
    assert [c][1..] == [];
    PlusLaws(Tally(xs), NO_STAT, c.pass);
  }

  method Summarise(tenant: string, rs: seq<Record>) returns (s: Summary)
    ensures Summarises(s, tenant, rs)
  {
    hide Fold, Tally, Look;
    var all := NO_STAT;
    var products, rules, days: Stats := map[], map[], map[];
    NothingChecked();
    var i := 0;
    while i < |rs|
      invariant i <= |rs| && all == Tally(ProductChecks(rs[..i])) && products == Fold(map[], ProductChecks(rs[..i]))
      invariant rules == Fold(map[], RuleChecks(rs[..i])) && days == Fold(map[], DayChecks(rs[..i]))
    {
      var r := rs[i];
      assert rs[..i + 1][..i] == rs[..i];
      var product, day := Name(r.productID), Day(DayOf(r.checkedAt));
      TallyMore(ProductChecks(rs[..i]), Check(product, r.pass));
      FoldMore(map[], ProductChecks(rs[..i]), Check(product, r.pass));
      FoldMore(map[], DayChecks(rs[..i]), Check(day, r.pass));
      FoldSplit(map[], RuleChecks(rs[..i]), ResultChecks(r.results));
      all := all.(total := all.total + 1);
      var productStat := Look(products, product);
      productStat := productStat.(total := productStat.total + 1);
      var trend := Look(days, day);
      trend := trend.(total := trend.total + 1);
      if r.pass {
        all := all.(passed := all.passed + 1);
        productStat := productStat.(passed := productStat.passed + 1);
        trend := trend.(passed := trend.passed + 1);
      } else {
        all := all.(failed := all.failed + 1);
        productStat := productStat.(failed := productStat.failed + 1);
        trend := trend.(failed := trend.failed + 1);
      }
      products := products[product := productStat];
      rules := AddResults(rules, r.results);
      days := days[day := trend];
      i := i + 1;
    }
    assert rs[..i] == rs;
    OnlyDays(rs);
    var trends := SortedTrends(days);
    var passRate := if all.total > 0 then all.passed as real / all.total as real else 0.0;
    s := Summary(tenant, all.total, all.passed, all.failed, passRate, rules, products, trends);
  }

  lemma NothingChecked()
    ensures Tally([]) == NO_STAT && Fold(map[], []) == map[]
  {
  }

  lemma OnlyDays(rs: seq<Record>)
    ensures forall k | k in Fold(map[], DayChecks(rs)) :: k.Day?
  {
    forall k | k in Fold(map[], DayChecks(rs))
      ensures k.Day?
    {
      StatCountsItsKey(DayChecks(rs), k);
      AllDays(rs);
    }
  }

  lemma {:induction false} AllDays(rs: seq<Record>)
    ensures forall c | c in DayChecks(rs) :: c.key.Day?
    decreases |rs|
  {
    if rs != [] {
      AllDays(rs[..|rs| - 1]);
    }
  }

  /** The days in order, with their counts. */
  method SortedTrends(days: Stats) returns (ts: seq<Trend>)
    requires forall k | k in days :: k.Day?
    ensures TrendsOf(ts, days)
  {
    ts := [];
    var left := days.Keys;
    while left != {}
      invariant left <= days.Keys && Chronological(ts)
      invariant forall t | t in ts :: Day(t.day) in days && Day(t.day) !in left && t.stat == days[Day(t.day)]
      invariant forall k | k in days && k !in left :: exists t | t in ts :: Day(t.day) == k
      decreases |left|
    {
      var k :| k in left;
      var was := ts;
      ts := InsertTrend(ts, Trend(k.number, days[k]));
      left := left - {k};
      forall d | d in days && d !in left
        ensures exists t | t in ts :: Day(t.day) == d
      {
        if d == k {
          assert Trend(k.number, days[k]) in ts;
        } else {
          var t :| t in was && Day(t.day) == d;
          assert t in ts;
        }
      }
    }
  }

  method InsertTrend(ts: seq<Trend>, t: Trend) returns (out: seq<Trend>)
    requires Chronological(ts) && forall u | u in ts :: u.day != t.day
    ensures Chronological(out) && forall u :: u in out <==> u in ts || u == t
  {
    var k := 0;
    while k < |ts| && ts[k].day < t.day
      invariant k <= |ts| && forall i | 0 <= i < k :: ts[i].day < t.day
    {
      k := k + 1;
    }
    out := ts[..k] + [t] + ts[k..];
    forall i | k <= i < |ts|
      ensures t.day < ts[i].day
    {
      assert ts[k] in ts;
    }
    assert ts == ts[..k] + ts[k..];
  }

  // ---------------------------------------------------------------- conservation

  function TrendSum(ts: seq<Trend>): Stat
    decreases |ts|
  {
    if ts == [] then NO_STAT else Plus(ts[0].stat, TrendSum(ts[1..]))
  }

  function TrendKeys(ts: seq<Trend>): (ks: seq<Key>)
    ensures |ks| == |ts| && forall i | 0 <= i < |ts| :: ks[i] == Day(ts[i].day)
    decreases |ts|
  {
    if ts == [] then [] else [Day(ts[0].day)] + TrendKeys(ts[1..])
  }

  lemma {:induction false} TrendSumIsSum(ts: seq<Trend>, days: Stats)
    requires forall t | t in ts :: Day(t.day) in days && t.stat == days[Day(t.day)]
    ensures TrendSum(ts) == SumOver(days, TrendKeys(ts))
    decreases |ts|
  {
    if ts != [] {
      assert ts[0] in ts;
      TrendSumIsSum(ts[1..], days);
      assert TrendKeys(ts)[1..] == TrendKeys(ts[1..]);
    }
  }

  lemma {:induction false} SameTally(rs: seq<Record>)
    ensures Tally(ProductChecks(rs)) == Tally(DayChecks(rs)) && |ProductChecks(rs)| == |rs|
    decreases |rs|
  {
    hide Tally;
    if rs != [] {
      var most, last := rs[..|rs| - 1], rs[|rs| - 1];
      SameTally(most);
      TallyMore(ProductChecks(most), Check(Name(last.productID), last.pass));
      TallyMore(DayChecks(most), Check(Day(DayOf(last.checkedAt)), last.pass));
    } else {
      assert ProductChecks(rs) == DayChecks(rs);
    }
  }

  function ResultCount(rs: seq<Record>): nat
    decreases |rs|
  {
    if rs == [] then 0 else ResultCount(rs[..|rs| - 1]) + |rs[|rs| - 1].results|
  }

  lemma {:induction false} RuleChecksCount(rs: seq<Record>)
    ensures |RuleChecks(rs)| == ResultCount(rs)
    decreases |rs|
  {
    if rs != [] {
      RuleChecksCount(rs[..|rs| - 1]);
      ResultChecksCount(rs[|rs| - 1].results);
    }
  }

  lemma {:induction false} ResultChecksCount(results: seq<RuleResult>)
    ensures |ResultChecks(results)| == |results|
    decreases |results|
  {
    if results != [] {
      ResultChecksCount(results[..|results| - 1]);
    }
  }

  /** Totals, per-product totals and per-day totals agree; the rule totals count every rule result once. */
  lemma {:induction false} SummaryConserves(s: Summary, tenant: string, rs: seq<Record>, products: seq<Key>,
          rules: seq<Key>)
    requires Summarises(s, tenant, rs)
    requires Distinct(products) && forall k :: k in products <==> k in s.products
    requires Distinct(rules) && forall k :: k in rules <==> k in s.rules
    ensures s.total == |rs| == s.passed + s.failed
    ensures SumOver(s.products, products) == Stat(s.passed, s.failed, s.total) == TrendSum(s.trends)
    ensures SumOver(s.rules, rules).total == ResultCount(rs)
    ensures SumOver(s.rules, rules).passed + SumOver(s.rules, rules).failed == ResultCount(rs)
  {
    hide Fold, Tally, SumOver, Distinct, TrendSum, ProductChecks, DayChecks, RuleChecks;
    SameTally(rs);
    TallyTotals(ProductChecks(rs));
    StatsAddUp(ProductChecks(rs), products);
    StatsAddUp(RuleChecks(rs), rules);
    TallyTotals(RuleChecks(rs));
    RuleChecksCount(rs);
    var days := Fold(map[], DayChecks(rs));
    var ks := TrendKeys(s.trends);
    TrendSumIsSum(s.trends, days);
    TrendKeysCover(s.trends, days);
    StatsAddUp(DayChecks(rs), ks);
  }

  /** The pass rate is a share, and is one exactly when something was checked and nothing failed. */
  lemma RateIsShare(s: Summary, tenant: string, rs: seq<Record>)
    requires Summarises(s, tenant, rs)
    ensures 0.0 <= s.passRate <= 1.0
    ensures s.passRate == 1.0 <==> rs != [] && forall r | r in rs :: r.pass
    ensures s.passRate == 0.0 <==> forall r | r in rs :: !r.pass
  {
    hide Fold, Tally, ProductChecks, DayChecks, RuleChecks, TrendsOf;
    SameTally(rs);
    TallyTotals(ProductChecks(rs));
    AllOrNothing(rs);
    if s.total > 0 {
      Share(s.passed, s.total);
    }
  }

  lemma Share(part: nat, total: nat)
    requires part <= total && total > 0
    ensures 0.0 <= part as real / total as real <= 1.0
    ensures part as real / total as real == 1.0 <==> part == total
    ensures part as real / total as real == 0.0 <==> part == 0
  {
    var rate := part as real / total as real;
    assert rate * total as real == part as real;
  }

  lemma NothingProduced()
    ensures Tally(ProductChecks([])) == NO_STAT
  {
  }

  lemma LastProduct(rs: seq<Record>)
    requires rs != []
    ensures Tally(ProductChecks(rs)) == Add(Tally(ProductChecks(rs[..|rs| - 1])), rs[|rs| - 1].pass)
  {
    hide Tally, Add;
    TallyMore(ProductChecks(rs[..|rs| - 1]), Check(Name(rs[|rs| - 1].productID), rs[|rs| - 1].pass));
  }

  lemma {:induction false} AllOrNothing(rs: seq<Record>)
    ensures Tally(ProductChecks(rs)).failed == 0 <==> forall r | r in rs :: r.pass
    ensures Tally(ProductChecks(rs)).passed == 0 <==> forall r | r in rs :: !r.pass
    decreases |rs|
  {
    hide Tally, ProductChecks;
    if rs == [] {
      NothingProduced();
    } else {
      var most, last := rs[..|rs| - 1], rs[|rs| - 1];
      assert rs == most + [last];
      AllOrNothing(most);
      LastProduct(rs);
      assert forall r :: r in rs <==> r in most || r == last;
    }
  }

  lemma TrendKeysCover(ts: seq<Trend>, days: Stats)
    requires TrendsOf(ts, days)
    ensures Distinct(TrendKeys(ts)) && forall k :: k in TrendKeys(ts) <==> k in days
  {
    var ks := TrendKeys(ts);
    forall k
      ensures k in ks <==> k in days
    {
      if k in days {
        var t :| t in ts && Day(t.day) == k;
        var i :| 0 <= i < |ts| && ts[i] == t;
        assert ks[i] == k;
      }
      if k in ks {
        var i :| 0 <= i < |ks| && ks[i] == k;
        assert ts[i] in ts;
      }
    }
  }

  /** Every entry of every aggregate has passed plus failed equal to its total. */
  lemma EveryStatBalances(s: Summary, tenant: string, rs: seq<Record>, k: Key)
    requires Summarises(s, tenant, rs)
    ensures Look(s.products, k).total == Look(s.products, k).passed + Look(s.products, k).failed
    ensures Look(s.rules, k).total == Look(s.rules, k).passed + Look(s.rules, k).failed
    ensures forall t | t in s.trends :: t.stat.total == t.stat.passed + t.stat.failed && t.stat.total > 0
  {
    hide Fold, Tally, Under;
    StatCountsItsKey(ProductChecks(rs), k);
    StatCountsItsKey(RuleChecks(rs), k);
    TallyTotals(Under(ProductChecks(rs), k));
    TallyTotals(Under(RuleChecks(rs), k));
    forall t | t in s.trends
      ensures t.stat.total == t.stat.passed + t.stat.failed && t.stat.total > 0
    {
      var key := Day(t.day);
      FoldCounts(map[], DayChecks(rs), key);
      StatCountsItsKey(DayChecks(rs), key);
      TallyTotals(Under(DayChecks(rs), key));
    }
  }

  /** The tenant's own records inside the bounds that are set, as often as they are stored, and no others. */
  lemma {:induction false} OnlySelectedCount(f: Filter, rs: seq<Record>, r: Record)
    ensures multiset(Selected(f, rs))[r]
         == if && r.tenantID == TrimSpace(f.tenantID)
               && (f.from != ZERO_TIME ==> f.from <= r.checkedAt)
               && (f.to != ZERO_TIME ==> r.checkedAt <= f.to) then multiset(rs)[r] else 0
    decreases |rs|
  {
    hide TrimSpace;
    if rs != [] {
      var most := rs[..|rs| - 1];
      OnlySelectedCount(f, most, r);
      assert rs == most + [rs[|rs| - 1]];
    }
  }

  // ---------------------------------------------------------------- what the numbers of a summary are

  function Number<T>(xs: seq<T>, p: T -> bool): nat
    decreases |xs|
  {
    if xs == [] then 0 else Number(xs[..|xs| - 1], p) + if p(xs[|xs| - 1]) then 1 else 0
  }

  lemma {:induction false} NumberSplit<T>(xs: seq<T>, ys: seq<T>, p: T -> bool)
    ensures Number(xs + ys, p) == Number(xs, p) + Number(ys, p)
    decreases |ys|
  {
    if ys == [] {
      assert xs + ys == xs;
    } else {
      var most := ys[..|ys| - 1];
      assert (xs + ys)[..|xs + ys| - 1] == xs + most;
      NumberSplit(xs, most, p);
    }
  }

  /** The rule results of the records, one after the other. */
  function Results(rs: seq<Record>): seq<RuleResult>
    decreases |rs|
  {
    if rs == [] then [] else Results(rs[..|rs| - 1]) + rs[|rs| - 1].results
  }

  lemma {:induction false} UnderSplit(xs: seq<Check>, ys: seq<Check>, k: Key)
    ensures Under(xs + ys, k) == Under(xs, k) + Under(ys, k)
    decreases |xs|
  {
    if xs == [] {
      assert xs + ys == ys;
    } else {
      assert (xs + ys)[1..] == xs[1..] + ys;
      UnderSplit(xs[1..], ys, k);
    }
  }

  lemma {:induction false} TallyNumbers(cs: seq<Check>, k: Key)
    ensures Tally(Under(cs, k)).passed == Number(cs, (c: Check) => c.key == k && c.pass)
    ensures Tally(Under(cs, k)).failed == Number(cs, (c: Check) => c.key == k && !c.pass)
    ensures Tally(Under(cs, k)).total == Number(cs, (c: Check) => c.key == k)
    decreases |cs|
  {
    if cs != [] {
      var most, last := cs[..|cs| - 1], cs[|cs| - 1];
      assert cs == most + [last];
      TallyNumbers(most, k);
      UnderSplit(most, [last], k);
      assert [last][1..] == [];
      if last.key == k {
        assert Under([last], k) == [last];
        TallyMore(Under(most, k), last);
      } else {
        assert Under(most, k) + [] == Under(most, k);
      }
    }
  }

  /** The stored statistics of a key, by the numbers of checks under it. */
  lemma EntryNumbers(cs: seq<Check>, k: Key)
    ensures k in Fold(map[], cs) <==> Number(cs, (c: Check) => c.key == k) > 0
    ensures k in Fold(map[], cs) ==> Fold(map[], cs)[k] == Stat(Number(cs, (c: Check) => c.key == k && c.pass),
                                                               Number(cs, (c: Check) => c.key == k && !c.pass),
                                                               Number(cs, (c: Check) => c.key == k))
  {
    hide Fold, Tally, Number;
    FoldCounts(map[], cs, k);
    StatCountsItsKey(cs, k);
    TallyNumbers(cs, k);
    TallyTotals(Under(cs, k));
  }

  lemma {:induction false} SameNumber<S, T>(xs: seq<S>, p: S -> bool, ys: seq<T>, q: T -> bool)
    requires |xs| == |ys| && forall i | 0 <= i < |xs| :: p(xs[i]) == q(ys[i])
    ensures Number(xs, p) == Number(ys, q)
    decreases |xs|
  {
    if xs != [] {
      SameNumber(xs[..|xs| - 1], p, ys[..|ys| - 1], q);
    }
  }

  lemma {:induction false} ProductChecksAt(rs: seq<Record>)
    ensures |ProductChecks(rs)| == |rs|
    ensures forall i | 0 <= i < |rs| :: ProductChecks(rs)[i] == Check(Name(rs[i].productID), rs[i].pass)
    decreases |rs|
  {
    if rs != [] {
      ProductChecksAt(rs[..|rs| - 1]);
    }
  }

  /** Whether a time lies on a day, days counted from the Unix epoch. */
  predicate OnDay(t: int, day: int) {
    86400 * day <= t < 86400 * (day + 1)
  }

  lemma OneDay(t: int, day: int)
    ensures DayOf(t) == day <==> OnDay(t, day)
  {
    assert t == 86400 * DayOf(t) + t % 86400;
  }

  lemma {:induction false} DayChecksAt(rs: seq<Record>, day: int)
    ensures |DayChecks(rs)| == |rs|
    ensures forall i | 0 <= i < |rs| ::
              (DayChecks(rs)[i].key == Day(day) <==> OnDay(rs[i].checkedAt, day)) && DayChecks(rs)[i].pass == rs[i].pass
    decreases |rs|
  {
    hide DayOf, OnDay;
    if rs != [] {
      DayChecksAt(rs[..|rs| - 1], day);
      OneDay(rs[|rs| - 1].checkedAt, day);
    }
  }

  lemma {:induction false} ResultChecksAt(results: seq<RuleResult>)
    ensures |ResultChecks(results)| == |results|
    ensures forall i | 0 <= i < |results| ::
              ResultChecks(results)[i] == Check(Name(results[i].id), results[i].pass)
    decreases |results|
  {
    if results != [] {
      ResultChecksAt(results[..|results| - 1]);
    }
  }

  lemma {:induction false} RuleChecksAt(rs: seq<Record>)
    ensures |RuleChecks(rs)| == |Results(rs)|
    ensures forall i | 0 <= i < |Results(rs)| ::
              RuleChecks(rs)[i] == Check(Name(Results(rs)[i].id), Results(rs)[i].pass)
    decreases |rs|
  {
    if rs != [] {
      RuleChecksAt(rs[..|rs| - 1]);
      ResultChecksAt(rs[|rs| - 1].results);
    }
  }

  /** The numbers of a summary are numbers of records: all of them, those that passed and those that failed. */
  lemma SummaryNumbers(s: Summary, tenant: string, rs: seq<Record>)
    requires Summarises(s, tenant, rs)
    ensures s.tenantID == tenant && s.total == |rs|
    ensures s.passed == Number(rs, (r: Record) => r.pass) && s.failed == Number(rs, (r: Record) => !r.pass)
    ensures s.passRate * s.total as real == s.passed as real && (s.total == 0 ==> s.passRate == 0.0)
  {
    hide Fold, Tally, Number, ProductChecks, DayChecks, RuleChecks, TrendsOf;
    PassedAndFailed(rs);
    TallyTotals(ProductChecks(rs));
    if s.total > 0 {
      RateTimesTotal(s.passed, s.total);
    }
  }

  lemma RateTimesTotal(part: nat, total: nat)
    requires total > 0
    ensures part as real / total as real * total as real == part as real
  {
  }

  lemma {:induction false} PassedAndFailed(rs: seq<Record>)
    ensures Tally(ProductChecks(rs)) ==
            Stat(Number(rs, (r: Record) => r.pass), Number(rs, (r: Record) => !r.pass), |rs|)
    decreases |rs|
  {
    if rs == [] {
      NothingProduced();
    } else {
      PassedAndFailed(rs[..|rs| - 1]);
      LastProduct(rs);
    }
  }

  /** A product has an entry exactly when a record names it, and its entry holds the numbers of its records. */
  lemma ProductNumbers(s: Summary, tenant: string, rs: seq<Record>, id: string)
    requires Summarises(s, tenant, rs)
    ensures Name(id) in s.products <==> Number(rs, (r: Record) => r.productID == id) > 0
    ensures Name(id) in s.products ==>
              s.products[Name(id)] == Stat(Number(rs, (r: Record) => r.productID == id && r.pass),
                                           Number(rs, (r: Record) => r.productID == id && !r.pass),
                                           Number(rs, (r: Record) => r.productID == id))
  {
    hide Fold, Tally, Number, ProductChecks, DayChecks, RuleChecks, TrendsOf;
    var cs, k := ProductChecks(rs), Name(id);
    ProductChecksAt(rs);
    EntryNumbers(cs, k);
    SameNumber(cs, (c: Check) => c.key == k && c.pass, rs, (r: Record) => r.productID == id && r.pass);
    SameNumber(cs, (c: Check) => c.key == k && !c.pass, rs, (r: Record) => r.productID == id && !r.pass);
    SameNumber(cs, (c: Check) => c.key == k, rs, (r: Record) => r.productID == id);
  }

  /** The same for a rule, over the rule results of all records. */
  lemma RuleNumbers(s: Summary, tenant: string, rs: seq<Record>, id: string)
    requires Summarises(s, tenant, rs)
    ensures Name(id) in s.rules <==> Number(Results(rs), (x: RuleResult) => x.id == id) > 0
    ensures Name(id) in s.rules ==>
              s.rules[Name(id)] == Stat(Number(Results(rs), (x: RuleResult) => x.id == id && x.pass),
                                        Number(Results(rs), (x: RuleResult) => x.id == id && !x.pass),
                                        Number(Results(rs), (x: RuleResult) => x.id == id))
  {
    hide Fold, Tally, Number, ProductChecks, DayChecks, RuleChecks, TrendsOf, Results;
    var cs, xs, k := RuleChecks(rs), Results(rs), Name(id);
    RuleChecksAt(rs);
    EntryNumbers(cs, k);
    SameNumber(cs, (c: Check) => c.key == k && c.pass, xs, (x: RuleResult) => x.id == id && x.pass);
    SameNumber(cs, (c: Check) => c.key == k && !c.pass, xs, (x: RuleResult) => x.id == id && !x.pass);
    SameNumber(cs, (c: Check) => c.key == k, xs, (x: RuleResult) => x.id == id);
  }

  /** A day has a trend exactly when a record was checked on it, and its trend holds the numbers of the records of
      those 86400 seconds. */
  lemma DayNumbers(s: Summary, tenant: string, rs: seq<Record>, day: int)
    requires Summarises(s, tenant, rs)
    ensures (exists t | t in s.trends :: t.day == day) <==> Number(rs, (r: Record) => OnDay(r.checkedAt, day)) > 0
    ensures forall t | t in s.trends && t.day == day ::
              t.stat == Stat(Number(rs, (r: Record) => OnDay(r.checkedAt, day) && r.pass),
                             Number(rs, (r: Record) => OnDay(r.checkedAt, day) && !r.pass),
                             Number(rs, (r: Record) => OnDay(r.checkedAt, day)))
  {
    hide Fold, Tally, Number, ProductChecks, DayChecks, RuleChecks, Chronological;
    var cs, k := DayChecks(rs), Day(day);
    DayChecksAt(rs, day);
    EntryNumbers(cs, k);
    SameNumber(cs, (c: Check) => c.key == k && c.pass, rs, (r: Record) => OnDay(r.checkedAt, day) && r.pass);
    SameNumber(cs, (c: Check) => c.key == k && !c.pass, rs, (r: Record) => OnDay(r.checkedAt, day) && !r.pass);
    SameNumber(cs, (c: Check) => c.key == k, rs, (r: Record) => OnDay(r.checkedAt, day));
  }
}
