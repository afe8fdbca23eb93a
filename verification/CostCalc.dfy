/** Integer pricing with overflow checks, and the retry-storm window (internal/costcalc/costcalc.go). */
module CostCalc {
  import opened Text

  datatype Price = Price(input: int64, output: int64)

  datatype Error = UnknownModel | NegativeTokens | NegativePrice | Overflow

  datatype Result = Cents(value: int64) | Err(error: Error)

  const CENTS_PER_MTOK: int := 1_000_000

  /** Go's integer division truncates toward zero. */
  function Quotient(a: int64, b: int64): int
    requires b != 0
  {
    if (a < 0) == (b < 0) then Abs(a) / Abs(b) else -(Abs(a) / Abs(b))
  }

  function Abs(n: int): nat {
    if n < 0 then -n else n
  }

  /** `if x < 0 { x = -x }`, which leaves the smallest number negative. */
  function AbsInt64(n: int64): int64 {
    var m: int := n;
    if n < 0 then Wrap(-m) else n
  }

  function MulCheck(a: int64, b: int64): Result {
    if a == 0 || b == 0 then Cents(0)
    else if AbsInt64(a) > Quotient(MAX_INT64, AbsInt64(b)) then Err(Overflow)
    else Cents(Wrap(a * b))
  }

  function AddCheck(a: int64, b: int64): Result {
    if b > 0 && a > Wrap(MAX_INT64 - b) then Err(Overflow)
    else if b < 0 && a < Wrap(MIN_INT64 - b) then Err(Overflow)
    else Cents(Wrap(a + b))
  }

  function Cost(table: map<string, Price>, model: string, tokensIn: int64, tokensOut: int64): Result {
    if model !in table then Err(UnknownModel)
    else if tokensIn < 0 || tokensOut < 0 then Err(NegativeTokens)
    else
      var p := table[model];
      if p.input < 0 || p.output < 0 then Err(NegativePrice)
      else
        var prodIn := MulCheck(tokensIn, p.input);
        if prodIn.Err? then prodIn
        else
          var prodOut := MulCheck(tokensOut, p.output);
          if prodOut.Err? then prodOut
          else
            var sum := AddCheck(prodIn.value, prodOut.value);
            if sum.Err? then sum
            else if sum.value == 0 then Cents(0)
            else
              var q := Quotient(sum.value, CENTS_PER_MTOK);
              Cents(Wrap(if sum.value % CENTS_PER_MTOK != 0 then q + 1 else q))
  }

  // ---------------------------------------------------------------- the checks are exact

  predicate Fits(n: int) {
    MIN_INT64 <= n <= MAX_INT64
  }

  /** What both checks promise: the exact result, or the overflow error when it does not fit. */
  predicate Exact(r: Result, exact: int) {
    r == if Fits(exact) then Cents(exact) else Err(Overflow)
  }

  lemma WrapFits(n: int)
    requires Fits(n)
    ensures Wrap(n) == n
  {
  }

  lemma AddCheckIsExact(a: int64, b: int64)
    ensures Exact(AddCheck(a, b), a + b)
  {
    if Fits(a + b) {
      WrapFits(a + b);
    }
    if b > 0 {
      WrapFits(MAX_INT64 - b);
    } else if b < 0 {
      WrapFits(MIN_INT64 - b);
    }
  }

  /** The division test compares the product itself. */
  lemma DivisionTest(x: nat, y: nat, n: nat)
    requires y > 0
    ensures x > n / y <==> x * y > n
  {
    assert n == (n / y) * y + n % y;
    if x > n / y {
      assert x * y >= (n / y + 1) * y;
    } else {
      assert x * y <= (n / y) * y;
    }
  }

  lemma {:induction false} AbsOfProduct(a: int, b: int)
    ensures Abs(a * b) == Abs(a) * Abs(b)
  {
    if a < 0 && b < 0 {
      assert a * b == (-a) * (-b);
    } else if a < 0 {
      assert a * b == -((-a) * b);
      assert (-a) * b >= 0;
    } else if b < 0 {
      assert a * b == -(a * (-b));
      assert a * (-b) >= 0;
    }
  }

  /** `mulCheck` keeps its promise except at the edge of the range: a product that is exactly the smallest number,
      or a smallest first factor with a second one other than 0 and 1. */
  lemma MulCheckIsExact(a: int64, b: int64)
    ensures Exact(MulCheck(a, b), a * b) <==>
          (a * b == MIN_INT64 ==> a == MIN_INT64) && (a == MIN_INT64 ==> b == 0 || b == 1)
  {
    if a == 0 || b == 0 {
    } else if a == MIN_INT64 {
      MulSmallest(b);
    } else if b == MIN_INT64 {
      MulBySmallest(a);
    } else {
      MulInside(a, b);
    }
  }

  /** The smallest number times -1 comes out as the smallest number, without an error. */
  lemma MulCheckAtTheEdge()
    ensures MulCheck(MIN_INT64, -1) == Cents(MIN_INT64) && !Exact(MulCheck(MIN_INT64, -1), MIN_INT64 * -1)
  {
    SmallestStays();
    AbsInside(-1);
  }

  lemma SmallestStays()
    ensures AbsInt64(MIN_INT64) == MIN_INT64
  {
  }

  lemma AbsInside(n: int64)
    requires n != MIN_INT64
    ensures AbsInt64(n) == Abs(n) <= MAX_INT64
  {
  }

  lemma MulSmallest(b: int64)
    requires b != 0
    ensures MulCheck(MIN_INT64, b).Cents?
    ensures Exact(MulCheck(MIN_INT64, b), MIN_INT64 * b) <==> b == 1
  {
    SmallestStays();
    if b == MIN_INT64 {
      assert Quotient(MAX_INT64, MIN_INT64) == 0;
    } else {
      AbsInside(b);
      assert MAX_INT64 / Abs(b) >= 0;
    }
    if b == 1 {
      WrapFits(MIN_INT64);
    } else {
      assert !Fits(MIN_INT64 * b);
    }
  }

  lemma MulBySmallest(a: int64)
    requires a != 0 && a != MIN_INT64
    ensures MulCheck(a, MIN_INT64) == Err(Overflow)
    ensures Exact(MulCheck(a, MIN_INT64), a * MIN_INT64) <==> a != 1
    ensures a * MIN_INT64 == MIN_INT64 <==> a == 1
  {
    SmallestStays();
    AbsInside(a);
    assert Quotient(MAX_INT64, MIN_INT64) == 0;
  }

  lemma MulInside(a: int64, b: int64)
    requires a != 0 && b != 0 && a != MIN_INT64 && b != MIN_INT64
    ensures MulCheck(a, b) == if Abs(a * b) > MAX_INT64 then Err(Overflow) else Cents(a * b)
    ensures Exact(MulCheck(a, b), a * b) <==> a * b != MIN_INT64
  {
    AbsInside(a);
    AbsInside(b);
    AbsOfProduct(a, b);
    DivisionTest(Abs(a), Abs(b), MAX_INT64);
    assert Quotient(MAX_INT64, Abs(b)) == MAX_INT64 / Abs(b);
    if Fits(a * b) {
      WrapFits(a * b);
    }
  }

  // ---------------------------------------------------------------- cost

  /** Tokens times price, in millionths of a cent. */
  function Total(p: Price, tokensIn: int, tokensOut: int): int {
    tokensIn * p.input + tokensOut * p.output
  }

  predicate Priced(table: map<string, Price>, model: string) {
    model in table && table[model].input >= 0 && table[model].output >= 0
  }

  /** The least whole number of cents that covers the total. */
  predicate Ceiling(c: int, total: int) {
    CENTS_PER_MTOK * c >= total && CENTS_PER_MTOK * (c - 1) < total
  }

  lemma Product(a: int64, b: int64)
    requires a >= 0 && b >= 0
    ensures a * b >= 0
    ensures MulCheck(a, b) == if a * b > MAX_INT64 then Err(Overflow) else Cents(a * b)
  {
    if a != 0 && b != 0 {
      MulInside(a, b);
      AbsOfProduct(a, b);
    }
  }

  /** Overflow exactly when the exact total does not fit, otherwise the ceiling; the three other errors come first,
      in order. */
  lemma CostIsCeiling(table: map<string, Price>, model: string, tokensIn: int64, tokensOut: int64)
    ensures var r := Cost(table, model, tokensIn, tokensOut);
            if model !in table then r == Err(UnknownModel)
            else if tokensIn < 0 || tokensOut < 0 then r == Err(NegativeTokens)
            else if !Priced(table, model) then r == Err(NegativePrice)
            else
              var total := Total(table[model], tokensIn, tokensOut);
              if total > MAX_INT64 then r == Err(Overflow) else r.Cents? && Ceiling(r.value, total)
  {
    hide MulCheck, AddCheck, Wrap;
    if Priced(table, model) && tokensIn >= 0 && tokensOut >= 0 {
      var p := table[model];
      Product(tokensIn, p.input);
      Product(tokensOut, p.output);
      if tokensIn * p.input <= MAX_INT64 && tokensOut * p.output <= MAX_INT64 {
        AddCheckIsExact(tokensIn * p.input, tokensOut * p.output);
        var total := Total(p, tokensIn, tokensOut);
        if total <= MAX_INT64 {
          var q := total / CENTS_PER_MTOK;
          assert total == q * CENTS_PER_MTOK + total % CENTS_PER_MTOK;
          WrapFits(q);
          WrapFits(q + 1);
        }
      }
    }
  }

  lemma CeilingGrows(c: int, x: int, d: int, y: int)
    requires Ceiling(c, x) && Ceiling(d, y) && x <= y
    ensures c <= d
  {
  }

  lemma TotalGrows(p: Price, a: int, b: int, c: int, d: int)
    requires p.input >= 0 && p.output >= 0 && 0 <= a <= c && 0 <= b <= d
    ensures 0 <= Total(p, a, b) <= Total(p, c, d)
  {
    assert c * p.input - a * p.input == (c - a) * p.input >= 0;
    assert d * p.output - b * p.output == (d - b) * p.output >= 0;
  }

  /** More tokens never cost less, and never turn an overflow into a price. */
  lemma CostGrows(table: map<string, Price>, model: string, a: int64, b: int64, c: int64, d: int64)
    requires Priced(table, model) && 0 <= a <= c && 0 <= b <= d
    ensures Cost(table, model, c, d).Cents? ==>
              Cost(table, model, a, b).Cents? && Cost(table, model, a, b).value <= Cost(table, model, c, d).value
  {
    hide Cost, Ceiling;
    CostIsCeiling(table, model, a, b);
    CostIsCeiling(table, model, c, d);
    TotalGrows(table[model], a, b, c, d);
    if Cost(table, model, c, d).Cents? {
      CeilingGrows(Cost(table, model, a, b).value, Total(table[model], a, b), Cost(table, model, c, d).value,
          Total(table[model], c, d));
    }
  }

  lemma TotalSplits(p: Price, a: int, b: int, c: int, d: int)
    ensures Total(p, a + c, b + d) == Total(p, a, b) + Total(p, c, d)
  {
  }

  /** Splitting one call into two costs the same or one cent more. */
  lemma SplittingCostsAtMostOneCent(table: map<string, Price>, model: string, a: int64, b: int64, c: int64, d: int64)
    requires Priced(table, model) && a >= 0 && b >= 0 && c >= 0 && d >= 0 && a + c <= MAX_INT64 && b + d <= MAX_INT64
    ensures var whole := Cost(table, model, a + c, b + d);
            var one, two := Cost(table, model, a, b), Cost(table, model, c, d);
            whole.Cents? ==> one.Cents? && two.Cents? && whole.value <= one.value + two.value <= whole.value + 1
  {
    hide Cost, Total;
    CostIsCeiling(table, model, a, b);
    CostIsCeiling(table, model, c, d);
    CostIsCeiling(table, model, a + c, b + d);
    var p := table[model];
    TotalSplits(p, a, b, c, d);
    TotalGrows(p, 0, 0, a, b);
    TotalGrows(p, 0, 0, c, d);
    TotalGrows(p, a, b, a + c, b + d);
    TotalGrows(p, c, d, a + c, b + d);
  }

  /** A whole number of cents is charged as it is. */
  lemma WholeCents(table: map<string, Price>, model: string, a: int64, b: int64, cents: int)
    requires Priced(table, model) && a >= 0 && b >= 0 && Total(table[model], a, b) == 1_000_000 * cents
    ensures Cost(table, model, a, b) == if 1_000_000 * cents <= MAX_INT64 then Cents(cents) else Err(Overflow)
  {
    hide Cost, Total;
    CostIsCeiling(table, model, a, b);
  }

  /** A price is one for a million tokens: that many cost exactly it. The first token that has a price costs a
      cent, and so does everything up to the millionth part. */
  lemma PriceIsPerMillion(table: map<string, Price>, model: string, n: int64)
    requires Priced(table, model) && 0 < n <= 1_000_000
    ensures var p := table[model];
            && Cost(table, model, 0, 0) == Cents(0)
            && Cost(table, model, 1_000_000, 0)
                 == (if 1_000_000 * p.input <= MAX_INT64 then Cents(p.input) else Err(Overflow))
            && Cost(table, model, 0, 1_000_000)
                 == (if 1_000_000 * p.output <= MAX_INT64 then Cents(p.output) else Err(Overflow))
            && (p.input == 1 ==> Cost(table, model, n, 0) == Cents(1))
            && (p.output == 1 ==> Cost(table, model, 0, n) == Cents(1))
  {
    hide Cost;
    var p := table[model];
    WholeCents(table, model, 0, 0, 0);
    WholeCents(table, model, 1_000_000, 0, p.input);
    WholeCents(table, model, 0, 1_000_000, p.output);
    if p.input == 1 {
      CostIsCeiling(table, model, n, 0);
    }
    if p.output == 1 {
      CostIsCeiling(table, model, 0, n);
    }
  }

  // ---------------------------------------------------------------- retry storm

  const MAX_DURATION: int := MAX_INT64

  /** `Time.Sub`, which saturates; times in nanoseconds. */
  function Sub(t: int, u: int): int64 {
    if t - u > MAX_DURATION then MAX_DURATION else if t - u < MIN_INT64 then MIN_INT64 else t - u
  }

  predicate Sorted(s: seq<int>) {
    forall i, j | 0 <= i < j < |s| :: s[i] <= s[j]
  }

  /** `sort.Slice` by time, in place. */
  method SortTimes(a: array<int>)
    modifies a
    ensures Sorted(a[..]) && multiset(a[..]) == multiset(old(a[..]))
  {
    var i := 1;
    while i < a.Length
      invariant 1 <= i
      invariant forall x, y | 0 <= x < y < i && y < a.Length :: a[x] <= a[y]
      invariant multiset(a[..]) == multiset(old(a[..]))
    {
      var k := i;
      while k > 0 && a[k] < a[k - 1]
        invariant 0 <= k <= i < a.Length
        invariant forall x, y | 0 <= x < y <= i && x != k && y != k :: a[x] <= a[y]
        invariant forall y | k < y <= i :: a[k] < a[y]
        invariant multiset(a[..]) == multiset(old(a[..]))
      {
        a[k], a[k - 1] := a[k - 1], a[k];
        k := k - 1;
      }
      i := i + 1;
    }
  }

  /** Some `limit` of the attempts, counted with multiplicity, lie within the window of each other. */
  ghost predicate Storm(attempts: seq<int>, window: int, limit: nat) {
    exists group: multiset<int> | group <= multiset(attempts) ::
      |group| == limit && forall x, y | x in group && y in group :: x - y <= window
  }

  ghost predicate SlidingHit(s: seq<int>, window: int, limit: nat)
    requires limit > 0
  {
    exists i | 0 <= i <= |s| - limit :: s[i + limit - 1] - s[i] <= window
  }

  lemma HitIsStorm(s: seq<int>, window: int, limit: nat, i: nat)
    requires Sorted(s) && limit > 0 && i + limit <= |s| && s[i + limit - 1] - s[i] <= window
    ensures Storm(s, window, limit)
  {
    var part := s[i..i + limit];
    var group := multiset(part);
    assert s == s[..i] + part + s[i + limit..];
    forall x, y | x in group && y in group
      ensures x - y <= window
    {
      assert x in part && y in part;
    }
    assert group <= multiset(s) && |group| == limit;
  }

  /** The first position of the least element of a group. */
  lemma FirstOfGroup(s: seq<int>, group: multiset<int>) returns (i: nat)
    requires Sorted(s) && group <= multiset(s) && group != multiset{}
    ensures i < |s| && s[i] in group && (forall x | x in group :: x >= s[i]) && (forall j | 0 <= j < i :: s[j] < s[i])
  {
    var x :| x in group;
    assert x in multiset(s);
    var w :| 0 <= w < |s| && s[w] == x;
    i := 0;
    while s[i] !in group
      invariant i <= w && forall j | 0 <= j < i :: s[j] !in group
      decreases w - i
    {
      i := i + 1;
    }
    forall x | x in group
      ensures x >= s[i]
    {
      assert x in multiset(s);
      assert x in s;
    }
  }

  lemma StormIsHit(s: seq<int>, window: int, limit: nat)
    requires Sorted(s) && limit > 0 && Storm(s, window, limit)
    ensures SlidingHit(s, window, limit)
  {
    var group: multiset<int> :| group <= multiset(s) && |group| == limit && forall x, y | x in group && y in group ::
        x - y <= window;
    var i := FirstOfGroup(s, group);
    if i + limit <= |s| && s[i + limit - 1] - s[i] <= window {
      return;
    }
    var end := if i + limit <= |s| then i + limit - 1 else |s|;
    GroupBetween(s, group, i, end);
    SmallerGroup(group, multiset(s[i..end]));
    assert false;
  }

  lemma GroupBetween(s: seq<int>, group: multiset<int>, i: nat, end: nat)
    requires group <= multiset(s) && i <= end <= |s|
    requires forall x | x in group :: x !in s[..i] && x !in s[end..]
    ensures group <= multiset(s[i..end])
  {
    assert s == s[..i] + s[i..end] + s[end..];
    forall x
      ensures group[x] <= multiset(s[i..end])[x]
    {
      if x in group {
        assert multiset(s)[x] == multiset(s[..i])[x] + multiset(s[i..end])[x] + multiset(s[end..])[x];
        assert x !in multiset(s[..i]) && x !in multiset(s[end..]);
      }
    }
  }

  lemma SmallerGroup(a: multiset<int>, b: multiset<int>)
    requires a <= b
    ensures |a| <= |b|
  {
    assert b == a + (b - a);
  }

  lemma SameStorm(a: seq<int>, b: seq<int>, window: int, limit: nat)
    requires multiset(a) == multiset(b)
    ensures Storm(a, window, limit) <==> Storm(b, window, limit)
  {
  }

  /** Two attempts that no window holds; `RetryStorm` reports them all the same for the longest one. */
  lemma LongestWindowTakesAll()
    ensures !Storm([0, MAX_DURATION + 1], MAX_DURATION, 2) && Sub(MAX_DURATION + 1, 0) <= MAX_DURATION
  {
    var attempts := [0, MAX_DURATION + 1];
    forall group: multiset<int> | group <= multiset(attempts) && |group| == 2
      ensures exists x, y :: x in group && y in group && x - y > MAX_DURATION
    {
      SmallerRest(group, multiset(attempts));
      assert attempts[0] in group && attempts[1] in group;
    }
  }

  lemma SmallerRest(a: multiset<int>, b: multiset<int>)
    requires a <= b && |a| == |b|
    ensures a == b
  {
    assert b == a + (b - a);
  }

  /** True exactly when some `limit` attempts lie within the window. Only the longest duration, at which the
      subtraction saturates, accepts any `limit` attempts. The attempts are copied and stay as they are. */
  method RetryStorm(attempts: array<int>, window: int64, limit: int) returns (storm: bool)
    ensures storm <==>
            window > 0 && limit > 0 && attempts.Length >= limit &&
            (Storm(attempts[..], window, limit) || window == MAX_DURATION)
  {
    hide Storm;
    if window <= 0 || limit <= 0 {
      return false;
    }
    var n := attempts.Length;
    if n < limit {
      return false;
    }
    var sorted := new int[n];
    var c := 0;
    while c < n
      invariant c <= n && sorted[..c] == attempts[..c]
    {
      sorted[c] := attempts[c];
      assert sorted[..c + 1] == sorted[..c] + [attempts[c]] == attempts[..c + 1];
      c := c + 1;
    }
    assert sorted[..] == sorted[..n] == attempts[..n] == attempts[..];
    SortTimes(sorted);
    ghost var s := sorted[..];
    SameStorm(s, attempts[..], window, limit);
    var i := 0;
    while i + limit <= n
      invariant 0 <= i <= n - limit + 1
      invariant i > 0 ==> window < MAX_DURATION
      invariant forall k | 0 <= k < i :: s[k + limit - 1] - s[k] > window
      decreases n - i
    {
      if Sub(sorted[i + limit - 1], sorted[i]) <= window {
        if window < MAX_DURATION {
          HitIsStorm(s, window, limit, i);
        }
        return true;
      }
      i := i + 1;
    }
    if Storm(s, window, limit) {
      StormIsHit(s, window, limit);
      assert false;
    }
    return false;
  }
}
