/** Conflict resolution between agents (internal/coord): the two policies, conflict pairs, grouping and constraint
    override. */
module Coordination {
  import opened Text

  datatype Decision = Decision(agent: string, tenantID: string, sku: string, action: string, deltaPct: real,
                               reason: string, at: int)

  /** The zero `AgentDecision`. */
  const NO_DECISION: Decision := Decision("", "", "", "", 0.0, "", ZERO_TIME)

  // ---------------------------------------------------------------- the order

  /** Go's string order: byte by byte, which on UTF-8 is code point by code point. */
  predicate Less(a: string, b: string)
    decreases |a|
  {
    if b == "" then false
    else if a == "" then true
    else if a[0] != b[0] then a[0] < b[0]
    else Less(a[1..], b[1..])
  }

  lemma {:induction false} LessTotal(a: string, b: string)
    ensures !(Less(a, b) && Less(b, a)) && (Less(a, b) || Less(b, a) || a == b) && !Less(a, a)
    decreases |a|
  {
    if a != "" {
      LessTotal(a[1..], if b == "" then "" else b[1..]);
      if b != "" && a[0] == b[0] && a[1..] == b[1..] {
        assert a == [a[0]] + a[1..] == b;
      }
    }
  }

  /** The order of words in a dictionary: the first place where they differ decides, and a shorter word that goes
      on into the longer one comes first. */
  lemma {:induction false} LessIsLexical(a: string, b: string, k: nat)
    requires k <= |a| && k <= |b| && a[..k] == b[..k]
    requires k == |a| || k == |b| || a[k] != b[k]
    ensures Less(a, b) <==> k < |b| && (k == |a| || (k < |a| && a[k] < b[k]))
    decreases k
  {
    if k > 0 {
      assert a[0] == a[..k][0] == b[..k][0] == b[0];
      assert a[1..][..k - 1] == a[..k][1..] && b[1..][..k - 1] == b[..k][1..];
      LessIsLexical(a[1..], b[1..], k - 1);
    }
  }

  lemma {:induction false} LessTransitive(a: string, b: string, c: string)
    requires Less(a, b) && Less(b, c)
    ensures Less(a, c)
    decreases |a|
  {
    if a != "" && a[0] == b[0] && b[0] == c[0] {
      LessTransitive(a[1..], b[1..], c[1..]);
    }
  }

  type Weights = map<string, real>

  function Weight(w: Weights, agent: string): real {
    if agent in w then w[agent] else 0.0
  }

  function BreakTies(a: Decision, b: Decision): bool {
    if a.at != b.at then a.at > b.at else Less(a.agent, b.agent)
  }

  /** `WeightedPriority.less`: heavier agent, then later, then by name. Without weights it is the order of
      `LastWriteWins`. */
  predicate Before(w: Weights, a: Decision, b: Decision) {
    var wa, wb := Weight(w, a.agent), Weight(w, b.agent);
    if wa != wb then wa > wb else BreakTies(a, b)
  }

  predicate Tied(a: Decision, b: Decision) {
    a.agent == b.agent && a.at == b.at
  }

  /** A strict weak order whose ties are the decisions of one agent at one time. */
  lemma Order(w: Weights, a: Decision, b: Decision, c: Decision)
    ensures !Before(w, a, a) && !(Before(w, a, b) && Before(w, b, a))
    ensures Before(w, a, b) ==> Before(w, a, c) || Before(w, c, b)
    ensures !Before(w, a, b) && !Before(w, b, a) <==> Tied(a, b)
  {
    hide Less;
    LessTotal(a.agent, b.agent);
    LessTotal(a.agent, c.agent);
    LessTotal(c.agent, b.agent);
    if Less(a.agent, b.agent) && Less(b.agent, c.agent) {
      LessTransitive(a.agent, b.agent, c.agent);
    }
    if Less(c.agent, a.agent) && Less(a.agent, b.agent) {
      LessTransitive(c.agent, a.agent, b.agent);
    }
    if Less(b.agent, c.agent) && Less(c.agent, a.agent) {
      LessTransitive(b.agent, c.agent, a.agent);
    }
  }

  /** The first decision that no other one beats. */
  predicate FirstBest(w: Weights, ds: seq<Decision>, i: nat) {
    && i < |ds|
    && (forall j | 0 <= j < |ds| :: !Before(w, ds[j], ds[i]))
    && (forall j | 0 <= j < i :: Before(w, ds[i], ds[j]))
  }

  lemma FirstBestIsUnique(w: Weights, ds: seq<Decision>, i: nat, j: nat)
    requires FirstBest(w, ds, i) && FirstBest(w, ds, j)
    ensures i == j
  {
    hide Before, FirstBest;
    if i < j {
      BeatsEarlier(w, ds, j, i);
      Unbeaten(w, ds, i, j);
    } else if j < i {
      BeatsEarlier(w, ds, i, j);
      Unbeaten(w, ds, j, i);
    }
  }

  lemma BeatsEarlier(w: Weights, ds: seq<Decision>, i: nat, j: nat)
    requires FirstBest(w, ds, i) && j < i
    ensures i < |ds| && Before(w, ds[i], ds[j])
  {
    hide Before;
  }

  lemma Unbeaten(w: Weights, ds: seq<Decision>, i: nat, j: nat)
    requires FirstBest(w, ds, i) && j < |ds|
    ensures i < |ds| && !Before(w, ds[j], ds[i])
  {
    hide Before;
  }

  /** One pass, keeping the best so far. */
  function Best(w: Weights, ds: seq<Decision>): (i: nat)
    requires ds != []
    ensures i < |ds|
    decreases |ds|
  {
    var n := |ds| - 1;
    if n == 0 then 0
    else
      var b := Best(w, ds[..n]);
      if Before(w, ds[n], ds[b]) then n else b
  }

  lemma {:induction false} BestIsFirst(w: Weights, ds: seq<Decision>)
    requires ds != []
    ensures FirstBest(w, ds, Best(w, ds))
    decreases |ds|
  {
    hide Before;
    var n := |ds| - 1;
    forall a, b, c
      ensures !Before(w, a, a) && !(Before(w, a, b) && Before(w, b, a))
      ensures Before(w, a, b) ==> Before(w, a, c) || Before(w, c, b)
    {
      Order(w, a, b, c);
    }
    if n > 0 {
      var most := ds[..n];
      BestIsFirst(w, most);
      var b := Best(w, most);
      forall j | 0 <= j < n
        ensures !Before(w, ds[j], ds[b]) && (j < b ==> Before(w, ds[b], ds[j]))
        ensures Before(w, ds[n], ds[b]) ==> Before(w, ds[n], ds[j])
      {
        assert most[j] == ds[j] && most[b] == ds[b];
        Order(w, ds[n], ds[b], ds[j]);
      }
    }
  }

  /** `ds[i]` wins by weight, then by time, then by name, and is the first of its agent and time. */
  ghost predicate Wins(w: Weights, ds: seq<Decision>, i: nat) {
    && i < |ds|
    && var weigh := (d: Decision) => if d.agent in w then w[d.agent] else 0.0;
       && (forall d | d in ds :: weigh(d) <= weigh(ds[i]))
       && (forall d | d in ds && weigh(d) == weigh(ds[i]) :: d.at <= ds[i].at)
       && (forall d | d in ds && weigh(d) == weigh(ds[i]) && d.at == ds[i].at ::
             d.agent == ds[i].agent || Less(ds[i].agent, d.agent))
       && (forall j | 0 <= j < i :: ds[j].agent != ds[i].agent || ds[j].at != ds[i].at)
  }

  lemma BestWins(w: Weights, ds: seq<Decision>)
    requires ds != []
    ensures Wins(w, ds, Best(w, ds))
  {
    hide Less, Best;
    var i := Best(w, ds);
    BestIsFirst(w, ds);
    forall d | d in ds
      ensures !Before(w, d, ds[i])
      ensures Less(d.agent, ds[i].agent) || Less(ds[i].agent, d.agent) || d.agent == ds[i].agent
    {
      var j :| 0 <= j < |ds| && ds[j] == d;
      LessTotal(d.agent, ds[i].agent);
    }
    forall j | 0 <= j < i
      ensures ds[j].agent != ds[i].agent || ds[j].at != ds[i].at
    {
      LessTotal(ds[j].agent, ds[i].agent);
    }
  }

  lemma OneWinner(w: Weights, ds: seq<Decision>, i: nat, j: nat)
    requires Wins(w, ds, i) && Wins(w, ds, j)
    ensures i == j
  {
    hide Less;
    assert ds[i] in ds && ds[j] in ds;
    LessTotal(ds[i].agent, ds[j].agent);
  }

  // ---------------------------------------------------------------- the two policies

  /** `LastWriteWins.Resolve`, the loop. */
  method LastWriteWins(ds: seq<Decision>) returns (winner: Decision)
    ensures winner == if ds == [] then NO_DECISION else ds[Best(map[], ds)]
    ensures if ds == [] then winner == Decision("", "", "", "", 0.0, "", ZERO_TIME)
            else exists i: nat :: Wins(map[], ds, i) && winner == ds[i]
  {
    if |ds| == 0 {
      return NO_DECISION;
    }
    winner := ds[0];
    var i := 1;
    while i < |ds|
      invariant 1 <= i <= |ds| && winner == ds[..i][Best(map[], ds[..i])]
    {
      assert ds[..i + 1][..i] == ds[..i];
      var d := ds[i];
      i := i + 1;
      if d.at > winner.at {
        winner := d;
        continue;
      }
      if d.at == winner.at && Less(d.agent, winner.agent) {
        winner := d;
      }
    }
    assert ds[..i] == ds;
    BestWins(map[], ds);
  }

  /** The decisions of one agent at one time, in order. */
  function Class(ds: seq<Decision>, agent: string, at: int): seq<Decision>
    decreases |ds|
  {
    if ds == [] then []
    else (if ds[0].agent == agent && ds[0].at == at then [ds[0]] else []) + Class(ds[1..], agent, at)
  }

  /** What `sort.SliceStable` promises: no later element before an earlier one, and ties in their old order. */
  ghost predicate StablySorted(w: Weights, ds: seq<Decision>, ranked: seq<Decision>) {
    && (forall i, j | 0 <= i < j < |ranked| :: !Before(w, ranked[j], ranked[i]))
    && (forall agent, at :: Class(ranked, agent, at) == Class(ds, agent, at))
  }

  lemma {:induction false} ClassSplit(xs: seq<Decision>, ys: seq<Decision>, agent: string, at: int)
    ensures Class(xs + ys, agent, at) == Class(xs, agent, at) + Class(ys, agent, at)
    decreases |xs|
  {
    if xs == [] {
      assert xs + ys == ys;
    } else {
      assert (xs + ys)[1..] == xs[1..] + ys;
      ClassSplit(xs[1..], ys, agent, at);
    }
  }

  lemma SwapKeepsClass(ds: seq<Decision>, k: nat, agent: string, at: int)
    requires 0 < k < |ds| && !Tied(ds[k], ds[k - 1])
    ensures Class(ds[k := ds[k - 1]][k - 1 := ds[k]], agent, at) == Class(ds, agent, at)
  {
    var a, x, y, b := ds[..k - 1], ds[k - 1], ds[k], ds[k + 1..];
    assert ds == a + ([x] + [y] + b);
    assert ds[k := x][k - 1 := y] == a + ([y] + [x] + b);
    ClassSplit(a, [x] + [y] + b, agent, at);
    ClassSplit(a, [y] + [x] + b, agent, at);
    ClassSplit([x] + [y], b, agent, at);
    ClassSplit([y] + [x], b, agent, at);
    ClassSplit([x], [y], agent, at);
    ClassSplit([y], [x], agent, at);
  }

  /** `sort.SliceStable` with `less`, in place. */
  method SliceStable(w: Weights, ranked: array<Decision>)
    modifies ranked
    ensures StablySorted(w, old(ranked[..]), ranked[..])
  {
    hide Class, Before, Tied;
    ghost var was := ranked[..];
    var i := 1;
    while i < ranked.Length
      invariant 1 <= i
      invariant forall a, b | 0 <= a < b < i && b < ranked.Length :: !Before(w, ranked[b], ranked[a])
      invariant forall agent, at :: Class(ranked[..], agent, at) == Class(was, agent, at)
    {
      var k := i;
      while k > 0 && Before(w, ranked[k], ranked[k - 1])
        invariant 0 <= k <= i < ranked.Length
        invariant forall a, b | 0 <= a < b <= i && a != k && b != k :: !Before(w, ranked[b], ranked[a])
        invariant forall b | k < b <= i :: Before(w, ranked[k], ranked[b])
        invariant forall agent, at :: Class(ranked[..], agent, at) == Class(was, agent, at)
      {
        Order(w, ranked[k], ranked[k - 1], ranked[k]);
        forall agent, at
          ensures Class(ranked[..][k := ranked[k - 1]][k - 1 := ranked[k]], agent, at) == Class(was, agent, at)
        {
          SwapKeepsClass(ranked[..], k, agent, at);
        }
        ghost var next := ranked[..][k := ranked[k - 1]][k - 1 := ranked[k]];
        ranked[k], ranked[k - 1] := ranked[k - 1], ranked[k];
        assert ranked[..] == next;
        k := k - 1;
      }
      Settled(w, ranked[..], k, i);
      i := i + 1;
    }
  }

  /** The moved element is where it belongs: everything before it is not after it, everything behind it is not before
      it. */
  lemma Settled(w: Weights, ds: seq<Decision>, k: nat, i: nat)
    requires k <= i < |ds| && (k > 0 ==> !Before(w, ds[k], ds[k - 1]))
    requires forall a, b | 0 <= a < b <= i && a != k && b != k :: !Before(w, ds[b], ds[a])
    requires forall b | k < b <= i :: Before(w, ds[k], ds[b])
    ensures forall a, b | 0 <= a < b <= i :: !Before(w, ds[b], ds[a])
  {
    hide Before, Tied;
    forall a, b | 0 <= a < b <= i
      ensures !Before(w, ds[b], ds[a])
    {
      if b == k {
        Order(w, ds[k], ds[a], ds[k - 1]);
      } else if a == k {
        Order(w, ds[k], ds[b], ds[k]);
      }
    }
  }

  /** `WeightedPriority.Resolve`: rank a copy, take the head. */
  method WeightedPriority(w: Weights, ds: seq<Decision>) returns (winner: Decision)
    ensures winner == if ds == [] then NO_DECISION else ds[Best(w, ds)]
    ensures if ds == [] then winner == Decision("", "", "", "", 0.0, "", ZERO_TIME)
            else exists i: nat :: Wins(w, ds, i) && winner == ds[i]
  {
    hide StablySorted, Wins;
    if |ds| == 0 {
      return NO_DECISION;
    }
    var ranked := new Decision[|ds|](i requires 0 <= i < |ds| => ds[i]);
    assert ranked[..] == ds;
    SliceStable(w, ranked);
    HeadIsBest(w, ds, ranked[..]);
    BestWins(w, ds);
    winner := ranked[0];
  }

  lemma {:induction false} ClassMembers(ds: seq<Decision>, agent: string, at: int)
    ensures forall d :: d in Class(ds, agent, at) <==> d in ds && d.agent == agent && d.at == at
    decreases |ds|
  {
    if ds != [] {
      ClassMembers(ds[1..], agent, at);
      assert ds == [ds[0]] + ds[1..];
    }
  }

  lemma {:induction false} ClassHead(ds: seq<Decision>, i: nat)
    requires i < |ds| && forall j | 0 <= j < i :: !Tied(ds[i], ds[j])
    ensures Class(ds, ds[i].agent, ds[i].at) != [] && Class(ds, ds[i].agent, ds[i].at)[0] == ds[i]
    decreases i
  {
    if i > 0 {
      forall j | 0 <= j < i - 1
        ensures !Tied(ds[1..][i - 1], ds[1..][j])
      {
        assert ds[1..][j] == ds[j + 1];
      }
      ClassHead(ds[1..], i - 1);
    }
  }

  /** Sorting and taking the head is the same as one pass for the first best. */
  lemma HeadIsBest(w: Weights, ds: seq<Decision>, ranked: seq<Decision>)
    requires ds != [] && StablySorted(w, ds, ranked)
    ensures ranked != [] && ranked[0] == ds[Best(w, ds)]
  {
    hide Before, Class, Best;
    var i := Best(w, ds);
    var b := ds[i];
    BestIsFirst(w, ds);
    ClassMembers(ranked, b.agent, b.at);
    ClassMembers(ds, b.agent, b.at);
    assert b in ds;
    assert b in Class(ds, b.agent, b.at);
    var k :| 0 <= k < |ranked| && ranked[k] == b;
    var h := ranked[0];
    ClassMembers(ranked, h.agent, h.at);
    ClassMembers(ds, h.agent, h.at);
    assert h in ranked;
    assert h in Class(ranked, h.agent, h.at);
    var m :| 0 <= m < |ds| && ds[m] == h;
    Order(w, h, b, h);
    assert !Before(w, h, b);
    assert !Before(w, b, h) by { Order(w, b, b, b); }
    forall j | 0 <= j < i
      ensures !Tied(ds[i], ds[j])
    {
      Order(w, ds[i], ds[j], ds[i]);
    }
    ClassHead(ds, i);
    ClassHead(ranked, 0);
  }

  // ---------------------------------------------------------------- the policies agree

  /** With equal weights the priority policy is last-write-wins. */
  lemma {:induction false} EqualWeightsAreLastWriteWins(w: Weights, ds: seq<Decision>)
    requires ds != [] && forall d, e | d in ds && e in ds :: Weight(w, d.agent) == Weight(w, e.agent)
    ensures Best(w, ds) == Best(map[], ds)
    decreases |ds|
  {
    var n := |ds| - 1;
    if n > 0 {
      EqualWeightsAreLastWriteWins(w, ds[..n]);
      assert ds[n] in ds && ds[Best(w, ds[..n])] in ds;
    }
  }

  /** Whoever ties with the winner is the winner. */
  predicate Decided(w: Weights, ds: seq<Decision>)
    requires ds != []
  {
    forall d | d in ds :: Tied(d, ds[Best(w, ds)]) ==> d == ds[Best(w, ds)]
  }

  /** The winner does not depend on the order of the list exactly when no different decision ties with it. */
  lemma OrderOfListIsIrrelevant(w: Weights, ds: seq<Decision>)
    requires ds != []
    ensures (forall es: seq<Decision> | multiset(es) == multiset(ds) ::
          es != [] && es[Best(w, es)] == ds[Best(w, ds)]) <==> Decided(w, ds)
  {
    hide Before, Tied, Best;
    if Decided(w, ds) {
      forall es: seq<Decision> | multiset(es) == multiset(ds)
        ensures es != [] && es[Best(w, es)] == ds[Best(w, ds)]
      {
        SameWinner(w, ds, es);
      }
    } else {
      var es := OtherWinner(w, ds);
    }
  }

  lemma OtherWinner(w: Weights, ds: seq<Decision>) returns (es: seq<Decision>)
    requires ds != [] && !Decided(w, ds)
    ensures multiset(es) == multiset(ds) && es != [] && es[Best(w, es)] != ds[Best(w, ds)]
  {
    hide Before, Tied, Best;
    var d :| d in ds && Tied(d, ds[Best(w, ds)]) && d != ds[Best(w, ds)];
    var i :| 0 <= i < |ds| && ds[i] == d;
    es := [d] + (ds[..i] + ds[i + 1..]);
    assert ds == ds[..i] + ([d] + ds[i + 1..]);
    assert multiset(es) == multiset(ds);
    FrontWins(w, ds, es, d);
  }

  lemma SameWinner(w: Weights, ds: seq<Decision>, es: seq<Decision>)
    requires ds != [] && Decided(w, ds) && multiset(es) == multiset(ds)
    ensures es != [] && es[Best(w, es)] == ds[Best(w, ds)]
  {
    hide Before, Tied, Best;
    assert |es| == |multiset(es)| == |ds|;
    var x, y := ds[Best(w, ds)], es[Best(w, es)];
    BestIsFirst(w, ds);
    BestIsFirst(w, es);
    assert x in multiset(ds) && y in multiset(es);
    assert x in es && y in ds;
    var i :| 0 <= i < |es| && es[i] == x;
    var j :| 0 <= j < |ds| && ds[j] == y;
    Order(w, y, x, y);
  }

  lemma FrontWins(w: Weights, ds: seq<Decision>, es: seq<Decision>, d: Decision)
    requires ds != [] && multiset(es) == multiset(ds) && es != [] && es[0] == d && Tied(d, ds[Best(w, ds)])
    ensures es[Best(w, es)] == d
  {
    hide Before, Tied, Best;
    BestIsFirst(w, ds);
    BestIsFirst(w, es);
    var x := ds[Best(w, ds)];
    forall j | 0 <= j < |es|
      ensures !Before(w, es[j], d)
    {
      assert es[j] in multiset(es);
      assert es[j] in ds;
      var m :| 0 <= m < |ds| && ds[m] == es[j];
      Order(w, es[j], d, x);
      Order(w, x, d, x);
      Order(w, d, x, d);
    }
    FirstBestIsUnique(w, es, Best(w, es), 0);
  }

  // ---------------------------------------------------------------- conflicts

  /** `ActionKind.Conflicts`. */
  predicate Conflicts(k: string, other: string) {
    || k == other
    || (k == "price_change" && other == "inventory_deplete") || (k == "inventory_deplete" && other == "price_change")
    || (k == "inventory_deplete" && other == "inventory_hold")
    || (k == "inventory_hold" && other == "inventory_deplete")
  }

  /** Two actions conflict when they are the same, or one of them depletes the inventory and the other one changes
      the price or holds the inventory. */
  lemma ConflictingActions(k: string, other: string)
    ensures Conflicts(k, other) <==>
            k == other || {k, other} == {"price_change", "inventory_deplete"} ||
            {k, other} == {"inventory_deplete", "inventory_hold"}
  {
    assert {k, other} == {"price_change", "inventory_deplete"} ==> k in {"price_change", "inventory_deplete"};
    assert {k, other} == {"inventory_deplete", "inventory_hold"} ==> k in {"inventory_deplete", "inventory_hold"};
    if {k, other} == {"price_change", "inventory_deplete"} {
      assert "price_change" in {k, other} && "inventory_deplete" in {k, other};
    }
    if {k, other} == {"inventory_deplete", "inventory_hold"} {
      assert "inventory_hold" in {k, other} && "inventory_deplete" in {k, other};
    }
    assert |"price_change"| == 12 && |"inventory_deplete"| == 17 && |"inventory_hold"| == 14;
  }

  datatype Conflict = Conflict(tenantID: string, sku: string, agentA: string, agentB: string, resolution: string)

  datatype IndexPair = IndexPair(i: nat, j: nat)

  function ConflictOf(ds: seq<Decision>, p: IndexPair, tenant: string, sku: string, resolution: string): Conflict
    requires p.i < |ds| && p.j < |ds|
  {
    var a, b := ds[p.i].agent, ds[p.j].agent;
    if Less(b, a) then Conflict(tenant, sku, b, a, resolution) else Conflict(tenant, sku, a, b, resolution)
  }

  /** Exactly one conflict for every conflicting pair of positions: `pairs` lists those pairs without repetition. */
  ghost predicate ExactConflicts(tenant: string, sku: string, ds: seq<Decision>, resolution: string,
          out: seq<Conflict>) {
    exists pairs :: ListsConflicts(ds, pairs) && Describes(tenant, sku, ds, resolution, out, pairs)
  }

  ghost predicate ListsConflicts(ds: seq<Decision>, pairs: seq<IndexPair>) {
    && (forall p :: p in pairs <==> p.i < p.j < |ds| && Conflicts(ds[p.i].action, ds[p.j].action))
    && (forall a, b | 0 <= a < b < |pairs| :: pairs[a] != pairs[b])
  }

  ghost predicate Describes(tenant: string, sku: string, ds: seq<Decision>, resolution: string, out: seq<Conflict>,
          pairs: seq<IndexPair>) {
    && |out| == |pairs|
    && forall n | 0 <= n < |out| ::
         pairs[n].i < |ds| && pairs[n].j < |ds| && out[n] == ConflictOf(ds, pairs[n], tenant, sku, resolution)
  }

  /** `detectConflict`. */
  method DetectConflict(tenant: string, sku: string, ds: seq<Decision>, resolution: string) returns (out: seq<Conflict>)
    ensures ExactConflicts(tenant, sku, ds, resolution, out)
  {
    hide Conflicts, Less;
    out := [];
    ghost var pairs: seq<IndexPair> := [];
    if |ds| < 2 {
      assert ListsConflicts(ds, pairs) && Describes(tenant, sku, ds, resolution, out, pairs);
      return;
    }
    var i := 0;
    while i < |ds|
      invariant i <= |ds| && |out| == |pairs|
      invariant forall p :: p in pairs <==> p.i < i && p.i < p.j < |ds| && Conflicts(ds[p.i].action, ds[p.j].action)
      invariant forall a, b | 0 <= a < b < |pairs| :: pairs[a] != pairs[b]
      invariant forall n | 0 <= n < |out| ::
            pairs[n] in pairs && out[n] == ConflictOf(ds, pairs[n], tenant, sku, resolution)
    {
      var j := i + 1;
      while j < |ds|
        invariant i < j <= |ds| && |out| == |pairs|
        invariant forall p :: p in pairs <==>
              (p.i < i || (p.i == i && p.j < j)) && p.i < p.j < |ds| && Conflicts(ds[p.i].action, ds[p.j].action)
        invariant forall a, b | 0 <= a < b < |pairs| :: pairs[a] != pairs[b]
        invariant forall n | 0 <= n < |out| ::
              pairs[n] in pairs && out[n] == ConflictOf(ds, pairs[n], tenant, sku, resolution)
      {
        j := j + 1;
        if !Conflicts(ds[i].action, ds[j - 1].action) {
          continue;
        }
        var a, b := ds[i].agent, ds[j - 1].agent;
        if Less(b, a) {
          a, b := b, a;
        }
        out := out + [Conflict(tenant, sku, a, b, resolution)];
        pairs := pairs + [IndexPair(i, j - 1)];
      }
      i := i + 1;
    }
    assert ListsConflicts(ds, pairs) && Describes(tenant, sku, ds, resolution, out, pairs);
  }

  /** A conflict does not depend on which of the two decisions comes first, and names its agents in order. */
  lemma ConflictIsUnordered(ds: seq<Decision>, i: nat, j: nat, tenant: string, sku: string, resolution: string)
    requires i < |ds| && j < |ds|
    ensures Conflicts(ds[i].action, ds[j].action) <==> Conflicts(ds[j].action, ds[i].action)
    ensures ConflictOf(ds, IndexPair(i, j), tenant, sku, resolution) ==
            ConflictOf(ds, IndexPair(j, i), tenant, sku, resolution)
    ensures var c := ConflictOf(ds, IndexPair(i, j), tenant, sku, resolution);
            c.agentA == c.agentB || Less(c.agentA, c.agentB)
  {
    hide Less;
    LessTotal(ds[i].agent, ds[j].agent);
  }

  // ---------------------------------------------------------------- one action per SKU

  function Proposals(ds: seq<Decision>, sku: string): seq<Decision>
    decreases |ds|
  {
    if ds == [] then []
    else
      var d := ds[|ds| - 1];
      Proposals(ds[..|ds| - 1], sku) + if d.sku == sku then [d] else []
  }

  lemma {:induction false} ProposalsMembers(ds: seq<Decision>, sku: string)
    ensures forall d :: d in Proposals(ds, sku) <==> d in ds && d.sku == sku
    decreases |ds|
  {
    if ds != [] {
      ProposalsMembers(ds[..|ds| - 1], sku);
      assert ds == ds[..|ds| - 1] + [ds[|ds| - 1]];
    }
  }

  ghost predicate Grouped(ds: seq<Decision>, groups: map<string, seq<Decision>>) {
    && (forall sku :: sku in groups <==> exists d | d in ds :: d.sku == sku)
    && (forall sku | sku in groups :: groups[sku] == Proposals(ds, sku))
  }

  /** `groupProposalsBySKU`. */
  method GroupProposalsBySKU(ds: seq<Decision>) returns (groups: map<string, seq<Decision>>)
    ensures Grouped(ds, groups)
  {
    groups := map[];
    var i := 0;
    while i < |ds|
      invariant i <= |ds| && Grouped(ds[..i], groups)
    {
      hide Grouped;
      GroupOne(ds[..i], ds[i], groups);
      assert ds[..i + 1] == ds[..i] + [ds[i]];
      groups := groups[ds[i].sku := (if ds[i].sku in groups then groups[ds[i].sku] else []) + [ds[i]]];
      i := i + 1;
    }
    assert ds[..i] == ds;
  }

  lemma GroupOne(ds: seq<Decision>, d: Decision, groups: map<string, seq<Decision>>)
    requires Grouped(ds, groups)
    ensures Grouped(ds + [d], groups[d.sku := (if d.sku in groups then groups[d.sku] else []) + [d]])
  {
    var next := groups[d.sku := (if d.sku in groups then groups[d.sku] else []) + [d]];
    assert (ds + [d])[..|ds|] == ds;
    assert d in ds + [d];
    assert forall e :: e in ds + [d] <==> e in ds || e == d;
    forall sku | sku in next
      ensures next[sku] == Proposals(ds + [d], sku)
    {
      ProposalsMembers(ds, sku);
      if sku !in groups {
        if Proposals(ds, sku) != [] {
          assert Proposals(ds, sku)[0] in Proposals(ds, sku);
        }
      }
    }
  }

  ghost predicate Increasing(ss: seq<string>) {
    forall i, j | 0 <= i < j < |ss| :: Less(ss[i], ss[j])
  }

  /** `sortedSKUs`: the keys, in whatever order they come, put in lexical order. */
  method SortedSKUs(groups: map<string, seq<Decision>>) returns (out: seq<string>)
    ensures Increasing(out) && forall s :: s in out <==> s in groups
  {
    hide Increasing;
    out := [];
    var left := groups.Keys;
    assert Increasing(out) by { NothingIncreasing(); }
    while left != {}
      invariant left <= groups.Keys && Increasing(out)
      invariant forall s :: s in groups <==> s in out || s in left
      invariant forall s | s in out :: s !in left
      decreases |left|
    {
      var s :| s in left;
      left := left - {s};
      out := InsertInOrder(out, s);
    }
  }

  lemma NothingIncreasing()
    ensures Increasing([])
  {
  }

  method InsertInOrder(ss: seq<string>, s: string) returns (out: seq<string>)
    requires Increasing(ss) && s !in ss
    ensures Increasing(out) && forall t :: t in out <==> t in ss || t == s
  {
    hide Less;
    var k := 0;
    while k < |ss| && Less(ss[k], s)
      invariant k <= |ss| && forall i | 0 <= i < k :: Less(ss[i], s)
    {
      k := k + 1;
    }
    out := ss[..k] + [s] + ss[k..];
    forall i | k <= i < |ss|
      ensures Less(s, ss[i])
    {
      LessTotal(s, ss[k]);
      assert ss[k] in ss;
      if k < i {
        LessTransitive(s, ss[k], ss[i]);
      }
    }
    assert ss == ss[..k] + ss[k..];
  }

  datatype Policy = LastWrite | Weighted(weights: Weights)

  function PolicyName(p: Policy): string {
    if p.LastWrite? then "last_write_wins" else "weighted_priority"
  }

  function Choose(p: Policy, ds: seq<Decision>): Decision {
    if ds == [] then NO_DECISION else ds[Best(if p.LastWrite? then map[] else p.weights, ds)]
  }

  datatype Action = Action(tenantID: string, sku: string, chosen: Decision, conflicts: seq<Conflict>, decidedAt: int)

  datatype Fault =
    | Closed | Cancelled
    | NoAgent(i: nat) | NoTenant(i: nat) | NoSKU(i: nat) | NoAction(i: nat) | TenantMismatch(i: nat)

  datatype Outcome = Actions(actions: seq<Action>) | Failed(fault: Fault)

  function FaultOf(d: Decision, i: nat, tenant: string): Option<Fault> {
    if TrimSpace(d.agent) == "" then Some(NoAgent(i))
    else if TrimSpace(d.tenantID) == "" then Some(NoTenant(i))
    else if TrimSpace(d.sku) == "" then Some(NoSKU(i))
    else if TrimSpace(d.action) == "" then Some(NoAction(i))
    else if d.tenantID != tenant then Some(TenantMismatch(i))
    else None
  }

  ghost predicate ActionFor(a: Action, sku: string, ds: seq<Decision>, tenant: string, p: Policy, now: int) {
    && a.sku == sku && a.tenantID == tenant && a.decidedAt == now
    && a.chosen in ds && a.chosen.sku == sku && a.chosen == Choose(p, Proposals(ds, sku))
    && ExactConflicts(tenant, sku, Proposals(ds, sku), PolicyName(p), a.conflicts)
  }

  class Coordinator {
    const tenantID: string
    const policy: Policy
    var closed: bool

    constructor (tenantID: string, policy: Policy)
      ensures this.tenantID == tenantID && this.policy == policy && !closed
    {
      this.tenantID, this.policy, closed := tenantID, policy, false;
    }

    method Close()
      modifies this
      ensures closed
    {
      closed := true;
    }

    method ValidateInputs(ds: seq<Decision>) returns (fault: Option<Fault>)
      ensures fault.None? <==> forall i | 0 <= i < |ds| :: FaultOf(ds[i], i, tenantID).None?
      ensures fault.Some? ==>
              exists i: nat | i < |ds| ::
                fault == FaultOf(ds[i], i, tenantID) && forall j | 0 <= j < i :: FaultOf(ds[j], j, tenantID).None?
    {
      hide FaultOf;
      var i := 0;
      while i < |ds|
        invariant i <= |ds| && forall j | 0 <= j < i :: FaultOf(ds[j], j, tenantID).None?
      {
        fault := FaultOf(ds[i], i, tenantID);
        if fault.Some? {
          return;
        }
        i := i + 1;
      }
      fault := None;
    }

    method CoordinateOne(sku: string, mine: seq<Decision>, now: int, ghost ds: seq<Decision>) returns (a: Action)
      requires mine == Proposals(ds, sku) && mine != []
      ensures ActionFor(a, sku, ds, tenantID, policy, now)
    {
      hide ExactConflicts, Best, Proposals;
      var conflicts := DetectConflict(tenantID, sku, mine, PolicyName(policy));
      var chosen;
      if policy.LastWrite? {
        chosen := LastWriteWins(mine);
      } else {
        chosen := WeightedPriority(policy.weights, mine);
      }
      assert chosen in mine;
      ProposalsMembers(ds, sku);
      a := Action(tenantID, sku, chosen, conflicts, now);
    }

    /** One action per distinct SKU, in lexical order, or the first fault; the clock is read for every SKU. */
    method Coordinate(ds: seq<Decision>, cancelled: bool, clock: nat -> int) returns (r: Outcome)
      ensures closed <==> r == Failed(Closed)
      ensures !closed && cancelled <==> r == Failed(Cancelled)
      ensures !closed && !cancelled ==>
                (r.Actions? <==> forall i | 0 <= i < |ds| :: FaultOf(ds[i], i, tenantID).None?)
      ensures r.Actions? ==>
                && (forall i, j | 0 <= i < j < |r.actions| :: Less(r.actions[i].sku, r.actions[j].sku))
                && (forall d | d in ds :: exists a | a in r.actions :: a.sku == d.sku)
                && (forall n | 0 <= n < |r.actions| ::
                      ActionFor(r.actions[n], r.actions[n].sku, ds, tenantID, policy, clock(n)))
    {
      hide FaultOf, ActionFor, Proposals;
      if closed {
        return Failed(Closed);
      }
      if cancelled {
        return Failed(Cancelled);
      }
      var fault := ValidateInputs(ds);
      if fault.Some? {
        NotTheOtherFaults(ds, tenantID);
        return Failed(fault.value);
      }
      var groups := GroupProposalsBySKU(ds);
      var skus := SortedSKUs(groups);
      var out: seq<Action> := [];
      var n := 0;
      while n < |skus|
        invariant n <= |skus| && |out| == n
        invariant forall k | 0 <= k < n ::
              out[k].sku == skus[k] && ActionFor(out[k], skus[k], ds, tenantID, policy, clock(k))
      {
        assert skus[n] in skus;
        ProposalsMembers(ds, skus[n]);
        var a := CoordinateOne(skus[n], groups[skus[n]], clock(n), ds);
        assert a.sku == skus[n] by { SkuOfAction(a, skus[n], ds, tenantID, policy, clock(n)); }
        out := out + [a];
        n := n + 1;
      }
      forall d | d in ds
        ensures exists a | a in out :: a.sku == d.sku
      {
        assert d.sku in skus;
        var k :| 0 <= k < |skus| && skus[k] == d.sku;
        assert out[k] in out;
      }
      r := Actions(out);
    }
  }

  lemma SkuOfAction(a: Action, sku: string, ds: seq<Decision>, tenant: string, p: Policy, now: int)
    requires ActionFor(a, sku, ds, tenant, p, now)
    ensures a.sku == sku
  {
  }

  /** The winner of an action is decided by the policy among the decisions for its SKU. */
  lemma ActionWinner(a: Action, sku: string, ds: seq<Decision>, tenant: string, p: Policy, now: int) returns (i: nat)
    requires ActionFor(a, sku, ds, tenant, p, now)
    ensures a.tenantID == tenant && a.sku == sku && a.decidedAt == now && a.chosen in ds && a.chosen.sku == sku
    ensures var mine := Proposals(ds, sku);
            i < |mine| && a.chosen == mine[i] && Wins(if p.LastWrite? then map[] else p.weights, mine, i)
  {
    hide Wins, ExactConflicts;
    var mine := Proposals(ds, sku);
    ProposalsMembers(ds, sku);
    assert a.chosen in mine;
    var w: Weights := if p.LastWrite? then map[] else p.weights;
    BestWins(w, mine);
    i := Best(w, mine);
  }

  /** Every conflict of an action is one between two decisions for its SKU, and names the policy. */
  lemma ActionConflicts(a: Action, sku: string, ds: seq<Decision>, tenant: string, p: Policy, now: int, c: Conflict)
    returns (d: Decision, e: Decision)
    requires ActionFor(a, sku, ds, tenant, p, now) && c in a.conflicts
    ensures c.tenantID == tenant && c.sku == sku
    ensures c.resolution == if p.LastWrite? then "last_write_wins" else "weighted_priority"
    ensures d in ds && e in ds && d.sku == sku && e.sku == sku && Conflicts(d.action, e.action)
    ensures (c.agentA == d.agent && c.agentB == e.agent) || (c.agentA == e.agent && c.agentB == d.agent)
  {
    hide Best, Less, Conflicts, Proposals, Choose, ListsConflicts, Describes, ConflictOf;
    var mine := Proposals(ds, sku);
    ProposalsMembers(ds, sku);
    var pairs: seq<IndexPair> :|
      ListsConflicts(mine, pairs) && Describes(tenant, sku, mine, PolicyName(p), a.conflicts, pairs);
    var n :| 0 <= n < |a.conflicts| && a.conflicts[n] == c;
    ConflictAt(tenant, sku, mine, PolicyName(p), a.conflicts, pairs, n);
    d, e := mine[pairs[n].i], mine[pairs[n].j];
    assert d in mine && e in mine;
  }

  lemma ConflictAt(tenant: string, sku: string, ds: seq<Decision>, resolution: string, out: seq<Conflict>,
          pairs: seq<IndexPair>, n: nat)
    requires ListsConflicts(ds, pairs) && Describes(tenant, sku, ds, resolution, out, pairs) && n < |out|
    ensures |pairs| == |out| && pairs[n].i < pairs[n].j < |ds|
    ensures var d, e, c := ds[pairs[n].i], ds[pairs[n].j], out[n];
            && Conflicts(d.action, e.action) && c.tenantID == tenant && c.sku == sku && c.resolution == resolution
            && ((c.agentA == d.agent && c.agentB == e.agent) || (c.agentA == e.agent && c.agentB == d.agent))
  {
    hide Less, Conflicts;
    assert pairs[n] in pairs;
  }

  /** The proposals for a SKU stand in the order of the list. */
  lemma {:induction false} ProposalsInOrder(a: seq<Decision>, b: seq<Decision>, sku: string)
    ensures Proposals(a + b, sku) == Proposals(a, sku) + Proposals(b, sku)
    decreases |b|
  {
    if b == [] {
      assert a + b == a;
    } else {
      assert (a + b)[..|a + b| - 1] == a + b[..|b| - 1];
      ProposalsInOrder(a, b[..|b| - 1], sku);
    }
  }

  /** What a decision is refused for, and in which order. */
  lemma FaultOrder(d: Decision, i: nat, tenant: string)
    ensures FaultOf(d, i, tenant) ==
            if Blank(d.agent) then Some(NoAgent(i))
            else if Blank(d.tenantID) then Some(NoTenant(i))
            else if Blank(d.sku) then Some(NoSKU(i))
            else if Blank(d.action) then Some(NoAction(i))
            else if d.tenantID != tenant then Some(TenantMismatch(i))
            else None
  {
    hide TrimSpace, Blank;
    BlankText(d.agent);
    BlankText(d.tenantID);
    BlankText(d.sku);
    BlankText(d.action);
  }

  lemma NotTheOtherFaults(ds: seq<Decision>, tenant: string)
    ensures forall i: nat | i < |ds| ::
          FaultOf(ds[i], i, tenant) != Some(Closed) && FaultOf(ds[i], i, tenant) != Some(Cancelled)
  {
    hide TrimSpace;
  }

  // ---------------------------------------------------------------- pricing and fulfilment

  datatype Constrained = Constrained(base: Decision, constraint: string)

  const UNCONSTRAINED: Constrained := Constrained(NO_DECISION, "")

  predicate Overrides(c: Constrained) {
    c.constraint == "supplier_stockout" || c.constraint == "safety_hold"
  }

  function Agents(cs: seq<Constrained>): seq<string>
    decreases |cs|
  {
    if cs == [] then [] else Agents(cs[..|cs| - 1]) + [cs[|cs| - 1].base.agent]
  }

  function Bases(cs: seq<Constrained>): (ds: seq<Decision>)
    ensures |ds| == |cs| && forall i | 0 <= i < |cs| :: ds[i] == cs[i].base
    decreases |cs|
  {
    if cs == [] then [] else Bases(cs[..|cs| - 1]) + [cs[|cs| - 1].base]
  }

  /** The latest decision of its agent in `cs`, the first of them when several are equally late. */
  predicate LatestOfAgent(cs: seq<Constrained>, i: nat) {
    && i < |cs|
    && (forall j | 0 <= j < |cs| && cs[j].base.agent == cs[i].base.agent :: cs[j].base.at <= cs[i].base.at)
    && (forall j | 0 <= j < i && cs[j].base.agent == cs[i].base.agent :: cs[j].base.at < cs[i].base.at)
  }

  /** Every survivor is the latest decision of its agent; `from` says where it stood. */
  ghost predicate Survivors(cs: seq<Constrained>, out: seq<Constrained>, from: seq<nat>) {
    |from| == |out| && forall k | 0 <= k < |out| :: LatestOfAgent(cs, from[k]) && out[k] == cs[from[k]]
  }

  ghost predicate DistinctAgents(out: seq<Constrained>) {
    forall k, m | 0 <= k < m < |out| :: out[k].base.agent != out[m].base.agent
  }

  ghost predicate AllAgents(cs: seq<Constrained>, out: seq<Constrained>) {
    forall i | 0 <= i < |cs| :: exists k | 0 <= k < |out| :: out[k].base.agent == cs[i].base.agent
  }

  ghost predicate FirstComeOrder(cs: seq<Constrained>, out: seq<Constrained>) {
    forall k, m | 0 <= k < m < |out| :: FirstOf(cs, out[k].base.agent) < FirstOf(cs, out[m].base.agent)
  }

  /** One survivor per agent, its latest decision; agents in the order of their first decision. */
  ghost predicate Deduplicated(cs: seq<Constrained>, out: seq<Constrained>, from: seq<nat>) {
    Survivors(cs, out, from) && DistinctAgents(out) && AllAgents(cs, out) && FirstComeOrder(cs, out)
  }

  ghost predicate LeavesOnePerAgent(cs: seq<Constrained>, out: seq<Constrained>) {
    exists from :: Deduplicated(cs, out, from)
  }

  function FirstOf(cs: seq<Constrained>, agent: string): (i: nat)
    ensures i <= |cs| && (i < |cs| ==> cs[i].base.agent == agent)
    ensures forall j | 0 <= j < i :: cs[j].base.agent != agent
    decreases |cs|
  {
    if cs == [] || cs[0].base.agent == agent then 0 else 1 + FirstOf(cs[1..], agent)
  }

  lemma {:induction false} FirstOfMore(cs: seq<Constrained>, c: Constrained, agent: string)
    ensures FirstOf(cs + [c], agent) ==
            if FirstOf(cs, agent) < |cs| then FirstOf(cs, agent) else if c.base.agent == agent then |cs| else |cs| + 1
    decreases |cs|
  {
    if cs == [] {
      assert (cs + [c])[1..] == [];
    } else {
      assert (cs + [c])[1..] == cs[1..] + [c];
      FirstOfMore(cs[1..], c, agent);
    }
  }

  /** `deduplicateSameSKU`. */
  method DeduplicateSameSKU(cs: seq<Constrained>) returns (result: seq<Constrained>)
    ensures LeavesOnePerAgent(cs, result)
  {
    hide Deduplicated;
    var seen: map<string, nat> := map[];
    result := [];
    ghost var from: seq<nat> := [];
    NothingDeduplicated();
    var i := 0;
    while i < |cs|
      invariant i <= |cs| && Deduplicated(cs[..i], result, from) && |from| == |result|
      invariant forall a | a in seen :: seen[a] < |result| && result[seen[a]].base.agent == a
      invariant forall k | 0 <= k < |result| :: result[k].base.agent in seen
    {
      var d := cs[i];
      ghost var before := cs[..i];
      assert cs[..i + 1] == before + [d];
      i := i + 1;
      if d.base.agent in seen {
        var idx := seen[d.base.agent];
        Superseded(before, result, from, d, idx);
        if d.base.at > result[idx].base.at {
          result := result[idx := d];
          from := from[idx := i - 1];
        }
        continue;
      }
      NewAgent(before, result, from, d);
      seen := seen[d.base.agent := |result|];
      result := result + [d];
      from := from + [i - 1];
    }
    assert cs[..i] == cs;
  }

  lemma NothingDeduplicated()
    ensures Deduplicated([], [], [])
  {
  }

  lemma Superseded(cs: seq<Constrained>, out: seq<Constrained>, from: seq<nat>, d: Constrained, idx: nat)
    requires Deduplicated(cs, out, from) && idx < |out| && out[idx].base.agent == d.base.agent
    ensures if d.base.at > out[idx].base.at then Deduplicated(cs + [d], out[idx := d], from[idx := |cs|])
            else Deduplicated(cs + [d], out, from)
  {
    hide Survivors, DistinctAgents, AllAgents, FirstComeOrder, LatestOfAgent, FirstOf;
    var next := if d.base.at > out[idx].base.at then out[idx := d] else out;
    SupersededSurvivors(cs, out, from, d, idx);
    SameAgentsInOrder(cs, out, next, d, idx, from);
  }

  lemma SupersededSurvivors(cs: seq<Constrained>, out: seq<Constrained>, from: seq<nat>, d: Constrained, idx: nat)
    requires Survivors(cs, out, from) && DistinctAgents(out) && idx < |out| && out[idx].base.agent == d.base.agent
    ensures if d.base.at > out[idx].base.at then Survivors(cs + [d], out[idx := d], from[idx := |cs|])
            else Survivors(cs + [d], out, from)
  {
    hide LatestOfAgent;
    forall k | 0 <= k < |out|
      ensures from[k] < |cs|
      ensures k != idx || d.base.at <= out[idx].base.at ==> LatestOfAgent(cs + [d], from[k])
    {
      InRange(cs, from[k]);
      if k != idx {
        assert out[k].base.agent != out[idx].base.agent;
        StaysLatest(cs, from[k], d);
      } else if d.base.at <= out[idx].base.at {
        StaysLatest(cs, from[k], d);
      }
    }
    if d.base.at > out[idx].base.at {
      BecomesLatest(cs, from[idx], d);
    }
  }

  lemma InRange(cs: seq<Constrained>, i: nat)
    requires LatestOfAgent(cs, i)
    ensures i < |cs|
  {
  }

  lemma StaysLatest(cs: seq<Constrained>, i: nat, d: Constrained)
    requires LatestOfAgent(cs, i) && (cs[i].base.agent == d.base.agent ==> d.base.at <= cs[i].base.at)
    ensures LatestOfAgent(cs + [d], i)
  {
  }

  lemma BecomesLatest(cs: seq<Constrained>, i: nat, d: Constrained)
    requires LatestOfAgent(cs, i) && cs[i].base.agent == d.base.agent && d.base.at > cs[i].base.at
    ensures LatestOfAgent(cs + [d], |cs|)
  {
  }

  lemma SameAgentsInOrder(cs: seq<Constrained>, out: seq<Constrained>, next: seq<Constrained>, d: Constrained,
          idx: nat, from: seq<nat>)
    requires Deduplicated(cs, out, from) && idx < |out| && out[idx].base.agent == d.base.agent
    requires next == out || next == out[idx := d]
    ensures DistinctAgents(next) && AllAgents(cs + [d], next) && FirstComeOrder(cs + [d], next)
  {
    hide LatestOfAgent, FirstOf;
    assert |next| == |out| && forall k | 0 <= k < |out| :: next[k].base.agent == out[k].base.agent;
    OrderKept(cs, out, from, d);
    forall i | 0 <= i < |cs + [d]|
      ensures exists k | 0 <= k < |next| :: next[k].base.agent == (cs + [d])[i].base.agent
    {
      if i < |cs| {
        var k :| 0 <= k < |out| && out[k].base.agent == cs[i].base.agent;
        assert next[k].base.agent == (cs + [d])[i].base.agent;
      } else {
        assert next[idx].base.agent == (cs + [d])[i].base.agent;
      }
    }
  }

  /** A decision more does not move the first one of any agent that is there. */
  lemma OrderKept(cs: seq<Constrained>, out: seq<Constrained>, from: seq<nat>, d: Constrained)
    requires Survivors(cs, out, from)
    ensures forall k | 0 <= k < |out| ::
              FirstOf(cs + [d], out[k].base.agent) == FirstOf(cs, out[k].base.agent)
                  && FirstOf(cs, out[k].base.agent) < |cs|
  {
    hide LatestOfAgent, FirstOf;
    forall k | 0 <= k < |out|
      ensures FirstOf(cs + [d], out[k].base.agent) == FirstOf(cs, out[k].base.agent)
          && FirstOf(cs, out[k].base.agent) < |cs|
    {
      InRange(cs, from[k]);
      AgentIsThere(cs, from[k]);
      FirstOfMore(cs, d, out[k].base.agent);
    }
  }

  lemma AgentIsThere(cs: seq<Constrained>, i: nat)
    requires i < |cs|
    ensures FirstOf(cs, cs[i].base.agent) <= i
  {
  }

  lemma NewAgent(cs: seq<Constrained>, out: seq<Constrained>, from: seq<nat>, d: Constrained)
    requires Deduplicated(cs, out, from) && forall k | 0 <= k < |out| :: out[k].base.agent != d.base.agent
    ensures Deduplicated(cs + [d], out + [d], from + [|cs|])
  {
    hide FirstOf, LatestOfAgent;
    var all, next := cs + [d], out + [d];
    assert forall i | 0 <= i < |cs| :: cs[i].base.agent != d.base.agent;
    NotThere(cs, d.base.agent);
    FirstOfMore(cs, d, d.base.agent);
    OrderKept(cs, out, from, d);
    forall k | 0 <= k < |out|
      ensures from[k] < |cs| && LatestOfAgent(all, from[k])
    {
      InRange(cs, from[k]);
      StaysLatest(cs, from[k], d);
    }
    LatestWhenNew(cs, d);
    forall i | 0 <= i < |all|
      ensures exists k | 0 <= k < |next| :: next[k].base.agent == all[i].base.agent
    {
      if i < |cs| {
        var k :| 0 <= k < |out| && out[k].base.agent == cs[i].base.agent;
        assert next[k].base.agent == all[i].base.agent;
      } else {
        assert next[|out|].base.agent == all[i].base.agent;
      }
    }
  }

  lemma LatestWhenNew(cs: seq<Constrained>, d: Constrained)
    requires forall i | 0 <= i < |cs| :: cs[i].base.agent != d.base.agent
    ensures LatestOfAgent(cs + [d], |cs|)
  {
  }

  lemma NotThere(cs: seq<Constrained>, agent: string)
    requires forall i | 0 <= i < |cs| :: cs[i].base.agent != agent
    ensures FirstOf(cs, agent) == |cs|
  {
  }

  /** Dropping superseded decisions does not change the policy's winner. */
  lemma DeduplicationKeepsTheWinner(w: Weights, cs: seq<Constrained>, out: seq<Constrained>, from: seq<nat>)
    requires cs != [] && Deduplicated(cs, out, from)
    ensures out != [] && Bases(out)[Best(w, Bases(out))] == Bases(cs)[Best(w, Bases(cs))]
  {
    hide Best, Deduplicated, FirstOf;
    SurvivorsNonEmpty(cs, out, from);
    var i, k := Best(w, Bases(cs)), Best(w, Bases(out));
    BestIsFirst(w, Bases(cs));
    BestIsFirst(w, Bases(out));
    WinnerSurvives(w, cs, i);
    var m := SurvivorOf(cs, out, from, i);
    var j := SurvivorSource(cs, out, from, k);
    assert !Before(w, Bases(cs)[j], Bases(cs)[i]) && !Before(w, Bases(out)[m], Bases(out)[k]);
    Order(w, cs[j].base, cs[i].base, cs[i].base);
    assert Tied(cs[j].base, cs[i].base);
    SurvivorsDiffer(cs, out, from, k, m);
  }

  lemma SurvivorsNonEmpty(cs: seq<Constrained>, out: seq<Constrained>, from: seq<nat>)
    requires cs != [] && Deduplicated(cs, out, from)
    ensures out != []
  {
    hide Survivors, DistinctAgents, FirstComeOrder;
    assert AllAgents(cs, out);
    assert cs[0].base.agent == cs[0].base.agent;
    assert exists k | 0 <= k < |out| :: out[k].base.agent == cs[0].base.agent;
  }

  /** The first best of the whole list is the latest decision of its agent. */
  lemma WinnerSurvives(w: Weights, cs: seq<Constrained>, i: nat)
    requires FirstBest(w, Bases(cs), i)
    ensures LatestOfAgent(cs, i)
  {
    hide Less;
    forall j | 0 <= j < |cs| && cs[j].base.agent == cs[i].base.agent
      ensures cs[j].base.at <= cs[i].base.at && (j < i ==> cs[j].base.at < cs[i].base.at)
    {
      assert !Before(w, Bases(cs)[j], Bases(cs)[i]);
      LessTotal(cs[i].base.agent, cs[i].base.agent);
      if j < i {
        assert Before(w, Bases(cs)[i], Bases(cs)[j]);
      }
    }
  }

  /** Every latest decision survives. */
  lemma SurvivorOf(cs: seq<Constrained>, out: seq<Constrained>, from: seq<nat>, i: nat) returns (m: nat)
    requires Deduplicated(cs, out, from) && LatestOfAgent(cs, i)
    ensures m < |out| && out[m] == cs[i]
  {
    m :| m < |out| && out[m].base.agent == cs[i].base.agent;
    assert LatestOfAgent(cs, from[m]);
  }

  lemma SurvivorSource(cs: seq<Constrained>, out: seq<Constrained>, from: seq<nat>, k: nat) returns (j: nat)
    requires Deduplicated(cs, out, from) && k < |out|
    ensures j < |cs| && out[k] == cs[j] && LatestOfAgent(cs, j)
  {
    j := from[k];
  }

  lemma SurvivorsDiffer(cs: seq<Constrained>, out: seq<Constrained>, from: seq<nat>, k: nat, m: nat)
    requires Deduplicated(cs, out, from) && k < |out| && m < |out| && out[k].base.agent == out[m].base.agent
    ensures k == m
  {
  }

  /** `applyPriorityRule`: the fallback after the loop is never reached for distinct agents. */
  method ApplyPriorityRule(w: Weights, cs: seq<Constrained>) returns (c: Constrained)
    requires forall k, m | 0 <= k < m < |cs| :: cs[k].base.agent != cs[m].base.agent
    ensures c == if cs == [] then UNCONSTRAINED else cs[Best(w, Bases(cs))]
  {
    hide Best;
    if |cs| == 0 {
      return UNCONSTRAINED;
    }
    var winner := WeightedPriority(w, Bases(cs));
    var k := 0;
    while k < |cs|
      invariant k <= |cs| && forall j | 0 <= j < k :: cs[j].base.agent != winner.agent
    {
      if cs[k].base.agent == winner.agent {
        return cs[k];
      }
      k := k + 1;
    }
    assert false;
  }

  datatype Verdict = Verdict(chosen: Constrained, resolution: string, constraint: string)

  /** The first survivor whose constraint overrides the priorities, or the number of survivors. */
  function FirstOverride(cs: seq<Constrained>): (i: nat)
    ensures i <= |cs| && (i < |cs| ==> Overrides(cs[i]))
    ensures forall j | 0 <= j < i :: !Overrides(cs[j])
    decreases |cs|
  {
    if cs == [] || Overrides(cs[0]) then 0 else 1 + FirstOverride(cs[1..])
  }

  /** `detectConstraintOverride`. */
  method DetectConstraintOverride(cs: seq<Constrained>) returns (c: Option<Constrained>)
    ensures c == if FirstOverride(cs) < |cs| then Some(cs[FirstOverride(cs)]) else None
  {
    hide Overrides;
    var i := 0;
    while i < |cs|
      invariant i <= |cs| && forall j | 0 <= j < i :: !Overrides(cs[j])
    {
      if Overrides(cs[i]) {
        return Some(cs[i]);
      }
      i := i + 1;
    }
    c := None;
  }

  /** The latest decision of its agent carries an overriding constraint. */
  predicate Binding(cs: seq<Constrained>, i: nat) {
    i < |cs| && LatestOfAgent(cs, i) && Overrides(cs[i])
  }

  lemma BindingMeans(cs: seq<Constrained>)
    ensures forall i: nat :: Binding(cs, i) <==>
              LatestOfAgent(cs, i) && cs[i].constraint in {"supplier_stockout", "safety_hold"}
    ensures forall i: nat | FirstBinding(cs, i) :: Binding(cs, i)
  {
    hide FirstOf;
  }

  /** The binding constraint of the agent that spoke first. */
  ghost predicate FirstBinding(cs: seq<Constrained>, i: nat) {
    Binding(cs, i) && forall j: nat | Binding(cs, j) :: FirstOf(cs, cs[i].base.agent) <= FirstOf(cs, cs[j].base.agent)
  }

  /** The first survivor with a constraint is the first binding one. */
  lemma OverrideIsFirstBinding(cs: seq<Constrained>, out: seq<Constrained>, from: seq<nat>) returns (i: nat)
    requires Deduplicated(cs, out, from) && FirstOverride(out) < |out|
    ensures FirstBinding(cs, i) && out[FirstOverride(out)] == cs[i]
  {
    hide Overrides, FirstOf, LatestOfAgent, Deduplicated;
    var k := FirstOverride(out);
    i := SurvivorSource(cs, out, from, k);
    forall j: nat | Binding(cs, j)
      ensures FirstOf(cs, cs[i].base.agent) <= FirstOf(cs, cs[j].base.agent)
    {
      var m := SurvivorOf(cs, out, from, j);
      assert k <= m;
      InFirstComeOrder(cs, out, from, k, m);
    }
  }

  lemma InFirstComeOrder(cs: seq<Constrained>, out: seq<Constrained>, from: seq<nat>, k: nat, m: nat)
    requires Deduplicated(cs, out, from) && k <= m < |out|
    ensures FirstOf(cs, out[k].base.agent) <= FirstOf(cs, out[m].base.agent)
  {
    hide FirstOf, LatestOfAgent;
  }

  /** A constraint counts exactly when it is on the latest decision of its agent: an older one is dropped with its
      decision. */
  lemma OverrideOnlyIfBinding(cs: seq<Constrained>, out: seq<Constrained>, from: seq<nat>)
    requires Deduplicated(cs, out, from)
    ensures FirstOverride(out) < |out| <==> exists i: nat :: Binding(cs, i)
  {
    hide Overrides, FirstOf, LatestOfAgent, Deduplicated;
    if FirstOverride(out) < |out| {
      var i := OverrideIsFirstBinding(cs, out, from);
    }
    if i: nat :| Binding(cs, i) {
      var m := SurvivorOf(cs, out, from, i);
      assert Overrides(out[m]);
    }
  }

  /** A safety hold is lost when its agent decides again: nothing overrides the priorities any more. */
  lemma SupersededConstraintIsDropped(first: Decision, again: Decision)
    requires first.agent == again.agent && first.at < again.at
    ensures var cs := [Constrained(first, "safety_hold"), Constrained(again, "")];
            Overrides(cs[0]) && forall out, from | Deduplicated(cs, out, from) :: FirstOverride(out) == |out|
  {
    hide Deduplicated;
    var cs := [Constrained(first, "safety_hold"), Constrained(again, "")];
    forall out, from | Deduplicated(cs, out, from)
      ensures FirstOverride(out) == |out|
    {
      OverrideOnlyIfBinding(cs, out, from);
      assert cs[1].base.agent == cs[0].base.agent && |cs[1].constraint| == 0;
      assert !Binding(cs, 0) && !Binding(cs, 1);
    }
  }

  /** The first binding constraint if there is one, otherwise the policy's winner over all decisions. */
  method CoordinateDecisions(w: Weights, cs: seq<Constrained>) returns (v: Verdict)
    ensures cs == [] ==> v == Verdict(UNCONSTRAINED, "weighted_priority", "")
    ensures (exists i: nat :: Binding(cs, i)) ==>
              && (exists i: nat :: FirstBinding(cs, i) && v.chosen == cs[i])
              && v.resolution == "constraint_override" && v.constraint == v.chosen.constraint
    ensures cs != [] && !(exists i: nat :: Binding(cs, i)) ==>
              v.chosen in cs && v.chosen.base == Bases(cs)[Best(w, Bases(cs))] && v.resolution == "weighted_priority"
                  && v.constraint == ""
    ensures v.resolution == "weighted_priority" && cs != [] ==>
              exists i: nat :: Wins(w, Bases(cs), i) && v.chosen.base == cs[i].base
    ensures v.resolution == "constraint_override" <==>
            exists i: nat :: LatestOfAgent(cs, i) && cs[i].constraint in {"supplier_stockout", "safety_hold"}
    ensures v.resolution == "constraint_override" ==>
              exists i: nat ::
                && LatestOfAgent(cs, i) && v.chosen == cs[i] && v.constraint == cs[i].constraint
                && cs[i].constraint in {"supplier_stockout", "safety_hold"}
  {
    hide Best, Overrides, FirstOf, Deduplicated, LatestOfAgent, FirstBinding, Binding, Wins;
    BindingMeans(cs);
    if cs != [] {
      BestWins(w, Bases(cs));
    }
    var deduped := DeduplicateSameSKU(cs);
    ghost var from :| Deduplicated(cs, deduped, from);
    OverrideOnlyIfBinding(cs, deduped, from);
    var override := DetectConstraintOverride(deduped);
    if override.Some? {
      ghost var i := OverrideIsFirstBinding(cs, deduped, from);
      BindingIsThere(cs, i);
      return Verdict(override.value, "constraint_override", override.value.constraint);
    }
    SurvivorsAreDistinct(cs, deduped, from);
    var chosen := ApplyPriorityRule(w, deduped);
    if cs != [] {
      DeduplicationKeepsTheWinner(w, cs, deduped, from);
      ghost var j := SurvivorSource(cs, deduped, from, Best(w, Bases(deduped)));
    }
    v := Verdict(chosen, "weighted_priority", "");
  }

  lemma BindingIsThere(cs: seq<Constrained>, i: nat)
    requires FirstBinding(cs, i)
    ensures i < |cs|
  {
    hide FirstOf;
  }

  lemma SurvivorsAreDistinct(cs: seq<Constrained>, out: seq<Constrained>, from: seq<nat>)
    requires Deduplicated(cs, out, from)
    ensures forall k, m | 0 <= k < m < |out| :: out[k].base.agent != out[m].base.agent
    ensures cs == [] ==> out == []
  {
    hide FirstOf;
    if cs == [] && out != [] {
      InRange(cs, from[0]);
    }
  }
}
