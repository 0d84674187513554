/** The genetic-algorithm driver `evolve` of `sann.py` and its
    fitness-proportionate `roulette_wheel_selection`. Python's `sorted` is
    modelled as a stable insertion sort of positions. */
module SannEvolve {
  import opened Common

  // ---------------------------------------------------------------------
  // Stable ranking

  /** Position `i` comes before position `j` in `sorted(..., reverse=reverse)`:
      a better key first (the higher with `reverse`, the lower without), and
      positions with equal keys in their original order. */
  predicate Before(keys: seq<real>, reverse: bool, i: nat, j: nat)
    requires i < |keys| && j < |keys|
  {
    if keys[i] == keys[j] then i < j
    else if reverse then keys[i] > keys[j]
    else keys[i] < keys[j]
  }

  /** Every entry is a position of `keys`. */
  predicate Positions(s: seq<nat>, n: nat)
  {
    forall k :: 0 <= k < |s| ==> s[k] < n
  }

  /** The positions are listed in ranking order. */
  predicate Ranked(keys: seq<real>, reverse: bool, s: seq<nat>)
    requires Positions(s, |keys|)
  {
    forall a, b :: 0 <= a < b < |s| ==> Before(keys, reverse, s[a], s[b])
  }

  /** `x` inserted into a ranked list of positions. */
  function Insert(keys: seq<real>, reverse: bool, x: nat, s: seq<nat>): (r: seq<nat>)
    requires x < |keys| && Positions(s, |keys|)
    ensures |r| == |s| + 1
    ensures forall k :: 0 <= k < |r| ==> r[k] == x || r[k] in s
    ensures Positions(r, |keys|)
  {
    if s == [] then [x]
    else if Before(keys, reverse, x, s[0]) then [x] + s
    else [s[0]] + Insert(keys, reverse, x, s[1..])
  }

  /** The positions `0 .. n - 1` in ranking order. */
  function RankPositions(keys: seq<real>, reverse: bool, n: nat): (r: seq<nat>)
    requires n <= |keys|
    ensures |r| == n
    ensures Positions(r, n) && Positions(r, |keys|)
  {
    if n == 0 then [] else Insert(keys, reverse, n - 1, RankPositions(keys, reverse, n - 1))
  }

  /** `[0, 1, ..., n - 1]`. */
  function Range(n: nat): (r: seq<nat>)
    ensures |r| == n && forall k :: 0 <= k < n ==> r[k] == k
  {
    seq(n, k requires 0 <= k < n => k)
  }

  /** The fitness key of every member, as `partial(fitness, population=pop)` computes it. */
  function Keys<A>(pop: seq<A>, fitness: (A, seq<A>) -> real): (r: seq<real>)
    ensures |r| == |pop|
  {
    seq(|pop|, i requires 0 <= i < |pop| => fitness(pop[i], pop))
  }

  /** The members at the positions `p`, in that order. */
  function Pick<A>(pop: seq<A>, p: seq<nat>): (r: seq<A>)
    requires Positions(p, |pop|)
    ensures |r| == |p|
  {
    seq(|p|, k requires 0 <= k < |p| => pop[p[k]])
  }

  /** `sorted(pop, key=partial(fitness, population=pop), reverse=reverse)`. */
  function Rank<A>(pop: seq<A>, fitness: (A, seq<A>) -> real, reverse: bool): (r: seq<A>)
    ensures |r| == |pop|
  {
    Pick(pop, RankPositions(Keys(pop, fitness), reverse, |pop|))
  }

  lemma {:induction false} InsertPermutes(keys: seq<real>, reverse: bool, x: nat, s: seq<nat>)
    requires x < |keys| && Positions(s, |keys|)
    ensures multiset(Insert(keys, reverse, x, s)) == multiset(s) + multiset{x}
  {
    if s != [] && !Before(keys, reverse, x, s[0]) {
      InsertPermutes(keys, reverse, x, s[1..]);
      assert s == [s[0]] + s[1..];
    }
  }

  /** `Range` grows by one position at the end. */
  lemma RangeSnoc(n: nat)
    ensures Range(n + 1) == Range(n) + [n]
  {
    assert Range(n + 1)[..n] == Range(n);
  }

  /** The ranking lists every position exactly once. */
  lemma {:induction false} RankPositionsPermutes(keys: seq<real>, reverse: bool, n: nat)
    requires n <= |keys|
    ensures multiset(RankPositions(keys, reverse, n)) == multiset(Range(n))
  {
    if n > 0 {
      var last: nat := n - 1;
      RankPositionsPermutes(keys, reverse, last);
      var p := RankPositions(keys, reverse, last);
      InsertPermutes(keys, reverse, last, p);
      RangeSnoc(last);
      calc {
        multiset(RankPositions(keys, reverse, n));
        multiset(Insert(keys, reverse, last, p));
        multiset(p) + multiset{last};
        multiset(Range(last)) + multiset{last};
        multiset(Range(last) + [last]);
      }
    }
  }

  lemma BeforeOrder(keys: seq<real>, reverse: bool, i: nat, j: nat, k: nat)
    requires i < |keys| && j < |keys| && k < |keys|
    ensures !Before(keys, reverse, i, i)
    ensures i != j ==> Before(keys, reverse, i, j) || Before(keys, reverse, j, i)
    ensures Before(keys, reverse, i, j) && Before(keys, reverse, j, k) ==> Before(keys, reverse, i, k)
  {
  }

  /** The head of a ranked list comes before every entry of its tail and
      before any `x` it precedes. */
  lemma HeadFirst(keys: seq<real>, reverse: bool, x: nat, s: seq<nat>, r: seq<nat>)
    requires x < |keys| && Positions(s, |keys|) && Positions(r, |keys|) && Ranked(keys, reverse, s)
    requires s != [] && Before(keys, reverse, s[0], x)
    requires forall k :: 0 <= k < |r| ==> r[k] == x || r[k] in s[1..]
    ensures forall b :: 0 <= b < |r| ==> Before(keys, reverse, s[0], r[b])
  {
    forall b | 0 <= b < |r|
      ensures Before(keys, reverse, s[0], r[b])
    {
      if r[b] != x {
        var c :| 0 <= c < |s| - 1 && s[1..][c] == r[b];
        assert s[c + 1] == r[b];
      }
    }
  }

  lemma {:induction false} InsertRanked(keys: seq<real>, reverse: bool, x: nat, s: seq<nat>)
    requires x < |keys| && Positions(s, |keys|) && Ranked(keys, reverse, s) && x !in s
    ensures Ranked(keys, reverse, Insert(keys, reverse, x, s))
  {
    if s != [] && !Before(keys, reverse, x, s[0]) {
      var t := s[1..];
      assert Ranked(keys, reverse, t);
      assert x !in t by {
        assert forall y :: y in t ==> y in s;
      }
      InsertRanked(keys, reverse, x, t);
      var r := Insert(keys, reverse, x, t);
      BeforeOrder(keys, reverse, x, s[0], x);
      HeadFirst(keys, reverse, x, s, r);
      assert Ranked(keys, reverse, [s[0]] + r);
    } else if s != [] {
      forall b | 0 < b < |s|
        ensures Before(keys, reverse, x, s[b])
      {
        BeforeOrder(keys, reverse, x, s[0], s[b]);
      }
    }
  }

  lemma {:induction false} RankPositionsRanked(keys: seq<real>, reverse: bool, n: nat)
    requires n <= |keys|
    ensures Ranked(keys, reverse, RankPositions(keys, reverse, n))
  {
    if n > 0 {
      RankPositionsRanked(keys, reverse, n - 1);
      var before := RankPositions(keys, reverse, n - 1);
      assert forall k :: 0 <= k < |before| ==> before[k] != n - 1;
      assert n - 1 !in before;
      InsertRanked(keys, reverse, n - 1, before);
    }
  }

  lemma PickConcat<A>(pop: seq<A>, a: seq<nat>, b: seq<nat>)
    requires Positions(a, |pop|) && Positions(b, |pop|)
    ensures Positions(a + b, |pop|) && Pick(pop, a + b) == Pick(pop, a) + Pick(pop, b)
  {
  }

  /** Where the last position sits in a permutation of the first `n`
      positions, and what is left around it. */
  lemma SplitLast(p: seq<nat>, n: nat) returns (k: nat)
    requires 0 < n && multiset(p) == multiset(Range(n))
    ensures k < |p| && p[k] == n - 1
    ensures multiset(p[..k] + p[k + 1..]) == multiset(Range(n - 1))
    ensures Positions(p[..k] + p[k + 1..], n - 1)
  {
    var last: nat := n - 1;
    assert multiset(Range(n)) == multiset(Range(last)) + multiset{last} by {
      RangeSnoc(last);
    }
    assert last in multiset(p);
    assert last in p;
    k :| 0 <= k < |p| && p[k] == last;
    var q := p[..k] + p[k + 1..];
    RemoveAt(p, k);
    PermutedRangeBound(q, last);
  }

  /** Dropping the entry at `k` removes one copy of it. */
  lemma RemoveAt(p: seq<nat>, k: nat)
    requires k < |p|
    ensures multiset(p[..k] + p[k + 1..]) == multiset(p) - multiset{p[k]}
  {
    assert p == p[..k] + [p[k]] + p[k + 1..];
  }

  /** A permutation of `Range(n)` lists positions below `n`. */
  lemma PermutedRangeBound(q: seq<nat>, n: nat)
    requires multiset(q) == multiset(Range(n))
    ensures Positions(q, n)
  {
    forall m | 0 <= m < |q| ensures q[m] < n {
      assert q[m] in multiset(q);
      assert q[m] in Range(n);
    }
  }

  lemma PickSplit<A>(pop: seq<A>, p: seq<nat>, k: nat)
    requires Positions(p, |pop|) && k < |p|
    ensures Positions(p[..k] + p[k + 1..], |pop|)
    ensures multiset(Pick(pop, p)) == multiset(Pick(pop, p[..k] + p[k + 1..])) + multiset{pop[p[k]]}
  {
    var a, b := p[..k], p[k + 1..];
    assert p == a + [p[k]] + b;
    PickConcat(pop, a, b);
    PickConcat(pop, a, [p[k]]);
    PickConcat(pop, a + [p[k]], b);
  }

  /** Picking the members at the positions of a list that is a permutation
      of the first `n` positions gives a permutation of those members. */
  lemma {:induction false} PickPermutes<A>(pop: seq<A>, p: seq<nat>, n: nat)
    requires n <= |pop| && Positions(p, n) && multiset(p) == multiset(Range(n))
    ensures multiset(Pick(pop, p)) == multiset(pop[..n])
    decreases n
  {
    if n == 0 {
      assert |p| == |multiset(p)| == 0;
    } else {
      var k := SplitLast(p, n);
      PickSplit(pop, p, k);
      PickPermutes(pop, p[..k] + p[k + 1..], n - 1);
      assert pop[..n] == pop[..n - 1] + [pop[n - 1]];
    }
  }

  /** `sorted` returns a permutation of the population, in ranking order:
      member `k` of the result is member `p[k]` of the population, for a
      permutation `p` of the positions listed by `Before`. */
  lemma RankIsStableSort<A>(pop: seq<A>, fitness: (A, seq<A>) -> real, reverse: bool)
    ensures multiset(Rank(pop, fitness, reverse)) == multiset(pop)
    ensures
      var keys := Keys(pop, fitness);
      var p := RankPositions(keys, reverse, |pop|);
      && multiset(p) == multiset(Range(|pop|))
      && Ranked(keys, reverse, p)
      && forall k :: 0 <= k < |pop| ==> Rank(pop, fitness, reverse)[k] == pop[p[k]]
  {
    var keys := Keys(pop, fitness);
    var p := RankPositions(keys, reverse, |pop|);
    RankPositionsPermutes(keys, reverse, |pop|);
    PickPermutes(pop, p, |pop|);
    assert pop[..|pop|] == pop;
    RankPositionsRanked(keys, reverse, |pop|);
  }

  /** The keys along a ranking never improve: with `reverse` they do not
      increase, without it they do not decrease. */
  lemma RankMonotone<A>(pop: seq<A>, fitness: (A, seq<A>) -> real, reverse: bool, a: nat, b: nat)
    requires a < b < |pop|
    ensures
      var keys := Keys(pop, fitness);
      var p := RankPositions(keys, reverse, |pop|);
      reverse ==> keys[p[a]] >= keys[p[b]]
    ensures
      var keys := Keys(pop, fitness);
      var p := RankPositions(keys, reverse, |pop|);
      !reverse ==> keys[p[a]] <= keys[p[b]]
  {
    RankIsStableSort(pop, fitness, reverse);
  }

  // ---------------------------------------------------------------------
  // The generation loop

  /** The ranking `evolve` holds after `g` calls to `generate`: the seed
      generation ranked with the caller's `reverse`, then every later
      generation ranked with `reverse=True`. */
  function Generation<A>(seed: seq<A>, generate: seq<A> -> seq<A>, fitness: (A, seq<A>) -> real,
                         reverse: bool, g: nat): seq<A>
  {
    if g == 0 then Rank(seed, fitness, reverse)
    else Rank(generate(Generation(seed, generate, fitness, reverse, g - 1)), fitness, true)
  }

  /** `logged` lists the first `|logged|` rankings of the run. */
  ghost predicate Logged<A>(logged: seq<seq<A>>, seed: seq<A>, generate: seq<A> -> seq<A>,
                      fitness: (A, seq<A>) -> real, reverse: bool)
  {
    forall g :: 0 <= g < |logged| ==> logged[g] == Generation(seed, generate, fitness, reverse, g)
  }

  /** `halt` rejected the first `n` rankings of `logged`. */
  predicate Rejected<A>(logged: seq<seq<A>>, halt: (seq<A>, nat) -> bool, n: nat)
    requires n <= |logged|
  {
    forall g :: 0 <= g < n ==> !halt(logged[g], g)
  }

  lemma LoggedStep<A>(logged: seq<seq<A>>, seed: seq<A>, generate: seq<A> -> seq<A>,
                      fitness: (A, seq<A>) -> real, reverse: bool, halt: (seq<A>, nat) -> bool)
    requires logged != [] && Logged(logged, seed, generate, fitness, reverse)
    requires Rejected(logged, halt, |logged| - 1) && !halt(logged[|logged| - 1], |logged| - 1)
    ensures Logged(logged + [Rank(generate(logged[|logged| - 1]), fitness, true)], seed, generate, fitness, reverse)
    ensures Rejected(logged + [Rank(generate(logged[|logged| - 1]), fitness, true)], halt, |logged|)
  {
  }

  /** `evolve(layers, population, generate, fitness, halt, reverse, log)` for
      the seed generation `seed` (the `population` networks `create_ann`
      drew). Returns the ranking `halt` accepted (None when `fuel` further
      generations were not enough), the final `generation_count`, and the
      rankings passed to `log`, in order. */
  method Evolve<A>(seed: seq<A>, generate: seq<A> -> seq<A>, fitness: (A, seq<A>) -> real,
                   halt: (seq<A>, nat) -> bool, reverse: bool, fuel: nat)
    returns (result: Option<seq<A>>, count: nat, logged: seq<seq<A>>)
    ensures count <= fuel
    ensures |logged| == count + 1
    ensures forall g :: 0 <= g <= count ==> logged[g] == Generation(seed, generate, fitness, reverse, g)
    ensures forall g :: 0 <= g < count ==> !halt(Generation(seed, generate, fitness, reverse, g), g)
    ensures result.Some? <==> halt(logged[count], count)
    ensures result.Some? ==> result.value == Generation(seed, generate, fitness, reverse, count)
    ensures result.None? ==> count == fuel
  {
    var current := Rank(seed, fitness, reverse);
    count := 0;
    logged := [current];
    while !halt(current, count) && count < fuel
      invariant count <= fuel
      invariant |logged| == count + 1 && logged[count] == current
      invariant Logged(logged, seed, generate, fitness, reverse)
      invariant Rejected(logged, halt, count)
      decreases fuel - count
    {
      LoggedStep(logged, seed, generate, fitness, reverse, halt);
      count := count + 1;
      var newGeneration := generate(current);
      current := Rank(newGeneration, fitness, true);
      logged := logged + [current];
    }
    if halt(current, count) {
      result := Some(current);
    } else {
      result := None;
    }
  }

  // ---------------------------------------------------------------------
  // Roulette-wheel selection

  /** The `fitness` key of a population member, when it has one. */
  type Fitness = Option<real>

  /** The sum of the fitness keys of the first `n` members. */
  function Tally(pop: seq<Fitness>, n: nat): real
    requires n <= |pop|
  {
    if n == 0 then 0.0
    else Tally(pop, n - 1) + (if pop[n - 1].Some? then pop[n - 1].value else 0.0)
  }

  /** What `roulette_wheel_selection` returns: the member at `index`, or
      None when the walk falls off the end of the wheel. */
  datatype Selection = Selected(index: nat) | NoneSelected

  /** `roulette_wheel_selection(population)` with the draws supplied:
      `choice` is the position `random.choice` returns and `u` places
      `random.uniform(0.0, total)` at `total * u`. An empty population makes
      `random.choice` raise IndexError, hence the first requires. */
  method Roulette(pop: seq<Fitness>, choice: nat, u: real) returns (r: Selection)
    requires 0 < |pop| && choice < |pop|
    requires 0.0 <= u <= 1.0
    ensures Tally(pop, |pop|) == 0.0 ==> r == Selected(choice)
    ensures Tally(pop, |pop|) != 0.0 && r.Selected? ==>
              r.index < |pop| && Tally(pop, r.index + 1) > Tally(pop, |pop|) * u &&
              forall k :: 1 <= k <= r.index ==> Tally(pop, k) <= Tally(pop, |pop|) * u
    ensures Tally(pop, |pop|) != 0.0 ==>
              (r == NoneSelected <==> forall k :: 1 <= k <= |pop| ==> Tally(pop, k) <= Tally(pop, |pop|) * u)
  {
    var total := 0.0;
    var i := 0;
    while i < |pop|
      invariant 0 <= i <= |pop| && total == Tally(pop, i)
    {
      if pop[i].Some? {
        total := total + pop[i].value;
      }
      i := i + 1;
    }
    if total == 0.0 {
      return Selected(choice);
    }
    var point := total * u;
    var tally := 0.0;
    i := 0;
    while i < |pop|
      invariant 0 <= i <= |pop| && tally == Tally(pop, i)
      invariant forall k :: 1 <= k <= i ==> Tally(pop, k) <= point
    {
      if pop[i].Some? {
        tally := tally + pop[i].value;
      }
      if tally > point {
        return Selected(i);
      }
      i := i + 1;
    }
    return NoneSelected;
  }

  /** All keys present are non-negative. */
  predicate NonNegative(pop: seq<Fitness>)
  {
    forall k :: 0 <= k < |pop| && pop[k].Some? ==> pop[k].value >= 0.0
  }

  lemma {:induction false} TallyMonotone(pop: seq<Fitness>, m: nat, n: nat)
    requires NonNegative(pop) && m <= n <= |pop|
    ensures 0.0 <= Tally(pop, m) <= Tally(pop, n)
    decreases n
  {
    if m < n {
      TallyMonotone(pop, m, n - 1);
    } else if n > 0 {
      TallyMonotone(pop, n - 1, n - 1);
    }
  }

  /** With non-negative keys, the wheel can only stop at a member that has a
      fitness key: a member without one leaves the tally where it was. */
  lemma SelectedHasFitness(pop: seq<Fitness>, u: real, i: nat)
    requires NonNegative(pop) && 0.0 <= u && i < |pop|
    requires Tally(pop, i + 1) > Tally(pop, |pop|) * u
    requires forall k :: 1 <= k <= i ==> Tally(pop, k) <= Tally(pop, |pop|) * u
    ensures pop[i].Some?
  {
    var total := Tally(pop, |pop|);
    TallyMonotone(pop, 0, |pop|);
    assert 0.0 <= total;
    var point := total * u;
    assert 0.0 <= point;
    if i > 0 {
      assert Tally(pop, i) <= point;
    }
  }

  /** With non-negative keys and a draw strictly below the total, the wheel
      always stops at some member. */
  lemma DrawBelowTotalSelects(pop: seq<Fitness>, u: real)
    requires NonNegative(pop) && 0.0 <= u < 1.0 && Tally(pop, |pop|) != 0.0
    ensures exists k :: 1 <= k <= |pop| && Tally(pop, k) > Tally(pop, |pop|) * u
  {
    TallyMonotone(pop, 0, |pop|);
    var total := Tally(pop, |pop|);
    assert total > 0.0;
    assert total > total * u;
  }

  /** When the draw lands exactly on the total, no partial tally exceeds it
      and the walk falls through to None. */
  lemma DrawAtTotalFallsThrough(pop: seq<Fitness>)
    requires NonNegative(pop)
    ensures forall k :: 1 <= k <= |pop| ==> Tally(pop, k) <= Tally(pop, |pop|) * 1.0
  {
    forall k | 1 <= k <= |pop|
      ensures Tally(pop, k) <= Tally(pop, |pop|) * 1.0
    {
      TallyMonotone(pop, k, |pop|);
    }
  }
}
