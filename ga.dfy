/** The genetic algorithm engine (`GAAlgorithm`): argmin selection that
    overwrites the chosen scores, modular one-point crossover, one shared
    mutation scalar per child and an elitist reassembly of the population. */
module GA {
  import opened Space

  /** The score `select` writes over a chosen individual so that it is not chosen again. */
  const Sentinel: real := 99999999999.0

  /** The indices chosen so far, in order, and the score vector as `select` has overwritten it. */
  datatype Selection = Selection(picks: seq<nat>, scores: seq<real>)

  /** `m` rounds of `select`'s loop on the scores `s`: each round takes the
      first-index argmin of the current scores and overwrites it with `Sentinel`. */
  function SelectRounds(s: seq<real>, m: nat): (r: Selection)
    requires m > 0 ==> |s| > 0
    ensures |r.picks| == m && |r.scores| == |s|
    ensures forall t :: 0 <= t < m ==> r.picks[t] < |s|
    decreases m
  {
    if m == 0 then Selection([], s)
    else
      var prev := SelectRounds(s, m - 1);
      var k := ArgMin(prev.scores);
      Selection(prev.picks + [k], prev.scores[k := Sentinel])
  }

  /** `p` with every occurrence of `v` removed. */
  function Without(p: seq<nat>, v: nat): (q: seq<nat>)
    ensures forall x :: x in q <==> x in p && x != v
    ensures v in p ==> |q| < |p|
    ensures |q| <= |p|
  {
    if p == [] then []
    else if p[0] == v then Without(p[1..], v)
    else [p[0]] + Without(p[1..], v)
  }

  /** Fewer picks than individuals leave some individual unpicked. */
  lemma {:induction false} Unpicked(p: seq<nat>, n: nat)
    requires |p| < n
    requires forall t :: 0 <= t < |p| ==> p[t] < n
    ensures exists j :: 0 <= j < n && j !in p
    decreases n
  {
    if n - 1 in p {
      var q := Without(p, n - 1);
      forall t | 0 <= t < |q|
        ensures q[t] < n - 1
      {
        assert q[t] in q;
      }
      Unpicked(q, n - 1);
      var j :| 0 <= j < n - 1 && j !in q;
      assert j !in p;
    } else {
      assert n - 1 !in p;
    }
  }

  /** The picks are pairwise distinct. */
  ghost predicate Distinct(picks: seq<nat>)
  {
    forall a, b :: 0 <= a < b < |picks| ==> picks[a] != picks[b]
  }

  /** The scores left by selection hold the sentinel exactly at the picks. */
  ghost predicate Marked(s: seq<real>, sel: Selection)
  {
    |sel.scores| == |s| &&
    forall j :: 0 <= j < |s| ==> sel.scores[j] == if j in sel.picks then Sentinel else s[j]
  }

  /** While every score is below the sentinel, selection never picks the same
      individual twice, and the scores it leaves are the sentinel exactly at the picks. */
  lemma {:induction false} SelectMarksPicks(s: seq<real>, m: nat)
    requires m <= |s|
    requires forall j :: 0 <= j < |s| ==> s[j] < Sentinel
    ensures Distinct(SelectRounds(s, m).picks) && Marked(s, SelectRounds(s, m))
    decreases m
  {
    if m > 0 {
      SelectMarksPicks(s, m - 1);
      var prev := SelectRounds(s, m - 1);
      var k := ArgMin(prev.scores);
      NextPickIsNew(s, prev);
      var r := SelectRounds(s, m);
      assert r.picks == prev.picks + [k];
      assert r.scores == prev.scores[k := Sentinel];
      forall j | 0 <= j < |s|
        ensures r.scores[j] == if j in r.picks then Sentinel else s[j]
      {
        assert j in r.picks <==> j in prev.picks || j == k;
      }
    }
  }

  /** The argmin of the scores left after fewer than `|s|` rounds is an individual not yet picked. */
  lemma NextPickIsNew(s: seq<real>, prev: Selection)
    requires |prev.picks| < |s| && Marked(s, prev)
    requires forall t :: 0 <= t < |prev.picks| ==> prev.picks[t] < |s|
    requires forall j :: 0 <= j < |s| ==> s[j] < Sentinel
    ensures ArgMin(prev.scores) !in prev.picks
  {
    var k := ArgMin(prev.scores);
    Unpicked(prev.picks, |s|);
    var j0 :| 0 <= j0 < |s| && j0 !in prev.picks;
    assert prev.scores[k] <= prev.scores[j0] == s[j0] < Sentinel;
  }

  /** No individual left out of `picks` scores lower than one in it. */
  ghost predicate PicksBeatRest(s: seq<real>, picks: seq<nat>)
    requires forall t :: 0 <= t < |picks| ==> picks[t] < |s|
  {
    forall a, j :: 0 <= a < |picks| && 0 <= j < |s| && j !in picks ==> s[picks[a]] <= s[j]
  }

  /** The picks in non-decreasing score. */
  ghost predicate PicksSorted(s: seq<real>, picks: seq<nat>)
    requires forall t :: 0 <= t < |picks| ==> picks[t] < |s|
  {
    forall a, b :: 0 <= a < b < |picks| ==> s[picks[a]] <= s[picks[b]]
  }

  /** The lowest score still unmarked is no higher than any unpicked
      individual's score. */
  lemma LowestUnmarked(s: seq<real>, prev: Selection, k: nat)
    requires Marked(s, prev) && k < |s| && k !in prev.picks
    requires forall j :: 0 <= j < |s| ==> prev.scores[k] <= prev.scores[j]
    ensures forall j :: 0 <= j < |s| && j !in prev.picks ==> s[k] <= s[j]
  {
    forall j | 0 <= j < |s| && j !in prev.picks
      ensures s[k] <= s[j]
    {
      assert prev.scores[j] == s[j];
    }
  }

  /** Appending a new lowest-scoring individual to sorted picks that beat the
      rest keeps them sorted and still beating the rest. */
  lemma PickStep(s: seq<real>, picks: seq<nat>, k: nat)
    requires k < |s| && k !in picks
    requires forall t :: 0 <= t < |picks| ==> picks[t] < |s|
    requires PicksSorted(s, picks) && PicksBeatRest(s, picks)
    requires forall j :: 0 <= j < |s| && j !in picks ==> s[k] <= s[j]
    ensures PicksSorted(s, picks + [k]) && PicksBeatRest(s, picks + [k])
  {
    var next := picks + [k];
    var m := |next|;
    forall a, j | 0 <= a < m && 0 <= j < |s| && j !in next
      ensures s[next[a]] <= s[j]
    {
      assert j !in picks;
      if a < m - 1 {
        assert next[a] == picks[a];
      }
    }
    forall a, b | 0 <= a < b < m
      ensures s[next[a]] <= s[next[b]]
    {
      assert next[a] == picks[a];
      if b == m - 1 {
        assert next[b] == k;
      } else {
        assert next[b] == picks[b];
      }
    }
  }

  /** While every score is below the sentinel, the picks come out in
      non-decreasing score, and no individual left behind scores lower than a pick. */
  lemma {:induction false} SelectPicksBest(s: seq<real>, m: nat)
    requires m <= |s|
    requires forall j :: 0 <= j < |s| ==> s[j] < Sentinel
    ensures PicksSorted(s, SelectRounds(s, m).picks) && PicksBeatRest(s, SelectRounds(s, m).picks)
    decreases m
  {
    if m > 0 {
      SelectPicksBest(s, m - 1);
      SelectMarksPicks(s, m - 1);
      var prev := SelectRounds(s, m - 1);
      var k := ArgMin(prev.scores);
      NextPickIsNew(s, prev);
      LowestUnmarked(s, prev, k);
      PickStep(s, prev.picks, k);
      assert SelectRounds(s, m).picks == prev.picks + [k];
    }
  }

  /** The first parent is the first-index argmin of the scores on entry. */
  lemma {:induction false} SelectFirstIsArgMin(s: seq<real>, m: nat)
    requires 0 < m && 0 < |s|
    ensures SelectRounds(s, m).picks[0] == ArgMin(s)
    decreases m
  {
    if m > 1 {
      SelectFirstIsArgMin(s, m - 1);
    }
  }

  /** The parents as copies of the picked rows, in pick order. */
  function Parents(population: seq<Point>, sel: Selection): seq<Point>
    requires forall t :: 0 <= t < |sel.picks| ==> sel.picks[t] < |population|
  {
    seq(|sel.picks|, t requires 0 <= t < |sel.picks| => population[sel.picks[t]])
  }

  /** The parent slot `k mod p` that `crossover` reads for child `k`. */
  function Slot(k: nat, p: nat): (j: nat)
    requires p > 0
    ensures j < p
  {
    k % p
  }

  /** `crossover` on 2-D rows: the crossover point is `np.uint8(2 / 2) == 1`, so
      child `k` takes its x from parent `k mod P` and its y from parent `(k + 1) mod P`. */
  function Offspring(parents: seq<Point>, count: nat): seq<Point>
    requires count > 0 ==> |parents| > 0
  {
    seq(count, k requires 0 <= k < count => Point(parents[Slot(k, |parents|)].x, parents[Slot(k + 1, |parents|)].y))
  }

  /** Every child's genes come from parents: a child of in-box parents is in the box. */
  lemma CrossoverKeepsGenes(parents: seq<Point>, count: nat, space: SearchSpace)
    requires count > 0 ==> |parents| > 0
    ensures var off := Offspring(parents, count);
      forall k :: 0 <= k < count ==>
        exists a, b :: 0 <= a < |parents| && 0 <= b < |parents| && off[k] == Point(parents[a].x, parents[b].y)
    ensures (forall a :: 0 <= a < |parents| ==> InBox(parents[a], space)) ==>
      forall k :: 0 <= k < count ==> InBox(Offspring(parents, count)[k], space)
  {
    var off := Offspring(parents, count);
    forall k | 0 <= k < count
      ensures exists a, b :: 0 <= a < |parents| && 0 <= b < |parents| && off[k] == Point(parents[a].x, parents[b].y)
    {
      var a, b := Slot(k, |parents|), Slot(k + 1, |parents|);
      assert off[k] == Point(parents[a].x, parents[b].y);
    }
    if forall a :: 0 <= a < |parents| ==> InBox(parents[a], space) {
      forall k | 0 <= k < count
        ensures InBox(off[k], space)
      {
        var a, b := Slot(k, |parents|), Slot(k + 1, |parents|);
        assert InBox(parents[a], space) && InBox(parents[b], space);
      }
    }
  }

  /** `mutation`: one scalar `r[k]` added to both coordinates of child `k`. */
  function Mutate(offspring: seq<Point>, r: seq<real>): seq<Point>
    requires |r| == |offspring|
  {
    seq(|offspring|, k requires 0 <= k < |offspring| => Point(offspring[k].x + r[k], offspring[k].y + r[k]))
  }

  /** A mutation moves each child along the diagonal by less than one on each axis. */
  lemma MutationShiftsDiagonally(offspring: seq<Point>, r: seq<real>)
    requires |r| == |offspring|
    requires forall k :: 0 <= k < |r| ==> -1.0 <= r[k] < 1.0
    ensures var m := Mutate(offspring, r);
      |m| == |offspring| &&
      forall k :: 0 <= k < |m| ==>
        m[k].x - offspring[k].x == m[k].y - offspring[k].y &&
        -1.0 <= m[k].x - offspring[k].x < 1.0
  {
  }

  /** The population `update` builds: the parents, then the mutated children. */
  function NextGeneration(population: seq<Point>, scores: seq<real>, r: seq<real>): (next: seq<Point>)
    requires |scores| == |population| != 1
    requires |r| == |population| - |population| / 2
    ensures |next| == |population|
  {
    var parents := Parents(population, SelectRounds(scores, |population| / 2));
    parents + Mutate(Offspring(parents, |population| - |population| / 2), r)
  }

  /** `NextGeneration` taken one step at a time, as `update` computes it. */
  lemma NextGenerationSteps(population: seq<Point>, scores: seq<real>, r: seq<real>,
                            parents: seq<Point>, crossed: seq<Point>, mutated: seq<Point>)
    requires |scores| == |population| != 1
    requires |r| == |population| - |population| / 2
    requires parents == Parents(population, SelectRounds(scores, |population| / 2))
    requires crossed == Offspring(parents, |population| - |population| / 2)
    requires mutated == Mutate(crossed, r)
    ensures NextGeneration(population, scores, r) == parents + mutated
  {
  }

  /** Elitism: when the smallest score is the objective of the individual
      holding it (as it is whenever the scores match the population), that
      individual is kept unchanged in slot 0, so the first score after
      `update` is at most every score before. */
  lemma Elitism(wave: real -> real, population: seq<Point>, scores: seq<real>, r: seq<real>)
    requires |population| >= 2 && |scores| == |population|
    requires scores[ArgMin(scores)] == Obj(wave, population[ArgMin(scores)])
    requires |r| == |population| - |population| / 2
    ensures NextGeneration(population, scores, r)[0] == population[ArgMin(scores)]
    ensures forall j :: 0 <= j < |population| ==> Scores(wave, NextGeneration(population, scores, r))[0] <= scores[j]
  {
    SelectFirstIsArgMin(scores, |population| / 2);
  }

  /** Every parent of a generation comes from a distinct slot of the previous
      one, and no individual that was dropped scored lower than a parent. */
  lemma ParentsAreTheBest(population: seq<Point>, scores: seq<real>)
    requires |scores| == |population|
    requires forall j :: 0 <= j < |scores| ==> scores[j] < Sentinel
    ensures var sel := SelectRounds(scores, |population| / 2);
      Distinct(sel.picks) && PicksSorted(scores, sel.picks) && PicksBeatRest(scores, sel.picks)
  {
    SelectMarksPicks(scores, |population| / 2);
    SelectPicksBest(scores, |population| / 2);
  }

  class GAEngine {
    const populationSize: nat
    const searchSpace: SearchSpace
    const wave: real -> real
    var population: array<Point>
    var scores: array<real>

    ghost predicate Valid()
      reads this
    {
      population.Length == populationSize && scores.Length == populationSize
    }

    /** Scores are those of the current population (true after `initialize`
        and `update`, not after a bare `select`). */
    ghost predicate ScoresCurrent()
      reads this, population, scores
      requires Valid()
    {
      scores[..] == Scores(wave, population[..])
    }

    /** `__init__` then `initialize`; `draws` are the rows of `np.random.uniform(lo, hi, (n, 2))`. */
    constructor (populationSize: nat, searchSpace: SearchSpace, wave: real -> real, draws: seq<Point>)
      requires |draws| == populationSize
      requires forall t :: 0 <= t < |draws| ==> InBox(draws[t], searchSpace)
      ensures Valid() && ScoresCurrent() && fresh(population) && fresh(scores)
      ensures this.populationSize == populationSize && this.searchSpace == searchSpace && this.wave == wave
      ensures population[..] == draws
    {
      this.populationSize := populationSize;
      this.searchSpace := searchSpace;
      this.wave := wave;
      var rows := NewRows(draws);
      var s := Evaluate(wave, rows);
      population := rows;
      scores := s;
    }

    /** `initialize`: a fresh random population in the box and its scores. */
    method Initialize(draws: seq<Point>)
      requires |draws| == populationSize
      requires forall t :: 0 <= t < |draws| ==> InBox(draws[t], searchSpace)
      modifies this
      ensures Valid() && ScoresCurrent() && fresh(population) && fresh(scores)
      ensures population[..] == draws
    {
      population := NewRows(draws);
      scores := Evaluate(wave, population);
    }

    /** `select`: `population_size // 2` parents by repeated argmin, overwriting
        each chosen score with the sentinel in place. */
    method Select() returns (parents: array<Point>)
      requires Valid()
      modifies scores
      ensures fresh(parents)
      ensures parents[..] == Parents(population[..], SelectRounds(old(scores[..]), populationSize / 2))
      ensures scores[..] == SelectRounds(old(scores[..]), populationSize / 2).scores
    {
      var n := populationSize / 2;
      ghost var s0 := scores[..];
      ghost var sel := SelectRounds(s0, 0);
      parents := new Point[n];
      var i := 0;
      while i < n
        invariant 0 <= i <= n
        invariant sel == SelectRounds(s0, i)
        invariant scores[..] == sel.scores
        invariant forall t :: 0 <= t < i ==> parents[t] == population[sel.picks[t]]
      {
        var best := PickBest(parents, i);
        sel := Selection(sel.picks + [best], sel.scores[best := Sentinel]);
        i := i + 1;
      }
      assert parents[..] == Parents(population[..], sel);
    }

    /** One round of `select`'s loop: the first-index argmin of the scores goes
        to slot `i` of the parents and its score is overwritten with `Sentinel`. */
    method PickBest(parents: array<Point>, i: nat) returns (best: nat)
      requires Valid() && 0 < populationSize && i < parents.Length && parents != population
      modifies parents, scores
      ensures best == ArgMin(old(scores[..]))
      ensures parents[..] == old(parents[..])[i := population[best]]
      ensures scores[..] == old(scores[..])[best := Sentinel]
    {
      best := ArgMin(scores[..]);
      parents[i] := population[best];
      scores[best] := Sentinel;
    }

    /** `crossover`: `population_size - len(parents)` children, filled row by row. */
    method Crossover(parents: array<Point>) returns (offspring: array<Point>)
      requires Valid()
      requires parents.Length <= populationSize
      requires parents.Length > 0 || populationSize == 0
      ensures fresh(offspring)
      ensures offspring[..] == Offspring(parents[..], populationSize - parents.Length)
    {
      var count := populationSize - parents.Length;
      ghost var children := Offspring(parents[..], count);
      offspring := new Point[count];
      var k := 0;
      while k < count
        invariant 0 <= k <= count
        invariant forall t :: 0 <= t < k ==> offspring[t] == children[t]
      {
        var parent1, parent2 := Slot(k, parents.Length), Slot(k + 1, parents.Length);
        offspring[k] := Point(parents[parent1].x, parents[parent2].y);
        k := k + 1;
      }
    }

    /** `mutation`: adds `r[k]`, a draw of `np.random.uniform(-1, 1, 1)`, to both
        coordinates of row `k` in place and returns the same array. */
    method Mutation(offspring: array<Point>, r: seq<real>) returns (mutated: array<Point>)
      requires |r| == offspring.Length
      requires forall k :: 0 <= k < |r| ==> -1.0 <= r[k] < 1.0
      modifies offspring
      ensures mutated == offspring
      ensures offspring[..] == Mutate(old(offspring[..]), r)
    {
      var k := 0;
      while k < offspring.Length
        invariant 0 <= k <= offspring.Length
        invariant forall t :: 0 <= t < k ==> offspring[t] == Mutate(old(offspring[..]), r)[t]
        invariant forall t :: k <= t < offspring.Length ==> offspring[t] == old(offspring[t])
      {
        offspring[k] := Point(offspring[k].x + r[k], offspring[k].y + r[k]);
        k := k + 1;
      }
      mutated := offspring;
    }

    /** `update`: select, cross over, mutate, write the parents into the first
        slots and the children after them, then rescore. A population of one
        has no parent to cross over (`k % 0` raises), so it is excluded. */
    method Update(r: seq<real>)
      requires Valid() && populationSize != 1
      requires |r| == populationSize - populationSize / 2
      requires forall k :: 0 <= k < |r| ==> -1.0 <= r[k] < 1.0
      modifies this`scores, population, scores
      ensures Valid() && ScoresCurrent() && population == old(population) && fresh(scores)
      ensures population[..] == NextGeneration(old(population[..]), old(scores[..]), r)
      ensures populationSize >= 2 && old(scores[ArgMin(scores[..])] == Obj(wave, population[ArgMin(scores[..])])) ==>
        population[0] == old(population[ArgMin(scores[..])]) && forall j :: 0 <= j < populationSize ==> scores[0] <= old(scores[j])
    {
      ghost var pop0, scores0 := population[..], scores[..];
      var parents, offspring := Breed(r);
      Reassemble(parents, offspring);
      Rescore();
      if populationSize >= 2 && scores0[ArgMin(scores0)] == Obj(wave, pop0[ArgMin(scores0)]) {
        Elitism(wave, pop0, scores0, r);
      }
    }

    /** The last step of `update`: every row of the population is scored afresh. */
    method Rescore()
      requires Valid()
      modifies this`scores
      ensures Valid() && ScoresCurrent() && fresh(scores)
    {
      scores := Evaluate(wave, population);
    }

    /** The first three steps of `update`: `select`, `crossover` and `mutation`. */
    method Breed(r: seq<real>) returns (parents: array<Point>, offspring: array<Point>)
      requires Valid() && populationSize != 1
      requires |r| == populationSize - populationSize / 2
      requires forall k :: 0 <= k < |r| ==> -1.0 <= r[k] < 1.0
      modifies scores
      ensures fresh(parents) && fresh(offspring)
      ensures parents.Length + offspring.Length == populationSize
      ensures parents[..] + offspring[..] == NextGeneration(population[..], old(scores[..]), r)
      ensures scores[..] == SelectRounds(old(scores[..]), populationSize / 2).scores
    {
      ghost var pop, scores0 := population[..], scores[..];
      ghost var half := populationSize / 2;
      parents := Select();
      ghost var chosen := parents[..];
      ghost var marked := scores[..];
      assert chosen == Parents(pop, SelectRounds(scores0, half));
      assert parents.Length == half;
      offspring := Crossover(parents);
      ghost var crossed := offspring[..];
      assert crossed == Offspring(chosen, populationSize - half);
      offspring := Mutation(offspring, r);
      ghost var children := offspring[..];
      assert children == Mutate(crossed, r);
      assert parents[..] == chosen;
      assert population[..] == pop && scores[..] == marked;
      NextGenerationSteps(pop, scores0, r, chosen, crossed, children);
    }

    /** The slice assignments of `update`: parents into the first slots, children after them. */
    method Reassemble(parents: array<Point>, offspring: array<Point>)
      requires Valid() && parents.Length + offspring.Length == populationSize
      requires parents != population && offspring != population
      modifies population
      ensures population[..] == old(parents[..]) + old(offspring[..])
    {
      var p := parents.Length;
      forall t | 0 <= t < p {
        population[t] := parents[t];
      }
      forall t | p <= t < populationSize {
        population[t] := offspring[t - p];
      }
      assert population[..] == parents[..] + offspring[..];
    }

    /** `get_positions`: the two coordinate columns and a freshly computed score
        per row, in row order; nothing changes. */
    method GetPositions() returns (xs: seq<real>, ys: seq<real>, zs: seq<real>)
      requires Valid()
      ensures |xs| == populationSize && |ys| == populationSize && |zs| == populationSize
      ensures forall i :: 0 <= i < populationSize ==>
        xs[i] == population[i].x && ys[i] == population[i].y && zs[i] == Schwefel(wave, xs[i], ys[i])
    {
      xs := seq(population.Length, i requires 0 <= i < population.Length reads this, population => population[i].x);
      ys := seq(population.Length, i requires 0 <= i < population.Length reads this, population => population[i].y);
      zs := [];
      var i := 0;
      while i < population.Length
        invariant 0 <= i <= population.Length
        invariant |zs| == i
        invariant forall j :: 0 <= j < i ==> zs[j] == Schwefel(wave, population[j].x, population[j].y)
      {
        zs := zs + [Schwefel(wave, population[i].x, population[i].y)];
        i := i + 1;
      }
    }
  }
}
