/** The artificial bee colony engine (`ABCAlgorithm`): employed, onlooker and
    scout phases over food sources whose fitness is the negated objective,
    with a trial counter per source and a best-so-far record. */
module ABC {
  import opened Space

  /** Food sources, their fitness (the negated objective) and their trial counters, by index. */
  datatype Colony = Colony(sources: seq<Point>, fitness: seq<real>, trials: seq<int>)

  /** One call of `get_neighbor`'s draws: `phi`, one factor per axis in [-1, 1),
      and the partner index `k`, which the retry loop makes different from the bee's own. */
  datatype Probe = Probe(phi: Point, partner: nat)

  /** The `best_source` / `best_fitness` pair. */
  datatype Best = Best(source: Point, fitness: real)

  predicate Shaped(c: Colony, n: nat)
  {
    |c.sources| == n && |c.fitness| == n && |c.trials| == n
  }

  /** Every source in the box, its fitness the negated objective, its counter non-negative. */
  predicate Consistent(c: Colony, n: nat, space: SearchSpace, wave: real -> real)
  {
    Shaped(c, n) &&
    forall i :: 0 <= i < n ==>
      InBox(c.sources[i], space) && c.fitness[i] == -Obj(wave, c.sources[i]) && c.trials[i] >= 0
  }

  /** The draws of one phase: one probe per bee, each within the ranges numpy draws from. */
  predicate ValidProbes(probes: seq<Probe>, n: nat)
  {
    |probes| == n &&
    forall i :: 0 <= i < n ==>
      probes[i].partner < n && probes[i].partner != i &&
      -1.0 <= probes[i].phi.x < 1.0 && -1.0 <= probes[i].phi.y < 1.0
  }

  /** `get_neighbor`: `source_i + phi * (source_i - source_k)` per axis, clipped to the box.
      A candidate always lies in the box, and a source whose partner sits on
      the same spot cannot move. */
  function Neighbor(sources: seq<Point>, i: nat, probe: Probe, space: SearchSpace): (p: Point)
    requires i < |sources| && probe.partner < |sources| && probe.partner != i
    requires space.lo <= space.hi
    ensures InBox(p, space)
    ensures InBox(sources[i], space) && sources[probe.partner] == sources[i] ==> p == sources[i]
  {
    var s, t := sources[i], sources[probe.partner];
    ClipPoint(Point(s.x + probe.phi.x * (s.x - t.x), s.y + probe.phi.y * (s.y - t.y)), space)
  }

  /** The greedy acceptance of the employed and onlooker phases for source `i`:
      a strictly fitter candidate replaces the source and resets its counter,
      anything else leaves the source and adds one to its counter. */
  function TryImprove(c: Colony, i: nat, candidate: Point, wave: real -> real): (r: Colony)
    requires Shaped(c, |c.sources|) && i < |c.sources|
    ensures Shaped(r, |c.sources|)
    ensures forall j :: 0 <= j < |c.sources| && j != i ==>
      r.sources[j] == c.sources[j] && r.fitness[j] == c.fitness[j] && r.trials[j] == c.trials[j]
    ensures r.fitness[i] >= c.fitness[i]
    ensures -Obj(wave, candidate) > c.fitness[i] ==>
      r.sources[i] == candidate && r.fitness[i] == -Obj(wave, candidate) && r.trials[i] == 0
    ensures -Obj(wave, candidate) <= c.fitness[i] ==>
      r.sources[i] == c.sources[i] && r.fitness[i] == c.fitness[i] && r.trials[i] == c.trials[i] + 1
  {
    var f := -Obj(wave, candidate);
    if f > c.fitness[i] then Colony(c.sources[i := candidate], c.fitness[i := f], c.trials[i := 0])
    else Colony(c.sources, c.fitness, c.trials[i := c.trials[i] + 1])
  }

  /** Bee `i`'s turn in a foraging loop: when its gate is open it tries a
      neighbour of the sources as they stand, otherwise nothing happens. */
  function ForageStep(prev: Colony, gates: seq<bool>, probes: seq<Probe>, i: nat, space: SearchSpace, wave: real -> real): (r: Colony)
    requires Shaped(prev, |prev.sources|) && i < |prev.sources|
    requires |gates| == |prev.sources| && ValidProbes(probes, |prev.sources|)
    requires space.lo <= space.hi
    ensures Shaped(r, |prev.sources|)
    ensures !gates[i] ==> r == prev
  {
    if gates[i] then TryImprove(prev, i, Neighbor(prev.sources, i, probes[i], space), wave)
    else prev
  }

  /** The first `m` iterations of a foraging loop: bee `i` takes its turn on
      the sources as they stand after bees `0 .. i-1`. The employed phase
      opens every gate; the onlooker phase opens gate `i` when its draw falls
      below `prob[i]`. */
  function Forage(c: Colony, gates: seq<bool>, probes: seq<Probe>, m: nat, space: SearchSpace, wave: real -> real): (r: Colony)
    requires Shaped(c, |c.sources|) && m <= |c.sources|
    requires |gates| == |c.sources| && ValidProbes(probes, |c.sources|)
    requires space.lo <= space.hi
    ensures Shaped(r, |c.sources|)
    decreases m, 1
  {
    if m == 0 then c else ForageThrough(c, gates, probes, m, space, wave)
  }

  /** The colony right after bee `m - 1`'s turn. It is split from `Forage` so
      that a proof about the loop unfolds one iteration at a time. */
  function ForageThrough(c: Colony, gates: seq<bool>, probes: seq<Probe>, m: nat, space: SearchSpace, wave: real -> real): (r: Colony)
    requires Shaped(c, |c.sources|) && 0 < m <= |c.sources|
    requires |gates| == |c.sources| && ValidProbes(probes, |c.sources|)
    requires space.lo <= space.hi
    ensures Shaped(r, |c.sources|)
    decreases m, 0
  {
    ForageStep(Forage(c, gates, probes, m - 1, space, wave), gates, probes, m - 1, space, wave)
  }

  /** An accepted or rejected candidate from the box keeps the colony consistent. */
  lemma TryImproveKeepsConsistent(c: Colony, i: nat, candidate: Point, space: SearchSpace, wave: real -> real)
    requires Consistent(c, |c.sources|, space, wave) && i < |c.sources|
    requires InBox(candidate, space)
    ensures Consistent(TryImprove(c, i, candidate, wave), |c.sources|, space, wave)
  {
    var r := TryImprove(c, i, candidate, wave);
    forall j | 0 <= j < |c.sources|
      ensures InBox(r.sources[j], space) && r.fitness[j] == -Obj(wave, r.sources[j]) && r.trials[j] >= 0
    {
      if j == i && -Obj(wave, candidate) > c.fitness[i] {
        assert r.sources[j] == candidate;
      }
    }
  }

  /** Bee `j` holds the same source, fitness and counter in `r` as in `c`. */
  predicate Unchanged(r: Colony, c: Colony, j: nat)
    requires Shaped(r, |c.sources|) && Shaped(c, |c.sources|) && j < |c.sources|
  {
    r.sources[j] == c.sources[j] && r.fitness[j] == c.fitness[j] && r.trials[j] == c.trials[j]
  }

  /** Bee `j` tried once: it improved strictly with its counter reset, or
      stayed put with its counter one higher. */
  predicate TriedOnce(r: Colony, c: Colony, j: nat)
    requires Shaped(r, |c.sources|) && Shaped(c, |c.sources|) && j < |c.sources|
  {
    (r.trials[j] == 0 && r.fitness[j] > c.fitness[j]) ||
    (r.sources[j] == c.sources[j] && r.fitness[j] == c.fitness[j] && r.trials[j] == c.trials[j] + 1)
  }

  /** What the first `m` turns of a foraging loop did to bee `j`: its fitness
      is no lower; untouched when its gate is closed or its turn has not come,
      tried once otherwise. */
  predicate Greedy(r: Colony, c: Colony, gates: seq<bool>, m: nat, j: nat)
    requires Shaped(r, |c.sources|) && Shaped(c, |c.sources|) && |gates| == |c.sources| && j < |c.sources|
  {
    r.fitness[j] >= c.fitness[j] &&
    ((j >= m || !gates[j]) ==> Unchanged(r, c, j)) &&
    ((j < m && gates[j]) ==> TriedOnce(r, c, j))
  }

  /** One turn keeps the colony consistent, leaves every other bee untouched,
      and makes bee `i` try once when its gate is open. */
  lemma ForageStepGreedy(prev: Colony, gates: seq<bool>, probes: seq<Probe>, i: nat, space: SearchSpace, wave: real -> real)
    requires Consistent(prev, |prev.sources|, space, wave) && i < |prev.sources|
    requires |gates| == |prev.sources| && ValidProbes(probes, |prev.sources|)
    requires space.lo <= space.hi
    ensures Consistent(ForageStep(prev, gates, probes, i, space, wave), |prev.sources|, space, wave)
    ensures forall j: nat :: j < |prev.sources| && j != i ==> Unchanged(ForageStep(prev, gates, probes, i, space, wave), prev, j)
    ensures gates[i] ==> TriedOnce(ForageStep(prev, gates, probes, i, space, wave), prev, i)
  {
    if gates[i] {
      TryImproveKeepsConsistent(prev, i, Neighbor(prev.sources, i, probes[i], space), space, wave);
    }
  }

  /** A foraging loop keeps the colony consistent and never lowers a fitness;
      a bee whose gate is closed (or not yet reached) is untouched, and a bee
      that tried either improved strictly with its counter reset, or stayed
      put with its counter one higher. */
  lemma {:induction false} ForageIsGreedy(c: Colony, gates: seq<bool>, probes: seq<Probe>, m: nat, space: SearchSpace, wave: real -> real)
    requires Consistent(c, |c.sources|, space, wave) && m <= |c.sources|
    requires |gates| == |c.sources| && ValidProbes(probes, |c.sources|)
    requires space.lo <= space.hi
    ensures Consistent(Forage(c, gates, probes, m, space, wave), |c.sources|, space, wave)
    ensures forall j: nat :: j < |c.sources| ==> Greedy(Forage(c, gates, probes, m, space, wave), c, gates, m, j)
    decreases m
  {
    if m > 0 {
      ForageIsGreedy(c, gates, probes, m - 1, space, wave);
      var i := m - 1;
      var prev := Forage(c, gates, probes, i, space, wave);
      var r := Forage(c, gates, probes, m, space, wave);
      assert ForageThrough(c, gates, probes, m, space, wave) == ForageStep(prev, gates, probes, i, space, wave);
      ForageStepGreedy(prev, gates, probes, i, space, wave);
      forall j: nat | j < |c.sources|
        ensures Greedy(r, c, gates, m, j)
      {
        assert Greedy(prev, c, gates, i, j);
        if j != i {
          assert Unchanged(r, prev, j);
        }
      }
    }
  }

  /** The scout phase: every source whose counter exceeds `limit` is replaced by
      its fresh draw, rescored, and its counter set to zero. With a
      non-negative limit no counter is left above it; a source within the limit is untouched. */
  function Scout(c: Colony, scouts: seq<Point>, limit: int, wave: real -> real): (r: Colony)
    requires Shaped(c, |c.sources|) && |scouts| == |c.sources|
    ensures Shaped(r, |c.sources|)
    ensures limit >= 0 ==> forall j :: 0 <= j < |c.sources| ==> r.trials[j] <= limit
    ensures forall j :: 0 <= j < |c.sources| && c.trials[j] <= limit ==>
      r.sources[j] == c.sources[j] && r.fitness[j] == c.fitness[j] && r.trials[j] == c.trials[j]
    ensures forall j :: 0 <= j < |c.sources| && c.trials[j] > limit ==>
      r.sources[j] == scouts[j] && r.fitness[j] == -Obj(wave, scouts[j]) && r.trials[j] == 0
  {
    var n := |c.sources|;
    Colony(seq(n, j requires 0 <= j < n => if c.trials[j] > limit then scouts[j] else c.sources[j]),
           seq(n, j requires 0 <= j < n => if c.trials[j] > limit then -Obj(wave, scouts[j]) else c.fitness[j]),
           seq(n, j requires 0 <= j < n => if c.trials[j] > limit then 0 else c.trials[j]))
  }

  /** The closing scan of `update`: the first fittest source is memorised only
      when it is strictly fitter than the record. The record never gets worse,
      is at least every current fitness, and changes only to a current source. */
  function Memorize(c: Colony, best: Best): (r: Best)
    requires |c.fitness| == |c.sources| > 0
    ensures r.fitness >= best.fitness
    ensures forall j :: 0 <= j < |c.fitness| ==> c.fitness[j] <= r.fitness
    ensures r.fitness == best.fitness ==> r == best
    ensures r != best ==> exists j :: 0 <= j < |c.sources| && r == Best(c.sources[j], c.fitness[j])
  {
    var k := ArgMax(c.fitness);
    if c.fitness[k] > best.fitness then Best(c.sources[k], c.fitness[k]) else best
  }

  /** The gates of the employed phase, where every bee tries. */
  function AllOpen(n: nat): (gates: seq<bool>)
    ensures |gates| == n && forall i :: 0 <= i < n ==> gates[i]
  {
    seq(n, _ => true)
  }

  /** The three phases of one `update`, in order. */
  function Phases(c: Colony, employed: seq<Probe>, gates: seq<bool>, onlookers: seq<Probe>, scouts: seq<Point>,
                  limit: int, space: SearchSpace, wave: real -> real): (r: Colony)
    requires Shaped(c, |c.sources|)
    requires ValidProbes(employed, |c.sources|) && ValidProbes(onlookers, |c.sources|)
    requires |gates| == |c.sources| && |scouts| == |c.sources|
    requires space.lo <= space.hi
  {
    var n := |c.sources|;
    var afterEmployed := Forage(c, AllOpen(n), employed, n, space, wave);
    var afterOnlookers := Forage(afterEmployed, gates, onlookers, n, space, wave);
    Scout(afterOnlookers, scouts, limit, wave)
  }

  /** One `update` keeps the colony consistent (every source in the box, its
      fitness its negated objective) and, with a non-negative limit, leaves
      no trial counter above the limit. */
  lemma PhasesKeepConsistent(c: Colony, employed: seq<Probe>, gates: seq<bool>, onlookers: seq<Probe>, scouts: seq<Point>,
                             limit: int, space: SearchSpace, wave: real -> real)
    requires Consistent(c, |c.sources|, space, wave)
    requires ValidProbes(employed, |c.sources|) && ValidProbes(onlookers, |c.sources|)
    requires |gates| == |c.sources| && |scouts| == |c.sources|
    requires forall j :: 0 <= j < |scouts| ==> InBox(scouts[j], space)
    requires space.lo <= space.hi
    ensures Consistent(Phases(c, employed, gates, onlookers, scouts, limit, space, wave), |c.sources|, space, wave)
    ensures limit >= 0 ==> forall j :: 0 <= j < |c.sources| ==>
      Phases(c, employed, gates, onlookers, scouts, limit, space, wave).trials[j] <= limit
  {
    var n := |c.sources|;
    ForageIsGreedy(c, AllOpen(n), employed, n, space, wave);
    var afterEmployed := Forage(c, AllOpen(n), employed, n, space, wave);
    ForageIsGreedy(afterEmployed, gates, onlookers, n, space, wave);
  }

  /** The fitness of every source after the employed and onlooker phases is
      at least what it was before them. */
  lemma ForagingNeverWorsens(c: Colony, employed: seq<Probe>, gates: seq<bool>, onlookers: seq<Probe>,
                             space: SearchSpace, wave: real -> real)
    requires Consistent(c, |c.sources|, space, wave)
    requires ValidProbes(employed, |c.sources|) && ValidProbes(onlookers, |c.sources|)
    requires |gates| == |c.sources|
    requires space.lo <= space.hi
    ensures forall j :: 0 <= j < |c.sources| ==>
      Forage(Forage(c, AllOpen(|c.sources|), employed, |c.sources|, space, wave), gates, onlookers, |c.sources|, space, wave).fitness[j] >= c.fitness[j]
  {
    var n := |c.sources|;
    ForageIsGreedy(c, AllOpen(n), employed, n, space, wave);
    var afterEmployed := Forage(c, AllOpen(n), employed, n, space, wave);
    ForageIsGreedy(afterEmployed, gates, onlookers, n, space, wave);
    forall j | 0 <= j < n
      ensures Forage(afterEmployed, gates, onlookers, n, space, wave).fitness[j] >= c.fitness[j]
    {
      assert Greedy(afterEmployed, c, AllOpen(n), n, j);
      assert Greedy(Forage(afterEmployed, gates, onlookers, n, space, wave), afterEmployed, gates, n, j);
    }
  }

  /** `np.array([-schwefel_function(x, y) for x, y in points])`. */
  method EvaluateFitness(wave: real -> real, points: array<Point>) returns (fitness: array<real>)
    ensures fresh(fitness)
    ensures fitness.Length == points.Length
    ensures forall j :: 0 <= j < points.Length ==> fitness[j] == -Obj(wave, points[j])
  {
    fitness := new real[points.Length];
    var i := 0;
    while i < points.Length
      invariant 0 <= i <= points.Length
      invariant forall j :: 0 <= j < i ==> fitness[j] == -Obj(wave, points[j])
    {
      fitness[i] := -Obj(wave, points[i]);
      i := i + 1;
    }
  }

  class ABCEngine {
    const numBees: nat
    const searchSpace: SearchSpace
    const limit: int
    const wave: real -> real
    var foodSources: array<Point>
    var fitness: array<real>
    var trialCounter: array<int>
    var bestSource: Point
    var bestFitness: real

    ghost function Current(): Colony
      reads this, foodSources, fitness, trialCounter
    {
      Colony(foodSources[..], fitness[..], trialCounter[..])
    }

    /** The arrays have one entry per bee and the box is not inverted. */
    ghost predicate Framed()
      reads this
    {
      numBees >= 1 && searchSpace.lo <= searchSpace.hi &&
      foodSources.Length == numBees && fitness.Length == numBees && trialCounter.Length == numBees
    }

    /** Between calls: a consistent colony and a record that is a scored
        in-box point at least as fit as every source. */
    ghost predicate Valid()
      reads this, foodSources, fitness, trialCounter
    {
      Framed() &&
      Consistent(Current(), numBees, searchSpace, wave) &&
      InBox(bestSource, searchSpace) && bestFitness == -Obj(wave, bestSource) &&
      forall i :: 0 <= i < numBees ==> fitness[i] <= bestFitness
    }

    /** `__init__` then `initialize`; `draws` are the rows of
        `np.random.uniform(lo, hi, (num_bees, 2))`. `np.argmax` of an empty
        colony raises, so there is at least one bee. */
    constructor (numBees: nat, searchSpace: SearchSpace, limit: int, wave: real -> real, draws: seq<Point>)
      requires numBees >= 1 && |draws| == numBees
      requires forall t :: 0 <= t < |draws| ==> InBox(draws[t], searchSpace)
      ensures Valid() && fresh(foodSources) && fresh(fitness) && fresh(trialCounter)
      ensures this.numBees == numBees && this.searchSpace == searchSpace && this.limit == limit && this.wave == wave
      ensures foodSources[..] == draws
      ensures forall i :: 0 <= i < numBees ==> trialCounter[i] == 0
      ensures bestSource == draws[ArgMax(fitness[..])] && bestFitness == fitness[ArgMax(fitness[..])]
    {
      this.numBees := numBees;
      this.searchSpace := searchSpace;
      this.limit := limit;
      this.wave := wave;
      var sources := NewRows(draws);
      var f := EvaluateFitness(wave, sources);
      var index := ArgMax(f[..]);
      foodSources := sources;
      fitness := f;
      trialCounter := new int[numBees](_ => 0);
      bestSource := sources[index];
      bestFitness := f[index];
    }

    /** `initialize`: fresh in-box sources, their fitness, zero counters, and
        the record set to a copy of the first fittest source. */
    method Initialize(draws: seq<Point>)
      requires Framed() && |draws| == numBees
      requires forall t :: 0 <= t < |draws| ==> InBox(draws[t], searchSpace)
      modifies this
      ensures Valid() && fresh(foodSources) && fresh(fitness) && fresh(trialCounter)
      ensures foodSources[..] == draws
      ensures forall i :: 0 <= i < numBees ==> trialCounter[i] == 0
      ensures bestSource == draws[ArgMax(fitness[..])] && bestFitness == fitness[ArgMax(fitness[..])]
    {
      foodSources := NewRows(draws);
      fitness := EvaluateFitness(wave, foodSources);
      trialCounter := new int[numBees](_ => 0);
      var index := ArgMax(fitness[..]);
      bestSource := foodSources[index];
      bestFitness := fitness[index];
    }

    /** `get_neighbor(index)`, with the draws passed in; reads the sources as they stand. */
    method GetNeighbor(index: nat, probe: Probe) returns (newSource: Point)
      requires Framed() && index < numBees
      requires probe.partner < numBees && probe.partner != index
      requires -1.0 <= probe.phi.x < 1.0 && -1.0 <= probe.phi.y < 1.0
      ensures InBox(newSource, searchSpace)
      ensures newSource == Neighbor(foodSources[..], index, probe, searchSpace)
    {
      newSource := Neighbor(foodSources[..], index, probe, searchSpace);
    }

    /** The loop of the employed phase (every gate open) and of the onlooker phase. */
    method ForagingPhase(gates: seq<bool>, probes: seq<Probe>)
      requires Framed() && |gates| == numBees && ValidProbes(probes, numBees)
      modifies foodSources, fitness, trialCounter
      ensures Current() == Forage(old(Current()), gates, probes, numBees, searchSpace, wave)
    {
      ghost var c0 := Current();
      var i := 0;
      while i < numBees
        invariant 0 <= i <= numBees
        invariant Current() == Forage(c0, gates, probes, i, searchSpace, wave)
      {
        ForageTurn(gates, probes, i);
        assert Current() == ForageThrough(c0, gates, probes, i + 1, searchSpace, wave);
        i := i + 1;
      }
    }

    /** One iteration of a foraging loop: when bee `i`'s gate is open, its
        neighbour replaces the source if strictly fitter, and otherwise its
        counter goes up by one. */
    method ForageTurn(gates: seq<bool>, probes: seq<Probe>, i: nat)
      requires Framed() && |gates| == numBees && ValidProbes(probes, numBees) && i < numBees
      modifies foodSources, fitness, trialCounter
      ensures Current() == ForageStep(old(Current()), gates, probes, i, searchSpace, wave)
    {
      if gates[i] {
        var newSource := GetNeighbor(i, probes[i]);
        var newFitness := -Obj(wave, newSource);
        if newFitness > fitness[i] {
          foodSources[i] := newSource;
          fitness[i] := newFitness;
          trialCounter[i] := 0;
        } else {
          trialCounter[i] := trialCounter[i] + 1;
        }
      }
    }

    /** The loop of the scout phase; `scouts[i]` is the fresh
        `np.random.uniform(lo, hi, 2)` draw used if source `i` is abandoned. */
    method ScoutPhase(scouts: seq<Point>)
      requires Framed() && |scouts| == numBees
      modifies foodSources, fitness, trialCounter
      ensures Current() == Scout(old(Current()), scouts, limit, wave)
    {
      ghost var target := Scout(Current(), scouts, limit, wave);
      ghost var c0 := Current();
      var i := 0;
      while i < numBees
        invariant 0 <= i <= numBees
        invariant forall j :: 0 <= j < i ==>
          foodSources[j] == target.sources[j] && fitness[j] == target.fitness[j] && trialCounter[j] == target.trials[j]
        invariant forall j :: i <= j < numBees ==>
          foodSources[j] == c0.sources[j] && fitness[j] == c0.fitness[j] && trialCounter[j] == c0.trials[j]
      {
        if trialCounter[i] > limit {
          foodSources[i] := scouts[i];
          fitness[i] := -Obj(wave, foodSources[i]);
          trialCounter[i] := 0;
        }
        i := i + 1;
      }
      assert foodSources[..] == target.sources && fitness[..] == target.fitness && trialCounter[..] == target.trials;
    }

    /** `update`: the employed phase, the onlooker phase (gate `i` open when its
        draw falls below `prob[i]`), the scout phase, then the record is
        memorised. The colony stays consistent, the record never gets worse and
        ends at least as fit as every source, and with a non-negative limit no
        counter ends above it. */
    method Update(employed: seq<Probe>, gates: seq<bool>, onlookers: seq<Probe>, scouts: seq<Point>)
      requires Valid()
      requires ValidProbes(employed, numBees) && ValidProbes(onlookers, numBees)
      requires |gates| == numBees && |scouts| == numBees
      requires forall j :: 0 <= j < numBees ==> InBox(scouts[j], searchSpace)
      modifies this`bestSource, this`bestFitness, foodSources, fitness, trialCounter
      ensures Valid()
      ensures Current() == Phases(old(Current()), employed, gates, onlookers, scouts, limit, searchSpace, wave)
      ensures Best(bestSource, bestFitness) == Memorize(Current(), Best(old(bestSource), old(bestFitness)))
      ensures bestFitness >= old(bestFitness)
      ensures limit >= 0 ==> forall j :: 0 <= j < numBees ==> trialCounter[j] <= limit
    {
      ghost var c0 := Current();
      RunPhases(employed, gates, onlookers, scouts);
      PhasesKeepConsistent(c0, employed, gates, onlookers, scouts, limit, searchSpace, wave);
      MemorizeBest();
    }

    /** The closing scan of `update`: the first fittest source replaces the
        record only when it is strictly fitter. */
    method MemorizeBest()
      requires Framed() && Consistent(Current(), numBees, searchSpace, wave)
      requires InBox(bestSource, searchSpace) && bestFitness == -Obj(wave, bestSource)
      modifies this`bestSource, this`bestFitness
      ensures Valid()
      ensures Best(bestSource, bestFitness) == Memorize(Current(), Best(old(bestSource), old(bestFitness)))
    {
      var indexBest := ArgMax(fitness[..]);
      if fitness[indexBest] > bestFitness {
        bestSource := foodSources[indexBest];
        bestFitness := fitness[indexBest];
      }
    }

    /** The employed, onlooker and scout loops of `update`, in order. */
    method RunPhases(employed: seq<Probe>, gates: seq<bool>, onlookers: seq<Probe>, scouts: seq<Point>)
      requires Framed()
      requires ValidProbes(employed, numBees) && ValidProbes(onlookers, numBees)
      requires |gates| == numBees && |scouts| == numBees
      modifies foodSources, fitness, trialCounter
      ensures Current() == Phases(old(Current()), employed, gates, onlookers, scouts, limit, searchSpace, wave)
    {
      ghost var c0 := Current();
      ForagingPhase(AllOpen(numBees), employed);
      ForagingPhase(gates, onlookers);
      ghost var c2 := Current();
      assert c2 == Forage(Forage(c0, AllOpen(numBees), employed, numBees, searchSpace, wave), gates, onlookers, numBees, searchSpace, wave);
      ScoutPhase(scouts);
    }

    /** `get_positions`: the two coordinate columns and the negated fitness,
        which is the objective of each source; nothing changes. */
    method GetPositions() returns (xs: seq<real>, ys: seq<real>, zs: seq<real>)
      requires Valid()
      ensures |xs| == numBees && |ys| == numBees && |zs| == numBees
      ensures forall i :: 0 <= i < numBees ==>
        xs[i] == foodSources[i].x && ys[i] == foodSources[i].y &&
        zs[i] == -fitness[i] && zs[i] == Schwefel(wave, xs[i], ys[i])
    {
      xs := seq(foodSources.Length, i requires 0 <= i < foodSources.Length reads this, foodSources => foodSources[i].x);
      ys := seq(foodSources.Length, i requires 0 <= i < foodSources.Length reads this, foodSources => foodSources[i].y);
      zs := seq(fitness.Length, i requires 0 <= i < fitness.Length reads this, fitness => -fitness[i]);
    }
  }
}
